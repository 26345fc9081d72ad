/** The tier-to-daily-limit table and the owner address of lib/limits.ts. */
module Limits {
  import opened Access

  /** The operator's account, which the routes treat as unlimited. */
  const OwnerEmail: string := "ghostaicorp@gmail.com"

  /** `LIMITS[t]`: daily prompt allowance per subscription tier; ultimate stands for unlimited. */
  function DailyLimit(t: PlanTier): (n: nat)
    ensures n > 0
  {
    match t
    case Free => 15
    case Pro => 60
    case Ultimate => 1_000_000
  }

  /** The table's entries, exactly. */
  lemma DailyLimitValues()
    ensures DailyLimit(Free) == 15
    ensures DailyLimit(Pro) == 60
    ensures DailyLimit(Ultimate) == 1_000_000
  {
  }

  /** Limits follow the access hierarchy strictly: a higher rank has a larger allowance. */
  lemma DailyLimitFollowsRank(a: PlanTier, b: PlanTier)
    ensures Rank(a) < Rank(b) <==> DailyLimit(a) < DailyLimit(b)
    ensures Rank(a) == Rank(b) <==> a == b
  {
  }
}
