/**
 The usage summary of app/api/usage/route.ts: who is asking, and how much of
 today's free allowance their counter row says they have used.
 */
module Usage {
  import opened Options
  import Access

  /** The route's own constants; they differ from the table in lib/limits.ts. */
  const FreeDailyLimit: nat := 5
  const OwnerEmail: string := "ghostaicorp@gmail.com"

  /** A JSON number that may be `Infinity`. */
  datatype Bound = Finite(n: int) | Unlimited

  /** A row of the `ai_usage` table; its `count` column may be null. */
  datatype UsageRow = UsageRow(count: Option<nat>)

  /** Rows are keyed by (email, UTC date as "YYYY-MM-DD"). */
  type UsageTable = map<(string, string), UsageRow>

  datatype Reply =
    | Unauthorized
    | Summary(tier: Access.Tier, used: int, limit: Bound, remaining: Bound, limitReached: bool)

  function Status(r: Reply): int
  {
    if r.Unauthorized? then 401 else 200
  }

  /** `usage?.count ?? 0`: the counter for the key, with no row, a null count or a failed read all reading as 0. */
  function UsedToday(table: UsageTable, email: string, today: string, readFailed: bool): (used: nat)
    ensures readFailed || (email, today) !in table ==> used == 0
    ensures !readFailed && (email, today) in table && table[(email, today)].count.None? ==> used == 0
    ensures !readFailed && (email, today) in table && table[(email, today)].count.Some? ==>
              used == table[(email, today)].count.value
  {
    if readFailed || (email, today) !in table then 0
    else match table[(email, today)].count
      case Some(n) => n
      case None => 0
  }

  /**
   `GET /api/usage`. `email` is the session's email, `today` the date the
   handler reads from the clock, `readFailed` whether the counter query
   reported an error (which the handler ignores).
   */
  function Get(email: Option<string>, today: string, table: UsageTable, readFailed: bool): (r: Reply)
    ensures !Present(email) <==> r == Unauthorized
    ensures Status(r) == 401 <==> !Present(email)
    ensures Present(email) && email.value == OwnerEmail ==>
              r == Summary(Access.Owner, 0, Unlimited, Unlimited, false)
    ensures Present(email) && email.value != OwnerEmail ==>
              && r.Summary? && r.tier == Access.Free && r.limit == Finite(FreeDailyLimit)
              && r.remaining.Finite? && 0 <= r.remaining.n <= FreeDailyLimit
              && r.used == UsedToday(table, email.value, today, readFailed)
              && (r.limitReached <==> r.used >= FreeDailyLimit)
              && (r.remaining.n == 0 <==> r.limitReached)
              && (r.limitReached || r.used + r.remaining.n == FreeDailyLimit)
    ensures r.Summary? ==> !(r.limitReached && r.tier == Access.Owner)
  {
    if !Present(email) then Unauthorized
    else if email.value == OwnerEmail then Summary(Access.Owner, 0, Unlimited, Unlimited, false)
    else
      var used := UsedToday(table, email.value, today, readFailed);
      var remaining := if FreeDailyLimit - used > 0 then FreeDailyLimit - used else 0;
      Summary(Access.Free, used, Finite(FreeDailyLimit), Finite(remaining), used >= FreeDailyLimit)
  }

  /** Without a session email, and for the owner, the counter table is never consulted. */
  lemma GetIgnoresTable(email: Option<string>, today: string,
                        t1: UsageTable, f1: bool, t2: UsageTable, f2: bool)
    requires !Present(email) || email.value == OwnerEmail
    ensures Get(email, today, t1, f1) == Get(email, today, t2, f2)
  {
  }

  /** A failed read is indistinguishable from an empty table: the error is swallowed. */
  lemma ReadFailureReadsAsNoRow(email: Option<string>, today: string, table: UsageTable)
    ensures Get(email, today, table, true) == Get(email, today, map[], false)
  {
  }

  /** The counter used is the row's count for that user and that day only. */
  lemma GetReportsStoredCount(email: string, today: string, table: UsageTable, n: nat)
    requires email != "" && email != OwnerEmail
    requires (email, today) in table && table[(email, today)].count == Some(n)
    ensures Get(Some(email), today, table, false).used == n
    ensures Get(Some(email), today, table, false).tier == Access.Free
  {
  }
}
