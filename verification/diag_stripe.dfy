/** The payment-key diagnostics of app/api/diag-stripe/route.ts: key masking and key classification. */
module DiagStripe {
  import opened Options
  import opened Strings

  const Ellipsis: string := "..."

  /** `mask(key)`: the first 8 and last 4 characters around "...", or null for an absent or empty key. */
  function Mask(key: Option<string>): (m: Option<string>)
    ensures m.None? <==> !Present(key)
    ensures m.Some? ==>
              var k := key.value;
              var head := if |k| < 8 then |k| else 8;
              var tail := if |k| < 4 then |k| else 4;
              && |m.value| == head + 3 + tail
              && m.value[..head] == k[..head]
              && m.value[head..head + 3] == Ellipsis
              && m.value[head + 3..] == k[|k| - tail..]
  {
    if !Present(key) then None
    else Some(SliceHead(key.value, 8) + Ellipsis + SliceTail(key.value, 4))
  }

  /** Beyond twelve characters, masking hides everything but the first 8 and last 4. */
  lemma MaskLongKey(k: string)
    requires |k| >= 12
    ensures Mask(Some(k)) == Some(k[..8] + "..." + k[|k| - 4..])
    ensures |Mask(Some(k)).value| == 15
  {
  }

  datatype KeyType = SkTest | SkLive | Publishable | Unknown

  /** The label the route reports for each kind of key. */
  function Label(t: KeyType): (r: string)
    ensures r != ""
    // Secret keys are named by their prefix; anything else is flagged as a mistake.
    ensures t == SkTest || t == SkLive ==> StartsWith(r, "sk_")
    ensures t == Publishable || t == Unknown ==> StartsWith(r, "❌")
  {
    match t
    case SkTest => "sk_test"
    case SkLive => "sk_live"
    case Publishable => "❌ PUBLISHABLE KEY USED BY MISTAKE"
    case Unknown => "❌ UNKNOWN KEY FORMAT"
  }

  /** Distinct kinds are reported with distinct labels. */
  lemma LabelInjective(a: KeyType, b: KeyType)
    requires Label(a) == Label(b)
    ensures a == b
  {
  }

  /** The key kind, decided by prefix: "sk_test_", then "sk_live_", then "pk_". */
  function Classify(secret: string): (t: KeyType)
    ensures t == SkTest <==> StartsWith(secret, "sk_test_")
    ensures t == SkLive <==> !StartsWith(secret, "sk_test_") && StartsWith(secret, "sk_live_")
    ensures t == Publishable <==> !StartsWith(secret, "sk_test_") && !StartsWith(secret, "sk_live_")
                                  && StartsWith(secret, "pk_")
  {
    if StartsWith(secret, "sk_test_") then SkTest
    else if StartsWith(secret, "sk_live_") then SkLive
    else if StartsWith(secret, "pk_") then Publishable
    else Unknown
  }

  /** The account fields reported on success. */
  datatype Account = Account(id: string, chargesEnabled: bool, payoutsEnabled: bool,
                             detailsSubmitted: bool, country: Option<string>, defaultCurrency: Option<string>)

  /** The fields of the error thrown by the account lookup. */
  datatype StripeError = StripeError(errorType: Option<string>, message: Option<string>, statusCode: Option<int>,
                                     code: Option<string>, raw: Option<string>)

  /** What the account lookup yields. */
  datatype Lookup = Found(account: Account) | Threw(error: StripeError)

  datatype Reply =
    | MissingSecret
    | Connected(keyType: string, keyMasked: Option<string>, account: Account)
    | LookupFailed(keyType: string, keyMasked: Option<string>, error: StripeError)

  function Status(r: Reply): int
  {
    if r.Connected? then 200 else 500
  }

  /** `GET /api/diag-stripe`. `lookup` is consulted only once a secret is configured. */
  function Get(secret: Option<string>, lookup: Lookup): (r: Reply)
    ensures !Present(secret) <==> r == MissingSecret
    ensures Status(r) == 200 <==> Present(secret) && lookup.Found?
    ensures Present(secret) ==>
              && (r.Connected? || r.LookupFailed?)
              && r.keyType == Label(Classify(secret.value))
              && r.keyMasked == Mask(secret)
              && r.keyMasked.Some?
    // The reported key type follows the secret's prefix, tested in this order.
    ensures Present(secret) && StartsWith(secret.value, "sk_test_") ==> r.keyType == "sk_test"
    ensures (Present(secret) && !StartsWith(secret.value, "sk_test_") && StartsWith(secret.value, "sk_live_")) ==>
              r.keyType == "sk_live"
    ensures (Present(secret) && !StartsWith(secret.value, "sk_test_") && !StartsWith(secret.value, "sk_live_")
             && StartsWith(secret.value, "pk_")) ==>
              r.keyType == "❌ PUBLISHABLE KEY USED BY MISTAKE"
    ensures (Present(secret) && !StartsWith(secret.value, "sk_test_") && !StartsWith(secret.value, "sk_live_")
             && !StartsWith(secret.value, "pk_")) ==>
              r.keyType == "❌ UNKNOWN KEY FORMAT"
    ensures r.Connected? ==> lookup == Found(r.account)
    ensures r.LookupFailed? ==> lookup == Threw(r.error)
  {
    if !Present(secret) then MissingSecret
    else
      var keyType := Label(Classify(secret.value));
      match lookup
      case Found(account) => Connected(keyType, Mask(secret), account)
      case Threw(e) => LookupFailed(keyType, Mask(secret), e)
  }

  /** Success and failure report the same key type and masked key. */
  lemma SameKeyReportEitherWay(secret: string, a: Account, e: StripeError)
    requires secret != ""
    ensures Get(Some(secret), Found(a)).keyType == Get(Some(secret), Threw(e)).keyType
    ensures Get(Some(secret), Found(a)).keyMasked == Get(Some(secret), Threw(e)).keyMasked
  {
  }
}
