# GhostAI decision logic, in Dafny

GhostAI is a career-coaching web application. It proxies a hosted language
model, sells "pro" and "ultimate" subscriptions through a payment processor,
and keeps its users and daily usage counters in a hosted database. Almost all
of the code hands work to those services. This project models the small amount
of decision logic the application owns, and proves properties about it:

- the tier hierarchy and access check (`Access`) and the tier-to-daily-limit
  table with the owner address (`Limits`);
- the usage summary route (`Usage`): how `used`, `remaining` and `limitReached`
  come from an optional counter row, and how the owner bypasses the counter.
  The owner's `Infinity` is the `Unlimited` constructor;
- the payment webhook (`Webhook`). It checks the signature, dispatches on the
  event kind, and updates a table of user rows (a `map`). The model proves
  price-to-tier resolution, that rejected requests change nothing, which rows
  and fields each event writes, and that replaying an event changes nothing
  but update times;
- checkout initiation (`Checkout`): the order of validation errors, the
  plan-to-price mapping, the base-URL precedence with one trailing slash
  removed, and the session request sent to the payment processor;
- the inference proxy (`GhostRoute`): task validation, the one-field
  `lastCall` rate limiter, system-prompt selection with its fallback, and
  reading the model's text. Over any sequence of calls, admitted calls are
  proved to be at least 1500 ms apart;
- document text extraction (`FileText`): routing on the lower-cased file
  extension, the page-by-page assembly of a PDF's text (a loop, proved equal
  to a recursive reference definition), and the reply fields;
- payment-key diagnostics (`DiagStripe`): key masking and prefix-based key
  classification;
- the submit handlers of the two chat components (`GhostClient`,
  `GhostAIClient`): the guard, the prompt and cost sent, the order in which
  answers are classified, and how the page state changes. Each handler is a
  pure function from the old state and the routes' answers to the new state.
  `ClientRoute` connects the career page's requests to the inference route.

External results are inputs. Signature verification yields `Option<Event>`. The
checkout session, the account lookup, the model call and the PDF library's
output are parameters. Clock readings (`now`, `today`) are parameters too. The
database tables are maps. `Options` and `Strings` hold the JavaScript truthiness
of possibly absent strings and the string operations the code uses (`trim`,
`startsWith`, `endsWith`, `toLowerCase`, `join`, `slice`).

The daily limits disagree across files: the usage route uses 5
(`Usage.FreeDailyLimit`) and `lib/limits.ts` uses 15 for the free tier
(`Limits.DailyLimit`). Each file is modelled as written. Both files use the same
owner address, "ghostaicorp@gmail.com".

Some behaviour of the code worth knowing when reading the model:

- "checkout completed" records only the customer id on rows with the session's
  email. It does not set tier or status.
- An unknown plan gets 500 "Missing Stripe price id for plan".
- The inference route has no quota or tier gate, and it ignores the client's
  `cost`.
- The usage route reports every non-owner as tier "free" with limit 5,
  whatever their stored subscription.

## Model

| member | source | states |
|---|---|---|
| Access.HasAccess | lib/access.ts:3-16 | access holds exactly for the owner, for ultimate, for any tier on a free feature, and for a tier on its own level |
| Access.HasAccessCases | lib/access.ts:3-16 | owner and ultimate reach every level; pro reaches all but ultimate; free reaches free and nothing else |
| Access.HasAccessReflexive | lib/access.ts:9-15 | every subscription tier has access to its own level |
| Access.HasAccessMonotone | lib/access.ts:15 | a tier ranked at least as high as one with access (or owner) also has access |
| Access.HasAccessDownwardClosed | lib/access.ts:15 | access to a level implies access to every lower level |
| Limits.DailyLimit | lib/limits.ts:4-8 | the table is defined for free, pro and ultimate, and every limit is positive |
| Limits.DailyLimitValues | lib/limits.ts:5-7 | the limits are exactly free 15, pro 60, ultimate 1,000,000 |
| Limits.DailyLimitFollowsRank | lib/limits.ts:5-7 | one tier's limit is below another's exactly when its access rank is lower, so free < pro < ultimate |
| Usage.UsedToday | app/api/usage/route.ts:38-45 | a missing row, a null count or a failed read counts as 0 used; otherwise the stored count is returned |
| Usage.Get | app/api/usage/route.ts:9-55 | no email gives 401 and nothing else does. The owner gets 0 used, unlimited limit and remaining, never limit-reached. Everyone else gets tier free, limit 5, used as read from the counter table, remaining in [0,5], limitReached iff used >= 5, remaining 0 iff limitReached, and used + remaining = 5 below the limit |
| Usage.GetIgnoresTable | app/api/usage/route.ts:12-32 | for a missing session and for the owner, the reply does not depend on the counter table or on whether the read fails, so no counter is read |
| Usage.ReadFailureReadsAsNoRow | app/api/usage/route.ts:38-45 | a failed counter read gives the same reply as an empty table, because the error is ignored |
| Usage.GetReportsStoredCount | app/api/usage/route.ts:45-54 | for a non-owner, `used` is the stored count for that email and that day, and the tier is free |
| Webhook.ResolveTier | app/api/stripe/webhook/route.ts:74-79 | ultimate iff the price equals the ultimate price variable. Pro iff it equals the pro variable but not the ultimate one, so ultimate wins when both match. Free otherwise |
| Webhook.AbsentPriceMatchesUnsetVariable | app/api/stripe/webhook/route.ts:74-79 | the equality is strict on absent values, so a missing price id matches an unset price variable |
| Webhook.ApplyCheckoutCompleted | app/api/stripe/webhook/route.ts:57-70 | a missing or empty email or customer changes nothing. Otherwise only rows with that email change, and only their customer id (set to the session's) and update time. The tier is never touched |
| Webhook.ApplySubscriptionUpdated | app/api/stripe/webhook/route.ts:72-90 | only rows whose customer id equals the subscription's change. Exactly tier (resolved from the price), status, subscription id and update time are written; every other row and field is unchanged |
| Webhook.ApplySubscriptionDeleted | app/api/stripe/webhook/route.ts:92-104 | only rows with the customer's id change, to tier free, status "canceled", no subscription id, and the new update time; nothing else changes |
| Webhook.TypeName | app/api/stripe/webhook/route.ts:33-46 | each handled kind carries exactly its `switch` case string: checkout completed "checkout.session.completed", created, updated and deleted their "customer.subscription.*" strings; an unhandled event carries any other string |
| Webhook.TypeNameDistinguishesKinds | app/api/stripe/webhook/route.ts:33-46 | events with the same type string are of the same kind, so exactly one case of the `switch` applies |
| Webhook.Apply | app/api/stripe/webhook/route.ts:33-46 | checkout.session.completed goes to the checkout handler, subscription created and updated both go to the update handler, subscription deleted goes to the deletion handler, and any other type changes nothing; the set of rows never changes |
| Webhook.Post | app/api/stripe/webhook/route.ts:11-53 | a missing signature gives 400 and an unchanged table. Failed verification gives 400 "Invalid signature" and an unchanged table. A verified event is acknowledged with the table that dispatching it produces; an unhandled event type leaves the table unchanged. No row is ever added or removed |
| Webhook.ApplyTwice | app/api/stripe/webhook/route.ts:63-103 | applying an event twice equals applying it once at the later time |
| Webhook.ReplayIdempotent | app/api/stripe/webhook/route.ts:63-103 | applying the same event twice gives the same table as applying it once, apart from update times |
| Webhook.PostReplayIdempotent | app/api/stripe/webhook/route.ts:11-53 | redelivering the same verified event leaves the table as the first delivery did, apart from update times |
| Webhook.CheckoutKeepsTier | app/api/stripe/webhook/route.ts:63-69 | checkout completion never changes any row's tier |
| Checkout.FirstPresent | app/api/checkout/route.ts:10-16 | a chain of JavaScript "or" operators yields the first non-empty candidate, or the fallback when there is none |
| Checkout.StripTrailingSlash | app/api/checkout/route.ts:15-17 | removes at most one character, and only a final "/"; the rest of the string is unchanged |
| Checkout.BaseUrl | app/api/checkout/route.ts:8-18 | NEXTAUTH_URL wins when set, with one trailing "/" removed; with nothing configured and no origin the base is http://localhost:3000 |
| Checkout.PriceFor | app/api/checkout/route.ts:34-39 | "pro" reads STRIPE_PRICE_ID, "ultimate" reads STRIPE_ULTIMATE_PRICE_ID, and only those two plans have a price |
| Checkout.BaseUrlPrecedence | app/api/checkout/route.ts:8-18 | the base URL comes from the first non-empty of NEXTAUTH_URL, NEXT_PUBLIC_URL, NEXT_PUBLIC_SITE_URL, then the origin header, then "http://localhost:3000" |
| Checkout.Post | app/api/checkout/route.ts:20-81 | checks run in order: an unparseable body or missing plan gives "Missing plan", then a missing email gives "Missing email", then an unmapped plan or unset price gives 500 before any session is requested. A valid request with a configured price always sends a session request, redirecting to the base URL, and answers with the session URL, or 500 "Checkout failed" when the processor fails. That request is subscription mode, for the request's email, with one line item of quantity 1 at the plan's non-empty price |
| Checkout.UnknownPlanRefused | app/api/checkout/route.ts:34-46 | any other plan gets 500 "Missing Stripe price id for plan", and no session is requested |
| Checkout.RedirectUrls | app/api/checkout/route.ts:60-61 | success URL = base + "/success?session_id={CHECKOUT_SESSION_ID}"; cancel URL = base + "/pricing" |
| GhostRoute.SystemPromptFor | app/api/ghost/route.ts:26 | the prompt for mode work, career or money; the work prompt for any other or missing mode |
| GhostRoute.ResultText | app/api/ghost/route.ts:38-42 | `output_text` when defined. Otherwise, for a non-empty output, the first output's first content text when there is one, else "". When the output is empty, reading it throws |
| GhostRoute.MockText | app/api/ghost/route.ts:46 | the stand-in reply is the fixed prefix, ending in an opening quote mark, then the task verbatim, then a closing quote mark |
| GhostRoute.Post | app/api/ghost/route.ts:14-54 | an unparseable body gives 500 "Server error." and a missing or empty task gives 400; both leave lastCall unchanged. A call within 1500 ms of lastCall gives 429 and leaves lastCall unchanged. The model is called exactly when neither applies, with the selected prompt and the task, and lastCall becomes now. A completed call answers with its text; a failed call, or a completion whose text cannot be read, gives 200 with the mock result and an error field |
| GhostRoute.AdmittedSpaced | app/api/ghost/route.ts:12-24 | over any sequence of calls, each admitted call is at least 1500 ms after the previous one, and after the starting lastCall |
| GhostRoute.FirstAdmittedAfterStart | app/api/ghost/route.ts:12-24 | since lastCall starts at 0, the first admitted call is at time 1500 or later |
| FileText.KindOf | app/api/filetext/route.ts:75-96 | plain text iff the lower-cased name ends in ".txt" or ".md". PDF iff it does not but ends in ".pdf". Otherwise unsupported |
| FileText.NonEmpty | app/api/filetext/route.ts:46-48 | keeps no empty string, and never more items than the page has |
| FileText.NonEmptyKeepsAll | app/api/filetext/route.ts:46-48 | every non-empty string is kept, exactly as often as it occurs on the page |
| FileText.NonEmptyAppend | app/api/filetext/route.ts:46-48 | filtering distributes over concatenation, so the kept strings stay in page order |
| FileText.PagesTextAppend | app/api/filetext/route.ts:42-50 | assembly distributes over splitting the page sequence, so pages are appended in order |
| FileText.PagesTextLength | app/api/filetext/route.ts:42-50 | every page adds at least its "\n\n" separator |
| FileText.AssemblePages | app/api/filetext/route.ts:42-50 | the loop that visits pages 1..numPages, appending each page's non-empty strings joined by " " and followed by "\n\n", yields the recursive reference assembly of the pages in order |
| FileText.ExtractPdfText | app/api/filetext/route.ts:42-52 | the text returned for a loaded PDF is the reference assembly of all its pages, trimmed (so, by `Strings.Trim`, without white space at either end) |
| FileText.ExtractedReply | app/api/filetext/route.ts:80-87 | textLen equals the text's length, and preview is the text's prefix of length min(200, length) |
| FileText.ErrorMessage | app/api/filetext/route.ts:109-115 | the thrown error's message, or "File parsing failed." when there is none; never empty |
| FileText.Post | app/api/filetext/route.ts:63-116 | no file in field "file" gives 400. A .txt/.md file gives its trimmed content. An unsupported name gives 400. A PDF gives the trimmed page assembly. A parse or PDF error gives 500 with its message. Every success carries trimmed text, its length and its preview |
| DiagStripe.Mask | app/api/diag-stripe/route.ts:7-10 | null iff the key is absent or empty. Otherwise the first min(8,n) characters, "...", then the last min(4,n) characters, of length min(8,n)+3+min(4,n) |
| DiagStripe.MaskLongKey | app/api/diag-stripe/route.ts:9 | a key of 12 or more characters masks to exactly 15 characters, showing its first 8 and last 4 |
| DiagStripe.Classify | app/api/diag-stripe/route.ts:22-29 | key type by prefix in this order: "sk_test_", then "sk_live_", then "pk_", else unknown |
| DiagStripe.Label | app/api/diag-stripe/route.ts:22-29 | secret keys are reported by their "sk_" prefix name; a publishable or unknown key gets a label starting with "❌"; no label is empty |
| DiagStripe.LabelInjective | app/api/diag-stripe/route.ts:22-29 | different key kinds get different labels |
| DiagStripe.Get | app/api/diag-stripe/route.ts:12-67 | no secret (or an empty one) gives 500 "Missing STRIPE_SECRET_KEY", and nothing else does. 200 exactly when the lookup succeeds, reporting the account found; otherwise 500 with the thrown error's fields. Both replies carry the key type and the masked key. The key type is "sk_test" for an "sk_test_" key, else "sk_live" for an "sk_live_" key, else the publishable-key warning for a "pk_" key, else the unknown-format warning |
| DiagStripe.SameKeyReportEitherWay | app/api/diag-stripe/route.ts:41-58 | success and failure replies carry the same key type and the same masked key |
| GhostClient.Classify | app/ghost/GhostClient.tsx:98-116 | answers are read in this order: 403 with limitReached, then 402/403 with upgradeRequired, then not ok, then success. The cases are stated as exclusive conditions |
| GhostClient.FinalTask | app/ghost/GhostClient.tsx:77-80 | with extracted text, the INSTRUCTIONS/DOCUMENT template with the trimmed task or, if that is blank, the default instruction; without it, the trimmed task |
| GhostClient.Cost | app/ghost/GhostClient.tsx:82-83 | cost is 2 iff the extracted text is non-empty, else 1 |
| GhostClient.EmptyExtractionCostsOne | app/ghost/GhostClient.tsx:78-83 | an empty or absent extraction costs 1 and sends the bare trimmed task |
| GhostClient.Settle | app/ghost/GhostClient.tsx:45-128 | loading ends false. limitReached and upgradeRequired are set iff this answer reads that way. upgradeMsg is cleared unless an upgrade is required, when it is the route's message or "Upgrade to Pro to use Interview Mock Mode.". A reached limit and a required upgrade leave the response empty; a failure shows the route's error or "Something went wrong"; an unreachable route shows "Error contacting AI.". Success prepends exactly one history item and clears task and file. No other answer touches history, task or file |
| GhostClient.Submit | app/ghost/GhostClient.tsx:45-129 | a blank task with no file sends nothing and changes nothing. Otherwise loading ends false. The mode never changes. The file is parsed first. A failed parse stops before the inference request, sets no flag, clears upgradeMsg, keeps task, file and history, and shows the route's error or "File parsing failed." ("Error contacting AI." when the route is unreachable). The request carries the trimmed task at cost 1, or the document prompt at its cost, and the answer is then settled |
| GhostAIClient.OrZero | app/components/GhostAIClient.tsx:41 | `?? 0` turns a nullish value into 0 and keeps every other value |
| GhostAIClient.Settle | app/components/GhostAIClient.tsx:23-61 | loading ends false. A 403 with limitReached sets the flag, records used/limit with nullish values read as 0, and keeps the history. Any other failure shows `error` or "Something went wrong". Success prepends one history item and clears the task. The counter changes only on a reached limit, or on success when both used and limit are numbers. The previous response is cleared: a reached limit leaves it empty, and an unreachable route shows "Error contacting AI." |
| GhostAIClient.Submit | app/components/GhostAIClient.tsx:20-62 | a whitespace-only task sends nothing and changes nothing; any other task is posted untrimmed and its answer settled |
| ClientRoute.PromptPerClientMode | app/api/ghost/route.ts:6-26 | the career page's "career" mode gets the career prompt. Its "interview_mock" mode (app/ghost/GhostClient.tsx:13) has no entry and gets the work prompt, as does the chat component, which sends no mode |
| ClientRoute.EmptyDocumentRefused | app/ghost/GhostClient.tsx:78-94 | a blank task with an attached file whose extraction is empty sends an empty task at cost 1, and the inference route refuses it with 400 without moving `lastCall` |
| Strings.Trim | app/api/filetext/route.ts:79 | the result has no white space at either end and is no longer than the input |
| Strings.TrimInfix | app/api/filetext/route.ts:79 | what trim keeps is the infix of the input at the returned offset, and everything it drops from the two ends is white space |
| Strings.TrimIdempotent | app/api/filetext/route.ts:79 | trimming a trimmed string changes nothing |
| Strings.ToLower | app/api/filetext/route.ts:75 | preserves length and lowers each letter in place |
| Strings.JoinLength | app/api/filetext/route.ts:49 | `join(sep)` of n >= 1 strings has their total length plus n - 1 separators; joining nothing gives "" |
| Strings.JoinEnds | app/api/filetext/route.ts:49 | a join starts with the first string and ends with the last |
| Strings.SliceHead | app/api/filetext/route.ts:86 | `slice(0, n)` is the prefix of length min(n, length) |
| Strings.SliceTail | app/api/diag-stripe/route.ts:9 | `slice(-n)` is the suffix of length min(n, length) |

## Left out

- Payment processor calls are inputs. Signature verification is `Option<Event>`; the session creation outcome, the account lookup and its error fields are parameters. Their internals are not modelled.
- Database access is not modelled: clients, query builders, and the update errors the handlers never check. Tables are maps. In the webhook, the database client reports errors without throwing, so the 500 "Webhook handler failed" branch (app/api/stripe/webhook/route.ts:47-50) cannot be reached and is not modelled.
- The language-model call is a parameter (`ModelCall`). The case where `output` is not an array, where the route would reply with the JSON value `false`, is not modelled; the output is always a sequence.
- PDF loading and the DOMMatrix polyfill (app/api/filetext/route.ts:7-40) are foreign. Each page's text items are given as strings, and an item without a string is not distinguished from an empty one. The informational `GET` of that route is a constant reply and is not modelled.
- Clock reads (`Date.now`, `new Date()`, today's date) are parameters.
- Concurrency: `lastCall` is process-global and races between concurrent requests. It is modelled as a sequential state machine.
- Nothing in these files gates requests by tier or quota, increments a usage counter, or rejects with "upgrade required", so none of that is modelled. The clients' handling of such answers is modelled.
- JSON values are modelled with the types the code expects. Task, mode, plan, email and error fields are strings or absent, and the flags `limitReached`/`upgradeRequired` are modelled by their truthiness. Numbers, objects and other values in those places are not modelled. Only `used`/`limit` in app/components/GhostAIClient.tsx keep the number/other distinction the code tests.
- GhostRoute.SystemPromptFor: a `mode` that names an inherited object property (such as "toString") would make the JavaScript lookup return that property; the model treats every mode outside the table as unknown.
- Strings are sequences of characters. JavaScript `length` and `slice` count UTF-16 code units, so for characters outside the Basic Multilingual Plane `textLen`, `preview` and `mask` count differently here.
- Strings.ToLower: lowers only ASCII letters. The only use is the extension test, and only ASCII capitals lower to ".", "t", "x", "m", "d", "p" or "f", so the routing decision is the same as with full Unicode lowering.
- Rendering, page layout, starter prompts, the mode selector and the file picker of the two client components are presentational and are not modelled.
- Usage.Get: the owner's unlimited limit and remaining are `Infinity` in the handler, which JSON serialisation sends as `null`; the model keeps them as `Unlimited` and does not model the serialisation.
- Usage.UsedToday: stored counts are modelled as non-negative (`nat`). The handler does not check the sign, so with a negative stored count `remaining` would exceed 5; the model does not cover that case.
- The user table's tier column is modelled as absent or one of free/pro/ultimate. These are the only values the handlers write.
