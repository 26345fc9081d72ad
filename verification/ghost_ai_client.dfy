/**
 The submit logic of the simpler chat component
 (app/components/GhostAIClient.tsx): the guard, how the inference route's
 answer is read, and the usage counter shown to the user.
 */
module GhostAIClient {
  import opened Options
  import opened Strings

  /** A JSON field as the handler tests it: nullish, a number, or any other value (given by its text). */
  datatype Value = Nullish | Number(n: int) | OtherValue(json: string)

  /** `v ?? 0`. */
  function OrZero(v: Value): (w: Value)
    ensures !w.Nullish?
    ensures v.Nullish? ==> w == Number(0)
    ensures !v.Nullish? ==> w == v
  {
    if v.Nullish? then Number(0) else v
  }

  datatype HistoryItem = HistoryItem(task: string, response: string)

  /** "X of Y used" as last reported by the route. */
  datatype LimitInfo = LimitInfo(used: Value, limit: Value)

  /** The component's state variables. */
  datatype State = State(
    task: string,
    response: string,
    loading: bool,
    history: seq<HistoryItem>,
    limitReached: bool,
    limitInfo: Option<LimitInfo>)

  /** The inference route's answer; `limitReached` stands for the truthiness of that field. */
  datatype Reply =
    | Unreachable
    | Answer(status: int, limitReached: bool, error: Option<string>, result: string, used: Value, limit: Value)

  predicate IsOk(status: int)
  {
    200 <= status <= 299
  }

  /** The inference route answered with status `status` and a truthy `limitReached`. */
  predicate LimitAnswer(reply: Reply)
  {
    reply.Answer? && reply.status == 403 && reply.limitReached
  }

  /** Apply the route's answer to the state `s` the handler started from. */
  function Settle(s: State, reply: Reply): (r: State)
    ensures !r.loading
    // A reached limit: flag set, counter recorded with missing numbers read as 0, history kept.
    ensures LimitAnswer(reply) ==>
              && r.limitReached && r.history == s.history && r.task == s.task
              && r.limitInfo == Some(LimitInfo(OrZero(reply.used), OrZero(reply.limit)))
    ensures !LimitAnswer(reply) ==> !r.limitReached
    // The previous answer is cleared first; an unreachable route shows a fixed message.
    ensures LimitAnswer(reply) ==> r.response == ""
    ensures reply.Unreachable? ==> r.response == "Error contacting AI."
    // Any other failure shows the route's error, or a generic message.
    ensures reply.Answer? && !LimitAnswer(reply) && !IsOk(reply.status) ==>
              r.response == OrElse(reply.error, "Something went wrong") && r.response != ""
    // Success: one history item prepended, task cleared.
    ensures reply.Answer? && IsOk(reply.status) ==>
              && r.history == [HistoryItem(s.task, reply.result)] + s.history
              && r.task == "" && r.response == reply.result
    ensures !(reply.Answer? && IsOk(reply.status)) ==> r.history == s.history && r.task == s.task
    // The counter changes only on a reached limit, or on success with two numbers.
    ensures reply.Answer? && IsOk(reply.status) && reply.used.Number? && reply.limit.Number? ==>
              r.limitInfo == Some(LimitInfo(reply.used, reply.limit))
    ensures r.limitInfo != s.limitInfo ==>
              LimitAnswer(reply) || (reply.Answer? && IsOk(reply.status) && reply.used.Number? && reply.limit.Number?)
  {
    var c := s.(loading := true, response := "", limitReached := false);
    var next :=
      match reply
      case Unreachable => c.(response := "Error contacting AI.")
      case Answer(status, lim, error, result, used, limit) =>
        if status == 403 && lim then
          c.(limitReached := true, limitInfo := Some(LimitInfo(OrZero(used), OrZero(limit))))
        else if !IsOk(status) then
          c.(response := OrElse(error, "Something went wrong"))
        else
          var c' := c.(response := result, history := [HistoryItem(s.task, result)] + s.history, task := "");
          if used.Number? && limit.Number? then c'.(limitInfo := Some(LimitInfo(used, limit))) else c';
    next.(loading := false)
  }

  /** `handleSubmit`: the new state and the task posted to the route, if any. */
  function Submit(s: State, reply: Reply): (out: (State, Option<string>))
    // A whitespace-only task sends nothing and changes nothing.
    ensures Trim(s.task) == "" <==> out == (s, None)
    // Otherwise the untrimmed task is posted and the answer settled.
    ensures Trim(s.task) != "" ==> out.1 == Some(s.task) && out.0 == Settle(s, reply)
  {
    if Trim(s.task) == "" then (s, None)
    else (Settle(s, reply), Some(s.task))
  }
}
