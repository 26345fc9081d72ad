/**
 The submit logic of the career-coach page (app/ghost/GhostClient.tsx):
 the guard, the optional document upload, the prompt and cost sent to the
 inference route, and how its answer updates the page state.
 */
module GhostClient {
  import opened Options
  import opened Strings

  datatype Mode = Career | InterviewMock

  datatype HistoryItem = HistoryItem(task: string, response: string, mode: Mode)

  /** The attached file, by name. */
  datatype Attachment = Attachment(name: string)

  /** The component's state variables. */
  datatype State = State(
    mode: Mode,
    task: string,
    response: string,
    loading: bool,
    history: seq<HistoryItem>,
    limitReached: bool,
    upgradeRequired: bool,
    upgradeMsg: string,
    file: Option<Attachment>)

  /** The answer of the document-text route: unreachable (fetch or JSON parsing threw), or its status and fields. */
  datatype FileReply = FileUnreachable | FileAnswer(ok: bool, error: Option<string>, text: Option<string>)

  /** The answer of the inference route; the two flags stand for the truthiness of those JSON fields. */
  datatype GhostReply =
    | GhostUnreachable
    | GhostAnswer(status: int, limitReached: bool, upgradeRequired: bool,
                  message: Option<string>, error: Option<string>, result: string)

  /** The JSON body posted to the inference route. */
  datatype GhostRequest = GhostRequest(task: string, category: string, mode: Mode, cost: nat)

  /** The new state, whether the file was uploaded for parsing, and the inference request if one was sent. */
  datatype Submission = Submission(state: State, fileSent: bool, request: Option<GhostRequest>)

  const DefaultInstruction: string := "Please review this document as my career coach and improve it."
  const DefaultUpgradeMsg: string := "Upgrade to Pro to use Interview Mock Mode."

  /** How an answer of the inference route is read, tested in this order. */
  datatype Verdict = LimitHit | UpgradeNeeded | Failure | Success

  predicate IsOk(status: int)
  {
    200 <= status <= 299
  }

  function Classify(status: int, limitReached: bool, upgradeRequired: bool): (v: Verdict)
    ensures v == LimitHit <==> status == 403 && limitReached
    ensures v == UpgradeNeeded <==> !(status == 403 && limitReached) && (status == 402 || status == 403) && upgradeRequired
    ensures v == Success <==> IsOk(status)
    ensures v == Failure <==> !IsOk(status) && !(status == 403 && (limitReached || upgradeRequired))
                              && !(status == 402 && upgradeRequired)
  {
    if status == 403 && limitReached then LimitHit
    else if (status == 402 || status == 403) && upgradeRequired then UpgradeNeeded
    else if !IsOk(status) then Failure
    else Success
  }

  /** The inference route answered, and its answer reads as `v`. */
  predicate AnsweredWith(reply: GhostReply, v: Verdict)
  {
    reply.GhostAnswer? && Classify(reply.status, reply.limitReached, reply.upgradeRequired) == v
  }

  /** The prompt sent when a document was extracted: the instruction and the document between fixed markers. */
  function DocumentPrompt(instruction: string, document: string): string
  {
    "INSTRUCTIONS:\n" + instruction + "\n\n---\nDOCUMENT CONTENT:\n" + document + "\n---\n\nNow respond following the instructions."
  }

  /** `finalTask`: the document prompt when there is extracted text, the trimmed task otherwise. */
  function FinalTask(task: string, extracted: Option<string>): (t: string)
    ensures !Present(extracted) ==> t == Trim(task)
    ensures Present(extracted) && Trim(task) != "" ==> t == DocumentPrompt(Trim(task), extracted.value)
    ensures Present(extracted) && Trim(task) == "" ==> t == DocumentPrompt(DefaultInstruction, extracted.value)
  {
    var trimmed := Trim(task);
    if !Present(extracted) then trimmed
    else if trimmed != "" then DocumentPrompt(trimmed, extracted.value)
    else DocumentPrompt(DefaultInstruction, extracted.value)
  }

  /** `cost`: a request carrying a document counts as two prompts. */
  function Cost(extracted: Option<string>): (c: nat)
    ensures c == 2 <==> Present(extracted)
    ensures c == 1 <==> !Present(extracted)
  {
    if Present(extracted) then 2 else 1
  }

  /** The history label of a successful submission. */
  function HistoryTask(task: string, file: Option<Attachment>): string
  {
    if task != "" then task else if file.Some? then "(file) " + file.value.name else "(empty)"
  }

  /** The submission cleared of the previous answer's traces, while it is in flight. */
  function Cleared(s: State): State
  {
    s.(loading := true, response := "", limitReached := false, upgradeRequired := false, upgradeMsg := "")
  }

  /** Apply the inference route's answer to the state `s` the handler started from. */
  function Settle(s: State, reply: GhostReply): (r: State)
    ensures !r.loading && r.mode == s.mode
    // Old flags never survive: a flag is set only by this answer.
    ensures r.limitReached <==> AnsweredWith(reply, LimitHit)
    ensures r.upgradeRequired <==> AnsweredWith(reply, UpgradeNeeded)
    ensures r.upgradeRequired ==> r.upgradeMsg != ""
    // Only a successful answer touches the history, prepending exactly one item.
    ensures AnsweredWith(reply, Success) ==>
              && r.history == [HistoryItem(HistoryTask(s.task, s.file), reply.result, s.mode)] + s.history
              && r.response == reply.result && r.task == "" && r.file.None?
    ensures !AnsweredWith(reply, Success) ==> r.history == s.history && r.task == s.task && r.file == s.file
    ensures AnsweredWith(reply, Failure) ==> r.response != ""
    // Every submission starts from a cleared answer; each verdict then shows its own text.
    ensures !AnsweredWith(reply, UpgradeNeeded) ==> r.upgradeMsg == ""
    ensures reply.GhostUnreachable? ==> r.response == "Error contacting AI."
    ensures AnsweredWith(reply, LimitHit) ==> r.response == ""
    ensures AnsweredWith(reply, UpgradeNeeded) ==>
              r.response == "" && r.upgradeMsg == OrElse(reply.message, DefaultUpgradeMsg)
    ensures AnsweredWith(reply, Failure) ==> r.response == OrElse(reply.error, "Something went wrong")
  {
    var c := Cleared(s);
    match reply
    case GhostUnreachable => c.(response := "Error contacting AI.", loading := false)
    case GhostAnswer(status, lim, up, message, error, result) =>
      match Classify(status, lim, up)
      case LimitHit => c.(limitReached := true, loading := false)
      case UpgradeNeeded => c.(upgradeRequired := true, upgradeMsg := OrElse(message, DefaultUpgradeMsg), loading := false)
      case Failure => c.(response := OrElse(error, "Something went wrong"), loading := false)
      case Success =>
        c.(response := result,
           history := [HistoryItem(HistoryTask(s.task, s.file), result, s.mode)] + s.history,
           task := "", file := None, loading := false)
  }

  /**
   `handleSubmit`. `fileReply` is consulted only when a file is attached,
   `ghostReply` only when the inference route is called.
   */
  function Submit(s: State, fileReply: FileReply, ghostReply: GhostReply): (out: Submission)
    // The guard: nothing to send, nothing changes.
    ensures Trim(s.task) == "" && s.file.None? ==> out == Submission(s, false, None)
    ensures !(Trim(s.task) == "" && s.file.None?) ==> !out.state.loading
    ensures out.state.mode == s.mode
    // The file is parsed first, and a failed parse stops before the inference route.
    ensures out.fileSent <==> s.file.Some?
    ensures s.file.Some? && (fileReply.FileUnreachable? || !fileReply.ok) ==>
              && out.request.None? && out.state.response != ""
              && !out.state.limitReached && !out.state.upgradeRequired && out.state.history == s.history
              && out.state.task == s.task && out.state.file == s.file && out.state.upgradeMsg == ""
    ensures s.file.Some? && fileReply.FileUnreachable? ==> out.state.response == "Error contacting AI."
    ensures s.file.Some? && fileReply.FileAnswer? && !fileReply.ok ==>
              out.state.response == OrElse(fileReply.error, "File parsing failed.")
    ensures s.file.None? && Trim(s.task) != "" ==>
              out.request == Some(GhostRequest(Trim(s.task), "Career", s.mode, 1))
    ensures s.file.Some? && fileReply.FileAnswer? && fileReply.ok ==>
              out.request == Some(GhostRequest(FinalTask(s.task, fileReply.text), "Career", s.mode, Cost(fileReply.text)))
    ensures out.request.Some? ==> out.state == Settle(s, ghostReply)
  {
    if Trim(s.task) == "" && s.file.None? then Submission(s, false, None)
    else
      var c := Cleared(s);
      if s.file.Some? && fileReply.FileUnreachable? then
        Submission(c.(response := "Error contacting AI.", loading := false), true, None)
      else if s.file.Some? && !fileReply.ok then
        Submission(c.(response := OrElse(fileReply.error, "File parsing failed."), loading := false), true, None)
      else
        var extracted := if s.file.Some? then fileReply.text else None;
        var request := GhostRequest(FinalTask(s.task, extracted), "Career", s.mode, Cost(extracted));
        Submission(Settle(s, ghostReply), s.file.Some?, Some(request))
  }

  /** With extracted text the prompt carries the document; an empty extraction falls back to the bare trimmed task. */
  lemma EmptyExtractionCostsOne(task: string)
    ensures Cost(Some("")) == 1 && FinalTask(task, Some("")) == Trim(task)
    ensures Cost(None) == 1 && FinalTask(task, None) == Trim(task)
  {
  }
}
