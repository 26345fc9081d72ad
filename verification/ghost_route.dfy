/**
 The inference proxy of app/api/ghost/route.ts: task validation, the
 process-wide `lastCall` rate limiter, system-prompt selection and the
 extraction of the model's text.
 */
module GhostRoute {
  import opened Options

  /** Minimum spacing, in milliseconds, between two admitted calls. */
  const MinInterval: int := 1500

  const WorkPrompt: string := "You are GhostAI – a productivity assistant that writes emails, summaries, proposals and workplace documents. Be concise, professional and helpful."
  const CareerPrompt: string := "You are GhostAI – a career assistant that rewrites CV bullets, drafts cover letters and generates interview answers. Be clear, confident and structured."
  const MoneyPrompt: string := "You are GhostAI – a simple financial explainer. You give beginner-friendly advice, explain ETFs/stocks, budgeting, saving, and financial concepts. Avoid giving personalised regulated investment advice."

  /** `SYSTEM_PROMPTS`. */
  const SystemPrompts: map<string, string> := map["work" := WorkPrompt, "career" := CareerPrompt, "money" := MoneyPrompt]

  /** The JSON body's `task` and `mode`; the client's `cost` and `category` are not read. */
  datatype Request = Request(task: Option<string>, mode: Option<string>)

  /** The parts of a model response the route inspects. */
  datatype ContentPart = ContentPart(text: Option<string>)
  datatype OutputItem = OutputItem(content: Option<seq<ContentPart>>)
  datatype Completion = Completion(outputText: Option<string>, output: seq<OutputItem>)

  /** The outcome of the model call. */
  datatype ModelCall = Completed(completion: Completion) | CallFailed

  /** What is sent to the model: the system prompt and the user's task. */
  datatype ModelInput = ModelInput(systemPrompt: string, task: string)

  datatype Reply =
    | TaskRequired
    | TooManyRequests
    | Result(text: string)
    | MockResult(text: string, error: string)
    | ServerError

  function Status(r: Reply): int
  {
    match r
    case TaskRequired => 400
    case TooManyRequests => 429
    case Result(_) => 200
    case MockResult(_, _) => 200
    case ServerError => 500
  }

  /** `SYSTEM_PROMPTS[mode] || SYSTEM_PROMPTS["work"]`. */
  function SystemPromptFor(mode: Option<string>): (p: string)
    ensures mode.Some? && mode.value in SystemPrompts ==> p == SystemPrompts[mode.value]
    ensures mode.None? || mode.value !in SystemPrompts ==> p == WorkPrompt
    ensures p in SystemPrompts.Values
  {
    if mode.Some? && mode.value in SystemPrompts && SystemPrompts[mode.value] != "" then SystemPrompts[mode.value]
    else SystemPrompts["work"]
  }

  /**
   The reply text: `output_text` when defined, else the first output's first
   content text, else "". None when reading `output[0]` throws because the
   output is empty.
   */
  function ResultText(c: Completion): (t: Option<string>)
    ensures c.outputText.Some? ==> t == c.outputText
    ensures c.outputText.None? && |c.output| == 0 ==> t.None?
    ensures c.outputText.None? && |c.output| > 0 ==> t.Some?
    ensures (c.outputText.None? && |c.output| > 0 && c.output[0].content.Some?
             && |c.output[0].content.value| > 0 && c.output[0].content.value[0].text.Some?) ==>
              t == c.output[0].content.value[0].text
    ensures (c.outputText.None? && |c.output| > 0
             && !(c.output[0].content.Some? && |c.output[0].content.value| > 0
                  && c.output[0].content.value[0].text.Some?)) ==>
              t == Some("")
  {
    if c.outputText.Some? then c.outputText
    else if |c.output| == 0 then None
    else
      var content := c.output[0].content;
      if content.Some? && |content.value| > 0 && content.value[0].text.Some?
      then content.value[0].text
      else Some("")
  }

  const MockPrefix: string := "⚠️ OpenAI quota error — mock response for \""

  /** The stand-in reply when the model call fails; it quotes the task. */
  function MockText(task: string): (r: string)
    ensures |r| == |MockPrefix| + |task| + 1
    ensures r[..|MockPrefix|] == MockPrefix && r[|MockPrefix| - 1] == '"' && r[|r| - 1] == '"'
    ensures r[|MockPrefix|..|MockPrefix| + |task|] == task
  {
    MockPrefix + task + "\""
  }

  /**
   `POST /api/ghost` from limiter state `lastCall` at clock reading `now`.
   `body` is None when the body cannot be parsed. The result carries the
   reply, the new `lastCall`, and the model input when the model was called.
   */
  function Post(lastCall: int, body: Option<Request>, now: int, call: ModelCall)
    : (out: (Reply, int, Option<ModelInput>))
    ensures body.None? ==> out == (ServerError, lastCall, None)
    ensures body.Some? && !Present(body.value.task) ==> out == (TaskRequired, lastCall, None)
    ensures out.0 == TooManyRequests <==> body.Some? && Present(body.value.task) && now - lastCall < MinInterval
    ensures out.0 == TooManyRequests ==> out.1 == lastCall && out.2.None?
    ensures out.2.Some? <==> body.Some? && Present(body.value.task) && now - lastCall >= MinInterval
    ensures out.2.Some? ==> out.1 == now
    ensures out.2.None? ==> out.1 == lastCall
    ensures out.2.Some? ==> out.2.value == ModelInput(SystemPromptFor(body.value.mode), body.value.task.value)
    ensures Status(out.0) == 200 ==> out.2.Some?
    ensures call.Completed? && out.2.Some? && ResultText(call.completion).Some? ==>
              out.0 == Result(ResultText(call.completion).value)
    ensures call.Completed? && out.2.Some? && ResultText(call.completion).None? ==>
              out.0 == MockResult(MockText(body.value.task.value), "OpenAI quota exceeded or unavailable.")
    ensures call.CallFailed? && out.2.Some? ==> out.0 == MockResult(MockText(body.value.task.value), "OpenAI quota exceeded or unavailable.")
  {
    if body.None? then (ServerError, lastCall, None)
    else if !Present(body.value.task) then (TaskRequired, lastCall, None)
    else if now - lastCall < MinInterval then (TooManyRequests, lastCall, None)
    else
      var task := body.value.task.value;
      var input := ModelInput(SystemPromptFor(body.value.mode), task);
      var reply :=
        match call
        case CallFailed => MockResult(MockText(task), "OpenAI quota exceeded or unavailable.")
        case Completed(c) =>
          match ResultText(c)
          case Some(t) => Result(t)
          case None => MockResult(MockText(task), "OpenAI quota exceeded or unavailable.");
      (reply, now, Some(input))
  }

  /** One request as the limiter sees it. */
  datatype Call = Call(body: Option<Request>, now: int, model: ModelCall)

  /** The clock readings of the calls that reached the model, in order, from limiter state `lastCall`. */
  function Admitted(lastCall: int, calls: seq<Call>): seq<int>
    decreases |calls|
  {
    if |calls| == 0 then []
    else
      var out := Post(lastCall, calls[0].body, calls[0].now, calls[0].model);
      if out.2.Some? then [calls[0].now] + Admitted(out.1, calls[1..])
      else Admitted(out.1, calls[1..])
  }

  /** Each admitted time is at least `MinInterval` after the previous one (or after `start`). */
  predicate SpacedFrom(start: int, times: seq<int>)
  {
    && (|times| > 0 ==> times[0] - start >= MinInterval)
    && forall i :: 0 < i < |times| ==> times[i] - times[i - 1] >= MinInterval
  }

  /** The limiter's promise: any two consecutive admitted calls are at least 1500 ms apart. */
  lemma {:induction false} AdmittedSpaced(lastCall: int, calls: seq<Call>)
    ensures SpacedFrom(lastCall, Admitted(lastCall, calls))
    decreases |calls|
  {
    if |calls| > 0 {
      var out := Post(lastCall, calls[0].body, calls[0].now, calls[0].model);
      AdmittedSpaced(out.1, calls[1..]);
      var rest := Admitted(out.1, calls[1..]);
      if out.2.Some? {
        var all := [calls[0].now] + rest;
        assert all == Admitted(lastCall, calls);
        forall i | 0 < i < |all|
          ensures all[i] - all[i - 1] >= MinInterval
        {
          if i == 1 {
            assert all[1] == rest[0];
          } else {
            assert all[i] == rest[i - 1] && all[i - 1] == rest[i - 2];
          }
        }
      } else {
        assert out.1 == lastCall;
      }
    }
  }

  /** From the module's initial state (`lastCall = 0`) the first admitted call happens at time 1500 or later. */
  lemma FirstAdmittedAfterStart(calls: seq<Call>)
    requires |Admitted(0, calls)| > 0
    ensures Admitted(0, calls)[0] >= MinInterval
  {
    AdmittedSpaced(0, calls);
  }
}
