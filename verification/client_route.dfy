/**
 How the two chat components' requests meet the inference route: the mode
 names the career page sends, and what the route makes of a request built
 from an empty document.
 */
module ClientRoute {
  import opened Options
  import opened Strings
  import GhostClient
  import GhostRoute

  /** The `mode` string the career page puts in its request body. */
  function ModeName(m: GhostClient.Mode): string
  {
    match m
    case Career => "career"
    case InterviewMock => "interview_mock"
  }

  /** The route has no prompt for "interview_mock": that mode is answered with the work prompt. */
  lemma PromptPerClientMode()
    ensures GhostRoute.SystemPromptFor(Some(ModeName(GhostClient.Career))) == GhostRoute.CareerPrompt
    ensures GhostRoute.SystemPromptFor(Some(ModeName(GhostClient.InterviewMock))) == GhostRoute.WorkPrompt
    ensures GhostRoute.SystemPromptFor(None) == GhostRoute.WorkPrompt
  {
  }

  /**
   A submission with a blank task and an attached file whose extraction is
   empty sends an empty task, which the route refuses with 400 without
   touching its rate limiter.
   */
  lemma EmptyDocumentRefused(s: GhostClient.State, text: Option<string>, reply: GhostClient.GhostReply,
                             lastCall: int, now: int, call: GhostRoute.ModelCall)
    requires Trim(s.task) == "" && s.file.Some? && !Present(text)
    ensures var out := GhostClient.Submit(s, GhostClient.FileAnswer(true, None, text), reply);
            && out.request.Some? && out.request.value.task == "" && out.request.value.cost == 1
            && GhostRoute.Post(lastCall, Some(GhostRoute.Request(Some(out.request.value.task), Some(ModeName(s.mode)))),
                               now, call)
               == (GhostRoute.TaskRequired, lastCall, None)
  {
  }
}
