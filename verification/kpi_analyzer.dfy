/**
 * The KPI analyzer: the same upload → thread → message → run → poll → fetch
 * chain as the repository, run synchronously inside one try block, with the
 * department's historical reference file attached next to the current one.
 */
module KpiAnalyzer {
  import opened Wrappers
  import opened Wire
  import OpenAiRepository

  const UploadFailed := "❌ File upload failed."
  const ThreadFailed := "❌ Thread creation failed."
  const RunFailed := "❌ Run failed."
  const PollFailed := "❌ GPT Run failed or timed out."
  const FetchFailed := "❌ Failed to fetch GPT response."

  /** `pollRunStatus` checks at most this many times. */
  const KpiPollLimit := 20

  // ---------------------------------------------------------------------------
  // The prompt

  const PromptHead :=
    "You are an expert KPI prediction assistant. Two files are attached:\n"
    + "- One is the current month’s KPI for the "

  const PromptTail :=
    " department.\n"
    + "- The other contains last year’s trends for the same department.\n"
    + "\n"
    + "Your job:\n"
    + "1. Calculate each KPI’s current value from raw data.\n"
    + "2. Compare it with the same KPI from the same month last year.\n"
    + "3. Use BSC targets to determine: Prediction = Meet | Not Meet\n"
    + "4. Explain the prediction based on trends and targets.\n"
    + "\n"
    + "Output format:\n"
    + "\n"
    + "KPI: <name>\n"
    + "Current Value: <value>\n"
    + "Last Year (Same Month): <value>\n"
    + "Target: <target>\n"
    + "Prediction: Meet | Not Meet\n"
    + "Reason: <reason>"

  /** The fixed prompt with the department name spliced in verbatim. */
  function Prompt(department: string): (r: string)
    ensures |r| == |PromptHead| + |department| + |PromptTail|
    ensures r[..|PromptHead|] == PromptHead
    ensures r[|PromptHead|..|PromptHead| + |department|] == department
    ensures r[|PromptHead| + |department|..] == PromptTail
  {
    var r := PromptHead + department + PromptTail;
    assert r[..|PromptHead|] == PromptHead;
    assert r[|PromptHead|..|PromptHead| + |department|] == department;
    assert r[|PromptHead| + |department|..] == PromptTail;
    r
  }

  /** Different departments give different prompts. */
  lemma PromptIsInjective(a: string, b: string)
    requires Prompt(a) == Prompt(b)
    ensures a == b
  {
    assert |a| == |b|;
    assert a == Prompt(a)[|PromptHead|..|PromptHead| + |a|];
  }

  // ---------------------------------------------------------------------------
  // Attachments and run file ids

  /** `startRun`'s `file_ids`: the current file, then the historical one when given. */
  function RunFileIds(fileId: string, historicalFileId: Option<string>): (r: seq<string>)
    ensures |r| == (if historicalFileId.Some? then 2 else 1)
    ensures r[0] == fileId
    ensures historicalFileId.Some? ==> r[1] == historicalFileId.value
  {
    [fileId] + (if historicalFileId.Some? then [historicalFileId.value] else [])
  }

  /**
   * `sendMessage`'s attachments: the current file first, the historical file
   * only when present, each for the code interpreter, in the run's order.
   */
  function Attachments(fileId: string, historicalFileId: Option<string>): (r: seq<Attachment>)
    ensures AttachedFileIds(r) == RunFileIds(fileId, historicalFileId)
    ensures forall i :: 0 <= i < |r| ==> r[i].tools == [CodeInterpreter]
  {
    var current := Attachment(fileId, [CodeInterpreter]);
    match historicalFileId
    case None => [current]
    case Some(h) => [current, Attachment(h, [CodeInterpreter])]
  }

  /** The KPI message: one text part holding the prompt, plus the attachments. */
  function KpiMessage(fileId: string, prompt: string, historicalFileId: Option<string>): (m: Message)
    ensures m.role == "user" && |m.content| == 1
    ensures Texts(m.content) == [prompt] && ImageFileIds(m.content) == []
    ensures m.attachments == Attachments(fileId, historicalFileId)
  {
    Message("user", [TextPart(prompt)], Attachments(fileId, historicalFileId))
  }

  /** The KPI run always scopes the code interpreter, to the attached files in order. */
  function KpiRunRequest(assistantId: string, fileId: string, historicalFileId: Option<string>): (r: RunRequest)
    ensures r.assistantId == assistantId
    ensures r.codeInterpreterFileIds == Some(RunFileIds(fileId, historicalFileId))
    ensures ScopedFiles(r) == AttachedFileIds(Attachments(fileId, historicalFileId))
  {
    RunRequest(assistantId, Some(RunFileIds(fileId, historicalFileId)))
  }

  // ---------------------------------------------------------------------------
  // pollRunStatus

  predicate IsCompleted(p: RunPoll) {
    p == PollResponded(Some("completed"))
  }

  /**
   * The checks that end `pollRunStatus`: "completed", "failed", and any check
   * without a readable status (missing body or field, or an exception).
   */
  predicate EndsKpiPoll(p: RunPoll) {
    p.PollTransportFailure? || p.status.None? || p.status == Some("completed") || p.status == Some("failed")
  }

  /** The loop over a window of checks: true exactly when it ends on "completed". */
  function KpiPollOver(w: seq<RunPoll>): (r: Polled<bool>)
    ensures var k := FirstWhere(w, EndsKpiPoll);
      && (k == |w| ==> r == Polled(false, |w|, false))
      && (k < |w| ==> r == Polled(IsCompleted(w[k]), k + 1, false))
  {
    if w == [] then Polled(false, 0, false)
    else if EndsKpiPoll(w[0]) then Polled(IsCompleted(w[0]), 1, false)
    else
      var rest := KpiPollOver(w[1..]);
      Polled(rest.outcome, rest.checks + 1, false)
  }

  /**
   * `pollRunStatus`: at most 20 checks; true on the first "completed", false
   * on the first "failed" or unreadable check, false after 20 pending checks.
   */
  function PollRunStatus(polls: seq<RunPoll>): (r: Polled<bool>)
    ensures 1 <= r.checks <= KpiPollLimit
    ensures r.outcome ==> r.checks <= |polls| && IsCompleted(polls[r.checks - 1])
                          && forall j :: 0 <= j < r.checks - 1 ==> !EndsKpiPoll(polls[j])
    ensures (forall i :: 0 <= i < |polls| && i < KpiPollLimit ==> !EndsKpiPoll(polls[i]))
            ==> r == Polled(false, KpiPollLimit, false)
    ensures forall i :: (0 <= i < |polls| && i < KpiPollLimit && EndsKpiPoll(polls[i])
                         && (forall j :: 0 <= j < i ==> !EndsKpiPoll(polls[j])))
                        ==> r == Polled(IsCompleted(polls[i]), i + 1, false)
  {
    var w := Observed(polls, KpiPollLimit);
    assert forall i :: 0 <= i < |polls| && i < KpiPollLimit ==> w[i] == polls[i];
    assert forall i :: |polls| <= i < KpiPollLimit ==> !EndsKpiPoll(w[i]);
    KpiPollOver(w)
  }

  /** Completion on the third check (of at most 20) ends the loop after exactly three checks. */
  lemma PollRunStatusThirdCheck(rest: seq<RunPoll>)
    ensures PollRunStatus([PollResponded(Some("queued")), PollResponded(Some("in_progress")),
                           PollResponded(Some("completed"))] + rest) == Polled(true, 3, false)
  {
    var polls := [PollResponded(Some("queued")), PollResponded(Some("in_progress")),
                  PollResponded(Some("completed"))] + rest;
    assert !EndsKpiPoll(polls[0]) && !EndsKpiPoll(polls[1]) && EndsKpiPoll(polls[2]);
  }

  // ---------------------------------------------------------------------------
  // fetchResponse

  /**
   * `fetchResponse`: `data[0].content[0].text.value`, whatever the role, read
   * with throwing getters, so any missing field (or an empty `data`) gives null.
   */
  function FetchReply(f: FetchResponse): (r: Option<string>)
    ensures r.Some? <==>
      && f.Fetched? && f.data.Some? && |f.data.value| > 0
      && f.data.value[0].content.Some? && |f.data.value[0].content.value| > 0
      && f.data.value[0].content.value[0].text.Some?
      && f.data.value[0].content.value[0].text.value.value.Some?
    ensures r.Some? ==> r == f.data.value[0].content.value[0].text.value.value
  {
    match f
    case FetchTransportFailure => None
    case Fetched(data) =>
      if data.None? || |data.value| == 0 then None
      else match data.value[0].content
        case None => None
        case Some(items) =>
          if |items| == 0 then None
          else match items[0].text
            case None => None
            case Some(t) => t.value
  }

  /**
   * The KPI reading and the repository's `fetchMessages` agree whenever the KPI
   * reading finds a value; a text object without a value is null here but the
   * empty text there.
   */
  lemma FetchRulesAgree(f: FetchResponse)
    ensures FetchReply(f).Some? ==> OpenAiRepository.FetchMessages(f) == FetchReply(f).value
    ensures FetchReply(f).None? && f.Fetched? && f.data.Some? && |f.data.value| > 0
            && OpenAiRepository.FirstTextValue(f.data.value[0]).Some?
            ==> OpenAiRepository.FetchMessages(f) == ""
  {
  }

  // ---------------------------------------------------------------------------
  // analyzeKPI

  /** How `sendMessage` ended: it returned (its status is never read) or threw. */
  datatype MessageSent = SendReturned(successful: bool) | SendThrew(message: Option<string>)

  /** What each remote step of the KPI pipeline reports. */
  datatype KpiOutcomes = KpiOutcomes(
    upload: IdResponse,
    thread: IdResponse,
    message: MessageSent,
    run: IdResponse,
    polls: seq<RunPoll>,
    fetch: FetchResponse)

  /** The report text and the calls made. */
  datatype KpiRun = KpiRun(result: string, calls: seq<Call>)

  /** The text of the catch block: the exception message, "null" when it has none. */
  function ExceptionText(message: Option<string>): (r: string)
    ensures |r| > |RunFailed|
    ensures r[..|RunFailed| + 1] == RunFailed + "\n"
    ensures message.Some? ==> r[|RunFailed| + 1..] == message.value
  {
    var r := RunFailed + "\n" + message.GetOr("null");
    assert r[..|RunFailed| + 1] == RunFailed + "\n";
    r
  }

  /**
   * The step that ends the pipeline before polling: 0 upload, 1 thread, 2 an
   * exception from sending the message, 3 run start; 4 once the run started.
   */
  function FirstFailedStep(o: KpiOutcomes): (n: nat)
    ensures n <= 4
    ensures n == 0 <==> LenientId(o.upload).None?
    ensures n == 1 <==> LenientId(o.upload).Some? && LenientId(o.thread).None?
    ensures n == 2 <==> LenientId(o.upload).Some? && LenientId(o.thread).Some? && o.message.SendThrew?
    ensures n == 3 <==> LenientId(o.upload).Some? && LenientId(o.thread).Some? && o.message.SendReturned?
                        && StrictId(o.run).None?
    ensures n == 4 <==> LenientId(o.upload).Some? && LenientId(o.thread).Some?
                        && o.message.SendReturned? && StrictId(o.run).Some?
  {
    if LenientId(o.upload).None? then 0
    else if LenientId(o.thread).None? then 1
    else if o.message.SendThrew? then 2
    else if StrictId(o.run).None? then 3
    else 4
  }

  /** The requests made before polling, in order. */
  function KpiRequests(fileName: string, assistantId: string, department: string, historicalFileId: Option<string>, o: KpiOutcomes): (c: seq<Call>)
    ensures |c| == 4
    ensures forall i :: 0 <= i < 4 ==> StepOf(c[i]) == i
  {
    var fileId := LenientId(o.upload).GetOr("");
    var threadId := LenientId(o.thread).GetOr("");
    [ UploadCall(fileName),
      CreateThreadCall,
      AddMessageCall(threadId, KpiMessage(fileId, Prompt(department), historicalFileId)),
      StartRunCall(threadId, KpiRunRequest(assistantId, fileId, historicalFileId)) ]
  }

  /** Polling and fetching once the run started: timed-out or failed runs are never fetched. */
  function AfterKpiRunStarted(before: seq<Call>, threadId: string, runId: string, o: KpiOutcomes): (r: KpiRun)
    ensures var p := PollRunStatus(o.polls);
      && |r.calls| == |before| + p.checks + (if p.outcome then 1 else 0)
      && r.calls[..|before|] == before
      && r.calls[|before|..|before| + p.checks] == PollCalls(threadId, runId, p.checks)
      && (p.outcome ==> r.calls[|r.calls| - 1] == FetchCall(threadId))
      && (!p.outcome ==> r.result == PollFailed)
      && (p.outcome ==> r.result == FetchReply(o.fetch).GetOr(FetchFailed))
  {
    var p := PollRunStatus(o.polls);
    var polls := PollCalls(threadId, runId, p.checks);
    var calls := before + polls + (if p.outcome then [FetchCall(threadId)] else []);
    assert calls[|before|..|before| + p.checks] == polls;
    KpiRun(if p.outcome then FetchReply(o.fetch).GetOr(FetchFailed) else PollFailed, calls)
  }

  /**
   * `analyzeKPI`: stops at the first failing step with its message; the
   * message send's status is never checked, but an exception from it (like
   * any exception in the block) yields the run-failed text with its message.
   */
  function AnalyzeKpi(fileName: string, assistantId: string, department: string, historicalFileId: Option<string>, o: KpiOutcomes): (r: KpiRun)
    // a failed upload or thread creation ends the pipeline after that request
    ensures LenientId(o.upload).None? ==> r == KpiRun(UploadFailed, [UploadCall(fileName)])
    ensures LenientId(o.upload).Some? && LenientId(o.thread).None? ==>
      r == KpiRun(ThreadFailed, [UploadCall(fileName), CreateThreadCall])
    // an exception from the message post is reported with its message
    ensures LenientId(o.upload).Some? && LenientId(o.thread).Some? && o.message.SendThrew? ==>
      && r.result == ExceptionText(o.message.message)
      && r.calls == [UploadCall(fileName), CreateThreadCall,
                     AddMessageCall(LenientId(o.thread).value,
                                    KpiMessage(LenientId(o.upload).value, Prompt(department), historicalFileId))]
    // a run that gives no id ends the pipeline after the run request
    ensures LenientId(o.upload).Some? && LenientId(o.thread).Some? && o.message.SendReturned?
            && StrictId(o.run).None? ==>
      && r.result == RunFailed
      && r.calls == KpiRequests(fileName, assistantId, department, historicalFileId, o)
    // once the run started: the four requests, the status checks, a fetch
    // only after completion, and the poll or fetch verdict
    ensures LenientId(o.upload).Some? && LenientId(o.thread).Some? && o.message.SendReturned?
            && StrictId(o.run).Some? ==>
      var p := PollRunStatus(o.polls);
      && |r.calls| == 4 + p.checks + (if p.outcome then 1 else 0)
      && r.calls[..4] == KpiRequests(fileName, assistantId, department, historicalFileId, o)
      && r.calls[4..4 + p.checks] == PollCalls(LenientId(o.thread).value, StrictId(o.run).value, p.checks)
      && (p.outcome ==> r.calls[|r.calls| - 1] == FetchCall(LenientId(o.thread).value))
      && (!p.outcome ==> r.result == PollFailed)
      && (p.outcome ==> r.result == FetchReply(o.fetch).GetOr(FetchFailed))
  {
    var n := FirstFailedStep(o);
    var requests := KpiRequests(fileName, assistantId, department, historicalFileId, o);
    if n == 0 then KpiRun(UploadFailed, requests[..1])
    else if n == 1 then KpiRun(ThreadFailed, requests[..2])
    else if n == 2 then KpiRun(ExceptionText(o.message.message), requests[..3])
    else if n == 3 then KpiRun(RunFailed, requests)
    else AfterKpiRunStarted(requests, LenientId(o.thread).value, StrictId(o.run).value, o)
  }

  /** A completed run with a readable first message reports that message's text. */
  lemma KpiReportsFetchedText(fileName: string, assistantId: string, department: string, historicalFileId: Option<string>, o: KpiOutcomes)
    requires FirstFailedStep(o) == 4 && PollRunStatus(o.polls).outcome && FetchReply(o.fetch).Some?
    ensures AnalyzeKpi(fileName, assistantId, department, historicalFileId, o).result == FetchReply(o.fetch).value
  {
  }

  /** Whether the message post succeeded makes no difference to the report. */
  lemma MessageStatusIgnored(fileName: string, assistantId: string, department: string, historicalFileId: Option<string>, o: KpiOutcomes)
    ensures AnalyzeKpi(fileName, assistantId, department, historicalFileId, o.(message := SendReturned(false)))
         == AnalyzeKpi(fileName, assistantId, department, historicalFileId, o.(message := SendReturned(true)))
  {
  }

  /** Run and attachments agree: the run reads exactly the files the message attached. */
  lemma RunReadsAttachedFiles(fileName: string, assistantId: string, department: string, historicalFileId: Option<string>, o: KpiOutcomes)
    requires FirstFailedStep(o) >= 3
    ensures var calls := AnalyzeKpi(fileName, assistantId, department, historicalFileId, o).calls;
      && calls[2].AddMessageCall? && calls[3].StartRunCall?
      && ScopedFiles(calls[3].request) == AttachedFileIds(calls[2].message.attachments)
      && AttachedFileIds(calls[2].message.attachments)[0] == LenientId(o.upload).value
  {
    var calls := AnalyzeKpi(fileName, assistantId, department, historicalFileId, o).calls;
    var requests := KpiRequests(fileName, assistantId, department, historicalFileId, o);
    assert calls[..4] == requests;
    assert calls[2] == requests[2] && calls[3] == requests[3];
  }

  /**
   * Calls follow the pipeline's step order, and none belongs to a step after
   * the first failing one.
   */
  lemma AnalyzeKpiCallsFollowSteps(fileName: string, assistantId: string, department: string, historicalFileId: Option<string>, o: KpiOutcomes)
    ensures OpenAiRepository.InStepOrder(AnalyzeKpi(fileName, assistantId, department, historicalFileId, o).calls,
                                         FirstFailedStep(o) + 1)
  {
    var calls := AnalyzeKpi(fileName, assistantId, department, historicalFileId, o).calls;
    var requests := KpiRequests(fileName, assistantId, department, historicalFileId, o);
    if FirstFailedStep(o) < 4 {
      OpenAiRepository.StoppedEarlySteps(calls, requests, FirstFailedStep(o));
    } else {
      var p := PollRunStatus(o.polls);
      OpenAiRepository.PollingStageSteps(calls, requests, p.checks, LenientId(o.thread).value, StrictId(o.run).value);
    }
  }
}
