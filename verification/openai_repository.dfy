/**
 * The repository that talks to the assistant service: the upload file name,
 * the message and run payloads, the poll loops, the two ways of picking the
 * reply out of a thread, and the three callback pipelines that chain
 * upload → thread → message → run → poll → fetch. Every network outcome is an
 * input (see `Wire`); what the code decides from them is modelled exactly.
 */
module OpenAiRepository {
  import opened Wrappers
  import opened Text
  import opened Wire

  /** The assistant used by `runAssistant`, `analyzeFile` and the chat run. */
  const AssistantId := "asst_p0ajNzziydcju4E9O37JLWtt"

  const UploadFailed := "❌ File upload failed."
  const ThreadFailed := "❌ Thread creation failed."
  const MessageFailed := "❌ Message send failed."
  const RunFailed := "❌ Assistant run failed."
  const UnknownError := "❌ Unknown error."
  const FetchFailed := "❌ Failed to fetch result."
  const ParseFailed := "❌ Failed to parse result."

  // ---------------------------------------------------------------------------
  // uploadFile: the multipart file name

  const DefaultUploadName := "uploadfile.jpg"

  /** Ends in .jpg, .jpeg, .png, .gif or .webp, in any letter case. */
  predicate HasImageExtension(name: string) {
    || EndsWithIgnoreCase(name, ".jpg")
    || EndsWithIgnoreCase(name, ".jpeg")
    || EndsWithIgnoreCase(name, ".png")
    || EndsWithIgnoreCase(name, ".gif")
    || EndsWithIgnoreCase(name, ".webp")
  }

  /**
   * The name sent for an upload, from the URI's last path segment: a fixed
   * default when there is none, the segment itself when it already has an
   * image extension, and the segment with ".jpg" appended otherwise.
   */
  function UploadFileName(lastSegment: Option<string>): (r: string)
    ensures HasImageExtension(r)
    ensures lastSegment.None? ==> r == DefaultUploadName
    ensures lastSegment.Some? ==>
      && |lastSegment.value| <= |r| && r[..|lastSegment.value|] == lastSegment.value
      && (r == lastSegment.value <==> HasImageExtension(lastSegment.value))
      && (!HasImageExtension(lastSegment.value) ==> r == lastSegment.value + ".jpg")
  {
    match lastSegment
    case None =>
      EndsWithAppended("uploadfile", ".jpg");
      assert "uploadfile" + ".jpg" == DefaultUploadName;
      DefaultUploadName
    case Some(name) =>
      if HasImageExtension(name) then name
      else
        EndsWithAppended(name, ".jpg");
        assert (name + ".jpg")[..|name|] == name;
        name + ".jpg"
  }

  /** Normalising an already normalised name changes nothing. */
  lemma UploadFileNameIdempotent(lastSegment: Option<string>)
    ensures UploadFileName(Some(UploadFileName(lastSegment))) == UploadFileName(lastSegment)
  {
  }

  // ---------------------------------------------------------------------------
  // Payloads

  const AnalysisPrompt :=
    "This spreadsheet contains dashboard KPIs. Please analyze the key trends and provide a short 3–4 bullet point summary."

  /**
   * `addMessage`: an image is sent as a single image part naming the uploaded
   * file; anything else as the fixed analysis prompt, with no attachment.
   */
  function AnalysisMessage(fileId: string, isImage: bool): (m: Message)
    ensures m.role == "user" && |m.content| == 1 && m.attachments == []
    ensures ImageFileIds(m.content) == (if isImage then [fileId] else [])
    ensures Texts(m.content) == (if isImage then [] else [AnalysisPrompt])
  {
    if isImage then Message("user", [ImageFilePart(fileId)], [])
    else Message("user", [TextPart(AnalysisPrompt)], [])
  }

  /**
   * `runAssistant`, `runAssistantWithId`, `runChatAssistant`: the code
   * interpreter is scoped to exactly the given file, and left out when there is none.
   */
  function RunPayload(assistantId: string, fileId: Option<string>): (r: RunRequest)
    ensures r.assistantId == assistantId
    ensures ScopedFiles(r) == (if fileId.Some? then [fileId.value] else [])
    ensures r.codeInterpreterFileIds.Some? <==> fileId.Some?
  {
    match fileId
    case Some(f) => RunRequest(assistantId, Some([f]))
    case None => RunRequest(assistantId, None)
  }

  /** The analysis pipelines give the run the file only when it is not an image. */
  function RunFileFor(fileId: string, isImage: bool): (r: Option<string>)
    ensures r.Some? <==> !isImage
    ensures r.Some? ==> r.value == fileId
  {
    if isImage then None else Some(fileId)
  }

  /** `sendChatMessage`'s payload: the user's text as the only part. */
  function ChatTextMessage(content: string): (m: Message)
    ensures m.role == "user" && m.attachments == []
    ensures Texts(m.content) == [content] && ImageFileIds(m.content) == []
  {
    Message("user", [TextPart(content)], [])
  }

  // ---------------------------------------------------------------------------
  // Reading a thread's messages

  /**
   * `content[0].text.value` of one message, read with `optJSONObject` and
   * `optString("value")`: absent when the content or text object is missing,
   * and "" when only the value is missing.
   */
  function FirstTextValue(m: ThreadMessage): Option<string> {
    match m.content
    case None => None
    case Some(items) =>
      if |items| == 0 then None
      else match items[0].text
        case None => None
        case Some(t) => Some(t.value.GetOr(""))
  }

  /**
   * `fetchMessages`: the text of element 0 of `data`, whatever its role; a
   * fixed message when the fetch fails or the fields are missing.
   */
  function FetchMessages(f: FetchResponse): (r: string)
    ensures f.FetchTransportFailure? ==> r == FetchFailed
    ensures f.Fetched? && (f.data.None? || |f.data.value| == 0) ==> r == ParseFailed
    ensures f.Fetched? && f.data.Some? && |f.data.value| > 0 ==>
      r == FirstTextValue(f.data.value[0]).GetOr(ParseFailed)
  {
    match f
    case FetchTransportFailure => FetchFailed
    case Fetched(data) =>
      if data.None? || |data.value| == 0 then ParseFailed
      else FirstTextValue(data.value[0]).GetOr(ParseFailed)
  }

  /** The role of the first message plays no part in `fetchMessages`. */
  lemma FetchMessagesIgnoresRole(m: ThreadMessage, rest: seq<ThreadMessage>, role: Option<string>)
    ensures FetchMessages(Fetched(Some([m] + rest)))
         == FetchMessages(Fetched(Some([m.(role := role)] + rest)))
  {
  }

  /** A text object without a value reads as the empty reply, not as a parse failure. */
  lemma FetchMessagesMissingValueIsEmpty(rest: seq<ThreadMessage>, role: Option<string>)
    ensures FetchMessages(Fetched(Some([ThreadMessage(role, Some([ContentItem(Some(TextObject(None)))]))] + rest))) == ""
  {
  }

  /** A message counts as the chat reply when it is the assistant's and has a non-empty text. */
  predicate AssistantWithText(m: ThreadMessage) {
    m.role == Some("assistant") && FirstTextValue(m).Some? && FirstTextValue(m).value != ""
  }

  /** The chat rule: the first assistant message with a non-empty first text. */
  function FirstAssistantText(data: seq<ThreadMessage>): (r: Option<string>)
    ensures var k := FirstWhere(data, AssistantWithText);
      && (r.None? <==> k == |data|)
      && (k < |data| ==> r == FirstTextValue(data[k]))
    ensures r.Some? ==> r.value != ""
  {
    if data == [] then None
    else if AssistantWithText(data[0]) then FirstTextValue(data[0])
    else FirstAssistantText(data[1..])
  }

  /** A listing the chat rule reads; a failed or empty fetch gives no reply. */
  function ChatReply(f: FetchResponse): (r: Option<string>)
    ensures r.Some? ==> f.Fetched? && f.data.Some? && r == FirstAssistantText(f.data.value)
    ensures f.Fetched? && f.data.Some? ==> r == FirstAssistantText(f.data.value)
  {
    match f
    case FetchTransportFailure => None
    case Fetched(data) => if data.Some? then FirstAssistantText(data.value) else None
  }

  /**
   * The two selection rules differ: a user message first in the listing is
   * what `fetchMessages` returns, while the chat rule skips it.
   */
  lemma SelectionRulesDiffer(user: string, reply: string)
    requires reply != ""
    ensures var data := [ThreadMessage(Some("user"), Some([ContentItem(Some(TextObject(Some(user))))])),
                         ThreadMessage(Some("assistant"), Some([ContentItem(Some(TextObject(Some(reply))))]))];
      && FetchMessages(Fetched(Some(data))) == user
      && ChatReply(Fetched(Some(data))) == Some(reply)
  {
    var data := [ThreadMessage(Some("user"), Some([ContentItem(Some(TextObject(Some(user))))])),
                 ThreadMessage(Some("assistant"), Some([ContentItem(Some(TextObject(Some(reply))))]))];
    assert !AssistantWithText(data[0]);
    assert data[1..] == [data[1]];
  }

  // ---------------------------------------------------------------------------
  // pollRunAndFetch: no attempt bound

  /** The run status as read by `optString("status", "unknown")`. */
  function StatusText(p: RunPoll): string {
    match p
    case PollTransportFailure => ""
    case PollResponded(status) => status.GetOr("unknown")
  }

  predicate IsCompleted(p: RunPoll) {
    p.PollResponded? && StatusText(p) == "completed"
  }

  predicate IsFailed(p: RunPoll) {
    p.PollResponded? && StatusText(p) == "failed"
  }

  /** The checks that end `pollRunAndFetch`; every other status re-polls. */
  predicate EndsPolling(p: RunPoll) {
    p.PollTransportFailure? || IsCompleted(p) || IsFailed(p)
  }

  /**
   * `pollRunAndFetch` over the statuses the service reports, in order:
   * re-polls until a check ends the loop; a transport failure delivers null,
   * "completed" delivers the fetched text, "failed" the run-failed message.
   * When no observed check ends the loop the callback is still pending.
   */
  function PollRunAndFetch(polls: seq<RunPoll>, fetch: FetchResponse): (r: Polled<Reply<Option<string>>>)
    ensures var k := FirstWhere(polls, EndsPolling);
      && (k == |polls| ==> r == Polled(StillPending, |polls|, false))
      && (k < |polls| ==> r.checks == k + 1 && r.outcome.Answered? && (r.fetched <==> IsCompleted(polls[k])))
      && (k < |polls| && polls[k].PollTransportFailure? ==> r.outcome.value == None)
      && (k < |polls| && IsCompleted(polls[k]) ==> r.outcome.value == Some(FetchMessages(fetch)))
      && (k < |polls| && IsFailed(polls[k]) ==> r.outcome.value == Some(RunFailed))
  {
    if polls == [] then Polled(StillPending, 0, false)
    else if polls[0].PollTransportFailure? then Polled(Answered(None), 1, false)
    else if IsCompleted(polls[0]) then Polled(Answered(Some(FetchMessages(fetch))), 1, true)
    else if IsFailed(polls[0]) then Polled(Answered(Some(RunFailed)), 1, false)
    else
      var rest := PollRunAndFetch(polls[1..], fetch);
      Polled(rest.outcome, rest.checks + 1, rest.fetched)
  }

  /** Completion on the third check, after two pending ones, stops after exactly three checks. */
  lemma PollCompletesOnThirdCheck(fetch: FetchResponse)
    ensures var polls := [PollResponded(Some("queued")), PollResponded(Some("in_progress")),
                          PollResponded(Some("completed")), PollResponded(Some("completed"))];
      PollRunAndFetch(polls, fetch) == Polled(Answered(Some(FetchMessages(fetch))), 3, true)
  {
    var polls := [PollResponded(Some("queued")), PollResponded(Some("in_progress")),
                  PollResponded(Some("completed")), PollResponded(Some("completed"))];
    assert polls[1..][1..] == [polls[2], polls[3]];
  }

  // ---------------------------------------------------------------------------
  // pollAndFetchChatMessage: at most 15 checks

  const ChatPollLimit := 15

  /** The checks that end the chat loop once transport failures are caught; "failed" is not one. */
  predicate EndsChatPoll(p: RunPoll) {
    p.PollTransportFailure? || IsCompleted(p)
  }

  /** The chat loop over a window of checks, with transport failures read as no reply. */
  function ChatPollOver(w: seq<RunPoll>, fetch: FetchResponse): (r: Polled<Option<string>>)
    ensures var k := FirstWhere(w, EndsChatPoll);
      && (k == |w| ==> r == Polled(None, |w|, false))
      && (k < |w| && w[k].PollTransportFailure? ==> r == Polled(None, k + 1, false))
      && (k < |w| && IsCompleted(w[k]) ==> r == Polled(ChatReply(fetch), k + 1, true))
  {
    if w == [] then Polled(None, 0, false)
    else if w[0].PollTransportFailure? then Polled(None, 1, false)
    else if IsCompleted(w[0]) then Polled(ChatReply(fetch), 1, true)
    else
      var rest := ChatPollOver(w[1..], fetch);
      Polled(rest.outcome, rest.checks + 1, rest.fetched)
  }

  /**
   * `pollAndFetchChatMessage` with its transport failures caught (see the
   * as-written variant below): at most 15 checks; on the first "completed" it
   * fetches once and returns the first assistant text, or null; after 15
   * checks without completion it returns null.
   */
  function PollAndFetchChatMessage(polls: seq<RunPoll>, fetch: FetchResponse): (r: Polled<Option<string>>)
    ensures r.checks <= ChatPollLimit
    ensures r.outcome.Some? ==> r.fetched && r.outcome == ChatReply(fetch)
    ensures (forall i :: 0 <= i < |polls| && i < ChatPollLimit ==> !EndsChatPoll(polls[i]))
            ==> r == Polled(None, ChatPollLimit, false)
    ensures forall i :: (0 <= i < |polls| && i < ChatPollLimit && IsCompleted(polls[i])
                         && (forall j :: 0 <= j < i ==> !EndsChatPoll(polls[j])))
                        ==> r == Polled(ChatReply(fetch), i + 1, true)
  {
    var w := Observed(polls, ChatPollLimit);
    var k := FirstWhere(w, EndsChatPoll);
    assert forall i :: 0 <= i < |polls| && i < ChatPollLimit ==> w[i] == polls[i];
    assert forall i :: |polls| <= i < ChatPollLimit ==> !EndsChatPoll(w[i]);
    ChatPollOver(w, fetch)
  }

  /** A "failed" status does not end the chat loop: it keeps checking. */
  lemma ChatPollIgnoresFailed(polls: seq<RunPoll>, fetch: FetchResponse)
    ensures PollAndFetchChatMessage([PollResponded(Some("failed"))] + polls, fetch).checks
            == if PollAndFetchChatMessage(polls, fetch).checks < ChatPollLimit
               then PollAndFetchChatMessage(polls, fetch).checks + 1 else ChatPollLimit
  {
    var p := [PollResponded(Some("failed"))] + polls;
    var w, w' := Observed(p, ChatPollLimit), Observed(polls, ChatPollLimit);
    assert w[0] == PollResponded(Some("failed"));
    assert ChatPollOver(w, fetch).checks == ChatPollOver(w[1..], fetch).checks + 1;
    assert w[1..] == w'[..ChatPollLimit - 1] by {
      forall i | 0 <= i < ChatPollLimit - 1 ensures w[1..][i] == w'[i] {
        assert w[i + 1] == if i + 1 < |p| then p[i + 1] else StillRunning;
      }
    }
    ChatPollPrefix(w', fetch);
  }

  /** Checking one check fewer changes the chat loop only when it ran out. */
  lemma {:induction false} ChatPollPrefix(w: seq<RunPoll>, fetch: FetchResponse)
    requires |w| > 0
    ensures ChatPollOver(w[..|w| - 1], fetch).checks
            == if ChatPollOver(w, fetch).checks < |w| then ChatPollOver(w, fetch).checks else |w| - 1
  {
    var v := w[..|w| - 1];
    if |w| > 1 && !EndsChatPoll(w[0]) {
      assert v[0] == w[0];
      assert v[1..] == w[1..][..|w[1..]| - 1];
      ChatPollPrefix(w[1..], fetch);
      assert ChatPollOver(v, fetch).checks == ChatPollOver(v[1..], fetch).checks + 1;
    } else if |w| > 1 {
      assert v[0] == w[0];
    }
  }

  /** A transport exception escaping a call, or a returned value. */
  datatype Raised<T> = Returned(value: T) | Threw

  /** The chat loop as written: a failed status request or message fetch throws. */
  function ChatPollOverAsWritten(w: seq<RunPoll>, fetch: FetchResponse): (r: Raised<Polled<Option<string>>>)
    ensures var k := FirstWhere(w, EndsChatPoll);
      && (k < |w| && w[k].PollTransportFailure? ==> r.Threw?)
      && (k < |w| && IsCompleted(w[k]) && fetch.FetchTransportFailure? ==> r.Threw?)
  {
    if w == [] then Returned(Polled(None, 0, false))
    else if w[0].PollTransportFailure? then Threw
    else if IsCompleted(w[0]) then
      if fetch.FetchTransportFailure? then Threw else Returned(Polled(ChatReply(fetch), 1, true))
    else
      match ChatPollOverAsWritten(w[1..], fetch)
      case Threw => Threw
      case Returned(rest) => Returned(Polled(rest.outcome, rest.checks + 1, rest.fetched))
  }

  /** `pollAndFetchChatMessage` exactly as written: its `execute()` calls are not guarded. */
  function PollAndFetchChatMessageAsWritten(polls: seq<RunPoll>, fetch: FetchResponse): Raised<Polled<Option<string>>> {
    ChatPollOverAsWritten(Observed(polls, ChatPollLimit), fetch)
  }

  /** A transport failure on the first status check escapes as an exception. */
  lemma ChatPollAsWrittenThrows(polls: seq<RunPoll>, fetch: FetchResponse)
    requires |polls| > 0 && polls[0].PollTransportFailure?
    ensures PollAndFetchChatMessageAsWritten(polls, fetch).Threw?
  {
    assert Observed(polls, ChatPollLimit)[0] == polls[0];
  }

  /**
   * The written loop throws exactly when its ending check is lost in
   * transport, or is a completion whose listing is lost; whenever it returns,
   * it returns what the guarded loop returns.
   */
  lemma {:induction false} ChatPollAsWrittenRefines(w: seq<RunPoll>, fetch: FetchResponse)
    ensures var k := FirstWhere(w, EndsChatPoll);
      ChatPollOverAsWritten(w, fetch).Threw? <==>
        k < |w| && (w[k].PollTransportFailure? || fetch.FetchTransportFailure?)
    ensures ChatPollOverAsWritten(w, fetch).Returned? ==>
      ChatPollOverAsWritten(w, fetch).value == ChatPollOver(w, fetch)
  {
    if w != [] && !EndsChatPoll(w[0]) {
      ChatPollAsWrittenRefines(w[1..], fetch);
    }
  }

  /** Over the 15-check window: a returning written loop agrees with the guarded one. */
  lemma PollAndFetchAsWrittenRefines(polls: seq<RunPoll>, fetch: FetchResponse)
    ensures PollAndFetchChatMessageAsWritten(polls, fetch).Returned? ==>
      PollAndFetchChatMessageAsWritten(polls, fetch).value == PollAndFetchChatMessage(polls, fetch)
  {
    ChatPollAsWrittenRefines(Observed(polls, ChatPollLimit), fetch);
  }

  /**
   * A completed run whose message listing is lost in transport: the written
   * loop throws, where the guarded one reports that it fetched and found nothing.
   */
  lemma ChatPollAsWrittenLosesListing(rest: seq<RunPoll>, fetch: FetchResponse)
    requires fetch.FetchTransportFailure?
    ensures PollAndFetchChatMessageAsWritten([PollResponded(Some("completed"))] + rest, fetch).Threw?
    ensures PollAndFetchChatMessage([PollResponded(Some("completed"))] + rest, fetch) == Polled(None, 1, true)
  {
    var polls := [PollResponded(Some("completed"))] + rest;
    assert Observed(polls, ChatPollLimit)[0] == polls[0];
  }

  /** Where nothing fails in transport, the written loop and the guarded one agree. */
  lemma {:induction false} ChatPollAgreesWithoutTransportFailure(w: seq<RunPoll>, fetch: FetchResponse)
    requires forall i :: 0 <= i < |w| ==> !w[i].PollTransportFailure?
    requires !fetch.FetchTransportFailure?
    ensures ChatPollOverAsWritten(w, fetch) == Returned(ChatPollOver(w, fetch))
  {
    if w != [] && !IsCompleted(w[0]) {
      ChatPollAgreesWithoutTransportFailure(w[1..], fetch);
    }
  }

  // ---------------------------------------------------------------------------
  // sendChatMessage and runChatAssistant

  /** `sendChatMessage`: true exactly for a successful response; exceptions give false. */
  function SendChatMessage(resp: PostResponse): (ok: bool)
    ensures ok <==> resp == PostResponded(true)
  {
    PostSucceeded(resp)
  }

  /** The request a run start sends and the id it yields. */
  datatype RunStart = RunStart(request: RunRequest, runId: Option<string>)

  /** `runChatAssistant`: an id only from a successful response that has one. */
  function RunChatAssistant(fileId: Option<string>, resp: IdResponse): (r: RunStart)
    ensures r.request == RunPayload(AssistantId, fileId)
    ensures r.runId.Some? <==> resp.IdResponded? && resp.successful && resp.id.Some?
    ensures r.runId.Some? ==> r.runId == resp.id
  {
    RunStart(RunPayload(AssistantId, fileId), StrictId(resp))
  }

  // ---------------------------------------------------------------------------
  // The analysis pipelines

  /** What each remote step of an analysis pipeline reports. */
  datatype AnalysisOutcomes = AnalysisOutcomes(
    upload: IdResponse,
    thread: IdResponse,
    message: PostResponse,
    run: IdResponse,
    polls: seq<RunPoll>,
    fetch: FetchResponse)

  /** The callback's text (if delivered), the ids reported with it, and the calls made. */
  datatype Analysis = Analysis(result: Reply<string>, threadId: string, fileId: string, calls: seq<Call>)

  /** The step that fails first (0 upload … 3 run start), or 4 when polling is reached. */
  function FirstFailedStep(o: AnalysisOutcomes): (n: nat)
    ensures n <= 4
    ensures n == 0 <==> LenientId(o.upload).None?
    ensures n == 1 <==> LenientId(o.upload).Some? && LenientId(o.thread).None?
    ensures n == 2 <==> LenientId(o.upload).Some? && LenientId(o.thread).Some? && !PostSucceeded(o.message)
    ensures n == 3 <==> LenientId(o.upload).Some? && LenientId(o.thread).Some? && PostSucceeded(o.message)
                        && LenientId(o.run).None?
    ensures n == 4 <==> LenientId(o.upload).Some? && LenientId(o.thread).Some? && PostSucceeded(o.message)
                        && LenientId(o.run).Some?
  {
    if LenientId(o.upload).None? then 0
    else if LenientId(o.thread).None? then 1
    else if !PostSucceeded(o.message) then 2
    else if LenientId(o.run).None? then 3
    else 4
  }

  /** The failure text for a step that failed before polling. */
  function StepFailure(step: nat): string
    requires step < 4
  {
    if step == 0 then UploadFailed
    else if step == 1 then ThreadFailed
    else if step == 2 then MessageFailed
    else RunFailed
  }

  /**
   * The four requests made before polling, in order, each carrying the ids
   * the earlier steps returned. A pipeline makes the first of them up to and
   * including the step that fails.
   */
  function RequestsBeforePolling(lastSegment: Option<string>, isImage: bool, assistantId: string, o: AnalysisOutcomes): (c: seq<Call>)
    ensures |c| == 4
    ensures forall i :: 0 <= i < 4 ==> StepOf(c[i]) == i
  {
    var fileId := LenientId(o.upload).GetOr("");
    var threadId := LenientId(o.thread).GetOr("");
    [ UploadCall(UploadFileName(lastSegment)),
      CreateThreadCall,
      AddMessageCall(threadId, AnalysisMessage(fileId, isImage)),
      StartRunCall(threadId, RunPayload(assistantId, RunFileFor(fileId, isImage))) ]
  }

  /** The polling stage: status checks, then the fetch when the run completed. */
  function AfterRunStarted(before: seq<Call>, threadId: string, fileId: string, runId: string, o: AnalysisOutcomes): (r: Analysis)
    ensures var p := PollRunAndFetch(o.polls, o.fetch);
      && r.threadId == threadId && r.fileId == fileId
      && |r.calls| == |before| + p.checks + (if p.fetched then 1 else 0)
      && r.calls[..|before|] == before
      && r.calls[|before|..|before| + p.checks] == PollCalls(threadId, runId, p.checks)
      && (p.fetched ==> r.calls[|r.calls| - 1] == FetchCall(threadId))
      && (p.outcome.StillPending? ==> r.result.StillPending?)
      && (p.outcome.Answered? ==> r.result == Answered(p.outcome.value.GetOr(UnknownError)))
  {
    var p := PollRunAndFetch(o.polls, o.fetch);
    var polls := PollCalls(threadId, runId, p.checks);
    var calls := before + polls + (if p.fetched then [FetchCall(threadId)] else []);
    assert calls[|before|..|before| + p.checks] == polls;
    var result := match p.outcome
      case StillPending => StillPending
      case Answered(v) => Answered(v.GetOr(UnknownError));
    Analysis(result, threadId, fileId, calls)
  }

  /**
   * The pipeline shared by `analyzeFile`, `analyzeWithAssistant` and
   * `analyzeWithAssistantAndReturnIds`: upload, create a thread, add the
   * message, start the run, then poll and fetch, stopping at the first
   * failing step with that step's message.
   */
  function Analyze(lastSegment: Option<string>, isImage: bool, assistantId: string, o: AnalysisOutcomes): (r: Analysis)
    // short circuit: the first failing step ends the pipeline with its own message
    ensures FirstFailedStep(o) < 4 ==>
      && r.result == Answered(StepFailure(FirstFailedStep(o)))
      && r.calls == RequestsBeforePolling(lastSegment, isImage, assistantId, o)[..FirstFailedStep(o) + 1]
      && r.threadId == "" && r.fileId == ""
    // once polling starts: every request made, the real ids, and the poll
    // verdict with null read as an unknown error
    ensures FirstFailedStep(o) == 4 ==>
      var p := PollRunAndFetch(o.polls, o.fetch);
      && |r.calls| == 4 + p.checks + (if p.fetched then 1 else 0)
      && r.calls[..4] == RequestsBeforePolling(lastSegment, isImage, assistantId, o)
      && r.threadId == LenientId(o.thread).value && r.fileId == LenientId(o.upload).value
      && r.calls[4..4 + p.checks] == PollCalls(LenientId(o.thread).value, LenientId(o.run).value, p.checks)
      && (p.fetched ==> r.calls[|r.calls| - 1] == FetchCall(LenientId(o.thread).value))
      && (p.outcome.StillPending? ==> r.result.StillPending?)
      && (p.outcome.Answered? ==> r.result == Answered(p.outcome.value.GetOr(UnknownError)))
  {
    var n := FirstFailedStep(o);
    var requests := RequestsBeforePolling(lastSegment, isImage, assistantId, o);
    if n < 4 then Analysis(Answered(StepFailure(n)), "", "", requests[..n + 1])
    else AfterRunStarted(requests, LenientId(o.thread).value, LenientId(o.upload).value, LenientId(o.run).value, o)
  }

  /** The message request carries the uploaded file as the message payload decides. */
  lemma AnalyzeMessageRequest(lastSegment: Option<string>, isImage: bool, assistantId: string, o: AnalysisOutcomes)
    requires FirstFailedStep(o) >= 2
    ensures var calls := Analyze(lastSegment, isImage, assistantId, o).calls;
      |calls| > 2 && calls[2] == AddMessageCall(LenientId(o.thread).value, AnalysisMessage(LenientId(o.upload).value, isImage))
  {
  }

  /** `analyzeFile`: the shared pipeline run with the built-in assistant. */
  function AnalyzeFile(lastSegment: Option<string>, isImage: bool, o: AnalysisOutcomes): (r: Reply<string>)
    ensures r == Analyze(lastSegment, isImage, AssistantId, o).result
    ensures FirstFailedStep(o) >= 3 ==>
      Analyze(lastSegment, isImage, AssistantId, o).calls[3].request.assistantId == AssistantId
  {
    Analyze(lastSegment, isImage, AssistantId, o).result
  }

  /** `analyzeWithAssistant`: the shared pipeline run with the caller's assistant. */
  function AnalyzeWithAssistant(lastSegment: Option<string>, isImage: bool, assistantId: string, o: AnalysisOutcomes): (r: Reply<string>)
    ensures r == Analyze(lastSegment, isImage, assistantId, o).result
    ensures FirstFailedStep(o) >= 3 ==>
      Analyze(lastSegment, isImage, assistantId, o).calls[3].request.assistantId == assistantId
  {
    Analyze(lastSegment, isImage, assistantId, o).result
  }

  /** The triple `analyzeWithAssistantAndReturnIds` hands to its callback. */
  datatype TaggedResult = TaggedResult(text: string, threadId: string, fileId: string)

  /**
   * `analyzeWithAssistantAndReturnIds`: empty ids with any failure before the
   * run, the real thread and file ids once polling starts.
   */
  function AnalyzeWithAssistantAndReturnIds(lastSegment: Option<string>, isImage: bool, assistantId: string, o: AnalysisOutcomes): (r: Reply<TaggedResult>)
    ensures FirstFailedStep(o) < 4 ==> r == Answered(TaggedResult(StepFailure(FirstFailedStep(o)), "", ""))
    ensures FirstFailedStep(o) == 4 && r.Answered? ==>
      r.value.threadId == LenientId(o.thread).value && r.value.fileId == LenientId(o.upload).value
    ensures r.StillPending? <==> FirstFailedStep(o) == 4 && PollRunAndFetch(o.polls, o.fetch).outcome.StillPending?
  {
    var a := Analyze(lastSegment, isImage, assistantId, o);
    match a.result
    case StillPending => StillPending
    case Answered(text) => Answered(TaggedResult(text, a.threadId, a.fileId))
  }

  /**
   * Calls follow the pipeline's step order, and none belongs to a step after
   * the first failing one.
   */
  lemma AnalyzeCallsFollowSteps(lastSegment: Option<string>, isImage: bool, assistantId: string, o: AnalysisOutcomes)
    ensures InStepOrder(Analyze(lastSegment, isImage, assistantId, o).calls, FirstFailedStep(o) + 1)
  {
    if FirstFailedStep(o) < 4 {
      StoppedEarlyCallsFollowSteps(lastSegment, isImage, assistantId, o);
    } else {
      PollingCallsFollowSteps(lastSegment, isImage, assistantId, o);
    }
  }

  /** Calls never go back to an earlier step, and none belongs to a step after `last`. */
  predicate InStepOrder(calls: seq<Call>, last: nat) {
    && (forall i :: 0 <= i < |calls| ==> StepOf(calls[i]) <= last)
    && (forall i, j :: 0 <= i < j < |calls| ==> StepOf(calls[i]) <= StepOf(calls[j]))
  }

  /** A pipeline that stops before polling makes its requests in step order. */
  lemma StoppedEarlyCallsFollowSteps(lastSegment: Option<string>, isImage: bool, assistantId: string, o: AnalysisOutcomes)
    requires FirstFailedStep(o) < 4
    ensures InStepOrder(Analyze(lastSegment, isImage, assistantId, o).calls, FirstFailedStep(o) + 1)
  {
    var calls := Analyze(lastSegment, isImage, assistantId, o).calls;
    StoppedEarlySteps(calls, RequestsBeforePolling(lastSegment, isImage, assistantId, o), FirstFailedStep(o));
  }

  /** A pipeline that reaches polling makes its requests, checks and fetch in step order. */
  lemma PollingCallsFollowSteps(lastSegment: Option<string>, isImage: bool, assistantId: string, o: AnalysisOutcomes)
    requires FirstFailedStep(o) == 4
    ensures InStepOrder(Analyze(lastSegment, isImage, assistantId, o).calls, 5)
  {
    var calls := Analyze(lastSegment, isImage, assistantId, o).calls;
    var requests := RequestsBeforePolling(lastSegment, isImage, assistantId, o);
    var p := PollRunAndFetch(o.polls, o.fetch);
    PollingStageSteps(calls, requests, p.checks, LenientId(o.thread).value, LenientId(o.run).value);
  }

  /** Stopped at step n: the requests of steps 0 to n, in order. */
  lemma StoppedEarlySteps(calls: seq<Call>, before: seq<Call>, n: nat)
    requires |before| == 4 && forall i :: 0 <= i < 4 ==> StepOf(before[i]) == i
    requires n < 4 && calls == before[..n + 1]
    ensures forall i :: 0 <= i < |calls| ==> StepOf(calls[i]) == i <= n
    ensures forall i, j :: 0 <= i < j < |calls| ==> StepOf(calls[i]) <= StepOf(calls[j])
  {
    assert forall i :: 0 <= i < |calls| ==> calls[i] == before[i];
  }

  /** Once polling starts: the four requests by step, then status checks, then at most one fetch. */
  lemma PollingStageSteps(calls: seq<Call>, before: seq<Call>, k: nat, threadId: string, runId: string)
    requires |before| == 4 && forall i :: 0 <= i < 4 ==> StepOf(before[i]) == i
    requires 4 + k <= |calls| <= 5 + k
    requires calls[..4] == before
    requires calls[4..4 + k] == PollCalls(threadId, runId, k)
    requires |calls| == 5 + k ==> calls[|calls| - 1] == FetchCall(threadId)
    ensures forall i :: 0 <= i < |calls| ==>
      StepOf(calls[i]) == if i < 4 then i else if i < 4 + k then 4 else 5
    ensures forall i, j :: 0 <= i < j < |calls| ==> StepOf(calls[i]) <= StepOf(calls[j])
  {
    forall i | 0 <= i < |calls|
      ensures StepOf(calls[i]) == if i < 4 then i else if i < 4 + k then 4 else 5
    {
      if i < 4 {
        assert calls[i] == calls[..4][i];
      } else if i < 4 + k {
        assert calls[i] == calls[4..4 + k][i - 4];
      }
    }
  }

  /** A failed upload ends the pipeline before any thread, message or run request. */
  lemma UploadFailureShortCircuits(lastSegment: Option<string>, isImage: bool, assistantId: string, o: AnalysisOutcomes)
    requires LenientId(o.upload).None?
    ensures Analyze(lastSegment, isImage, assistantId, o).calls == [UploadCall(UploadFileName(lastSegment))]
  {
  }

  /** The run reads the uploaded file through the code interpreter exactly when it is not an image. */
  lemma RunScopedOnlyForNonImages(lastSegment: Option<string>, isImage: bool, assistantId: string, o: AnalysisOutcomes)
    requires FirstFailedStep(o) >= 3
    ensures var req := Analyze(lastSegment, isImage, assistantId, o).calls[3].request;
      ScopedFiles(req) == (if isImage then [] else [LenientId(o.upload).value])
  {
  }

  /**
   * A successful one-shot analysis: upload "file-abc", thread "thread-1",
   * run "run-1", completion on the first check and a reply in the listing.
   */
  lemma SuccessfulAnalysis(lastSegment: Option<string>, isImage: bool, assistantId: string)
    ensures var o := AnalysisOutcomes(
              IdResponded(true, Some("file-abc")), IdResponded(true, Some("thread-1")),
              PostResponded(true), IdResponded(true, Some("run-1")),
              [PollResponded(Some("completed"))],
              Fetched(Some([ThreadMessage(Some("assistant"), Some([ContentItem(Some(TextObject(Some("3 bullet points..."))))]))])));
      AnalyzeWithAssistantAndReturnIds(lastSegment, isImage, assistantId, o)
      == Answered(TaggedResult("3 bullet points...", "thread-1", "file-abc"))
  {
    var fetch := Fetched(Some([ThreadMessage(Some("assistant"), Some([ContentItem(Some(TextObject(Some("3 bullet points..."))))]))]));
    var o := AnalysisOutcomes(
      IdResponded(true, Some("file-abc")), IdResponded(true, Some("thread-1")),
      PostResponded(true), IdResponded(true, Some("run-1")),
      [PollResponded(Some("completed"))], fetch);
    assert FirstFailedStep(o) == 4;
    assert FetchMessages(fetch) == "3 bullet points...";
    assert PollRunAndFetch(o.polls, fetch) == Polled(Answered(Some("3 bullet points...")), 1, true);
    var a := Analyze(lastSegment, isImage, assistantId, o);
    assert a.result == Answered("3 bullet points...") && a.threadId == "thread-1" && a.fileId == "file-abc";
  }
}
