/**
 * The assistant service's requests and responses as already-parsed values,
 * shared by the repository and the KPI analyzer. Each response records only
 * what the client code inspects: whether the call failed in transport, the
 * HTTP success flag where it is read, and the JSON fields that are looked up
 * (absent fields are `None`).
 */
module Wire {
  import opened Wrappers

  // ---------------------------------------------------------------------------
  // Responses

  /** A call whose body carries an `id` (file upload, thread creation, run start). */
  datatype IdResponse = IdTransportFailure | IdResponded(successful: bool, id: Option<string>)

  /**
   * Reading the id whatever the HTTP status (`optString("id", null)` on the body
   * of any response, or `getString("id")` inside a try block).
   */
  function LenientId(resp: IdResponse): (r: Option<string>)
    ensures resp.IdTransportFailure? ==> r.None?
    ensures resp.IdResponded? ==> r == resp.id
  {
    match resp
    case IdTransportFailure => None
    case IdResponded(_, id) => id
  }

  /** Reading the id only from a successful response. */
  function StrictId(resp: IdResponse): (r: Option<string>)
    ensures r.Some? <==> resp.IdResponded? && resp.successful && resp.id.Some?
    ensures r.Some? ==> r == resp.id
  {
    match resp
    case IdTransportFailure => None
    case IdResponded(ok, id) => if ok then id else None
  }

  /** The strict reading never invents an id: it agrees with the lenient one or gives none. */
  lemma StrictIdRefinesLenientId(resp: IdResponse)
    ensures StrictId(resp).Some? ==> LenientId(resp) == StrictId(resp)
    ensures resp.IdResponded? && !resp.successful ==> StrictId(resp).None?
  {
  }

  /** A call judged only by its HTTP status (message posting). */
  datatype PostResponse = PostTransportFailure | PostResponded(successful: bool)

  /** `response.isSuccessful`, with a transport failure counting as failure. */
  predicate PostSucceeded(resp: PostResponse) {
    resp.PostResponded? && resp.successful
  }

  /** One run-status check: a transport failure, or a body whose `status` may be absent. */
  datatype RunPoll = PollTransportFailure | PollResponded(status: Option<string>)

  /** What a check that was never made would have seen: a run still in progress. */
  const StillRunning: RunPoll := PollResponded(Some("in_progress"))

  /** `{ "text": { "value": … } }` inside a message's content array. */
  datatype TextObject = TextObject(value: Option<string>)
  datatype ContentItem = ContentItem(text: Option<TextObject>)

  /** One element of a thread's `data` array. */
  datatype ThreadMessage = ThreadMessage(role: Option<string>, content: Option<seq<ContentItem>>)

  /** The thread-messages listing; `data` is absent when the body is missing or malformed. */
  datatype FetchResponse = FetchTransportFailure | Fetched(data: Option<seq<ThreadMessage>>)

  // ---------------------------------------------------------------------------
  // Requests

  datatype ContentPart = TextPart(text: string) | ImageFilePart(fileId: string)

  /** An attachment entry: a file id and the tools it is made available to. */
  datatype Attachment = Attachment(fileId: string, tools: seq<string>)

  const CodeInterpreter := "code_interpreter"

  datatype Message = Message(role: string, content: seq<ContentPart>, attachments: seq<Attachment>)

  /** A run request; `codeInterpreterFileIds` is `tool_resources.code_interpreter.file_ids`. */
  datatype RunRequest = RunRequest(assistantId: string, codeInterpreterFileIds: Option<seq<string>>)

  /** The files a run may read through the code interpreter. */
  function ScopedFiles(r: RunRequest): seq<string> {
    r.codeInterpreterFileIds.GetOr([])
  }

  /** The file ids referenced by image parts, in order. */
  function ImageFileIds(parts: seq<ContentPart>): (r: seq<string>)
    ensures |r| <= |parts|
  {
    if parts == [] then []
    else (if parts[0].ImageFilePart? then [parts[0].fileId] else []) + ImageFileIds(parts[1..])
  }

  /** The texts of the text parts, in order. */
  function Texts(parts: seq<ContentPart>): (r: seq<string>)
    ensures |r| <= |parts|
  {
    if parts == [] then []
    else (if parts[0].TextPart? then [parts[0].text] else []) + Texts(parts[1..])
  }

  /** The file ids of a list of attachments, in order. */
  function AttachedFileIds(atts: seq<Attachment>): (r: seq<string>)
    ensures |r| == |atts|
    ensures forall i :: 0 <= i < |atts| ==> r[i] == atts[i].fileId
  {
    if atts == [] then [] else [atts[0].fileId] + AttachedFileIds(atts[1..])
  }

  // ---------------------------------------------------------------------------
  // Calls made, in order, by a pipeline

  datatype Call =
    | UploadCall(fileName: string)
    | CreateThreadCall
    | AddMessageCall(threadId: string, message: Message)
    | StartRunCall(threadId: string, request: RunRequest)
    | PollCall(threadId: string, runId: string)
    | FetchCall(threadId: string)

  /** The pipeline step a call belongs to. */
  function StepOf(c: Call): nat {
    match c
    case UploadCall(_) => 0
    case CreateThreadCall => 1
    case AddMessageCall(_, _) => 2
    case StartRunCall(_, _) => 3
    case PollCall(_, _) => 4
    case FetchCall(_) => 5
  }

  /** `n` status checks of one run. */
  function PollCalls(threadId: string, runId: string, n: nat): (r: seq<Call>)
    ensures |r| == n
    ensures forall i :: 0 <= i < n ==> r[i] == PollCall(threadId, runId)
  {
    seq(n, _ => PollCall(threadId, runId))
  }

  // ---------------------------------------------------------------------------
  // Polling

  /** A poll loop's verdict, how many status checks it made, and whether it then fetched. */
  datatype Polled<T> = Polled(outcome: T, checks: nat, fetched: bool)

  /** The result of a callback-driven pipeline: delivered, or never delivered. */
  datatype Reply<T> = Answered(value: T) | StillPending

  /** The first position whose element satisfies `stop`, or `|xs|` when none does. */
  function FirstWhere<T>(xs: seq<T>, stop: T -> bool): (k: nat)
    ensures k <= |xs|
    ensures forall j :: 0 <= j < k ==> !stop(xs[j])
    ensures k < |xs| ==> stop(xs[k])
  {
    if xs == [] then 0
    else if stop(xs[0]) then 0
    else 1 + FirstWhere(xs[1..], stop)
  }

  /**
   * The first `n` status checks of a bounded loop: the observed ones, and a run
   * still in progress for every check beyond the observations.
   */
  function Observed(polls: seq<RunPoll>, n: nat): (w: seq<RunPoll>)
    ensures |w| == n
    ensures forall i :: 0 <= i < n ==> w[i] == if i < |polls| then polls[i] else StillRunning
  {
    seq(n, i => if 0 <= i < |polls| then polls[i] else StillRunning)
  }
}
