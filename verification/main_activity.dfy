/**
 * The navigation host's chat state: what starting an analysis, moving on to
 * chat, entering the chat route, and opening or deleting a history entry do
 * to the remembered thread, file, summary and transcript.
 */
module MainActivity {
  import opened Wrappers
  import opened Text
  import opened ChatSessions
  import ChatStore

  /** The destinations of the navigation graph. */
  datatype Route = Home | Result | Chat(threadId: string, fileId: string) | History

  /** The state remembered across destinations; the picked file is an opaque handle. */
  datatype NavState = NavState(
    uploadedFile: Option<string>,
    isImage: bool,
    chatThreadId: Option<string>,
    chatFileId: Option<string>,
    initialSummary: Option<string>,
    chatMessages: seq<ChatMessage>,
    route: Route)

  /** `onStartAnalyze`: a new analysis forgets the previous chat entirely. */
  function OnStartAnalyze(st: NavState, file: string, isImage: bool): (r: NavState)
    ensures r.chatMessages == [] && r.chatThreadId.None? && r.chatFileId.None? && r.initialSummary.None?
    ensures r.uploadedFile == Some(file) && r.isImage == isImage && r.route == Result
  {
    NavState(Some(file), isImage, None, None, None, [], Result)
  }

  /** `onChat`: remembers the analysis ids and seeds the summary into an empty transcript only. */
  function OnChat(st: NavState, threadId: string, fileId: string, summary: string): (r: NavState)
    ensures r.chatThreadId == Some(threadId) && r.chatFileId == Some(fileId) && r.initialSummary == Some(summary)
    ensures st.chatMessages == [] ==> r.chatMessages == [ChatMessage(Assistant, summary)]
    ensures st.chatMessages != [] ==> r.chatMessages == st.chatMessages
    ensures r.route == Chat(threadId, fileId)
    ensures r.uploadedFile == st.uploadedFile && r.isImage == st.isImage
  {
    st.(chatThreadId := Some(threadId), chatFileId := Some(fileId), initialSummary := Some(summary),
        chatMessages := if st.chatMessages == [] then [ChatMessage(Assistant, summary)] else st.chatMessages,
        route := Chat(threadId, fileId))
  }

  /** What the chat route hands to the chat screen. */
  datatype ChatArgs = ChatArgs(threadId: string, fileId: string, initialSummary: string, messages: seq<ChatMessage>)

  /** The state after composing the chat route, and the chat screen's arguments. */
  datatype Entered = Entered(state: NavState, args: ChatArgs)

  /**
   * Composing the chat route: missing arguments read as "", and the summary
   * is seeded only into an empty transcript and only when it is not blank.
   */
  function EnterChatRoute(st: NavState, threadArg: Option<string>, fileArg: Option<string>): (r: Entered)
    ensures r.args.threadId == threadArg.GetOr("") && r.args.fileId == fileArg.GetOr("")
    ensures r.state.chatThreadId == Some(r.args.threadId) && r.state.chatFileId == Some(r.args.fileId)
    ensures r.args.initialSummary == st.initialSummary.GetOr("")
    ensures r.args.messages == r.state.chatMessages
    ensures st.chatMessages != [] ==> r.state.chatMessages == st.chatMessages
    ensures st.chatMessages == [] ==>
      (r.state.chatMessages != [] <==> st.initialSummary.Some? && !IsBlank(st.initialSummary.value))
    ensures r.state.chatMessages != st.chatMessages ==>
      r.state.chatMessages == [ChatMessage(Assistant, st.initialSummary.value)]
  {
    var threadId := threadArg.GetOr("");
    var fileId := fileArg.GetOr("");
    var seeded := st.chatMessages == [] && st.initialSummary.Some? && !IsBlank(st.initialSummary.value);
    var messages := if seeded then [ChatMessage(Assistant, st.initialSummary.value)] else st.chatMessages;
    var state := st.(chatThreadId := Some(threadId), chatFileId := Some(fileId), chatMessages := messages);
    Entered(state, ChatArgs(threadId, fileId, st.initialSummary.GetOr(""), messages))
  }

  /** `onOpenSession`: adopts the session's thread, file and transcript; its first message becomes the summary. */
  function OnOpenSession(st: NavState, s: ChatSession): (r: NavState)
    ensures r.chatThreadId == Some(s.threadId) && r.chatFileId == Some(s.fileId)
    ensures r.chatMessages == s.messages
    ensures s.messages != [] ==> r.initialSummary == Some(s.messages[0].content)
    ensures s.messages == [] ==> r.initialSummary == Some("")
    ensures r.route == Chat(s.threadId, s.fileId)
  {
    st.(chatThreadId := Some(s.threadId), chatFileId := Some(s.fileId), chatMessages := s.messages,
        initialSummary := Some(if s.messages == [] then "" else s.messages[0].content),
        route := Chat(s.threadId, s.fileId))
  }

  /** The history destination's own state. */
  datatype HistoryState = HistoryState(sessions: seq<ChatSession>, isLoading: bool)

  /** The history destination's load effect: every stored session, then loading ends. */
  function LoadHistory(stored: ChatStore.Stored): (h: HistoryState)
    ensures !h.isLoading && h.sessions == ChatStore.GetAll(stored)
  {
    HistoryState(ChatStore.GetAll(stored), false)
  }

  /** `onDeleteSession`: the store drops the id, then the list is reloaded from it. */
  datatype Deleted = Deleted(stored: ChatStore.Stored, history: HistoryState)

  function OnDeleteSession(stored: ChatStore.Stored, h: HistoryState, s: ChatSession): (r: Deleted)
    ensures forall x :: x in r.history.sessions ==> x.id != s.id
    ensures forall x :: x in ChatStore.GetAll(stored) && x.id != s.id ==> x in r.history.sessions
    ensures r.history.sessions == ChatStore.GetAll(r.stored)
    ensures r.history.isLoading == h.isLoading
  {
    var after := ChatStore.SaveAll(ChatStore.Delete(ChatStore.LoadAll(stored), s.id));
    Deleted(after, h.(sessions := ChatStore.GetAll(after)))
  }

  /** After starting an analysis, moving on to chat shows exactly the summary. */
  lemma AnalysisThenChat(st: NavState, file: string, isImage: bool, threadId: string, fileId: string, summary: string)
    ensures var r := EnterChatRoute(OnChat(OnStartAnalyze(st, file, isImage), threadId, fileId, summary),
                                    Some(threadId), Some(fileId));
      && r.args == ChatArgs(threadId, fileId, summary, [ChatMessage(Assistant, summary)])
  {
  }

  /**
   * Reopening a stored session hands the chat screen its transcript as
   * stored: an empty session is not seeded, since its summary is "".
   */
  lemma OpenedSessionIsNotReseeded(st: NavState, s: ChatSession)
    ensures var r := EnterChatRoute(OnOpenSession(st, s), Some(s.threadId), Some(s.fileId));
      r.args == ChatArgs(s.threadId, s.fileId, if s.messages == [] then "" else s.messages[0].content, s.messages)
  {
    assert IsBlank("");
  }

  /** Starting a new analysis and entering the chat route without `onChat` leaves the transcript empty. */
  lemma FreshAnalysisHasNoSummary(st: NavState, file: string, isImage: bool, threadArg: Option<string>, fileArg: Option<string>)
    ensures EnterChatRoute(OnStartAnalyze(st, file, isImage), threadArg, fileArg).args.messages == []
  {
  }
}
