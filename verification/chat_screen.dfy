/**
 * The chat screen's state rules: opening a thread adopts the stored session
 * or writes an empty shell, `persist` keeps the first creation time, and a
 * send turn appends one user and one assistant message around two persists.
 * The remote calls of a turn are oracle inputs; persisting is modelled as an
 * immediate upsert into the store.
 */
module ChatScreen {
  import opened Wrappers
  import opened Text
  import opened ChatSessions
  import ChatStore
  import opened Wire
  import OpenAiRepository

  const ChatTitle := "Chat with Assistant"
  const NoResponse := "❌ No response from assistant."
  const RunFailed := "❌ Run failed."
  const SendFailed := "❌ Failed to send message."

  /** What the screen remembers between events. */
  datatype ChatView = ChatView(
    threadId: string,
    fileId: string,
    messages: seq<ChatMessage>,
    createdAt: Option<int>,
    userInput: string,
    isLoading: bool)

  // ---------------------------------------------------------------------------
  // Opening a thread

  /** The session written the first time a thread is opened: no messages yet. */
  function Shell(threadId: string, fileId: string, now: int): (s: ChatSession)
    ensures s.id == threadId && s.threadId == threadId && s.fileId == fileId
    ensures s.title == ChatTitle && s.messages == []
    ensures s.createdAt == now && s.updatedAt == now
  {
    ChatSession(threadId, ChatTitle, threadId, fileId, [], now, now)
  }

  /** The creation time, transcript and store after the load-or-shell effect. */
  datatype Opened = Opened(createdAt: int, messages: seq<ChatMessage>, store: seq<ChatSession>)

  /**
   * The `LaunchedEffect(threadId)`: a stored session lends its creation time,
   * and its messages when the caller has none; with no stored session a shell
   * is written. Either way the store then holds the thread with that time.
   */
  function OpenThread(threadId: string, fileId: string, messages: seq<ChatMessage>, store: seq<ChatSession>, now: int): (r: Opened)
    ensures ChatStore.GetById(r.store, threadId).Some?
    ensures ChatStore.GetById(r.store, threadId).value.createdAt == r.createdAt
    ensures messages != [] ==> r.messages == messages
    ensures ChatStore.GetById(store, threadId).Some? ==>
      && r.store == store
      && r.createdAt == ChatStore.GetById(store, threadId).value.createdAt
      && (messages == [] ==> r.messages == ChatStore.GetById(store, threadId).value.messages)
    ensures ChatStore.GetById(store, threadId).None? ==>
      && r.store == store + [Shell(threadId, fileId, now)]
      && r.createdAt == now && r.messages == messages
  {
    match ChatStore.GetById(store, threadId)
    case Some(existing) =>
      Opened(existing.createdAt, if messages == [] then existing.messages else messages, store)
    case None =>
      var shell := Shell(threadId, fileId, now);
      ChatStore.UpsertThenGet(store, shell);
      Opened(now, messages, ChatStore.Upsert(store, shell))
  }

  // ---------------------------------------------------------------------------
  // persist

  /**
   * `persist`: the record written for the thread, keyed by the thread id,
   * keeping the first creation time (now, if none was known) and stamped now.
   */
  function Persist(v: ChatView, messages: seq<ChatMessage>, now: int): (s: ChatSession)
    ensures s.id == v.threadId && s.threadId == v.threadId && s.fileId == v.fileId
    ensures s.title == ChatTitle && s.messages == messages && s.updatedAt == now
    ensures v.createdAt.Some? ==> s.createdAt == v.createdAt.value
    ensures v.createdAt.None? ==> s.createdAt == now
  {
    ChatSession(v.threadId, ChatTitle, v.threadId, v.fileId, messages, v.createdAt.GetOr(now), now)
  }

  /** The screen after `persist` remembers the creation time it wrote. */
  function AfterPersist(v: ChatView, s: ChatSession): (r: ChatView)
    ensures r.createdAt == Some(s.createdAt)
    ensures r == v.(createdAt := r.createdAt)
  {
    v.(createdAt := Some(s.createdAt))
  }

  /**
   * Two persists in a row: the creation time of the first is kept by the
   * second, and a store with distinct ids ends with one record for the
   * thread, the second one.
   */
  lemma PersistTwiceKeepsCreation(v: ChatView, store: seq<ChatSession>, m1: seq<ChatMessage>, m2: seq<ChatMessage>, t1: int, t2: int)
    requires ChatStore.DistinctIds(store)
    ensures var s1 := Persist(v, m1, t1);
      var s2 := Persist(AfterPersist(v, s1), m2, t2);
      var after := ChatStore.Upsert(ChatStore.Upsert(store, s1), s2);
      && s2.createdAt == s1.createdAt
      && (v.createdAt.Some? ==> s2.createdAt == v.createdAt.value)
      && ChatStore.CountId(after, v.threadId) == 1
      && ChatStore.GetById(after, v.threadId) == Some(s2)
  {
    var s1 := Persist(v, m1, t1);
    var s2 := Persist(AfterPersist(v, s1), m2, t2);
    ChatStore.UpsertTwiceSameId(store, s1, s2);
  }

  // ---------------------------------------------------------------------------
  // A send turn

  /** What the remote calls of one turn report, and the two clock readings. */
  datatype TurnOracle = TurnOracle(sendOk: bool, runId: Option<string>, reply: Option<string>, sentAt: int, repliedAt: int)

  /** What the turn does, in order: store writes and remote requests. */
  datatype Event =
    | Saved(session: ChatSession)
    | SentMessage(text: string)
    | StartedRun(fileId: string)
    | PolledRun(runId: string)

  /** The screen, the store and the events of one or more turns. */
  datatype Turn = Turn(view: ChatView, store: seq<ChatSession>, events: seq<Event>)

  /** The send button acts only on non-blank input while nothing is loading. */
  predicate CanSend(v: ChatView) {
    Trim(v.userInput) != [] && !v.isLoading
  }

  /** The assistant message of a turn: the reply or the failing step's placeholder. */
  function AssistantReply(o: TurnOracle): (r: string)
    ensures !o.sendOk ==> r == SendFailed
    ensures o.sendOk && o.runId.None? ==> r == RunFailed
    ensures o.sendOk && o.runId.Some? ==> r == o.reply.GetOr(NoResponse)
  {
    if !o.sendOk then SendFailed
    else if o.runId.None? then RunFailed
    else o.reply.GetOr(NoResponse)
  }

  /** The assistant message is the reply exactly when all three calls worked, else one of three placeholders. */
  lemma AssistantReplyIsOneOf(o: TurnOracle)
    ensures var r := AssistantReply(o);
      || (o.sendOk && o.runId.Some? && o.reply.Some? && r == o.reply.value)
      || (r == NoResponse && o.sendOk && o.runId.Some? && o.reply.None?)
      || (r == RunFailed && o.sendOk && o.runId.None?)
      || (r == SendFailed && !o.sendOk)
  {
  }

  /** The remote requests: post the text, then start a run only if it was accepted, then poll only with a run id. */
  function RemoteEvents(text: string, fileId: string, o: TurnOracle): (e: seq<Event>)
    ensures |e| >= 1 && e[0] == SentMessage(text)
    ensures forall i :: 0 <= i < |e| ==> !e[i].Saved?
    ensures (StartedRun(fileId) in e) <==> o.sendOk
    ensures (exists i :: 0 <= i < |e| && e[i].PolledRun?) <==> o.sendOk && o.runId.Some?
    ensures o.sendOk && o.runId.Some? ==> e == [SentMessage(text), StartedRun(fileId), PolledRun(o.runId.value)]
  {
    var e := [SentMessage(text)]
      + (if o.sendOk then [StartedRun(fileId)] + (if o.runId.Some? then [PolledRun(o.runId.value)] else []) else []);
    assert o.sendOk && o.runId.Some? ==> e[2].PolledRun?;
    e
  }

  /** A turn's events: a save, the remote requests, and a second save. */
  function TurnEvents(first: ChatSession, remote: seq<Event>, second: ChatSession): (e: seq<Event>)
    requires forall i :: 0 <= i < |remote| ==> !remote[i].Saved?
    ensures |e| == |remote| + 2
    ensures e[0] == Saved(first) && e[|e| - 1] == Saved(second)
    ensures forall i :: 0 < i < |e| - 1 ==> !e[i].Saved?
    ensures e[1..|e| - 1] == remote
  {
    var e := [Saved(first)] + remote + [Saved(second)];
    assert e[1..|e| - 1] == remote;
    e
  }

  /**
   * The send button's handler, run to completion: the trimmed input is
   * appended as the user message and persisted before any remote call, then
   * exactly one assistant message is appended and persisted, and the screen
   * stops loading. Blank input, or a turn already loading, changes nothing.
   */
  function Send(v: ChatView, store: seq<ChatSession>, o: TurnOracle): (t: Turn)
    ensures !CanSend(v) ==> t == Turn(v, store, [])
    ensures CanSend(v) ==>
      var n := |v.messages|;
      && |t.view.messages| == n + 2
      && t.view.messages[..n] == v.messages
      && t.view.messages[n] == ChatMessage(User, Trim(v.userInput))
      && t.view.messages[n + 1] == ChatMessage(Assistant, AssistantReply(o))
      && !t.view.isLoading && t.view.userInput == ""
      && t.view.threadId == v.threadId && t.view.fileId == v.fileId
      && (v.createdAt.Some? ==> t.view.createdAt == v.createdAt)
      && (v.createdAt.None? ==> t.view.createdAt == Some(o.sentAt))
    ensures CanSend(v) ==>
      var e := t.events;
      && |e| >= 3
      && e[0] == Saved(Persist(v, v.messages + [ChatMessage(User, Trim(v.userInput))], o.sentAt))
      && e[1] == SentMessage(Trim(v.userInput))
      && e[|e| - 1].Saved? && e[|e| - 1].session.messages == t.view.messages
      && e[|e| - 1].session.createdAt == t.view.createdAt.value
      && (forall i :: 0 < i < |e| - 1 ==> !e[i].Saved?)
      && e[1..|e| - 1] == RemoteEvents(Trim(v.userInput), v.fileId, o)
    ensures CanSend(v) ==>
      t.store == ChatStore.Upsert(ChatStore.Upsert(store, t.events[0].session), t.events[|t.events| - 1].session)
  {
    if !CanSend(v) then Turn(v, store, [])
    else
      var text := Trim(v.userInput);
      var afterUser := v.messages + [ChatMessage(User, text)];
      var first := Persist(v, afterUser, o.sentAt);
      var v1 := AfterPersist(v, first);
      var afterAssistant := afterUser + [ChatMessage(Assistant, AssistantReply(o))];
      var second := Persist(v1, afterAssistant, o.repliedAt);
      var events := TurnEvents(first, RemoteEvents(text, v.fileId, o), second);
      assert afterAssistant[..|v.messages|] == v.messages;
      assert afterAssistant[|v.messages|] == ChatMessage(User, text);
      assert second.messages == afterAssistant && second.createdAt == v1.createdAt.value;
      Turn(v1.(messages := afterAssistant, userInput := "", isLoading := false),
           ChatStore.Upsert(ChatStore.Upsert(store, first), second),
           events)
  }

  /** A store with distinct ids holds exactly one record for the thread after a turn, with the whole transcript. */
  lemma SendStoresTranscript(v: ChatView, store: seq<ChatSession>, o: TurnOracle)
    requires ChatStore.DistinctIds(store) && CanSend(v)
    ensures var t := Send(v, store, o);
      && ChatStore.CountId(t.store, v.threadId) == 1
      && ChatStore.GetById(t.store, v.threadId).Some?
      && ChatStore.GetById(t.store, v.threadId).value.messages == t.view.messages
      && ChatStore.GetById(t.store, v.threadId).value.updatedAt == o.repliedAt
      && ChatStore.DistinctIds(t.store)
  {
    var t := Send(v, store, o);
    var first, second := t.events[0].session, t.events[|t.events| - 1].session;
    ChatStore.UpsertTwiceSameId(store, first, second);
    ChatStore.UpsertKeepsIdsDistinct(store, first);
    ChatStore.UpsertKeepsIdsDistinct(ChatStore.Upsert(store, first), second);
  }

  // ---------------------------------------------------------------------------
  // Several turns

  /** Messages in [user, assistant] pairs. */
  predicate Paired(ms: seq<ChatMessage>) {
    && |ms| % 2 == 0
    && forall i :: 0 <= i < |ms| ==> ms[i].sender == (if i % 2 == 0 then User else Assistant)
  }

  /** `b` is `a` followed by zero or more [user, assistant] pairs. */
  predicate GrowsByPairs(a: seq<ChatMessage>, b: seq<ChatMessage>) {
    |a| <= |b| && b[..|a|] == a && Paired(b[|a|..])
  }

  lemma GrowsByPairsTransitive(a: seq<ChatMessage>, b: seq<ChatMessage>, c: seq<ChatMessage>)
    requires GrowsByPairs(a, b) && GrowsByPairs(b, c)
    ensures GrowsByPairs(a, c)
  {
    var p, q := b[|a|..], c[|b|..];
    assert c == b + q;
    assert c[|a|..] == p + q;
    forall i | 0 <= i < |p + q|
      ensures (p + q)[i].sender == (if i % 2 == 0 then User else Assistant)
    {
      if i >= |p| {
        assert (p + q)[i] == q[i - |p|];
        SameParity(i, |p|);
      }
    }
  }

  /** Shifting by an even amount keeps parity. */
  lemma SameParity(i: int, k: int)
    requires k % 2 == 0
    ensures (i - k) % 2 == i % 2
  {
  }

  lemma OnePair(u: ChatMessage, a: ChatMessage)
    requires u.sender == User && a.sender == Assistant
    ensures Paired([u, a])
  {
  }

  /** One press of the send button adds a pair or nothing, and never leaves the screen loading. */
  lemma SendAddsPair(v: ChatView, store: seq<ChatSession>, o: TurnOracle)
    requires !v.isLoading
    ensures var t := Send(v, store, o);
      GrowsByPairs(v.messages, t.view.messages) && !t.view.isLoading && t.view.threadId == v.threadId
  {
    var t := Send(v, store, o);
    if CanSend(v) {
      AppendedPair(v.messages, t.view.messages);
    } else {
      NoGrowth(v.messages);
    }
  }

  /** A transcript followed by one [user, assistant] pair grows by pairs. */
  lemma AppendedPair(a: seq<ChatMessage>, b: seq<ChatMessage>)
    requires |b| == |a| + 2 && b[..|a|] == a
    requires b[|a|].sender == User && b[|a| + 1].sender == Assistant
    ensures GrowsByPairs(a, b)
  {
    assert b[|a|..] == [b[|a|], b[|a| + 1]];
    OnePair(b[|a|], b[|a| + 1]);
  }

  /** Growing by no pairs at all. */
  lemma NoGrowth(a: seq<ChatMessage>)
    ensures GrowsByPairs(a, a)
  {
    assert a[|a|..] == [];
  }

  /** One typed input and what the remote calls report for it. */
  datatype Entry = Entry(input: string, oracle: TurnOracle)

  /** The user types each entry's input and presses send, one turn after another. */
  function Converse(v: ChatView, store: seq<ChatSession>, entries: seq<Entry>): (t: Turn)
    decreases |entries|
  {
    if entries == [] then Turn(v, store, [])
    else
      var first := Send(v.(userInput := entries[0].input), store, entries[0].oracle);
      var rest := Converse(first.view, first.store, entries[1..]);
      Turn(rest.view, rest.store, first.events + rest.events)
  }

  /**
   * Every turn adds a [user, assistant] pair after whatever the transcript
   * started with, so a transcript seeded with a summary stays a summary
   * followed by pairs.
   */
  lemma {:induction false} ConverseAddsPairs(v: ChatView, store: seq<ChatSession>, entries: seq<Entry>)
    requires !v.isLoading
    ensures var t := Converse(v, store, entries);
      GrowsByPairs(v.messages, t.view.messages) && !t.view.isLoading && t.view.threadId == v.threadId
    decreases |entries|
  {
    var t := Converse(v, store, entries);
    if entries == [] {
      assert t.view.messages[|v.messages|..] == [];
    } else {
      var v0 := v.(userInput := entries[0].input);
      var first := Send(v0, store, entries[0].oracle);
      SendAddsPair(v0, store, entries[0].oracle);
      ConverseAddsPairs(first.view, first.store, entries[1..]);
      GrowsByPairsTransitive(v.messages, first.view.messages, t.view.messages);
    }
  }

  /** From an empty transcript the senders alternate, starting with the user. */
  lemma TranscriptFromEmpty(v: ChatView, store: seq<ChatSession>, entries: seq<Entry>)
    requires !v.isLoading && v.messages == []
    ensures Paired(Converse(v, store, entries).view.messages)
  {
    ConverseAddsPairs(v, store, entries);
    var ms := Converse(v, store, entries).view.messages;
    assert ms[0..] == ms;
  }

  /** After a seeded summary the transcript is the summary followed by pairs. */
  lemma TranscriptAfterSummary(v: ChatView, store: seq<ChatSession>, entries: seq<Entry>, summary: string)
    requires !v.isLoading && v.messages == [ChatMessage(Assistant, summary)]
    ensures var ms := Converse(v, store, entries).view.messages;
      |ms| >= 1 && ms[0] == ChatMessage(Assistant, summary) && Paired(ms[1..])
  {
    ConverseAddsPairs(v, store, entries);
    var ms := Converse(v, store, entries).view.messages;
    assert ms[0] == ms[..1][0];
  }

  // ---------------------------------------------------------------------------
  // The turn against the repository

  /** What the three repository calls of a turn observe, and the clock readings. */
  datatype ChatOutcomes = ChatOutcomes(
    post: PostResponse,
    run: IdResponse,
    polls: seq<RunPoll>,
    fetch: FetchResponse,
    sentAt: int,
    repliedAt: int)

  /**
   * The turn's oracle derived from the repository: `sendChatMessage`, then
   * `runChatAssistant` with the screen's file id (always passed, so the run
   * is always scoped to it), then the polling loop with failures caught.
   */
  function OracleOf(fileId: string, o: ChatOutcomes): (r: TurnOracle)
    ensures r.sendOk <==> o.post == PostResponded(true)
    ensures r.runId == StrictId(o.run)
    ensures r.reply == OpenAiRepository.PollAndFetchChatMessage(o.polls, o.fetch).outcome
    ensures OpenAiRepository.RunChatAssistant(Some(fileId), o.run).request.codeInterpreterFileIds == Some([fileId])
    ensures r.sentAt == o.sentAt && r.repliedAt == o.repliedAt
  {
    TurnOracle(OpenAiRepository.SendChatMessage(o.post),
               OpenAiRepository.RunChatAssistant(Some(fileId), o.run).runId,
               OpenAiRepository.PollAndFetchChatMessage(o.polls, o.fetch).outcome,
               o.sentAt, o.repliedAt)
  }

  /** The corrected turn: whatever the network does, the transcript grows by two and loading ends. */
  function SendTurn(v: ChatView, store: seq<ChatSession>, o: ChatOutcomes): (t: Turn)
    ensures CanSend(v) ==> |t.view.messages| == |v.messages| + 2 && !t.view.isLoading
    ensures CanSend(v) && o.post == PostResponded(true) && StrictId(o.run).Some?
            && |o.polls| > 0 && o.polls[0].PollTransportFailure? ==>
      t.view.messages[|v.messages| + 1] == ChatMessage(Assistant, NoResponse)
  {
    var w := Observed(o.polls, OpenAiRepository.ChatPollLimit);
    assert |o.polls| > 0 ==> w[0] == o.polls[0];
    Send(v, store, OracleOf(v.fileId, o))
  }

  /**
   * The turn as written: the polling loop runs unguarded, and only when the
   * post was accepted and the run started. An exception from it escapes the
   * launched coroutine, so the turn stops after its first persist and the
   * remote requests, with no assistant message, and the screen stays loading.
   */
  function SendTurnAsWritten(v: ChatView, store: seq<ChatSession>, o: ChatOutcomes): (t: Turn)
    ensures !CanSend(v) ==> t == Turn(v, store, [])
    ensures CanSend(v) ==>
      var n := |v.messages|;
      && n + 1 <= |t.view.messages| <= n + 2
      && t.view.messages[..n] == v.messages
      && t.view.messages[n] == ChatMessage(User, Trim(v.userInput))
      && t.view.userInput == ""
      && (t.view.isLoading <==> |t.view.messages| == n + 1)
      && |t.events| >= 2 && t.events[1] == SentMessage(Trim(v.userInput))
      && t.events[0] == Saved(Persist(v, v.messages + [ChatMessage(User, Trim(v.userInput))], o.sentAt))
  {
    var oracle := OracleOf(v.fileId, o);
    if !CanSend(v) || !oracle.sendOk || oracle.runId.None? then Send(v, store, oracle.(reply := None))
    else match OpenAiRepository.PollAndFetchChatMessageAsWritten(o.polls, o.fetch)
      case Returned(p) => Send(v, store, oracle.(reply := p.outcome))
      case Threw =>
        var text := Trim(v.userInput);
        var afterUser := v.messages + [ChatMessage(User, text)];
        var first := Persist(v, afterUser, o.sentAt);
        assert afterUser[..|v.messages|] == v.messages;
        Turn(AfterPersist(v, first).(messages := afterUser, userInput := "", isLoading := true),
             ChatStore.Upsert(store, first),
             [Saved(first)] + RemoteEvents(text, v.fileId, oracle))
  }

  /**
   * The written turn and the corrected one agree on every accepted send
   * except the one where the unguarded loop throws: then they differ.
   */
  lemma SendTurnAsWrittenAgrees(v: ChatView, store: seq<ChatSession>, o: ChatOutcomes)
    ensures var threw := o.post == PostResponded(true) && StrictId(o.run).Some?
                         && OpenAiRepository.PollAndFetchChatMessageAsWritten(o.polls, o.fetch).Threw?;
      CanSend(v) ==> (SendTurnAsWritten(v, store, o) == SendTurn(v, store, o) <==> !threw)
    ensures !CanSend(v) ==> SendTurnAsWritten(v, store, o) == SendTurn(v, store, o)
  {
    var oracle := OracleOf(v.fileId, o);
    OpenAiRepository.PollAndFetchAsWrittenRefines(o.polls, o.fetch);
    if CanSend(v) && (!oracle.sendOk || oracle.runId.None?) {
      assert AssistantReply(oracle.(reply := None)) == AssistantReply(oracle);
      assert RemoteEvents(Trim(v.userInput), v.fileId, oracle.(reply := None))
          == RemoteEvents(Trim(v.userInput), v.fileId, oracle);
    }
  }

  /**
   * A status request that fails at the transport on the first check leaves
   * the turn open: one message added instead of two, the screen loading for
   * good (so every later send is refused), and a single persist.
   */
  lemma ThrowingPollLeavesTurnOpen(v: ChatView, store: seq<ChatSession>, o: ChatOutcomes, later: string)
    requires CanSend(v) && o.post == PostResponded(true) && StrictId(o.run).Some?
    requires |o.polls| > 0 && o.polls[0].PollTransportFailure?
    ensures var t := SendTurnAsWritten(v, store, o);
      && |t.view.messages| == |v.messages| + 1
      && t.view.messages[|v.messages|].sender == User
      && t.view.isLoading
      && !CanSend(t.view.(userInput := later))
      && |SendTurn(v, store, o).view.messages| == |v.messages| + 2
  {
    OpenAiRepository.ChatPollAsWrittenThrows(o.polls, o.fetch);
  }
}
