/**
 * The persisted chat record. Kotlin's `data class` gives read-only fields,
 * structural equality over all of them and a `copy` that changes named fields.
 */
module ChatSessions {

  /** One line of a transcript; `sender` is "user" or "assistant". */
  datatype ChatMessage = ChatMessage(sender: string, content: string)

  const User := "user"
  const Assistant := "assistant"

  /** Timestamps are epoch milliseconds (`Long`), modelled as unbounded integers. */
  datatype ChatSession = ChatSession(
    id: string,
    title: string,
    threadId: string,
    fileId: string,
    messages: seq<ChatMessage>,
    createdAt: int,
    updatedAt: int)

  /** `session.copy(id = id)`. */
  function WithId(s: ChatSession, id: string): (r: ChatSession)
    ensures r.id == id
    ensures r.title == s.title && r.threadId == s.threadId && r.fileId == s.fileId
    ensures r.messages == s.messages && r.createdAt == s.createdAt && r.updatedAt == s.updatedAt
  {
    s.(id := id)
  }

  /** A copy is equal to its original exactly when it keeps the original id. */
  lemma WithIdIdentity(s: ChatSession, id: string)
    ensures WithId(s, id) == s <==> id == s.id
    ensures WithId(WithId(s, id), s.id) == s
  {
  }
}
