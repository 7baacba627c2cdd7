/**
 * `getSummary` of src/lib/queries.ts: look one conversation up and, if it
 * exists, hand it to the hosted summariser. Every failure is caught and
 * returned as `{ error, data: null }`.
 */
module Summary {
  import opened Types
  import opened Store

  /** The `{ error, data }` object `getSummary` resolves to. */
  datatype SummaryResult = SummaryResult(error: Option<string>, data: Option<string>)

  const NotFoundMessage: string := "Conversation not found"
  const FallbackMessage: string := "Something went wrong"

  /** `error?.message ?? 'Something went wrong'`. */
  function ErrorText(e: Thrown): (s: string)
    ensures e.message.Some? ==> s == e.message.value
    ensures e.message.None? ==> s == FallbackMessage
  {
    e.message.GetOr(FallbackMessage)
  }

  /** The hosted `summarize` call, given the stored document it serialises. */
  type Summarize = Conversation -> Attempt<string>

  function GetSummary(conn: Connection, conversationId: string, userId: string, summarize: Summarize): (r: SummaryResult)
    // exactly one of the two fields is set
    ensures r.error.Some? <==> r.data.None?
    ensures conn.Offline? ==> r == SummaryResult(Some(ErrorText(conn.error)), None)
    ensures conn.Online? && ConversationRef(userId, conversationId) !in conn.docs ==>
      r == SummaryResult(Some(NotFoundMessage), None)
    ensures r.data.Some? ==>
      && conn.Online?
      && ConversationRef(userId, conversationId) in conn.docs
      && summarize(conn.docs[ConversationRef(userId, conversationId)]) == Returned(r.data.value)
    ensures conn.Online? && ConversationRef(userId, conversationId) in conn.docs ==>
      var answer := summarize(conn.docs[ConversationRef(userId, conversationId)]);
      r == if answer.Returned? then SummaryResult(None, Some(answer.value))
           else SummaryResult(Some(ErrorText(answer.error)), None)
  {
    match GetDoc(conn, ConversationRef(userId, conversationId))
    case Raised(e) => SummaryResult(Some(ErrorText(e)), None)
    case Returned(None) => SummaryResult(Some(NotFoundMessage), None)
    case Returned(Some(doc)) =>
      match summarize(doc)
      case Raised(e) => SummaryResult(Some(ErrorText(e)), None)
      case Returned(text) => SummaryResult(None, Some(text))
  }

  /** When the document is missing or unreadable the summariser is never consulted. */
  lemma NotFoundSkipsSummarizer(conn: Connection, conversationId: string, userId: string, s1: Summarize, s2: Summarize)
    requires conn.Offline? || ConversationRef(userId, conversationId) !in conn.docs
    ensures GetSummary(conn, conversationId, userId, s1) == GetSummary(conn, conversationId, userId, s2)
  {
  }
}
