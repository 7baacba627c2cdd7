/**
 * The `GET` handler of src/app/api/get-summary/route.ts: validate the two
 * query parameters, read the conversation document and answer with it, or
 * with an error object and a status code.
 */
module SummaryRoute {
  import opened Types
  import opened Store
  import Summary

  /** The JSON body of the response. */
  datatype Body = ErrorBody(error: string) | DocumentBody(doc: Conversation)

  datatype Response = Response(status: int, body: Body)

  const InvalidIdsMessage: string := "Invalid conversation ID or user ID"

  /**
   * The message of the error `z.string().parse(null)` throws: the validator's
   * issue list rendered as indented JSON.
   */
  const NotAStringMessage: string :=
    "[\n  {\n    \"code\": \"invalid_type\",\n    \"expected\": \"string\",\n    \"received\": \"null\",\n    \"path\": [],\n    \"message\": \"Expected string, received null\"\n  }\n]"

  /** `z.string().parse(searchParams.get(name))`: a missing parameter is `null` and throws. */
  function ParseString(param: Option<string>): (r: Attempt<string>)
    ensures r.Returned? <==> param.Some?
    ensures param.Some? ==> r.value == param.value
  {
    match param
    case None => Raised(Thrown(Some(NotAStringMessage)))
    case Some(s) => Returned(s)
  }

  /** The catch clause: status 500 with the error's message or the fallback text. */
  function ServerError(e: Thrown): (r: Response)
    ensures r.status == 500 && r.body.ErrorBody?
    ensures e.message.Some? ==> r.body.error == e.message.value
    ensures e.message.None? ==> r.body.error == Summary.FallbackMessage
  {
    Response(500, ErrorBody(Summary.ErrorText(e)))
  }

  function Get(conversationIdParam: Option<string>, userIdParam: Option<string>, conn: Connection): (r: Response)
    ensures r.status in {200, 400, 404, 500}
    // a missing parameter is a server error, not a bad request
    ensures r.status == 500 <==>
      conversationIdParam.None? || userIdParam.None? ||
      (conversationIdParam.value != "" && userIdParam.value != "" && conn.Offline?)
    ensures r.status == 400 <==>
      conversationIdParam.Some? && userIdParam.Some? &&
      (conversationIdParam.value == "" || userIdParam.value == "")
    ensures r.status == 400 ==> r.body == ErrorBody(InvalidIdsMessage)
    ensures r.status == 404 ==> r.body == ErrorBody(Summary.NotFoundMessage)
    // a 500 carries the text of what was thrown: the validator's issue list, or the database's error
    ensures conversationIdParam.None? ==> r.body == ErrorBody(Summary.ErrorText(Thrown(Some(NotAStringMessage))))
    ensures conversationIdParam.Some? && userIdParam.None? ==>
      r.body == ErrorBody(Summary.ErrorText(Thrown(Some(NotAStringMessage))))
    ensures conversationIdParam.Some? && conversationIdParam.value != "" &&
            userIdParam.Some? && userIdParam.value != "" && conn.Offline? ==>
      r.body == ErrorBody(Summary.ErrorText(conn.error))
    // the stored document is returned as it is
    ensures r.status == 200 <==>
      && conversationIdParam.Some? && conversationIdParam.value != ""
      && userIdParam.Some? && userIdParam.value != ""
      && conn.Online?
      && ConversationRef(userIdParam.value, conversationIdParam.value) in conn.docs
      && r.body == DocumentBody(conn.docs[ConversationRef(userIdParam.value, conversationIdParam.value)])
  {
    match ParseString(conversationIdParam)
    case Raised(e) => ServerError(e)
    case Returned(conversationId) =>
      match ParseString(userIdParam)
      case Raised(e) => ServerError(e)
      case Returned(userId) =>
        if conversationId == "" || userId == "" then
          Response(400, ErrorBody(InvalidIdsMessage))
        else
          match GetDoc(conn, ConversationRef(userId, conversationId))
          case Raised(e) => ServerError(e)
          case Returned(None) => Response(404, ErrorBody(Summary.NotFoundMessage))
          case Returned(Some(doc)) => Response(200, DocumentBody(doc))
  }

  /** Invalid ids are rejected before the database is read: the answer does not depend on it. */
  lemma InvalidIdsSkipStore(conversationId: string, userId: string, c1: Connection, c2: Connection)
    requires conversationId == "" || userId == ""
    ensures Get(Some(conversationId), Some(userId), c1) == Get(Some(conversationId), Some(userId), c2)
  {
  }
}
