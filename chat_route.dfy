/**
 * The chat endpoint: read `{content, modelId}`, write one message record,
 * dispatch to the AI, answer `{message}` with status 200, and collapse every
 * failure into one 500 response. There is no input validation, no 400 path,
 * and the AI reply is not persisted.
 */
module ChatRoute {
  import opened Common
  import opened ChatTypes
  import AI
  import Registry
  import Store

  /**
   * The destructured request body. `modelId` is None when the field is
   * absent (JavaScript's `undefined`); the body is not validated.
   */
  datatype ChatBody = ChatBody(content: string, modelId: Option<string>)

  /** The record written per request; an absent model id is written as absent. */
  datatype MessageRecord = MessageRecord(content: string, aiModel: Option<string>, userId: string)

  /** The JSON body of a response. */
  datatype Body = MessageBody(message: string) | ErrorBody(error: string)

  /** A JSON response with its status code. */
  datatype Response = Response(status: nat, body: Body)

  const SYSTEM_USER := "system"
  const FAILED_MESSAGE := "Failed to process request"

  /** The one failure response of this endpoint. */
  const FAILURE: Response := Response(500, ErrorBody(FAILED_MESSAGE))

  /** The record a request writes: its content, its model id, the fixed user. */
  function RecordFor(body: ChatBody): (r: MessageRecord)
    ensures r.content == body.content && r.aiModel == body.modelId && r.userId == "system"
  {
    MessageRecord(body.content, body.modelId, SYSTEM_USER)
  }

  /** The body a widget sends: both fields present. */
  function BodyOf(req: ChatRequest): ChatBody {
    ChatBody(req.content, Some(req.modelId))
  }

  /**
   * `generateAIResponse(content, modelId)` on the body: an absent model id
   * reaches the switch's default branch like any id outside the registry.
   */
  function Answer(body: ChatBody, up: AI.Upstream): (r: Result<string, AI.AIError>)
    ensures r == Err(AI.InvalidModel) <==> body.modelId.None? || Registry.Lookup(body.modelId.value).None?
    ensures body.modelId.Some? ==> r == AI.Dispatch(body.content, body.modelId.value, up)
  {
    match body.modelId
    case None => Err(AI.InvalidModel)
    case Some(id) => AI.Dispatch(body.content, id, up)
  }

  /**
   * The endpoint as a function of the store before the request: `body` is
   * None when the request body is not JSON, `writeAccepted` is whether the
   * store accepts the write. Yields the store afterwards and the response.
   */
  function Handle(rows: seq<MessageRecord>, body: Option<ChatBody>, writeAccepted: bool,
                  up: AI.Upstream): (seq<MessageRecord>, Response)
  {
    match body
    case None => (rows, FAILURE)
    case Some(req) =>
      if !writeAccepted then (rows, FAILURE)
      else
        var rows' := rows + [RecordFor(req)];
        match Answer(req, up)
        case Ok(reply) => (rows', Response(200, MessageBody(reply)))
        case Err(_) => (rows', FAILURE)
  }

  /**
   * POST: the write happens first and the dispatch only after an accepted
   * write; the store and the response are those `Handle` describes.
   */
  method Post(table: Store.Table<MessageRecord>, body: Option<ChatBody>, writeAccepted: bool,
              up: AI.Upstream) returns (resp: Response)
    modifies table
    ensures (table.rows, resp) == Handle(old(table.rows), body, writeAccepted, up)
  {
    if body.None? {
      return FAILURE;
    }
    var req := body.value;
    var id := table.Create(RecordFor(req), writeAccepted);
    if id.None? {
      return FAILURE;
    }
    var reply := Answer(req, up);
    if reply.Ok? {
      resp := Response(200, MessageBody(reply.value));
    } else {
      resp := FAILURE;
    }
  }

  /**
   * Exactly one record, holding the content, the model id and the user
   * 'system', is written per request with an accepted write, whatever the
   * dispatch does; the store never receives the AI reply.
   */
  lemma OneRecordPerRequest(rows: seq<MessageRecord>, req: ChatBody, up: AI.Upstream)
    ensures Handle(rows, Some(req), true, up).0 == rows + [MessageRecord(req.content, req.modelId, "system")]
  {
  }

  /**
   * The record is written before and independently of the dispatch: two
   * upstreams that answer differently leave the same store behind.
   */
  lemma WriteIndependentOfDispatch(rows: seq<MessageRecord>, body: Option<ChatBody>, writeAccepted: bool,
                                   up: AI.Upstream, other: AI.Upstream)
    ensures Handle(rows, body, writeAccepted, up).0 == Handle(rows, body, writeAccepted, other).0
  {
  }

  /** A rejected write gives 500 without consulting the dispatch at all. */
  lemma WriteFailureSkipsDispatch(rows: seq<MessageRecord>, req: ChatBody, up: AI.Upstream, other: AI.Upstream)
    ensures Handle(rows, Some(req), false, up) == Handle(rows, Some(req), false, other) == (rows, FAILURE)
  {
  }

  /** On success the body is the AI reply, with status 200. */
  lemma SuccessCarriesReply(rows: seq<MessageRecord>, req: ChatBody, up: AI.Upstream)
    requires Answer(req, up).Ok?
    ensures Handle(rows, Some(req), true, up).1 == Response(200, MessageBody(Answer(req, up).value))
  {
  }

  /**
   * Any dispatch failure, an unknown model id included, gives the one 500
   * response, and the record already written remains.
   */
  lemma DispatchFailureIs500(rows: seq<MessageRecord>, req: ChatBody, up: AI.Upstream)
    requires Answer(req, up).Err?
    ensures Handle(rows, Some(req), true, up) == (rows + [RecordFor(req)], FAILURE)
  {
  }

  /**
   * An unknown or absent model id is not rejected up front: it is written,
   * then fails with 500.
   */
  lemma UnknownModelWrittenThen500(rows: seq<MessageRecord>, req: ChatBody, up: AI.Upstream)
    requires req.modelId.None? || req.modelId.value !in {"gpt-4", "gpt-3.5", "claude", "gemini"}
    ensures Handle(rows, Some(req), true, up) == (rows + [RecordFor(req)], FAILURE)
  {
    if req.modelId.Some? {
      AI.InvalidModelConsultsNoProvider(req.content, req.modelId.value, up, up);
    }
  }

  /** A body the widget sends is written with its model id and answered by dispatch on it. */
  lemma WidgetBodyDispatched(rows: seq<MessageRecord>, req: ChatRequest, up: AI.Upstream)
    ensures var (rows', resp) := Handle(rows, Some(BodyOf(req)), true, up);
      && rows' == rows + [MessageRecord(req.content, Some(req.modelId), "system")]
      && (AI.Dispatch(req.content, req.modelId, up).Ok? ==>
            resp == Response(200, MessageBody(AI.Dispatch(req.content, req.modelId, up).value)))
      && (AI.Dispatch(req.content, req.modelId, up).Err? ==> resp == FAILURE)
  {
  }

  /**
   * There is no validation and no 400 path: every request, the empty content
   * included, gets 200 or 500, and the store grows by at most one record.
   */
  lemma OnlyOkOrServerError(rows: seq<MessageRecord>, body: Option<ChatBody>,
                                               writeAccepted: bool, up: AI.Upstream)
    ensures var (rows', resp) := Handle(rows, body, writeAccepted, up);
      && (resp.status == 200 || resp.status == 500)
      && (resp.status == 200 <==> resp.body.MessageBody?)
      && (rows' == rows || (body.Some? && rows' == rows + [RecordFor(body.value)]))
  {
  }
}
