/** The chat endpoint (src/app/api/chat/route.ts): only conversations with
    user '2' are relayed; the reply or a failure is mapped to an HTTP
    response. */
module ChatRoute {
  import opened Wrappers
  import opened ChatFormat

  /** The request body: one that does not parse, or the three fields, of
      which `messages` and `targetUserId` may be absent. */
  datatype Request =
    | Malformed
    | Body(messages: Option<seq<HistoryEntry>>, currentUserId: string, targetUserId: Option<string>)

  datatype Payload = Answer(message: string, success: bool) | Problem(error: string)

  datatype Response = Response(status: int, payload: Payload)

  const AiPartnerId := "2"

  const TargetRefused := "このユーザーとはAI会話できません"

  const ServerError := "サーバーエラーが発生しました"

  /** The target check passes. */
  predicate Accepted(req: Request)
  {
    req.Body? && req.targetUserId == Some(AiPartnerId)
  }

  /** The upstream request the handler sends for an accepted body. */
  function Outgoing(systemPrompt: string, ms: seq<HistoryEntry>, currentUserId: string): seq<ChatMessage>
  {
    BuildRequest(systemPrompt, FormatMessagesForApi(ms, currentUserId))
  }

  /** `POST`. `ai` is the completion service and answers a message list. */
  function Post(req: Request, systemPrompt: string, ai: seq<ChatMessage> -> Upstream): (r: Response)
    ensures r.status == 200 <==> Accepted(req) && req.messages.Some? &&
                                 ai(Outgoing(systemPrompt, req.messages.value, req.currentUserId)).Answered?
    ensures r.status == 200 ==> r.payload.Answer? && r.payload.success
    ensures r.status != 200 ==> r.payload.Problem?
    ensures r.status in {200, 400, 500}
  {
    match req
    case Malformed => Response(500, Problem(ServerError))
    case Body(messages, currentUserId, targetUserId) =>
      if targetUserId != Some(AiPartnerId) then Response(400, Problem(TargetRefused))
      else if messages.None? then Response(500, Problem(ServerError))
      else
        match Reply(ai(Outgoing(systemPrompt, messages.value, currentUserId)))
        case Ok(text) => Response(200, Answer(text, true))
        case Err(_) => Response(500, Problem(ServerError))
  }

  /** Any other target is refused with 400, whatever the service would say:
      the service is not consulted. */
  lemma RefusesOtherTargets(req: Request, p: string, ai1: seq<ChatMessage> -> Upstream, ai2: seq<ChatMessage> -> Upstream)
    requires req.Body? && req.targetUserId != Some(AiPartnerId)
    ensures Post(req, p, ai1) == Post(req, p, ai2) == Response(400, Problem(TargetRefused))
  {
  }

  /** The outcome depends on the service only through its answer to the
      system message followed by the last ten messages. */
  lemma ConsultsFormattedHistory(req: Request, p: string, ai1: seq<ChatMessage> -> Upstream, ai2: seq<ChatMessage> -> Upstream)
    requires Accepted(req) && req.messages.Some?
    requires ai1(Outgoing(p, req.messages.value, req.currentUserId)) == ai2(Outgoing(p, req.messages.value, req.currentUserId))
    ensures Post(req, p, ai1) == Post(req, p, ai2)
  {
  }

  /** A non-empty answer reaches the client unchanged. */
  lemma RelaysAnswer(req: Request, p: string, ai: seq<ChatMessage> -> Upstream, text: string)
    requires Accepted(req) && req.messages.Some?
    requires ai(Outgoing(p, req.messages.value, req.currentUserId)) == Answered(Some(text)) && text != ""
    ensures Post(req, p, ai) == Response(200, Answer(text, true))
  {
  }

  /** A failing service, a body that does not parse, or a missing history
      all give the generic 500. */
  lemma FailuresGive500(req: Request, p: string, ai: seq<ChatMessage> -> Upstream)
    requires req.Malformed? ||
             (Accepted(req) && (req.messages.None? ||
                                ai(Outgoing(p, req.messages.value, req.currentUserId)).Failed?))
    ensures Post(req, p, ai) == Response(500, Problem(ServerError))
  {
  }
}
