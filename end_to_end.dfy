/** The page and the route together: the body the page posts is the request the route
    dispatches, and the route's answer, as the page receives it, is the reply the page
    consumes. */
module EndToEnd {
  import opened Wrappers
  import opened Text
  import opened Protocol
  import Gateway
  import Chat

  /** What `fetch` hands the page for a route answer when the network holds: a stream is
      read to its end, a 200 JSON body yields its `response`, any error status is not ok.
      The route closes its stream in `finally`, so the page never sees a read reject: an
      upstream failure in mid-stream only cuts the text short. */
  function ClientView(response: HttpResponse): (reply: Chat.Reply)
    ensures reply.Streamed? <==> response.StreamBody?
    ensures reply.Whole? <==> response.JsonResponse?
    ensures reply.NotOk? <==> response.ErrorResponse?
    ensures !reply.Thrown?
    ensures reply.Streamed? ==> reply.fragments == response.fragments && !reply.interrupted
    ensures reply.Whole? ==> reply.response == response.response
    ensures reply.NotOk? ==> reply.status == response.status && reply.error == response.error
  {
    match response
    case StreamBody(fs) => Chat.Streamed(fs, false)
    case JsonResponse(text) => Chat.Whole(text)
    case ErrorResponse(status, error) => Chat.NotOk(status, error)
  }

  /** Every provider the page offers is one the route handles, and the route answers it in
      the shape the page reads: a stream for OpenAI, a JSON body for Anthropic and Google,
      or an error. */
  lemma {:induction false} RouteAnswersInPageShape(req: ChatRequest, up: Gateway.Upstream)
    requires req.provider in Chat.Providers
    ensures req.provider in Gateway.KnownProviders
    ensures Chat.Matches(req.provider, ClientView(Gateway.Route(Gateway.Parsed(req), up)))
  {
    assert req.provider in {"openai", "anthropic", "google"};
  }

  /** The page always names one of its own models, which is never empty, so the route's
      default models are never used for its requests: the SDK receives the picked model. */
  lemma {:induction false} PickedModelReachesUpstream(messages: seq<Message>, provider: string, model: string)
    requires provider in Chat.Providers && model in Chat.Models(provider)
    ensures Gateway.Shape(ChatRequest(messages, provider, Some(model))).Some?
    ensures Gateway.Shape(ChatRequest(messages, provider, Some(model))).value.model == model
  {
    assert provider in {"openai", "anthropic", "google"};
    var models := Chat.Models(provider);
    var i :| 0 <= i < |models| && models[i] == model;
    assert model != "";
  }

  /** A first turn from a fresh page: pick a provider and model, type, send, let the route
      answer from the SDK oracles, consume the answer. The route is asked with exactly the
      user's trimmed text as history, and the page ends with that message followed by the
      answer; for OpenAI the last message is the whole streamed text. */
  method FirstTurn(provider: string, model: string, text: string, up: Gateway.Upstream)
    returns (request: ChatRequest, response: HttpResponse, transcript: seq<Message>)
    requires provider in Chat.Providers && model in Chat.Models(provider)
    requires Trim(text) != ""
    ensures request == ChatRequest([Message(UserRole, Trim(text))], provider, Some(model))
    ensures response == Gateway.Route(Gateway.Parsed(request), up)
    ensures transcript == request.messages + Chat.AnswerTurn(ClientView(response))
    ensures response.StreamBody? ==> transcript == request.messages + [Message(AssistantRole, Concat(response.fragments))]
    ensures response.JsonResponse? ==> transcript == request.messages + [Message(AssistantRole, response.response)]
    ensures response.ErrorResponse? ==> transcript == request.messages + [Chat.Fallback]
  {
    var page := new Chat.ChatController();
    page.ProviderChange(provider);
    page.ModelChange(model);
    page.EditInput(text);
    var sent := page.BeginSend();
    request := sent.value;
    var call, closes;
    response, call, closes := Gateway.Post(Gateway.Parsed(request), up);
    RouteAnswersInPageShape(request, up);
    page.FinishSend(ClientView(response));
    transcript := page.messages;
  }
}
