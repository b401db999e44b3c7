/** The JSON shapes the browser and the /api/chat route exchange. */
module Protocol {
  import opened Wrappers

  /** One conversation turn `{role, content}`. The role is an open string on the wire:
      the browser only ever writes "user" or "assistant", but the route accepts any. */
  datatype Message = Message(role: string, content: string)

  const UserRole: string := "user"
  const AssistantRole: string := "assistant"

  /** The POST body `{messages, provider, model}`; `model` may be absent. */
  datatype ChatRequest = ChatRequest(messages: seq<Message>, provider: string, model: Option<string>)

  /** What the route answers: a raw text stream (the fragments written to it, in order,
      after which it is closed), a 200 JSON `{response}`, or an error JSON `{error}`
      with its status code. */
  datatype HttpResponse =
    | StreamBody(fragments: seq<string>)
    | JsonResponse(response: string)
    | ErrorResponse(status: int, error: string)
}
