/** The conversation controller of the chat page (app/components/Chat.js): the component
    state `messages`, `input`, `provider`, `model` and `isLoading`, the provider and model
    pickers, and `sendMessage` with the three ways it consumes the answer.

    The request to /api/chat is not made here: `BeginSend` returns the body it would post,
    and the answer comes back to `FinishSend` as a `Reply`. */
module Chat {
  import opened Wrappers
  import opened Text
  import opened Protocol

  datatype ProviderInfo = ProviderInfo(name: string, models: seq<string>)

  /** The provider table the two pickers are built from. */
  const Providers: map<string, ProviderInfo> := map[
    "openai" := ProviderInfo("OpenAI (GPT-4)", ["gpt-3.5-turbo", "gpt-4o-mini"]),
    "anthropic" := ProviderInfo("Anthropic (Claude)", ["claude-3-opus-20240229", "claude-3-sonnet-20240229"]),
    "google" := ProviderInfo("Google (Gemini)", ["gemini-pro"])]

  /** The models offered for a provider: never an empty list, never an empty name. */
  function Models(provider: string): (models: seq<string>)
    requires provider in Providers
    ensures |models| >= 1
    ensures forall i :: 0 <= i < |models| ==> models[i] != ""
  {
    Providers[provider].models
  }

  /** The providers whose answer is one JSON `{response}` rather than a text stream. */
  predicate AnswersWhole(provider: string) {
    provider == "google" || provider == "anthropic"
  }

  const FallbackText: string := "Sorry, there was an error processing your request. Please try again."

  const Fallback: Message := Message(AssistantRole, FallbackText)

  /** How the answer to the POST reaches the page: `fetch` rejected; the response was not
      ok (its `{error}` only goes to the log); a JSON body whose `response` field is read;
      or a text stream read fragment by fragment (decoding is the identity here), after
      which a read either reports done or rejects (`interrupted`). */
  datatype Reply =
    | Thrown(message: string)
    | NotOk(status: int, error: string)
    | Whole(response: string)
    | Streamed(fragments: seq<string>, interrupted: bool)

  /** Whether the turn ends in the catch block. */
  predicate Failed(reply: Reply) {
    reply.Thrown? || reply.NotOk? || (reply.Streamed? && reply.interrupted)
  }

  /** The page reads a JSON body for the whole-answer providers and a stream for the
      others; the route answers each provider in that shape. */
  predicate Matches(provider: string, reply: Reply) {
    && (reply.Whole? ==> AnswersWhole(provider))
    && (reply.Streamed? ==> !AnswersWhole(provider))
  }

  /** The messages a turn's answer adds after the user message. */
  function AnswerTurn(reply: Reply): (added: seq<Message>)
    ensures 1 <= |added| <= 2
    ensures forall i :: 0 <= i < |added| ==> added[i].role == AssistantRole
    ensures Failed(reply) ==> added[|added| - 1] == Fallback
    ensures |added| == 2 <==> reply.Streamed? && reply.interrupted
    ensures reply.Whole? ==> added == [Message(AssistantRole, reply.response)]
    ensures reply.Streamed? ==> added[0] == Message(AssistantRole, Concat(reply.fragments))
    ensures reply.Thrown? || reply.NotOk? ==> added == [Fallback]
  {
    match reply
    case Thrown(_) => [Fallback]
    case NotOk(_, _) => [Fallback]
    case Whole(text) => [Message(AssistantRole, text)]
    case Streamed(fs, interrupted) =>
      [Message(AssistantRole, Concat(fs))] + (if interrupted then [Fallback] else [])
  }

  /** The list shown while a stream is read: the history, then one assistant message
      holding the first `k` fragments. */
  function StreamingView(history: seq<Message>, fragments: seq<string>, k: nat): seq<Message>
    requires k <= |fragments|
  {
    history + [Message(AssistantRole, Concat(fragments[..k]))]
  }

  /** Reading fragment k+1 replaces only the last message, extending its text by that
      fragment; the length of the list and every earlier message stay as they were. */
  lemma {:induction false} StreamingStep(history: seq<Message>, fragments: seq<string>, k: nat)
    requires k < |fragments|
    ensures |StreamingView(history, fragments, k + 1)| == |history| + 1
    ensures StreamingView(history, fragments, k + 1)
         == StreamingView(history, fragments, k)[|history| := Message(AssistantRole, Concat(fragments[..k]) + fragments[k])]
  {
    ConcatPrefixStep(fragments, k);
  }

  /** A history the page can hold: every role is "user" or "assistant", and every user
      message is trimmed, non-empty text. */
  predicate WellFormed(messages: seq<Message>) {
    forall i :: 0 <= i < |messages| ==>
      && (messages[i].role == UserRole || messages[i].role == AssistantRole)
      && (messages[i].role == UserRole ==> messages[i].content != "" && Trim(messages[i].content) == messages[i].content)
  }

  /** Appending the trimmed text of a send keeps a history well formed. */
  lemma UserTurnKeepsWellFormed(messages: seq<Message>, text: string)
    requires WellFormed(messages) && Trim(text) != ""
    ensures WellFormed(messages + [Message(UserRole, Trim(text))])
  {
    TrimIdempotent(text);
    var ms := messages + [Message(UserRole, Trim(text))];
    assert forall i :: 0 <= i < |messages| ==> ms[i] == messages[i];
  }

  /** Appending assistant messages keeps a history well formed. */
  lemma AssistantTurnKeepsWellFormed(messages: seq<Message>, added: seq<Message>)
    requires WellFormed(messages)
    requires forall i :: 0 <= i < |added| ==> added[i].role == AssistantRole
    ensures WellFormed(messages + added)
  {
    var ms := messages + added;
    assert forall i :: 0 <= i < |messages| ==> ms[i] == messages[i];
    assert forall i :: |messages| <= i < |ms| ==> ms[i] == added[i - |messages|];
  }

  class ChatController {
    var messages: seq<Message>
    var input: string
    var provider: string
    var model: string
    var isLoading: bool

    /** The selected model is one of the selected provider's, and the history is well formed. */
    predicate Valid()
      reads this
    {
      provider in Providers && model in Models(provider) && WellFormed(messages)
    }

    /** The initial state: no messages, empty input, OpenAI with its first model, idle. */
    constructor ()
      ensures Valid()
      ensures messages == [] && input == "" && !isLoading
      ensures provider == "openai" && model == Models("openai")[0]
    {
      messages := [];
      input := "";
      provider := "openai";
      model := Providers["openai"].models[0];
      isLoading := false;
    }

    /** Typing into the message box, which is disabled while a turn is in flight. */
    method EditInput(text: string)
      requires !isLoading
      modifies this`input
      ensures input == text
    {
      input := text;
    }

    /** Picking a provider (the picker is disabled while loading): the model becomes
      the first of the new provider's models. */
    method ProviderChange(newProvider: string)
      requires Valid() && !isLoading
      requires newProvider in Providers
      modifies this`provider, this`model
      ensures Valid()
      ensures provider == newProvider && model == Models(newProvider)[0]
    {
      provider := newProvider;
      model := Providers[newProvider].models[0];
    }

    /** Picking a model among the current provider's (disabled while loading). */
    method ModelChange(newModel: string)
      requires Valid() && !isLoading
      requires newModel in Models(provider)
      modifies this`model
      ensures Valid() && model == newModel
    {
      model := newModel;
    }

    /** The sidebar's "New Chat": clears the conversation and the input, and nothing else. */
    method NewChat()
      requires Valid()
      modifies this`messages, this`input
      ensures Valid()
      ensures messages == [] && input == ""
    {
      messages := [];
      input := "";
    }

    /** The synchronous part of `sendMessage`, up to the `fetch`: an input that trims to
      nothing, or a turn already in flight, leaves everything as it was and sends nothing;
      otherwise the page is busy, the input is cleared, the trimmed input is appended as a
      user message, and the whole updated history is posted with the provider and model. */
    method BeginSend() returns (request: Option<ChatRequest>)
      requires Valid()
      modifies this`messages, this`input, this`isLoading
      ensures Valid()
      ensures request.None? <==> Trim(old(input)) == "" || old(isLoading)
      ensures request.None? ==> messages == old(messages) && input == old(input) && isLoading == old(isLoading)
      ensures request.Some? ==> && isLoading && input == ""
                                && messages == old(messages) + [Message(UserRole, Trim(old(input)))]
                                && request.value == ChatRequest(messages, provider, Some(model))
    {
      if Trim(input) == "" || isLoading {
        return None;
      }
      isLoading := true;
      var userMessage := Trim(input);
      input := "";
      UserTurnKeepsWellFormed(messages, old(input));
      var newMessages := messages + [Message(UserRole, userMessage)];
      messages := newMessages;
      request := Some(ChatRequest(newMessages, provider, Some(model)));
    }

    /** `handleGeminiResponse` and `handleAnthropicResponse`, which are the same: append
      one assistant message holding `data.response`. */
    method AppendWholeResponse(text: string)
      modifies this`messages
      ensures messages == old(messages) + [Message(AssistantRole, text)]
    {
      messages := messages + [Message(AssistantRole, text)];
    }

    /** `handleStreamingResponse`: append an empty assistant placeholder, then after every
      fragment overwrite the last message with the text accumulated so far. Returns
      whether a read rejected, which the caller handles like any other error. */
    method HandleStreamingResponse(fragments: seq<string>, interrupted: bool) returns (failed: bool)
      modifies this`messages
      ensures messages == old(messages) + [Message(AssistantRole, Concat(fragments))]
      ensures failed == interrupted
    {
      var accumulated := "";
      messages := messages + [Message(AssistantRole, "")];
      var i := 0;
      while i < |fragments|
        invariant i <= |fragments|
        invariant accumulated == Concat(fragments[..i])
        invariant messages == StreamingView(old(messages), fragments, i)
      {
        StreamingStep(old(messages), fragments, i);
        ConcatPrefixStep(fragments, i);
        accumulated := accumulated + fragments[i];
        var newMessages := messages;
        newMessages := newMessages[|newMessages| - 1 := Message(AssistantRole, accumulated)];
        messages := newMessages;
        i := i + 1;
      }
      assert fragments[..i] == fragments;
      failed := interrupted;
    }

    /** The part of `sendMessage` after the `fetch`: consume the answer the way the
      provider calls for, append the fixed fallback message after whatever was already
      appended if anything failed, and in every case end the busy state. */
    method FinishSend(reply: Reply)
      requires Valid() && isLoading
      requires Matches(provider, reply)
      modifies this`messages, this`isLoading
      ensures Valid() && !isLoading
      ensures messages == old(messages) + AnswerTurn(reply)
    {
      var failed := false;
      if reply.Thrown? || reply.NotOk? {
        failed := true;
      } else if provider == "google" || provider == "anthropic" {
        AppendWholeResponse(reply.response);
      } else {
        failed := HandleStreamingResponse(reply.fragments, reply.interrupted);
      }
      if failed {
        messages := messages + [Fallback];
      }
      AssistantTurnKeepsWellFormed(old(messages), AnswerTurn(reply));
      isLoading := false;
    }

    /** One whole `sendMessage`: rejected exactly as `BeginSend` says; an accepted turn
      posts the updated history and leaves the user message followed by the answer's
      messages, with the page idle and the input empty. */
    method SendMessage(reply: Reply) returns (request: Option<ChatRequest>)
      requires Valid()
      requires Matches(provider, reply)
      modifies this`messages, this`input, this`isLoading
      ensures Valid()
      ensures request.None? <==> Trim(old(input)) == "" || old(isLoading)
      ensures request.None? ==> messages == old(messages) && input == old(input) && isLoading == old(isLoading)
      ensures request.Some? ==>
                && !isLoading && input == ""
                && request.value == ChatRequest(old(messages) + [Message(UserRole, Trim(old(input)))], provider, Some(model))
                && messages == request.value.messages + AnswerTurn(reply)
    {
      request := BeginSend();
      if request.Some? {
        FinishSend(reply);
      }
    }
  }
}
