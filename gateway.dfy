/** The POST handler of /api/chat (app/api/chat/route.js): it parses the body, switches on
    the provider string, shapes the request for that provider's SDK, and turns the SDK's
    answer into a text stream, a JSON `{response}` or a JSON `{error}` with a status.

    The three SDKs are not part of this model; they are the oracles of `Upstream`, each
    given exactly the arguments the route passes and answering with a result or the
    message of the error it threw. */
module Gateway {
  import opened Wrappers
  import opened Text
  import opened Protocol

  const OpenAI: string := "openai"
  const Anthropic: string := "anthropic"
  const Google: string := "google"

  /** The providers the `switch` has a case for. */
  const KnownProviders: set<string> := {OpenAI, Anthropic, Google}

  /** The model each case falls back to when the request names none. */
  function DefaultModel(provider: string): string {
    if provider == OpenAI then "gpt-4"
    else if provider == Anthropic then "claude-3-haiku-20240307"
    else "gemini-pro"
  }

  /** The prefix each case puts before the message of an error its SDK call threw. */
  function ErrorPrefix(provider: string): string {
    if provider == OpenAI then "OpenAI error: "
    else if provider == Anthropic then "Anthropic error: "
    else "Google AI error: "
  }

  /** `model || fallback`: JavaScript treats an absent model and the empty string alike. */
  function ResolveModel(model: Option<string>, fallback: string): (m: string)
    ensures model.Some? && model.value != "" ==> m == model.value
    ensures model.None? || model.value == "" ==> m == fallback
    ensures m == "" ==> fallback == ""
  {
    if model.Some? && model.value != "" then model.value else fallback
  }

  // ---------------------------------------------------------------------------------------
  // Anthropic: the whole history flattened into one prompt.

  function Contents(messages: seq<Message>): (cs: seq<string>)
    ensures |cs| == |messages|
    ensures forall i :: 0 <= i < |messages| ==> cs[i] == messages[i].content
  {
    seq(|messages|, i requires 0 <= i < |messages| => messages[i].content)
  }

  /** Array.prototype.join: the items in order with `sep` between neighbours. */
  function Join(xs: seq<string>, sep: string): string {
    if |xs| == 0 then "" else if |xs| == 1 then xs[0] else xs[0] + sep + Join(xs[1..], sep)
  }

  /** Where item `i` starts inside `Join(xs, sep)`: the items before it and one
      separator after each of them. */
  function Offset(xs: seq<string>, sep: string, i: nat): nat
    requires i < |xs|
  {
    if i == 0 then 0 else |xs[0]| + |sep| + Offset(xs[1..], sep, i - 1)
  }

  /** A slice that lies inside the right operand of a concatenation. */
  lemma SliceOfRight(a: string, b: string, lo: nat, hi: nat)
    requires |a| <= lo <= hi <= |a| + |b|
    ensures (a + b)[lo..hi] == b[lo - |a|..hi - |a|]
  {
  }

  /** A prefix that lies inside the left operand of a concatenation. */
  lemma PrefixOfLeft(a: string, b: string, n: nat)
    requires n <= |a|
    ensures (a + b)[0..n] == a[0..n]
  {
  }

  /** The first operand of a three-part concatenation is its prefix. */
  lemma FirstOfThree(a: string, b: string, c: string)
    ensures (a + b + c)[0..|a|] == a
  {
    PrefixOfLeft(a + b, c, |a|);
    PrefixOfLeft(a, b, |a|);
    assert a[0..|a|] == a;
  }

  /** A piece found at offset `o` of `b` is found at offset `|a| + o` of `a + b`. */
  lemma ShiftedSlice(a: string, b: string, o: nat, x: string)
    requires o + |x| <= |b| && b[o..o + |x|] == x
    ensures (a + b)[|a| + o..|a| + o + |x|] == x
  {
    SliceOfRight(a, b, |a| + o, |a| + o + |x|);
  }

  /** Joining two or more items: the first, a separator, then the rest joined. */
  lemma JoinUnfold(xs: seq<string>, sep: string)
    requires |xs| >= 2
    ensures Join(xs, sep) == xs[0] + sep + Join(xs[1..], sep)
    ensures |Join(xs, sep)| == |xs[0]| + |sep| + |Join(xs[1..], sep)|
  {
  }

  /** The first item opens the joined text. */
  lemma JoinItemFirst(xs: seq<string>, sep: string)
    requires |xs| >= 1
    ensures |xs[0]| <= |Join(xs, sep)|
    ensures Join(xs, sep)[0..|xs[0]|] == xs[0]
  {
    if |xs| > 1 {
      JoinUnfold(xs, sep);
      FirstOfThree(xs[0], sep, Join(xs[1..], sep));
    } else {
      assert xs[0][0..|xs[0]|] == xs[0];
    }
  }

  /** An item found at its offset in the join of the tail is found, shifted by the first
      item and one separator, in the join of the whole list. */
  lemma JoinItemShift(xs: seq<string>, sep: string, i: nat)
    requires 0 < i < |xs|
    requires Offset(xs[1..], sep, i - 1) + |xs[i]| <= |Join(xs[1..], sep)|
    requires Join(xs[1..], sep)[Offset(xs[1..], sep, i - 1)..Offset(xs[1..], sep, i - 1) + |xs[i]|] == xs[i]
    ensures Offset(xs, sep, i) + |xs[i]| <= |Join(xs, sep)|
    ensures Join(xs, sep)[Offset(xs, sep, i)..Offset(xs, sep, i) + |xs[i]|] == xs[i]
  {
    JoinUnfold(xs, sep);
    ShiftedSlice(xs[0] + sep, Join(xs[1..], sep), Offset(xs[1..], sep, i - 1), xs[i]);
  }

  /** The joined text holds every item unchanged at its offset, so no item is lost and
      the items keep their order. */
  lemma {:induction false} JoinItemAt(xs: seq<string>, sep: string, i: nat)
    requires i < |xs|
    ensures Offset(xs, sep, i) + |xs[i]| <= |Join(xs, sep)|
    ensures Join(xs, sep)[Offset(xs, sep, i)..Offset(xs, sep, i) + |xs[i]|] == xs[i]
  {
    if i == 0 {
      JoinItemFirst(xs, sep);
    } else {
      JoinItemAt(xs[1..], sep, i - 1);
      assert xs[1..][i - 1] == xs[i];
      JoinItemShift(xs, sep, i);
    }
  }

  /** Right after every item but the last comes exactly one separator, and the next item
      starts right after it. */
  lemma {:induction false} JoinSeparatorAfter(xs: seq<string>, sep: string, i: nat)
    requires i + 1 < |xs|
    ensures Offset(xs, sep, i + 1) == Offset(xs, sep, i) + |xs[i]| + |sep|
    ensures Offset(xs, sep, i + 1) <= |Join(xs, sep)|
    ensures Join(xs, sep)[Offset(xs, sep, i) + |xs[i]|..Offset(xs, sep, i + 1)] == sep
  {
    JoinUnfold(xs, sep);
    if i == 0 {
      PrefixOfLeft(xs[0] + sep, Join(xs[1..], sep), |xs[0]| + |sep|);
      SliceOfRight(xs[0], sep, |xs[0]|, |xs[0]| + |sep|);
      assert sep[0..|sep|] == sep;
    } else {
      JoinSeparatorAfter(xs[1..], sep, i - 1);
      var d, e := |xs[0]| + |sep|, Offset(xs[1..], sep, i - 1) + |xs[i]|;
      assert xs[1..][i - 1] == xs[i];
      SliceOfRight(xs[0] + sep, Join(xs[1..], sep), d + e, d + e + |sep|);
    }
  }

  /** The joined text ends with the last item: nothing follows it. */
  lemma {:induction false} JoinEndsWithLast(xs: seq<string>, sep: string)
    requires |xs| >= 1
    ensures |Join(xs, sep)| == Offset(xs, sep, |xs| - 1) + |xs[|xs| - 1]|
  {
    if |xs| > 1 {
      JoinUnfold(xs, sep);
      JoinEndsWithLast(xs[1..], sep);
      assert xs[1..][|xs| - 2] == xs[|xs| - 1];
      assert Offset(xs, sep, |xs| - 1) == |xs[0]| + |sep| + Offset(xs[1..], sep, |xs| - 2);
    }
  }

  /** For n >= 1 items the joined text is as long as the items together plus n - 1 separators. */
  lemma {:induction false} JoinLength(xs: seq<string>, sep: string)
    requires |xs| >= 1
    ensures |Join(xs, sep)| == TotalLength(xs) + (|xs| - 1) * |sep|
  {
    TotalLengthFront(xs);
    if |xs| > 1 {
      JoinUnfold(xs, sep);
      JoinLength(xs[1..], sep);
    } else {
      assert xs[1..] == [];
    }
  }

  /** The prompt of the Anthropic case: the message contents joined by one space. */
  function AnthropicPrompt(messages: seq<Message>): string {
    Join(Contents(messages), " ")
  }

  // ---------------------------------------------------------------------------------------
  // Google: each message reshaped into a Gemini content entry.

  datatype Part = Part(text: string)
  datatype Content = Content(role: string, parts: seq<Part>)

  /** `{role: m.role === 'assistant' ? 'model' : 'user', parts: [{text: m.content}]}` */
  function ToGeminiContent(m: Message): Content {
    Content(if m.role == AssistantRole then "model" else UserRole, [Part(m.content)])
  }

  function ToGeminiContents(messages: seq<Message>): (contents: seq<Content>)
    ensures |contents| == |messages|
    ensures forall i :: 0 <= i < |messages| ==> contents[i] == ToGeminiContent(messages[i])
  {
    seq(|messages|, i requires 0 <= i < |messages| => ToGeminiContent(messages[i]))
  }

  /** Reading a Gemini entry back as a chat message. */
  function FromGeminiContent(c: Content): Message {
    Message(if c.role == "model" then AssistantRole else UserRole,
            if |c.parts| == 1 then c.parts[0].text else "")
  }

  /** The reshaping keeps the length and the order, gives every entry exactly one part
      holding the original content, maps "assistant" to "model" and every other role to
      "user"; so a history of user and assistant turns reads back unchanged. */
  lemma {:induction false} GeminiReshape(messages: seq<Message>, i: nat)
    requires i < |messages|
    ensures |ToGeminiContents(messages)| == |messages|
    ensures ToGeminiContents(messages)[i].parts == [Part(messages[i].content)]
    ensures ToGeminiContents(messages)[i].role == (if messages[i].role == AssistantRole then "model" else "user")
    ensures messages[i].role in {UserRole, AssistantRole} ==>
              FromGeminiContent(ToGeminiContents(messages)[i]) == messages[i]
  {
    var c := ToGeminiContents(messages)[i];
    assert c == ToGeminiContent(messages[i]);
    assert |c.parts| == 1;
  }

  // ---------------------------------------------------------------------------------------
  // OpenAI: the streamed completion.

  datatype Delta = Delta(content: Option<string>)
  datatype Choice = Choice(delta: Option<Delta>)

  /** A streamed chat-completion chunk, reduced to what the route reads. */
  datatype CompletionChunk = CompletionChunk(choices: seq<Choice>)

  /** The streamed answer: the chunks the `for await` loop receives, in order, and
      whether the iteration then threw instead of ending normally. */
  datatype ChunkStream = ChunkStream(chunks: seq<CompletionChunk>, interrupted: bool)

  /** `chunk.choices[0]?.delta?.content`, absent when any step along the path is. */
  function DeltaContent(chunk: CompletionChunk): Option<string> {
    if |chunk.choices| > 0 && chunk.choices[0].delta.Some? then chunk.choices[0].delta.value.content
    else None
  }

  /** The text written for one chunk: its delta content, or '' when that is absent. */
  function DeltaText(chunk: CompletionChunk): string {
    match DeltaContent(chunk)
    case Some(t) => t
    case None => ""
  }

  function Fragments(chunks: seq<CompletionChunk>): (fs: seq<string>)
    ensures |fs| == |chunks|
    ensures forall i :: 0 <= i < |chunks| ==> fs[i] == DeltaText(chunks[i])
  {
    seq(|chunks|, i requires 0 <= i < |chunks| => DeltaText(chunks[i]))
  }

  /** The delta contents that are present, in order. */
  function PresentContents(chunks: seq<CompletionChunk>): seq<string> {
    if chunks == [] then []
    else
      var last := chunks[|chunks| - 1];
      PresentContents(chunks[..|chunks| - 1]) + (if DeltaContent(last).Some? then [DeltaContent(last).value] else [])
  }

  /** The text of the stream is the present delta contents concatenated in order: a chunk
      without content adds nothing, and no content is dropped or repeated. */
  lemma {:induction false} StreamTextIsPresentContents(chunks: seq<CompletionChunk>)
    ensures Concat(Fragments(chunks)) == Concat(PresentContents(chunks))
  {
    if chunks != [] {
      var init := chunks[..|chunks| - 1];
      var last := chunks[|chunks| - 1];
      assert Fragments(chunks)[..|chunks| - 1] == Fragments(init);
      StreamTextIsPresentContents(init);
      if DeltaContent(last).Some? {
        ConcatAppend(PresentContents(init), [DeltaContent(last).value]);
        assert [DeltaContent(last).value][..0] == [];
      } else {
        assert PresentContents(chunks) == PresentContents(init);
      }
    }
  }

  /** The writable side of the TransformStream: what has been written to it, in order, and
      how many times it has been closed. */
  class StreamWriter {
    var written: seq<string>
    var closeCount: nat

    constructor ()
      ensures written == [] && closeCount == 0
    {
      written := [];
      closeCount := 0;
    }

    method Write(text: string)
      requires closeCount == 0
      modifies this
      ensures written == old(written) + [text]
      ensures closeCount == old(closeCount)
    {
      written := written + [text];
    }

    method Close()
      requires closeCount == 0
      modifies this
      ensures closeCount == 1
      ensures written == old(written)
    {
      closeCount := 1;
    }
  }

  /** The detached `for await` loop of the OpenAI case: one write per chunk, then one close
      in `finally`, whether the iteration ended or threw; what was written stands. */
  method PumpCompletion(source: ChunkStream, writer: StreamWriter)
    requires writer.closeCount == 0
    modifies writer
    ensures writer.written == old(writer.written) + Fragments(source.chunks)
    ensures writer.closeCount == 1
  {
    var i := 0;
    while i < |source.chunks|
      invariant 0 <= i <= |source.chunks|
      invariant writer.written == old(writer.written) + Fragments(source.chunks[..i])
      invariant writer.closeCount == 0
    {
      writer.Write(DeltaText(source.chunks[i]));
      assert Fragments(source.chunks[..i + 1]) == Fragments(source.chunks[..i]) + [DeltaText(source.chunks[i])];
      i := i + 1;
    }
    assert source.chunks[..i] == source.chunks;
    // An interrupted iteration (source.interrupted) is caught and only logged: there is
    // nothing left to undo, and the close below runs either way.
    writer.Close();
  }

  // ---------------------------------------------------------------------------------------
  // The handler.

  /** The result of `await req.json()` followed by reading `messages.length`: the request,
      or the message of the error either of them threw. */
  datatype Body = Parsed(request: ChatRequest) | Malformed(message: string)

  /** The SDK call a case makes, with the arguments it passes. */
  datatype UpstreamCall =
    | OpenAIChat(model: string, messages: seq<Message>)
    | AnthropicGenerate(model: string, prompt: string)
    | GoogleGenerate(model: string, contents: seq<Content>)

  /** The SDK oracles: each answers a call with a result or the message of the error it threw. */
  datatype Upstream = Upstream(
    openai: (string, seq<Message>) -> Result<ChunkStream, string>,
    anthropic: (string, string) -> Result<string, string>,
    google: (string, seq<Content>) -> Result<string, string>)

  /** The dispatch and request shaping of the `switch`: which SDK call a request leads to,
      if any. An unknown provider leads to none; a known one to its own SDK, with the
      request's model when it names one and the provider's default otherwise. */
  function Shape(req: ChatRequest): (call: Option<UpstreamCall>)
    ensures call.None? <==> req.provider !in KnownProviders
    ensures call.Some? ==> (call.value.OpenAIChat? <==> req.provider == OpenAI)
    ensures call.Some? ==> (call.value.AnthropicGenerate? <==> req.provider == Anthropic)
    ensures call.Some? ==> (call.value.GoogleGenerate? <==> req.provider == Google)
    ensures call.Some? && req.model.Some? && req.model.value != "" ==> call.value.model == req.model.value
    ensures call.Some? && (req.model.None? || req.model.value == "") ==>
              call.value.model == DefaultModel(req.provider)
    ensures call.Some? && call.value.OpenAIChat? ==> call.value.messages == req.messages
    ensures call.Some? && call.value.AnthropicGenerate? ==> call.value.prompt == Join(Contents(req.messages), " ")
    ensures call.Some? && call.value.GoogleGenerate? ==> call.value.contents == ToGeminiContents(req.messages)
  {
    if req.provider == OpenAI then
      Some(OpenAIChat(ResolveModel(req.model, DefaultModel(OpenAI)), req.messages))
    else if req.provider == Anthropic then
      Some(AnthropicGenerate(ResolveModel(req.model, DefaultModel(Anthropic)), AnthropicPrompt(req.messages)))
    else if req.provider == Google then
      Some(GoogleGenerate(ResolveModel(req.model, DefaultModel(Google)), ToGeminiContents(req.messages)))
    else
      None
  }

  /** The response a case builds from its SDK's answer. */
  function Answer(call: UpstreamCall, up: Upstream): HttpResponse {
    match call
    case OpenAIChat(m, ms) =>
      (match up.openai(m, ms)
       case Success(source) => StreamBody(Fragments(source.chunks))
       case Failure(e) => ErrorResponse(500, ErrorPrefix(OpenAI) + e))
    case AnthropicGenerate(m, prompt) =>
      (match up.anthropic(m, prompt)
       case Success(text) => JsonResponse(text)
       case Failure(e) => ErrorResponse(500, ErrorPrefix(Anthropic) + e))
    case GoogleGenerate(m, contents) =>
      (match up.google(m, contents)
       case Success(text) => JsonResponse(text)
       case Failure(e) => ErrorResponse(500, ErrorPrefix(Google) + e))
  }

  /** The whole handler as a function of the parsed body and the SDK oracles. */
  function Route(body: Body, up: Upstream): (r: HttpResponse)
    ensures body.Malformed? ==> r == ErrorResponse(500, "Server error: " + body.message)
    ensures body.Parsed? && body.request.provider !in KnownProviders ==>
              r == ErrorResponse(400, "Invalid provider")
    ensures r.StreamBody? ==> body.Parsed? && body.request.provider == OpenAI
    ensures r.JsonResponse? ==> body.Parsed? && body.request.provider in {Anthropic, Google}
    ensures r.ErrorResponse? ==> r.status == 400 || r.status == 500
    ensures r.ErrorResponse? && r.status == 500 && body.Parsed? ==>
              body.request.provider in KnownProviders && ErrorPrefix(body.request.provider) <= r.error
    ensures body.Parsed? && body.request.provider == OpenAI ==>
              var req := body.request;
              match up.openai(ResolveModel(req.model, DefaultModel(OpenAI)), req.messages)
              case Success(source) => r == StreamBody(Fragments(source.chunks))
              case Failure(e) => r == ErrorResponse(500, "OpenAI error: " + e)
    ensures body.Parsed? && body.request.provider == Anthropic ==>
              var req := body.request;
              match up.anthropic(ResolveModel(req.model, DefaultModel(Anthropic)), Join(Contents(req.messages), " "))
              case Success(text) => r == JsonResponse(text)
              case Failure(e) => r == ErrorResponse(500, "Anthropic error: " + e)
    ensures body.Parsed? && body.request.provider == Google ==>
              var req := body.request;
              match up.google(ResolveModel(req.model, DefaultModel(Google)), ToGeminiContents(req.messages))
              case Success(text) => r == JsonResponse(text)
              case Failure(e) => r == ErrorResponse(500, "Google AI error: " + e)
  {
    match body
    case Malformed(msg) => ErrorResponse(500, "Server error: " + msg)
    case Parsed(req) =>
      match Shape(req)
      case None => ErrorResponse(400, "Invalid provider")
      case Some(call) => Answer(call, up)
  }

  /** The handler as it runs: the `switch`, the SDK call each case makes, and for OpenAI a
      fresh stream that the completion is pumped into. It answers as `Route` says, reports
      the SDK call it made (none for an unknown provider or an unreadable body), and closes
      a stream exactly once when it answers with one. */
  method Post(body: Body, up: Upstream) returns (response: HttpResponse, call: Option<UpstreamCall>, closes: nat)
    ensures response == Route(body, up)
    ensures call == if body.Parsed? then Shape(body.request) else None
    ensures closes == if response.StreamBody? then 1 else 0
  {
    closes := 0;
    if body.Malformed? {
      response, call := ErrorResponse(500, "Server error: " + body.message), None;
      return;
    }
    var req := body.request;
    if req.provider == OpenAI {
      var model := ResolveModel(req.model, DefaultModel(OpenAI));
      call := Some(OpenAIChat(model, req.messages));
      match up.openai(model, req.messages)
      case Failure(e) =>
        response := ErrorResponse(500, ErrorPrefix(OpenAI) + e);
      case Success(source) =>
        var writer := new StreamWriter();
        PumpCompletion(source, writer);
        response, closes := StreamBody(writer.written), writer.closeCount;
    } else if req.provider == Anthropic {
      var model := ResolveModel(req.model, DefaultModel(Anthropic));
      var prompt := AnthropicPrompt(req.messages);
      call := Some(AnthropicGenerate(model, prompt));
      match up.anthropic(model, prompt)
      case Failure(e) => response := ErrorResponse(500, ErrorPrefix(Anthropic) + e);
      case Success(text) => response := JsonResponse(text);
    } else if req.provider == Google {
      var model := ResolveModel(req.model, DefaultModel(Google));
      var contents := ToGeminiContents(req.messages);
      call := Some(GoogleGenerate(model, contents));
      match up.google(model, contents)
      case Failure(e) => response := ErrorResponse(500, ErrorPrefix(Google) + e);
      case Success(text) => response := JsonResponse(text);
    } else {
      response, call := ErrorResponse(400, "Invalid provider"), None;
    }
  }
}
