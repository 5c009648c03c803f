/** The chat route (`POST /api/chat`): it checks its configuration and the
    posted body, forwards the conversation to the language model with the
    survey system prompt, and relays the model's text deltas to the client as
    a stream of `data:` frames closed by the end frame. The model service is
    not modelled: its stream of events is an input. */
module ChatRoute {

  import opened Wrappers
  import opened Text
  import ChatStream

  /** One element of the posted `messages` array: an object with its role
      and content and whatever other properties the sender put in it, or
      `null`, whose `role` cannot be read. */
  datatype IncomingMessage = Item(role: string, content: string, otherFields: seq<(string, string)>) | Null

  /** The posted `messages` value: an array, or anything else (missing,
      null, a string, an object...). */
  datatype MessagesField = NotAnArray | AnArray(items: seq<IncomingMessage>)

  /** The posted JSON body as the route destructures it; `shouldConclude` is
      the truthiness of that property (false when it is absent). */
  datatype ChatRequest = ChatRequest(messages: MessagesField, shouldConclude: bool)

  /** A message as the route forwards it to the model. */
  datatype ApiMessage = ApiMessage(role: string, content: string)

  /** The streaming request the route makes to the model service. */
  datatype ModelCall = ModelCall(model: string, maxTokens: int, system: string,
                                 messages: seq<ApiMessage>, stream: bool)

  /** One event of the model's response stream: its `type`, and the `text`
      of its `delta` when the delta has one. */
  datatype UpstreamChunk = UpstreamChunk(kind: string, deltaText: Option<string>)

  /** What the model service does with the request: it fails to start the
      stream, or it delivers events and then either ends or fails. */
  datatype Upstream = CreateFailed | Streaming(chunks: seq<UpstreamChunk>, failsAfter: bool)

  /** The route's response: a JSON error with its status, or the event
      stream's body and whether the stream was ended with an error instead
      of being closed. */
  datatype ChatResponse = JsonError(status: int, error: string) | EventStream(body: string, errored: bool)

  const Model := "claude-3-haiku-20240307"
  const MaxTokens := 1024
  const ConcludeSuffix := "\n\nIMPORTANT: You have enough information. End with exactly \"Perfect, thanks!\" and nothing more."

  /** The messages forwarded to the model: the same entries in the same
      order, each reduced to its role and content; `None` when some entry is
      `null`, where reading its `role` throws. */
  function Forward(items: seq<IncomingMessage>): (r: Option<seq<ApiMessage>>)
    ensures r.None? <==> exists i :: 0 <= i < |items| && items[i].Null?
    ensures r.Some? ==> |r.value| == |items|
    ensures r.Some? ==> forall i :: 0 <= i < |items| ==> r.value[i] == ApiMessage(items[i].role, items[i].content)
  {
    if |items| == 0 then Some([])
    else if items[0].Null? then None
    else
      var rest := Forward(items[1..]);
      if rest.None? then
        assert exists i :: 0 <= i < |items| && items[i].Null? by {
          var j :| 0 <= j < |items[1..]| && items[1..][j].Null?;
          assert items[j + 1].Null?;
        }
        None
      else
        assert forall i :: 1 <= i < |items| ==> items[i] == items[1..][i - 1];
        Some([ApiMessage(items[0].role, items[0].content)] + rest.value)
  }

  /** An event the route relays: a content-block delta that carries text. */
  predicate IsTextDelta(c: UpstreamChunk)
  {
    c.kind == "content_block_delta" && c.deltaText.Some?
  }

  /** The texts of the relayed events, in arrival order: every text delta's
      text and nothing for the other events. */
  function TextDeltas(chunks: seq<UpstreamChunk>): (r: seq<string>)
    ensures |r| <= |chunks|
  {
    if |chunks| == 0 then []
    else
      var last := chunks[|chunks| - 1];
      TextDeltas(chunks[..|chunks| - 1]) + (if IsTextDelta(last) then [last.deltaText.value] else [])
  }

  /** A stream of text deltas alone is relayed text for text, in order; a
      stream without any relays nothing. */
  lemma {:induction false} TextDeltasExtremes(chunks: seq<UpstreamChunk>)
    ensures (forall i :: 0 <= i < |chunks| ==> IsTextDelta(chunks[i])) ==>
              |TextDeltas(chunks)| == |chunks|
              && forall i :: 0 <= i < |chunks| ==> TextDeltas(chunks)[i] == chunks[i].deltaText.value
    ensures (forall i :: 0 <= i < |chunks| ==> !IsTextDelta(chunks[i])) ==> TextDeltas(chunks) == []
  {
    if |chunks| > 0 {
      var prefix := chunks[..|chunks| - 1];
      TextDeltasExtremes(prefix);
      assert forall i :: 0 <= i < |prefix| ==> prefix[i] == chunks[i];
    }
  }

  /** The frames of two stretches of deltas are the frames of each. */
  lemma {:induction false} FramesAppend(a: seq<string>, b: seq<string>)
    ensures ChatStream.Frames(a + b) == ChatStream.Frames(a) + ChatStream.Frames(b)
  {
    if |a| == 0 {
      assert a + b == b;
    } else {
      assert (a + b)[0] == a[0];
      assert (a + b)[1..] == a[1..] + b;
      FramesAppend(a[1..], b);
    }
  }

  /** One more event adds its frame when it is a text delta, and nothing
      otherwise. */
  lemma FramesStep(chunks: seq<UpstreamChunk>, i: nat)
    requires i < |chunks|
    ensures ChatStream.Frames(TextDeltas(chunks[..i + 1]))
            == ChatStream.Frames(TextDeltas(chunks[..i]))
               + (if IsTextDelta(chunks[i]) then ChatStream.Frame(chunks[i].deltaText.value) else "")
  {
    var chunk := chunks[i];
    assert chunks[..i + 1][..i] == chunks[..i];
    assert chunks[..i + 1][i] == chunk;
    if IsTextDelta(chunk) {
      var text := chunk.deltaText.value;
      assert TextDeltas(chunks[..i + 1]) == TextDeltas(chunks[..i]) + [text];
      FramesAppend(TextDeltas(chunks[..i]), [text]);
      assert ChatStream.Frames([text]) == ChatStream.Frame(text) + ChatStream.Frames([]);
    } else {
      assert TextDeltas(chunks[..i + 1]) == TextDeltas(chunks[..i]);
    }
  }

  /** The relaying loop: one frame per text delta, in arrival order, nothing
      for other events; then the end frame and close, unless the model's
      stream failed, in which case the stream is ended with an error and no
      end frame. */
  method EncodeStream(chunks: seq<UpstreamChunk>, failsAfter: bool) returns (body: string, errored: bool)
    ensures errored == failsAfter
    ensures !failsAfter ==> body == ChatStream.EncodedStream(TextDeltas(chunks))
    ensures failsAfter ==> body == ChatStream.Frames(TextDeltas(chunks))
  {
    body := "";
    var i := 0;
    while i < |chunks|
      invariant 0 <= i <= |chunks|
      invariant body == ChatStream.Frames(TextDeltas(chunks[..i]))
    {
      FramesStep(chunks, i);
      if IsTextDelta(chunks[i]) {
        body := body + ChatStream.Frame(chunks[i].deltaText.value);
      }
      i := i + 1;
    }
    assert chunks[..i] == chunks;
    if failsAfter {
      errored := true;
    } else {
      body := body + ChatStream.DoneFrame;
      errored := false;
    }
  }

  /** The POST handler. The configuration check comes first, then the body
      check; the model is only called when both pass. */
  method Post(apiKey: string, body: Option<ChatRequest>, basePrompt: string, upstream: Upstream)
    returns (resp: ChatResponse, call: Option<ModelCall>)
    ensures apiKey == "" ==> resp == JsonError(500, "Server configuration error") && call == None
    ensures apiKey != "" && body == None ==>
              resp == JsonError(500, "Failed to process chat message") && call == None
    ensures apiKey != "" && body.Some? && body.value.messages.NotAnArray? ==>
              resp == JsonError(400, "Invalid messages format") && call == None
    ensures apiKey != "" && body.Some? && body.value.messages.AnArray? && Forward(body.value.messages.items).None? ==>
              resp == JsonError(500, "Failed to process chat message") && call == None
    ensures apiKey != "" && body.Some? && body.value.messages.AnArray? && Forward(body.value.messages.items).Some? ==>
              && call.Some?
              && call.value.model == Model && call.value.maxTokens == MaxTokens && call.value.stream
              && call.value.messages == Forward(body.value.messages.items).value
              && call.value.system == (if body.value.shouldConclude then basePrompt + ConcludeSuffix else basePrompt)
              && (upstream.CreateFailed? ==> resp == JsonError(500, "Failed to process chat message"))
              && (upstream.Streaming? ==>
                    resp.EventStream? && resp.errored == upstream.failsAfter
                    && resp.body == (if upstream.failsAfter then ChatStream.Frames(TextDeltas(upstream.chunks))
                                     else ChatStream.EncodedStream(TextDeltas(upstream.chunks))))
  {
    if apiKey == "" {
      return JsonError(500, "Server configuration error"), None;
    }
    if body == None {
      // request.json() threw: the outer handler answers.
      return JsonError(500, "Failed to process chat message"), None;
    }
    var request := body.value;
    if request.messages.NotAnArray? {
      return JsonError(400, "Invalid messages format"), None;
    }
    var systemPrompt := basePrompt;
    if request.shouldConclude {
      systemPrompt := systemPrompt + ConcludeSuffix;
    }
    var forwarded := Forward(request.messages.items);
    if forwarded.None? {
      // `messages.map` threw on a null entry: the outer handler answers.
      return JsonError(500, "Failed to process chat message"), None;
    }
    call := Some(ModelCall(Model, MaxTokens, systemPrompt, forwarded.value, true));
    match upstream
    case CreateFailed =>
      resp := JsonError(500, "Failed to process chat message");
    case Streaming(chunks, failsAfter) =>
      var out, errored := EncodeStream(chunks, failsAfter);
      resp := EventStream(out, errored);
  }

  /** The system prompt always begins with the base prompt, and differs from
      it exactly when the conclude flag is set. */
  lemma ConcludeSuffixOnlyWhenAsked(basePrompt: string, shouldConclude: bool)
    ensures var system := if shouldConclude then basePrompt + ConcludeSuffix else basePrompt;
            StartsWith(system, basePrompt) && (system == basePrompt <==> !shouldConclude)
  {
    if shouldConclude {
      assert |basePrompt + ConcludeSuffix| > |basePrompt|;
      assert (basePrompt + ConcludeSuffix)[..|basePrompt|] == basePrompt;
    }
  }

  /** The route-to-client round trip: when the model's stream ends normally
      and the reply body reaches the client in chunks of whole lines, the
      client accumulates exactly the model's text deltas, concatenated in
      arrival order, and sees the end marker. */
  lemma RelayedTextReachesClient(chunks: seq<UpstreamChunk>, received: seq<string>)
    requires Concat(received) == ChatStream.EncodedStream(TextDeltas(chunks))
    requires forall i :: 0 <= i < |received| ==> ChatStream.WholeLines(received[i])
    ensures ChatStream.DecodeChunks(ChatStream.Start, received)
            == ChatStream.DecodeState(Concat(TextDeltas(chunks)), true)
  {
    ChatStream.DecodeWholeLineDelivery(TextDeltas(chunks), received);
  }

  /** A failed model stream leaves the client without the end marker: the
      relayed frames, read in whole-line chunks, never finish the stream. */
  lemma FailedStreamNeverFinishes(chunks: seq<UpstreamChunk>, received: seq<string>)
    requires Concat(received) == ChatStream.Frames(TextDeltas(chunks))
    requires forall i :: 0 <= i < |received| ==> ChatStream.WholeLines(received[i])
    ensures ChatStream.DecodeChunks(ChatStream.Start, received)
            == ChatStream.DecodeState(Concat(TextDeltas(chunks)), false)
  {
    ChatStream.WholeLineChunks(ChatStream.Start, received);
    ChatStream.FramesLines(TextDeltas(chunks));
    ChatStream.DecodeFrameLines(ChatStream.Start, TextDeltas(chunks));
    ChatStream.DecodeLinesAppend(ChatStream.Start, ChatStream.FrameLines(TextDeltas(chunks)), [""]);
    assert ChatStream.DecodeLine(ChatStream.DecodeState(Concat(TextDeltas(chunks)), false), "")
           == ChatStream.DecodeState(Concat(TextDeltas(chunks)), false);
  }
}
