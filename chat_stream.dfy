/** The framing of the streamed chat reply, shared by the chat route (which
    writes it) and the survey chat client (which reads it): a simplified form
    of the data lines of `text/event-stream` (WHATWG HTML Living Standard,
    section 9.2 "Server-sent events"). Each text delta travels as the line
    `data: {"text":<JSON string>}` followed by a blank line; the stream ends
    with the line `data: [DONE]` and a blank line.

    The client reads each chunk it receives on its own: it splits the chunk
    on line feeds, looks only at lines that start with `data: `, stops at
    `[DONE]`, skips payloads it cannot parse and appends each non-empty
    `text` to what it has accumulated. Nothing is carried from one chunk to
    the next, so a line split across two chunks is not reassembled. */
module ChatStream {

  import opened Wrappers
  import opened Text
  import JsonString

  const DataPrefix := "data: "
  const DoneMarker := "[DONE]"
  const DoneFrame := "data: [DONE]\n\n"

  const PayloadOpen := "{\"text\":\""
  const PayloadClose := "\"}"

  /** `JSON.stringify({ text })`. */
  function TextPayload(text: string): string
  {
    PayloadOpen + JsonString.Escape(text) + PayloadClose
  }

  /** What the client's `JSON.parse(data).text` yields for a payload in the
      shape the route writes; None for a payload it cannot parse. */
  function ParseTextPayload(data: string): Option<string>
  {
    if |data| >= |PayloadOpen| + |PayloadClose|
       && StartsWith(data, PayloadOpen) && EndsWith(data, PayloadClose)
    then JsonString.Unescape(data[|PayloadOpen|..|data| - |PayloadClose|])
    else None
  }

  /** The client reads back every payload the route writes. */
  lemma ParseTextPayloadRoundTrip(text: string)
    ensures ParseTextPayload(TextPayload(text)) == Some(text)
  {
    var p := TextPayload(text);
    var e := JsonString.Escape(text);
    assert p[..|PayloadOpen|] == PayloadOpen;
    assert p[|p| - |PayloadClose|..] == PayloadClose;
    assert p[|PayloadOpen|..|p| - |PayloadClose|] == e;
    JsonString.UnescapeEscape(text);
  }

  /** The payload the route writes never holds a line feed and is never the
      end marker, so it always stays on one line as one delta. */
  lemma TextPayloadIsOneLine(text: string)
    ensures '\n' !in TextPayload(text)
    ensures TextPayload(text) != DoneMarker
  {
    var p := TextPayload(text);
    assert p[0] == '{';
    forall i | 0 <= i < |p| ensures p[i] != '\n' {
      if |PayloadOpen| <= i < |p| - |PayloadClose| {
        assert p[i] == JsonString.Escape(text)[i - |PayloadOpen|];
      }
    }
  }

  /** The frame the route writes for one text delta. */
  function Frame(text: string): string
  {
    DataPrefix + TextPayload(text) + "\n\n"
  }

  /** The frames for a sequence of deltas, in order. */
  function Frames(deltas: seq<string>): string
  {
    if |deltas| == 0 then "" else Frame(deltas[0]) + Frames(deltas[1..])
  }

  /** A complete reply stream: the delta frames, then the end frame. */
  function EncodedStream(deltas: seq<string>): string
  {
    Frames(deltas) + DoneFrame
  }

  /** What the client has read so far: the accumulated content, and whether
      it has met the end marker. */
  datatype DecodeState = DecodeState(content: string, done: bool)

  const Start := DecodeState("", false)

  /** The client's handling of one line. After the end marker nothing is
      read any more. */
  function DecodeLine(st: DecodeState, line: string): DecodeState
  {
    if st.done || !StartsWith(line, DataPrefix) then st
    else
      var data := line[|DataPrefix|..];
      if data == DoneMarker then DecodeState(st.content, true)
      else match ParseTextPayload(data)
        case Some(t) => if t != "" then DecodeState(st.content + t, false) else st
        case None => st
  }

  /** The client's handling of a sequence of lines, in order. */
  function DecodeLines(st: DecodeState, lines: seq<string>): DecodeState
    decreases |lines|
  {
    if |lines| == 0 then st else DecodeLines(DecodeLine(st, lines[0]), lines[1..])
  }

  /** The client's handling of one received chunk: its lines, in order. */
  function DecodeChunk(st: DecodeState, chunk: string): DecodeState
  {
    DecodeLines(st, Split(chunk, '\n'))
  }

  /** The client's handling of the received chunks, in order. */
  function DecodeChunks(st: DecodeState, chunks: seq<string>): DecodeState
    decreases |chunks|
  {
    if |chunks| == 0 then st else DecodeChunks(DecodeChunk(st, chunks[0]), chunks[1..])
  }

  /** Reading lines is a left fold: two stretches read one after the other. */
  lemma {:induction false} DecodeLinesAppend(st: DecodeState, a: seq<string>, b: seq<string>)
    ensures DecodeLines(st, a + b) == DecodeLines(DecodeLines(st, a), b)
    decreases |a|
  {
    if |a| == 0 {
      assert a + b == b;
    } else {
      var next := DecodeLine(st, a[0]);
      assert (a + b)[0] == a[0];
      assert (a + b)[1..] == a[1..] + b;
      DecodeLinesAppend(next, a[1..], b);
    }
  }

  /** Content only grows, and only by appending: what has been read is never
      replaced; and once the end marker is seen it stays seen. */
  lemma {:induction false} DecodeLinesExtends(st: DecodeState, lines: seq<string>)
    ensures StartsWith(DecodeLines(st, lines).content, st.content)
    ensures st.done ==> DecodeLines(st, lines).done
    decreases |lines|
  {
    if |lines| > 0 {
      var next := DecodeLine(st, lines[0]);
      DecodeLinesExtends(next, lines[1..]);
      var r := DecodeLines(next, lines[1..]).content;
      assert r[..|next.content|] == next.content;
      assert next.content[..|st.content|] == st.content;
      assert r[..|st.content|] == next.content[..|st.content|];
    }
  }

  /** After the end marker, no further line changes anything. */
  lemma {:induction false} DoneLinesAbsorb(st: DecodeState, lines: seq<string>)
    requires st.done
    ensures DecodeLines(st, lines) == st
    decreases |lines|
  {
    if |lines| > 0 {
      DoneLinesAbsorb(st, lines[1..]);
    }
  }

  /** After the end marker, no further chunk changes anything. */
  lemma {:induction false} DoneChunksAbsorb(st: DecodeState, chunks: seq<string>)
    requires st.done
    ensures DecodeChunks(st, chunks) == st
    decreases |chunks|
  {
    if |chunks| > 0 {
      DoneLinesAbsorb(st, Split(chunks[0], '\n'));
      DoneChunksAbsorb(st, chunks[1..]);
    }
  }

  /** A line the client skips: one without the `data: ` prefix, or a data
      line whose payload is neither the end marker nor parseable. */
  predicate Skipped(line: string)
  {
    !StartsWith(line, DataPrefix)
    || (line[|DataPrefix|..] != DoneMarker && ParseTextPayload(line[|DataPrefix|..]).None?)
  }

  /** A skipped line anywhere in the stream changes nothing: decoding carries
      on with the next line, so one corrupt frame loses no later delta. */
  lemma SkippedLineIsNoOp(st: DecodeState, before: seq<string>, line: string, after: seq<string>)
    requires Skipped(line)
    ensures DecodeLines(st, before + [line] + after) == DecodeLines(st, before + after)
  {
    DecodeLinesAppend(st, before + [line], after);
    DecodeLinesAppend(st, before, [line]);
    DecodeLinesAppend(st, before, after);
  }

  /** A line followed by a blank line: its pieces are the line, an empty
      piece, and the pieces of what follows. */
  lemma LineThenBlank(line: string, rest: string)
    requires '\n' !in line
    ensures Split(line + "\n\n" + rest, '\n') == [line, ""] + Split(rest, '\n')
  {
    assert line + "\n\n" + rest == line + ['\n'] + ("" + ['\n'] + rest);
    SplitAppend(line, '\n', "" + ['\n'] + rest);
    SplitAppend("", '\n', rest);
    SplitNoSeparator(line, '\n');
  }

  /** The pieces of the end frame. */
  lemma DoneFrameLines()
    ensures Split(DoneFrame, '\n') == [DataPrefix + DoneMarker, "", ""]
  {
    assert DoneFrame == (DataPrefix + DoneMarker) + "\n\n" + "";
    LineThenBlank(DataPrefix + DoneMarker, "");
  }

  /** The lines of the reply stream: a data line and a blank line per delta,
      then the end line and two empty pieces. */
  lemma {:induction false} EncodedStreamLines(deltas: seq<string>)
    ensures Split(EncodedStream(deltas), '\n') == FrameLines(deltas) + [DataPrefix + DoneMarker, "", ""]
  {
    if |deltas| == 0 {
      assert EncodedStream(deltas) == DoneFrame;
      DoneFrameLines();
    } else {
      var line := DataPrefix + TextPayload(deltas[0]);
      var rest := EncodedStream(deltas[1..]);
      assert EncodedStream(deltas) == line + "\n\n" + rest;
      TextPayloadIsOneLine(deltas[0]);
      assert '\n' !in DataPrefix;
      LineThenBlank(line, rest);
      EncodedStreamLines(deltas[1..]);
    }
  }

  /** The lines of the delta frames alone, as when the stream breaks off
      before the end frame: a data line and a blank line per delta, then one
      empty piece. */
  lemma {:induction false} FramesLines(deltas: seq<string>)
    ensures Split(Frames(deltas), '\n') == FrameLines(deltas) + [""]
  {
    if |deltas| > 0 {
      var line := DataPrefix + TextPayload(deltas[0]);
      var rest := Frames(deltas[1..]);
      assert Frames(deltas) == line + "\n\n" + rest;
      TextPayloadIsOneLine(deltas[0]);
      assert '\n' !in DataPrefix;
      LineThenBlank(line, rest);
      FramesLines(deltas[1..]);
    }
  }

  /** The lines of the delta frames. */
  function FrameLines(deltas: seq<string>): seq<string>
  {
    if |deltas| == 0 then [] else [DataPrefix + TextPayload(deltas[0]), ""] + FrameLines(deltas[1..])
  }

  /** Reading the delta frames appends every delta, in order. */
  lemma {:induction false} DecodeFrameLines(st: DecodeState, deltas: seq<string>)
    requires !st.done
    ensures DecodeLines(st, FrameLines(deltas)) == DecodeState(st.content + Concat(deltas), false)
    decreases |deltas|
  {
    if |deltas| > 0 {
      var line := DataPrefix + TextPayload(deltas[0]);
      assert line[..|DataPrefix|] == DataPrefix;
      assert line[|DataPrefix|..] == TextPayload(deltas[0]);
      TextPayloadIsOneLine(deltas[0]);
      ParseTextPayloadRoundTrip(deltas[0]);
      var next := DecodeLine(st, line);
      assert next == DecodeState(st.content + deltas[0], false);
      assert DecodeLine(next, "") == next;
      assert FrameLines(deltas) == [line, ""] + FrameLines(deltas[1..]);
      DecodeLinesAppend(st, [line, ""], FrameLines(deltas[1..]));
      DecodeFrameLines(next, deltas[1..]);
    }
  }

  /** Read as one piece, the reply stream yields exactly the concatenation of
      the deltas, and the client sees the end marker. */
  lemma DecodeEncodedStream(deltas: seq<string>)
    ensures DecodeChunk(Start, EncodedStream(deltas)) == DecodeState(Concat(deltas), true)
  {
    EncodedStreamLines(deltas);
    var endLine := DataPrefix + DoneMarker;
    DecodeLinesAppend(Start, FrameLines(deltas), [endLine, "", ""]);
    DecodeFrameLines(Start, deltas);
    var mid := DecodeState(Concat(deltas), false);
    assert endLine[..|DataPrefix|] == DataPrefix;
    assert endLine[|DataPrefix|..] == DoneMarker;
    var fin := DecodeLine(mid, endLine);
    assert fin == DecodeState(Concat(deltas), true);
    assert [endLine, "", ""][1..] == ["", ""];
    DoneLinesAbsorb(fin, ["", ""]);
  }

  /** A chunk made of whole lines: empty, or ending with a line feed. */
  predicate WholeLines(chunk: string)
  {
    chunk == "" || chunk[|chunk| - 1] == '\n'
  }

  /** When every chunk holds whole lines, reading chunk by chunk is the same
      as reading the lines of everything received at once. */
  lemma {:induction false} WholeLineChunks(st: DecodeState, chunks: seq<string>)
    requires forall i :: 0 <= i < |chunks| ==> WholeLines(chunks[i])
    ensures DecodeChunks(st, chunks) == DecodeLines(st, Split(Concat(chunks), '\n'))
    decreases |chunks|
  {
    if |chunks| == 0 {
    } else {
      var c := chunks[0];
      var rest := Concat(chunks[1..]);
      WholeLineChunks(DecodeChunk(st, c), chunks[1..]);
      if c == "" {
        assert Concat(chunks) == rest;
        assert Split(c, '\n') == [""];
        assert DecodeLines(st, [""]) == DecodeLines(DecodeLine(st, ""), []);
        assert DecodeChunk(st, c) == st;
      } else {
        var a := c[..|c| - 1];
        assert c == a + ['\n'] + "";
        SplitAppend(a, '\n', "");
        assert Concat(chunks) == a + ['\n'] + rest;
        SplitAppend(a, '\n', rest);
        DecodeLinesAppend(st, Split(a, '\n'), [""]);
        DecodeLinesAppend(st, Split(a, '\n'), Split(rest, '\n'));
        assert DecodeLine(DecodeLines(st, Split(a, '\n')), "") == DecodeLines(st, Split(a, '\n'));
      }
    }
  }

  /** The end-to-end property of the stream: whenever the reply stream
      arrives in chunks that each hold whole lines (one frame per chunk, as
      the route enqueues them, or any grouping of whole frames), the client
      accumulates exactly the concatenation of the deltas, in order, and
      stops at the end marker. */
  lemma DecodeWholeLineDelivery(deltas: seq<string>, chunks: seq<string>)
    requires Concat(chunks) == EncodedStream(deltas)
    requires forall i :: 0 <= i < |chunks| ==> WholeLines(chunks[i])
    ensures DecodeChunks(Start, chunks) == DecodeState(Concat(deltas), true)
  {
    WholeLineChunks(Start, chunks);
    DecodeEncodedStream(deltas);
  }

  /** A data line whose payload is neither the end marker nor a payload
      that parses is skipped. */
  lemma UnparsableLineIsSkipped(st: DecodeState, line: string)
    requires '\n' !in line && StartsWith(line, DataPrefix)
    requires line[|DataPrefix|..] != DoneMarker && ParseTextPayload(line[|DataPrefix|..]) == None
    ensures DecodeChunk(st, line) == st
  {
    SplitNoSeparator(line, '\n');
    assert DecodeLines(st, [line]) == DecodeLines(DecodeLine(st, line), []);
  }

  /** The end frame finishes the stream, keeping the content. */
  lemma EndLinesFinish(st: DecodeState)
    requires !st.done
    ensures DecodeLines(st, [DataPrefix + DoneMarker, "", ""]) == DecodeState(st.content, true)
  {
    var endLine := DataPrefix + DoneMarker;
    assert endLine[..|DataPrefix|] == DataPrefix;
    assert endLine[|DataPrefix|..] == DoneMarker;
    var fin := DecodeLine(st, endLine);
    assert fin == DecodeState(st.content, true);
    assert [endLine, "", ""][1..] == ["", ""];
    DoneLinesAbsorb(fin, ["", ""]);
  }

  /** A skipped line and the blank line after it change nothing: reading goes
      on with what follows. */
  lemma SkippedLineThenBlank(st: DecodeState, head: string, rest: string)
    requires '\n' !in head && Skipped(head)
    ensures DecodeChunk(st, head + "\n\n" + rest) == DecodeChunk(st, rest)
  {
    LineThenBlank(head, rest);
    DecodeLinesAppend(st, [head, ""], Split(rest, '\n'));
    assert DecodeLine(st, head) == st;
    assert DecodeLine(st, "") == st;
    assert [head, ""][1..] == [""];
    assert DecodeLines(st, [""]) == DecodeLines(DecodeLine(st, ""), []);
    assert DecodeLines(st, [head, ""]) == DecodeLines(DecodeLine(st, head), [""]);
  }

  /** Text the route sends unchanged inside the payload: printable, with no
      quote and no backslash (and so no line feed). */
  predicate Plain(text: string)
  {
    forall i :: 0 <= i < |text| ==> text[i] as int >= 0x20 && text[i] != '"' && text[i] != '\\'
  }

  /** The reply for one plain delta, cut after `k` characters of the delta:
      the pieces before and after the cut are the whole stream. */
  lemma CutStream(delta: string, k: nat)
    requires Plain(delta) && k <= |delta|
    ensures (DataPrefix + PayloadOpen + delta[..k]) + (delta[k..] + PayloadClose + "\n\n" + DoneFrame)
            == EncodedStream([delta])
  {
    var p := TextPayload(delta);
    assert p == PayloadOpen + delta + PayloadClose by {
      JsonString.EscapePlain(delta);
    }
    assert EncodedStream([delta]) == DataPrefix + p + "\n\n" + DoneFrame by {
      assert Frames([delta]) == Frame(delta) + Frames([]);
    }
    assert delta == delta[..k] + delta[k..];
  }

  /** The piece before the cut is a data line whose payload never parses:
      too short to hold both quotes, or its last-but-one character comes from
      the delta and is not the closing quote. */
  lemma FirstPieceIsSkipped(delta: string, k: nat)
    requires Plain(delta) && k <= |delta|
    ensures DecodeChunk(Start, DataPrefix + PayloadOpen + delta[..k]) == Start
  {
    var first := DataPrefix + PayloadOpen + delta[..k];
    var data := PayloadOpen + delta[..k];
    assert first == DataPrefix + data;
    assert first[..|DataPrefix|] == DataPrefix && first[|DataPrefix|..] == data;
    assert data[0] != DoneMarker[0];
    if k >= 2 {
      assert data[|data| - 2] == delta[k - 2];
      assert data[|data| - 2..][0] != PayloadClose[0];
    }
    forall i | 0 <= i < |first| ensures first[i] != '\n' {
      if i >= |DataPrefix| + |PayloadOpen| {
        assert first[i] == delta[i - |DataPrefix| - |PayloadOpen|];
      }
    }
    UnparsableLineIsSkipped(Start, first);
  }

  /** The line after the cut is skipped: it either lacks the `data: ` prefix,
      or its payload cannot open with the payload's key, which needs a quote
      where the delta has none. */
  lemma TailLineIsSkipped(tail: string)
    requires Plain(tail)
    ensures '\n' !in tail + PayloadClose && Skipped(tail + PayloadClose)
  {
    var head := tail + PayloadClose;
    forall i | 0 <= i < |head| ensures head[i] != '\n' {
      if i < |tail| {
        assert head[i] == tail[i];
      }
    }
    if |tail| < |DataPrefix| {
      assert head[|tail|] != DataPrefix[|tail|];
    } else {
      var data := head[|DataPrefix|..];
      assert data[|data| - 1] == '}';
      if |data| >= |PayloadOpen| + |PayloadClose| {
        assert data[1] == tail[|DataPrefix| + 1];
        assert data[..|PayloadOpen|][1] != PayloadOpen[1];
      }
    }
  }

  /** A frame cut inside its payload is lost. When the reply for one plain
      delta arrives as two chunks split anywhere inside the delta's text,
      the first chunk's line does not parse and the second chunk's first line
      is not a frame, so the client ends the stream with no content at all,
      where the same bytes in one chunk yield the delta. */
  lemma SplitFrameIsLost(delta: string, k: nat)
    requires Plain(delta) && k <= |delta|
    ensures var first := DataPrefix + PayloadOpen + delta[..k];
      var second := delta[k..] + PayloadClose + "\n\n" + DoneFrame;
      && first + second == EncodedStream([delta])
      && DecodeChunks(Start, [first, second]) == DecodeState("", true)
      && DecodeChunk(Start, first + second) == DecodeState(delta, true)
  {
    var first := DataPrefix + PayloadOpen + delta[..k];
    var second := delta[k..] + PayloadClose + "\n\n" + DoneFrame;
    CutStream(delta, k);
    FirstPieceIsSkipped(delta, k);
    assert DecodeChunk(Start, second) == DecodeState("", true) by {
      assert Plain(delta[k..]) by {
        forall i | 0 <= i < |delta[k..]| ensures delta[k..][i] == delta[k + i] { }
      }
      TailLineIsSkipped(delta[k..]);
      SkippedLineThenBlank(Start, delta[k..] + PayloadClose, DoneFrame);
      DoneFrameLines();
      EndLinesFinish(Start);
    }
    assert DecodeChunks(Start, [first, second]) == DecodeChunks(DecodeChunk(Start, first), [second]);
    assert DecodeChunks(Start, [second]) == DecodeChunks(DecodeChunk(Start, second), []);
    DecodeEncodedStream([delta]);
    assert Concat([delta]) == delta + Concat([]);
  }
}
