/** The voice page's session state: the queue of audio chunks the agent
    sends and the flag that makes a single playback loop drain it, the
    transcript gathered from the agent's events, and the payload posted to
    the persistence route when the conversation ends. The WebSocket, the
    clock and the audio output are inputs: what the output device does with
    a chunk (plays it or fails) is a parameter, and the chunks that arrive
    while the loop is waiting for playback are given as a parameter too. */
module VoiceSession {

  import opened Wrappers
  import opened Conversation
  import WavCodec
  import Sheets
  import SheetsRoute

  /** The sample rate the agent's PCM audio is played at. */
  const PlaybackRate := 16000

  /** An audio chunk, as the bytes its base64 text decodes to. */
  type AudioChunk = seq<WavCodec.byte>

  /** The parts of a WebSocket message the handler reads. `ping` is present
      when the message has a ping event, and holds that event's id if it
      has one. */
  datatype AgentEvent = AgentEvent(agentResponse: Option<string>, userTranscript: Option<string>,
                                   audio: Option<AudioChunk>, ping: Option<Option<int>>)

  /** A WebSocket message: a JSON object, or a text the handler cannot read
      (not JSON, or `null`), which it skips. */
  datatype Incoming = Json(event: AgentEvent) | Unreadable

  /** The reply to a ping. */
  datatype Outgoing = Pong(eventId: Option<int>)

  function Min(a: int, b: int): int
  {
    if a <= b then a else b
  }

  /** The concatenation of a list of lists, in order. */
  function Flatten<T>(parts: seq<seq<T>>): seq<T>
  {
    if |parts| == 0 then [] else parts[0] + Flatten(parts[1..])
  }

  lemma {:induction false} FlattenAppend<T>(a: seq<seq<T>>, b: seq<seq<T>>)
    ensures Flatten(a + b) == Flatten(a) + Flatten(b)
  {
    if |a| == 0 {
      assert a + b == b;
    } else {
      assert (a + b)[1..] == a[1..] + b;
      FlattenAppend(a[1..], b);
    }
  }

  /** Every chunk that has reached the queue once `played` chunks were
      played: the queue's initial contents, then the chunks that arrived
      during each of those playbacks, in arrival order. */
  function Arrived(queue: seq<AudioChunk>, arrivals: seq<seq<AudioChunk>>, played: nat): seq<AudioChunk>
  {
    queue + Flatten(arrivals[..Min(played, |arrivals|)])
  }

  /** One more playback adds the chunks that arrived during it. */
  lemma ArrivedStep(queue: seq<AudioChunk>, arrivals: seq<seq<AudioChunk>>, played: nat)
    ensures Arrived(queue, arrivals, played + 1)
            == Arrived(queue, arrivals, played) + (if played < |arrivals| then arrivals[played] else [])
  {
    if played < |arrivals| {
      assert arrivals[..played + 1] == arrivals[..played] + [arrivals[played]];
      FlattenAppend(arrivals[..played], [arrivals[played]]);
      assert Flatten([arrivals[played]]) == arrivals[played] + Flatten<AudioChunk>([]);
    }
  }

  /** The chunks arrived so far are a prefix of all the chunks that can
      arrive. */
  lemma ArrivedBound(queue: seq<AudioChunk>, arrivals: seq<seq<AudioChunk>>, played: nat)
    ensures |Arrived(queue, arrivals, played)| <= |Arrived(queue, arrivals, |arrivals|)|
  {
    var m := Min(played, |arrivals|);
    assert arrivals == arrivals[..m] + arrivals[m..];
    FlattenAppend(arrivals[..m], arrivals[m..]);
    assert arrivals[..|arrivals|] == arrivals;
  }

  /** Whether the playback of the k-th chunk handed to the output fails (a
      chunk that does not decode, or an audio element that does not play). */
  predicate PlaybackFails(failures: seq<bool>, k: nat)
  {
    k < |failures| && failures[k]
  }

  /** The WAV file the page builds for a chunk. */
  function WavOf(chunk: AudioChunk): seq<WavCodec.byte>
  {
    WavCodec.WavFile(WavCodec.DecodeSamples(chunk), PlaybackRate)
  }

  /** The chunks whose playback does not fail, in order. */
  function Kept(chunks: seq<AudioChunk>, failures: seq<bool>): (r: seq<AudioChunk>)
    ensures |r| <= |chunks|
  {
    if |chunks| == 0 then []
    else
      var k := |chunks| - 1;
      Kept(chunks[..k], failures) + (if PlaybackFails(failures, k) then [] else [chunks[k]])
  }

  /** The failure flags that apply after the first n playbacks. */
  function Drop(failures: seq<bool>, n: nat): seq<bool>
  {
    if n <= |failures| then failures[n..] else []
  }

  /** Without failures, every chunk is heard, once, in queue order. */
  lemma {:induction false} KeptWithoutFailures(chunks: seq<AudioChunk>)
    ensures Kept(chunks, []) == chunks
  {
    if |chunks| > 0 {
      var k := |chunks| - 1;
      KeptWithoutFailures(chunks[..k]);
      assert chunks[..k] + [chunks[k]] == chunks;
    }
  }

  /** A failure does not stop the chunks after it: what is kept of a queue
      is what is kept of its front followed by what is kept of its back. */
  lemma {:induction false} KeptAppend(a: seq<AudioChunk>, b: seq<AudioChunk>, failures: seq<bool>)
    ensures Kept(a + b, failures) == Kept(a, failures) + Kept(b, Drop(failures, |a|))
  {
    if |b| == 0 {
      assert a + b == a;
    } else {
      var k := |b| - 1;
      KeptAppend(a, b[..k], failures);
      assert (a + b)[..|a + b| - 1] == a + b[..k];
      assert (a + b)[|a + b| - 1] == b[k];
      assert PlaybackFails(failures, |a| + k) == PlaybackFails(Drop(failures, |a|), k);
    }
  }

  /** One playback of the loop: the chunk at the head of the queue is the
      next arrived chunk; after it, the queue holds the rest followed by the
      chunks that arrived meanwhile, and the chunk is heard unless its
      playback fails. */
  lemma PlaybackStep(queue: seq<AudioChunk>, arrivals: seq<seq<AudioChunk>>, failures: seq<bool>, played: nat)
    requires played < |Arrived(queue, arrivals, played)|
    ensures var before := Arrived(queue, arrivals, played);
            var after := Arrived(queue, arrivals, played + 1);
            && |after| == |before| + (if played < |arrivals| then |arrivals[played]| else 0)
            && after[played + 1..] == before[played + 1..] + (if played < |arrivals| then arrivals[played] else [])
            && Kept(after[..played + 1], failures)
               == Kept(before[..played], failures) + (if PlaybackFails(failures, played) then [] else [before[played]])
  {
    var before := Arrived(queue, arrivals, played);
    var after := Arrived(queue, arrivals, played + 1);
    ArrivedStep(queue, arrivals, played);
    assert after[..played + 1] == before[..played + 1];
    assert before[..played + 1][..played] == before[..played];
  }

  /** The drain loop after `played` playbacks: the queue holds the arrived
      chunks not yet taken, the heard chunks are those of the taken ones
      whose playback did not fail, and each playback found a chunk. */
  ghost predicate Draining(queue0: seq<AudioChunk>, arrivals: seq<seq<AudioChunk>>, failures: seq<bool>,
                           played: nat, queue: seq<AudioChunk>, kept: seq<AudioChunk>)
  {
    && |Arrived(queue0, arrivals, played)| == played + |queue|
    && queue == Arrived(queue0, arrivals, played)[played..]
    && kept == Kept(Arrived(queue0, arrivals, played)[..played], failures)
    && forall k :: 0 <= k < played ==> k < |Arrived(queue0, arrivals, k)|
  }

  /** Before the first playback the whole queue is waiting. */
  lemma DrainStart(queue0: seq<AudioChunk>, arrivals: seq<seq<AudioChunk>>, failures: seq<bool>)
    ensures Draining(queue0, arrivals, failures, 0, queue0, [])
  {
    assert Arrived(queue0, arrivals, 0) == queue0;
  }

  /** Once the queue is empty, every arrived chunk was taken. */
  lemma DrainDone(queue0: seq<AudioChunk>, arrivals: seq<seq<AudioChunk>>, failures: seq<bool>,
                  played: nat, kept: seq<AudioChunk>)
    requires Draining(queue0, arrivals, failures, played, [], kept)
    ensures |Arrived(queue0, arrivals, played)| == played
    ensures kept == Kept(Arrived(queue0, arrivals, played), failures)
    ensures forall k :: 0 <= k < played ==> k < |Arrived(queue0, arrivals, k)|
  {
    assert Arrived(queue0, arrivals, played)[..played] == Arrived(queue0, arrivals, played);
  }

  /** One playback of the drain loop: the front chunk is taken, kept unless
      its playback fails, and the chunks arriving meanwhile join the back. */
  lemma DrainStep(queue0: seq<AudioChunk>, arrivals: seq<seq<AudioChunk>>, failures: seq<bool>,
                  played: nat, queue: seq<AudioChunk>, kept: seq<AudioChunk>)
    requires Draining(queue0, arrivals, failures, played, queue, kept) && |queue| > 0
    ensures played < |Arrived(queue0, arrivals, |arrivals|)|
    ensures Draining(queue0, arrivals, failures, played + 1,
                     queue[1..] + (if played < |arrivals| then arrivals[played] else []),
                     kept + (if PlaybackFails(failures, played) then [] else [queue[0]]))
  {
    ArrivedBound(queue0, arrivals, played);
    PlaybackStep(queue0, arrivals, failures, played);
    var before := Arrived(queue0, arrivals, played);
    assert queue[0] == before[played];
    assert queue[1..] == before[played + 1..];
  }

  /** The transcript entries one event adds: the agent's response when it is
      not empty, then the user's transcript when it is neither empty nor the
      `...` placeholder. */
  function EventTurns(e: AgentEvent): (r: seq<Turn>)
    ensures |r| <= 2
    ensures forall i :: 0 <= i < |r| ==> r[i].content != ""
    ensures forall i :: 0 <= i < |r| && r[i].role == User ==> r[i].content != "..."
    ensures |r| == (if e.agentResponse.Some? && e.agentResponse.value != "" then 1 else 0)
                 + (if e.userTranscript.Some? && e.userTranscript.value != "" && e.userTranscript.value != "..." then 1 else 0)
    ensures e.agentResponse.Some? && e.agentResponse.value != "" ==> r[0] == Turn(Assistant, e.agentResponse.value)
    ensures e.userTranscript.Some? && e.userTranscript.value != "" && e.userTranscript.value != "..."
            ==> r[|r| - 1] == Turn(User, e.userTranscript.value)
  {
    (if e.agentResponse.Some? && e.agentResponse.value != "" then [Turn(Assistant, e.agentResponse.value)] else [])
    + (if e.userTranscript.Some? && e.userTranscript.value != "" && e.userTranscript.value != "..."
       then [Turn(User, e.userTranscript.value)] else [])
  }

  /** A transcript entry as the persistence route receives it. */
  function SheetMessages(turns: seq<Turn>): (r: seq<Sheets.SheetMessage>)
    ensures |r| == |turns|
    ensures forall i :: 0 <= i < |turns| ==>
              r[i].role == RoleName(turns[i].role) && r[i].content == turns[i].content
  {
    if |turns| == 0 then [] else [Sheets.SheetMessage(RoleName(turns[0].role), turns[0].content)] + SheetMessages(turns[1..])
  }

  /** `Math.round` of an elapsed time in milliseconds divided by 1000: the
      nearest whole second, halves rounded up. */
  function RoundSeconds(ms: int): (s: int)
    ensures s * 1000 - 500 <= ms < s * 1000 + 500
  {
    (ms + 500) / 1000
  }

  /** The first half of `playAudioFromBase64`: the chunk's bytes become
      16-bit samples, and the samples a 16 kHz WAV file. */
  method RenderChunk(chunk: AudioChunk) returns (wav: array<WavCodec.byte>)
    ensures fresh(wav)
    ensures wav[..] == WavOf(chunk)
  {
    var pcm := WavCodec.DecodePcm(chunk);
    wav := WavCodec.PcmToWav(pcm, PlaybackRate);
  }

  class Session {
    var audioQueue: seq<AudioChunk>
    var isPlaying: bool
    var transcript: seq<Turn>
    var sessionStart: Option<int>
    /** The chunks the audio output has played, in order; each was handed
        to it as the WAV file `WavOf(chunk)`. */
    var heard: seq<AudioChunk>

    /** Every transcript entry has content, and no user entry is the `...`
        placeholder. */
    ghost predicate Valid()
      reads this
    {
      forall i :: 0 <= i < |transcript| ==>
        transcript[i].content != "" && (transcript[i].role == User ==> transcript[i].content != "...")
    }

    constructor ()
      ensures Valid()
      ensures audioQueue == [] && !isPlaying && transcript == [] && sessionStart == None && heard == []
    {
      audioQueue := [];
      isPlaying := false;
      transcript := [];
      sessionStart := None;
      heard := [];
    }

    /** `playAudioFromBase64`: the chunk is rendered as a WAV file and
        handed to the audio output, which plays it unless it fails. */
    method PlayAudio(chunk: AudioChunk, fails: bool) returns (ok: bool)
      modifies this
      ensures ok == !fails
      ensures heard == old(heard) + (if fails then [] else [chunk])
      ensures audioQueue == old(audioQueue) && isPlaying == old(isPlaying)
      ensures transcript == old(transcript) && sessionStart == old(sessionStart)
    {
      var wav := RenderChunk(chunk);
      if fails {
        ok := false;
      } else {
        heard := heard + [chunk];
        ok := true;
      }
    }

    /** `processAudioQueue`: when a loop is already playing or the queue is
        empty it does nothing. Otherwise it takes the chunks off the front of
        the queue one at a time and plays each, going on after a failure,
        while further chunks join the back of the queue; once the queue is
        empty the flag is cleared. `played` counts the chunks taken. */
    method ProcessAudioQueue(arrivals: seq<seq<AudioChunk>>, failures: seq<bool>) returns (played: nat)
      modifies this
      ensures old(isPlaying) || old(audioQueue) == [] ==>
                played == 0 && audioQueue == old(audioQueue) && isPlaying == old(isPlaying) && heard == old(heard)
      ensures !old(isPlaying) && old(audioQueue) != [] ==>
                && |Arrived(old(audioQueue), arrivals, played)| == played
                && (forall k :: 0 <= k < played ==> k < |Arrived(old(audioQueue), arrivals, k)|)
                && heard == old(heard) + Kept(Arrived(old(audioQueue), arrivals, played), failures)
                && audioQueue == [] && !isPlaying
      ensures transcript == old(transcript) && sessionStart == old(sessionStart)
    {
      played := 0;
      if isPlaying || |audioQueue| == 0 {
        return;
      }
      isPlaying := true;
      ghost var queue0 := audioQueue;
      ghost var heard0 := heard;
      ghost var kept: seq<AudioChunk> := [];
      DrainStart(queue0, arrivals, failures);
      while |audioQueue| > 0
        invariant isPlaying
        invariant transcript == old(transcript) && sessionStart == old(sessionStart)
        invariant Draining(queue0, arrivals, failures, played, audioQueue, kept)
        invariant heard == heard0 + kept
        decreases |Arrived(queue0, arrivals, |arrivals|)| - played
      {
        DrainStep(queue0, arrivals, failures, played, audioQueue, kept);
        var chunk := audioQueue[0];
        audioQueue := audioQueue[1..];
        var fails := PlaybackFails(failures, played);
        var ok := PlayAudio(chunk, fails);
        kept := kept + (if fails then [] else [chunk]);
        // The chunks that arrive during this playback find the flag set, so
        // their own calls only push them.
        if played < |arrivals| {
          audioQueue := audioQueue + arrivals[played];
        }
        played := played + 1;
      }
      DrainDone(queue0, arrivals, failures, played, kept);
      isPlaying := false;
    }

    /** `queueAudioResponse`: the chunk joins the back of the queue, and the
        queue is processed. */
    method QueueAudioResponse(chunk: AudioChunk, arrivals: seq<seq<AudioChunk>>, failures: seq<bool>)
      returns (played: nat)
      modifies this
      ensures old(isPlaying) ==> played == 0 && audioQueue == old(audioQueue) + [chunk] && isPlaying && heard == old(heard)
      ensures !old(isPlaying) ==>
                && |Arrived(old(audioQueue) + [chunk], arrivals, played)| == played
                && heard == old(heard) + Kept(Arrived(old(audioQueue) + [chunk], arrivals, played), failures)
                && audioQueue == [] && !isPlaying
      ensures transcript == old(transcript) && sessionStart == old(sessionStart)
    {
      audioQueue := audioQueue + [chunk];
      played := ProcessAudioQueue(arrivals, failures);
    }

    /** `stopCurrentAudio`: the queue is emptied and the flag cleared. */
    method StopCurrentAudio()
      modifies this
      ensures audioQueue == [] && !isPlaying
      ensures transcript == old(transcript) && sessionStart == old(sessionStart) && heard == old(heard)
    {
      audioQueue := [];
      isPlaying := false;
    }

    /** The socket opens: the session clock starts and the transcript is
        cleared. */
    method OnOpen(now: int)
      modifies this
      ensures Valid()
      ensures sessionStart == Some(now) && transcript == []
      ensures audioQueue == old(audioQueue) && isPlaying == old(isPlaying) && heard == old(heard)
    {
      sessionStart := Some(now);
      transcript := [];
    }

    /** `ws.onmessage`: the event's transcript entries are appended, its
        audio (when not empty) is queued, and a ping is answered with a pong
        carrying the ping's id. An unreadable message changes nothing. */
    method HandleMessage(msg: Incoming, arrivals: seq<seq<AudioChunk>>, failures: seq<bool>)
      returns (reply: Option<Outgoing>)
      requires Valid()
      modifies this
      ensures Valid()
      ensures msg.Unreadable? ==> reply == None && transcript == old(transcript) && audioQueue == old(audioQueue)
                                  && isPlaying == old(isPlaying) && heard == old(heard)
      ensures msg.Json? ==> transcript == old(transcript) + EventTurns(msg.event)
      ensures msg.Json? ==> (reply.Some? <==> msg.event.ping.Some?)
      ensures msg.Json? && msg.event.ping.Some? ==> reply == Some(Pong(msg.event.ping.value))
      ensures msg.Json? && (msg.event.audio == None || msg.event.audio == Some([])) ==>
                audioQueue == old(audioQueue) && isPlaying == old(isPlaying) && heard == old(heard)
      ensures msg.Json? && msg.event.audio.Some? && msg.event.audio.value != [] && old(isPlaying) ==>
                audioQueue == old(audioQueue) + [msg.event.audio.value] && heard == old(heard)
      ensures msg.Json? && msg.event.audio.Some? && msg.event.audio.value != [] && !old(isPlaying) ==>
                audioQueue == [] && !isPlaying
                && exists played :: heard == old(heard) + Kept(Arrived(old(audioQueue) + [msg.event.audio.value], arrivals, played), failures)
      ensures sessionStart == old(sessionStart)
    {
      reply := None;
      if msg.Unreadable? {
        return;
      }
      var e := msg.event;
      if e.agentResponse.Some? && e.agentResponse.value != "" {
        transcript := transcript + [Turn(Assistant, e.agentResponse.value)];
      }
      if e.userTranscript.Some? && e.userTranscript.value != "" && e.userTranscript.value != "..." {
        transcript := transcript + [Turn(User, e.userTranscript.value)];
      }
      if e.audio.Some? && |e.audio.value| > 0 {
        var played := QueueAudioResponse(e.audio.value, arrivals, failures);
      }
      if e.ping.Some? {
        reply := Some(Pong(e.ping.value));
      }
    }

    /** `submitConversation`: nothing is sent for an empty transcript;
        otherwise the body posted to the persistence route carries the
        transcript, its last entry's content as the latest response, the
        session length in rounded seconds (0 when the clock never started)
        and both flags off. It changes nothing. */
    method SubmitConversation(now: int) returns (payload: Option<SheetsRoute.SaveBody>)
      ensures payload.None? <==> transcript == []
      ensures payload.Some? ==>
                && payload.value.conversation == SheetsRoute.AnArray(SheetMessages(transcript))
                && payload.value.latestResponse == Some(transcript[|transcript| - 1].content)
                && payload.value.sessionDuration
                   == Some(if sessionStart.Some? then RoundSeconds(now - sessionStart.value) else 0)
                && !payload.value.isAbruptExit && !payload.value.isAutoSave
    {
      if |transcript| == 0 {
        return None;
      }
      var duration := 0;
      if sessionStart.Some? {
        duration := RoundSeconds(now - sessionStart.value);
      }
      var latest := transcript[|transcript| - 1].content;
      payload := Some(SheetsRoute.SaveBody(SheetsRoute.AnArray(SheetMessages(transcript)), Some(latest),
                                           Some(duration), false, false));
    }
  }

  /** The route stores a voice submission's summary as the latest response
      alone, since the voice page never sets either flag. */
  lemma VoiceSummaryIsLatestResponse(latest: string)
    ensures SheetsRoute.Summary(Some(latest), false, false) == latest
  {
    SheetsRoute.SummaryShape(Some(latest), false, false);
  }
}
