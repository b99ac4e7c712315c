/** The stream controller of the browser client: captured audio frames are
    queued, and once the queued sample count reaches the chunk target the
    queue is merged, WAV-encoded and sent over the socket.  Stopping flushes
    whatever is queued, then sends the finalize message.

    Every click on the start button creates a new WebSocket, and the
    handlers of every socket ever created stay attached.  Sockets are
    therefore named by their creation index: `sockets[i]` is the ready state
    of the i-th socket and `ws` the index the controller's `ws` variable
    refers to (`None` for null).  The microphone and audio graph are reduced
    to the `streaming` flag, and what went over the socket to the log
    `sent`. */
module Stream {
  import opened Base
  import opened Js
  import Wav
  import Buffers

  const SAMPLE_RATE: nat := 48000
  const DEFAULT_CHUNK_MS: real := 2000.0
  const MIN_CHUNK_MS: real := 250.0
  const MAX_CHUNK_MS: real := 5000.0

  /** `JSON.stringify({ action: 'finalize' })`. */
  const FINALIZE_TEXT: string := "{\"action\":\"finalize\"}"

  /** The `readyState` of a WebSocket. */
  datatype Ready = Connecting | Open | Closing | Closed

  /** One message sent over the socket. */
  datatype Outbound = AudioChunk(wav: seq<byte>) | Finalize(text: string)

  datatype StreamState = StreamState(
    buffers: seq<seq<real>>,
    accumulated: nat,
    streaming: bool,
    chunkMs: real,
    target: int,
    ws: Option<nat>,
    sockets: seq<Ready>,
    awaitingMic: set<nat>,  // sockets whose `onopen` handler awaits `getUserMedia`
    sent: seq<Outbound>)

  /** Samples per chunk for a chunk duration in milliseconds at 48 kHz. */
  function ChunkTarget(ms: real): int
  {
    Round(SAMPLE_RATE as real * ms / 1000.0)
  }

  lemma ChunkTargetFacts(ms: real)
    requires MIN_CHUNK_MS <= ms <= MAX_CHUNK_MS
    ensures 12000 <= ChunkTarget(ms) <= 240000
    ensures ms == 2000.0 ==> ChunkTarget(ms) == 96000
    ensures ms == 1000.0 ==> ChunkTarget(ms) == 48000
    ensures ms == 250.0 ==> ChunkTarget(ms) == 12000
  {
  }

  /** The controller's state when the page is initialised. */
  function Initial(): (st: StreamState)
    ensures Valid(st) && Live(st) && !st.streaming && st.target == 96000 && st.sent == []
    ensures st.ws == None && st.sockets == []
  {
    StreamState([], 0, false, DEFAULT_CHUNK_MS, ChunkTarget(DEFAULT_CHUNK_MS), None, [], {}, [])
  }

  /** What every reachable state satisfies: the running count is the sum of
      the queued frame lengths, the target matches an accepted duration,
      nothing is queued while not streaming, and every socket index names a
      socket that was created. */
  predicate Valid(st: StreamState) {
    && st.accumulated == TotalLength(st.buffers)
    && MIN_CHUNK_MS <= st.chunkMs <= MAX_CHUNK_MS
    && st.target == ChunkTarget(st.chunkMs)
    && (!st.streaming ==> st.buffers == [])
    && (st.ws.Some? ==> st.ws.value < |st.sockets|)
    && (forall i | i in st.awaitingMic :: i < |st.sockets|)
  }

  /** `ws && ws.readyState === WebSocket.OPEN`. */
  predicate CanSend(st: StreamState) {
    st.ws.Some? && st.ws.value < |st.sockets| && st.sockets[st.ws.value] == Open
  }

  predicate AcceptsDuration(v: Number) {
    v.Finite? && MIN_CHUNK_MS <= v.x <= MAX_CHUNK_MS
  }

  /** `setChunkDuration`: only finite values within [250, 5000] ms are taken;
      the target becomes the rounded number of samples in that duration. */
  function SetChunkDuration(st: StreamState, v: Number): (r: StreamState)
    ensures !AcceptsDuration(v) ==> r == st
    ensures AcceptsDuration(v) ==>
              && r.chunkMs == v.x
              && r.target as real - 0.5 <= 48.0 * v.x < r.target as real + 0.5
              && r == st.(chunkMs := r.chunkMs, target := r.target)
  {
    if AcceptsDuration(v) then st.(chunkMs := v.x, target := ChunkTarget(v.x)) else st
  }

  /** `flushBuffers`: with something queued and the socket open, the queue is
      merged, encoded and sent, and the queue is emptied.  `None` stands for
      the RangeError `mergeBuffers` raises when the count is smaller than the
      queued samples (the state is then left as it was). */
  function Flush(st: StreamState): Option<StreamState>
  {
    if |st.buffers| == 0 || !CanSend(st) then Some(st)
    else
      match Buffers.Merge(st.buffers, st.accumulated)
      case None => None
      case Some(merged) =>
        Some(st.(buffers := [], accumulated := 0,
                 sent := st.sent + [AudioChunk(Wav.EncodeWav(merged, SAMPLE_RATE))]))
  }

  /** `cleanupAudio`: audio resources released, queue dropped. */
  function CleanupAudio(st: StreamState): (r: StreamState)
    ensures r.buffers == [] && r.accumulated == 0
    ensures r == st.(buffers := [], accumulated := 0)
  {
    st.(buffers := [], accumulated := 0)
  }

  /** The ready state after `close()`: a connecting or open socket starts
      closing; on a closing or closed socket the call does nothing. */
  function AfterClose(s: Ready): Ready
  {
    if s == Connecting || s == Open then Closing else s
  }

  /** `ws?.close()`. */
  function CloseCurrent(st: StreamState): StreamState
  {
    match st.ws
    case Some(i) => if i < |st.sockets| then st.(sockets := st.sockets[i := AfterClose(st.sockets[i])]) else st
    case None => st
  }

  /** The `onaudioprocess` callback for one captured frame.  An exception
      from the flush leaves the frame queued, as the push already happened. */
  function OnAudioFrame(st: StreamState, frame: seq<real>): StreamState
  {
    if !st.streaming then st
    else
      var queued := st.(buffers := st.buffers + [frame], accumulated := st.accumulated + |frame|);
      if queued.accumulated >= queued.target then Flush(queued).GetOr(queued) else queued
  }

  /** `stopStream(silent)`.  An exception from the flush propagates, so the
      state is left as it was. */
  function StopStream(st: StreamState, silent: bool): StreamState
  {
    if !st.streaming && silent then CleanupAudio(st).(ws := None)
    else
      match Flush(st)
      case None => st
      case Some(flushed) =>
        var stopped := flushed.(streaming := false);
        var finalized :=
          if CanSend(stopped) then stopped.(sent := stopped.sent + [Finalize(FINALIZE_TEXT)])
          else stopped;
        CleanupAudio(CloseCurrent(finalized)).(ws := None)
  }

  /** `startStream`: a no-op while streaming, otherwise a new socket is
      created and `ws` refers to it. */
  function StartStream(st: StreamState): StreamState
  {
    if st.streaming then st
    else st.(ws := Some(|st.sockets|), sockets := st.sockets + [Connecting])
  }

  /** The browser opens socket `id`: its `onopen` handler starts and waits
      for the microphone.  Only a connecting socket opens. */
  function OnSocketOpen(st: StreamState, id: nat): StreamState
  {
    if id < |st.sockets| && st.sockets[id] == Connecting then
      st.(sockets := st.sockets[id := Open], awaitingMic := st.awaitingMic + {id})
    else st
  }

  /** The rest of socket `id`'s `onopen` handler, once `getUserMedia` and the
      audio graph have succeeded (`ok`) or thrown.  It refers to no socket:
      success starts streaming, failure tears down silently. */
  function OnMicAnswer(st: StreamState, id: nat, ok: bool): StreamState
  {
    if id in st.awaitingMic then
      var resumed := st.(awaitingMic := st.awaitingMic - {id});
      if ok then resumed.(streaming := true) else StopStream(resumed, true)
    else st
  }

  /** Socket `id` closes and its `onclose` handler runs `stopStream(true)`,
      which acts on whatever socket `ws` refers to by then.  A socket closes
      once. */
  function OnSocketClose(st: StreamState, id: nat): StreamState
  {
    if id < |st.sockets| && st.sockets[id] != Closed then
      StopStream(st.(sockets := st.sockets[id := Closed]), true)
    else st
  }

  /** The server starts the closing handshake on socket `id`: the browser
      marks an open socket closing at once and fires its `close` event only
      later (a separate `SocketClose`), so frames can still arrive in
      between.  No handler of the page runs. */
  function OnSocketClosing(st: StreamState, id: nat): StreamState
  {
    if id < |st.sockets| && st.sockets[id] == Open then st.(sockets := st.sockets[id := Closing]) else st
  }

  /** The toggle button. */
  function OnToggle(st: StreamState): StreamState
  {
    if st.streaming then StopStream(st, false) else StartStream(st)
  }

  /** Everything that can happen to the controller. */
  datatype Event =
    | ChunkSetting(ms: Number)
    | Toggle
    | SocketOpen(id: nat)
    | MicAnswer(id: nat, ok: bool)
    | SocketClosing(id: nat)
    | SocketClose(id: nat)
    | AudioFrame(frame: seq<real>)

  function Apply(st: StreamState, e: Event): StreamState
  {
    match e
    case ChunkSetting(ms) => SetChunkDuration(st, ms)
    case Toggle => OnToggle(st)
    case SocketOpen(id) => OnSocketOpen(st, id)
    case MicAnswer(id, ok) => OnMicAnswer(st, id, ok)
    case SocketClosing(id) => OnSocketClosing(st, id)
    case SocketClose(id) => OnSocketClose(st, id)
    case AudioFrame(frame) => OnAudioFrame(st, frame)
  }

  function Run(st: StreamState, events: seq<Event>): StreamState
    decreases |events|
  {
    if |events| == 0 then st else Run(Apply(st, events[0]), events[1..])
  }

  /** `r` extends the log of `st`. */
  predicate Extends(st: StreamState, r: StreamState) {
    |st.sent| <= |r.sent| && r.sent[..|st.sent|] == st.sent
  }

  // ---------------------------------------------------------------------
  // Properties of the handlers.

  /** In a valid state the merge cannot fail, and a flush that sends
      something sends exactly the concatenation of the queue. */
  lemma FlushValid(st: StreamState)
    requires Valid(st)
    ensures Flush(st).Some?
    ensures var r := Flush(st).value;
      if |st.buffers| > 0 && CanSend(st) then
        r == st.(buffers := [], accumulated := 0,
                 sent := st.sent + [AudioChunk(Wav.EncodeWav(Concat(st.buffers), SAMPLE_RATE))])
      else r == st
  {
    Buffers.MergeExact(st.buffers);
  }

  /** The capture callback: nothing happens while not streaming; otherwise
      reaching the target with the socket open sends exactly one WAV of the
      whole queue and resets it, and in every other case the frame is queued
      and nothing is sent.  The flag and the sockets are never touched. */
  lemma CaptureCallback(st: StreamState, frame: seq<real>)
    requires Valid(st)
    ensures var r := OnAudioFrame(st, frame);
      && (!st.streaming ==> r == st)
      && (st.streaming && st.accumulated + |frame| >= st.target && CanSend(st) ==>
            && r.buffers == [] && r.accumulated == 0
            && r.sent == st.sent + [AudioChunk(Wav.EncodeWav(Concat(st.buffers + [frame]), SAMPLE_RATE))])
      && (st.streaming && (st.accumulated + |frame| < st.target || !CanSend(st)) ==>
            && r.buffers == st.buffers + [frame]
            && r.accumulated == st.accumulated + |frame|
            && r.sent == st.sent)
      && r.(buffers := st.buffers, accumulated := st.accumulated, sent := st.sent) == st
      && Valid(r)
  {
    if st.streaming {
      var queued := st.(buffers := st.buffers + [frame], accumulated := st.accumulated + |frame|);
      assert (st.buffers + [frame])[..|st.buffers|] == st.buffers;
      assert Valid(queued);
      FlushValid(queued);
    }
  }

  /** `stopStream`: unless it is the silent call on an idle controller, the
      remaining audio is sent first and then the finalize message, each only
      when `ws` is open, and the socket `ws` refers to is closed.  Either way
      the controller ends idle, with nothing queued and `ws` null. */
  lemma StopFlushesThenFinalizes(st: StreamState, silent: bool)
    requires Valid(st)
    ensures var r := StopStream(st, silent);
      var full := st.streaming || !silent;
      && r.sent == st.sent
           + (if full && |st.buffers| > 0 && CanSend(st)
              then [AudioChunk(Wav.EncodeWav(Concat(st.buffers), SAMPLE_RATE))] else [])
           + (if full && CanSend(st) then [Finalize(FINALIZE_TEXT)] else [])
      && r.sockets == (if full then CloseCurrent(st).sockets else st.sockets)
      && !r.streaming && r.buffers == [] && r.accumulated == 0 && r.ws == None
      && r.awaitingMic == st.awaitingMic && r.chunkMs == st.chunkMs
      && Valid(r)
  {
    FlushValid(st);
  }

  /** Only a connecting socket opens; its handler then waits for the
      microphone, and nothing else changes. */
  lemma SocketOpenMarks(st: StreamState, id: nat)
    requires Valid(st)
    ensures var r := OnSocketOpen(st, id);
      && (id < |st.sockets| && st.sockets[id] == Connecting ==>
            r.sockets == st.sockets[id := Open] && r.awaitingMic == st.awaitingMic + {id})
      && r.(sockets := st.sockets, awaitingMic := st.awaitingMic) == st
      && Valid(r)
  {
  }

  /** Once the microphone answers, success starts streaming and failure
      leaves the controller idle with `ws` null; the socket stays as it is
      and nothing is sent. */
  lemma MicAnswerOutcome(st: StreamState, id: nat, ok: bool)
    requires Valid(st) && id in st.awaitingMic
    ensures var r := OnMicAnswer(st, id, ok);
      && r.awaitingMic == st.awaitingMic - {id}
      && r.streaming == ok
      && (ok ==> r.ws == st.ws && r.buffers == st.buffers && r.sockets == st.sockets && r.sent == st.sent)
      && (!ok ==> r.ws == None && r.buffers == [])
      && Valid(r) && Extends(st, r)
  {
    var resumed := st.(awaitingMic := st.awaitingMic - {id});
    if !ok {
      StopFlushesThenFinalizes(resumed, true);
    }
  }

  /** What a close does.  The closing socket is marked closed.  If `ws`
      refers to a different socket that is open while streaming, the
      close stops that stream: the queue and the finalize message go out
      over the other socket, which is then closed.  Otherwise nothing is
      sent.  In every case the controller ends idle with `ws` null. */
  lemma SocketCloseOutcome(st: StreamState, id: nat)
    requires Valid(st) && id < |st.sockets| && st.sockets[id] != Closed
    ensures var r := OnSocketClose(st, id);
      var other := st.streaming && CanSend(st) && st.ws != Some(id);
      && r.sent == st.sent
           + (if other && |st.buffers| > 0
              then [AudioChunk(Wav.EncodeWav(Concat(st.buffers), SAMPLE_RATE))] else [])
           + (if other then [Finalize(FINALIZE_TEXT)] else [])
      && r.sockets[id] == Closed
      && (other ==> r.sockets[st.ws.value] == Closing)
      && !r.streaming && r.buffers == [] && r.ws == None
      && Valid(r)
  {
    var marked := st.(sockets := st.sockets[id := Closed]);
    assert Valid(marked);
    assert CanSend(marked) <==> CanSend(st) && st.ws != Some(id);
    StopFlushesThenFinalizes(marked, true);
  }

  /** A close of the socket `ws` refers to, or of any socket once `ws` is
      null, sends nothing: the queued audio is discarded rather than
      flushed, and no finalize goes out. */
  lemma RemoteCloseSendsNothing(st: StreamState, id: nat)
    requires Valid(st) && id < |st.sockets| && st.sockets[id] != Closed
    requires st.ws == Some(id) || st.ws == None
    ensures var r := OnSocketClose(st, id);
      r.sent == st.sent && !r.streaming && r.buffers == [] && r.ws == None
  {
    SocketCloseOutcome(st, id);
  }

  lemma ToggleKeepsValid(st: StreamState)
    requires Valid(st)
    ensures var r := OnToggle(st); Valid(r) && Extends(st, r)
    ensures !st.streaming ==> OnToggle(st).ws == Some(|st.sockets|)
  {
    if st.streaming {
      StopFlushesThenFinalizes(st, false);
    }
  }

  /** A click while idle starts a stream and does nothing else: exactly one
      new socket is appended, connecting, and `ws` refers to it; earlier
      sockets keep their states (a connecting or open one is not closed),
      and the queue, the settings, the pending microphone requests and the
      sent log are untouched.  While streaming, `startStream` is a no-op. */
  lemma StartStreamFrame(st: StreamState)
    ensures st.streaming ==> StartStream(st) == st
    ensures !st.streaming ==> OnToggle(st) == StartStream(st)
    ensures !st.streaming ==> var r := StartStream(st);
      && r.ws == Some(|st.sockets|)
      && |r.sockets| == |st.sockets| + 1
      && r.sockets[..|st.sockets|] == st.sockets
      && r.sockets[|st.sockets|] == Connecting
      && !r.streaming
      && r.buffers == st.buffers && r.accumulated == st.accumulated
      && r.chunkMs == st.chunkMs && r.target == st.target
      && r.awaitingMic == st.awaitingMic
      && r.sent == st.sent
  {
  }

  /** Once the server starts closing the socket a stream runs on, the
      stream goes on but can no longer send: a frame that reaches the target
      stays queued until the socket's `close` event stops the stream. */
  lemma ServerClosingHoldsAudio(st: StreamState, frame: seq<real>)
    requires Valid(st) && st.streaming && CanSend(st)
    ensures var r := OnSocketClosing(st, st.ws.value);
      && r.streaming && !CanSend(r) && r.sockets[st.ws.value] == Closing
      && r.(sockets := st.sockets) == st
      && OnAudioFrame(r, frame).sent == st.sent
      && OnAudioFrame(r, frame).buffers == st.buffers + [frame]
  {
    var r := OnSocketClosing(st, st.ws.value);
    CaptureCallback(r, frame);
  }

  lemma SocketCloseKeepsValid(st: StreamState, id: nat)
    requires Valid(st)
    ensures var r := OnSocketClose(st, id); Valid(r) && Extends(st, r)
  {
    if id < |st.sockets| && st.sockets[id] != Closed {
      SocketCloseOutcome(st, id);
    }
  }

  lemma MicAnswerKeepsValid(st: StreamState, id: nat, ok: bool)
    requires Valid(st)
    ensures var r := OnMicAnswer(st, id, ok); Valid(r) && Extends(st, r)
  {
    if id in st.awaitingMic {
      MicAnswerOutcome(st, id, ok);
    }
  }

  /** Every event keeps the state valid and only appends to the log of
      sent messages. */
  lemma ApplyKeepsValid(st: StreamState, e: Event)
    requires Valid(st)
    ensures var r := Apply(st, e); Valid(r) && Extends(st, r)
  {
    match e
    case ChunkSetting(ms) =>
    case Toggle => ToggleKeepsValid(st);
    case SocketOpen(id) => SocketOpenMarks(st, id);
    case MicAnswer(id, ok) => MicAnswerKeepsValid(st, id, ok);
    case SocketClosing(id) =>
    case SocketClose(id) => SocketCloseKeepsValid(st, id);
    case AudioFrame(frame) => CaptureCallback(st, frame);
  }

  lemma ExtendsTrans(a: StreamState, b: StreamState, c: StreamState)
    requires Extends(a, b) && Extends(b, c)
    ensures Extends(a, c)
  {
    assert c.sent[..|b.sent|][..|a.sent|] == c.sent[..|a.sent|];
  }

  /** Every reachable state is valid, and the log of sent messages only grows. */
  lemma {:induction false} RunKeepsValid(st: StreamState, events: seq<Event>)
    requires Valid(st)
    ensures var r := Run(st, events); Valid(r) && Extends(st, r)
    decreases |events|
  {
    if |events| > 0 {
      var next := Apply(st, events[0]);
      ApplyKeepsValid(st, events[0]);
      RunKeepsValid(next, events[1..]);
      ExtendsTrans(st, next, Run(st, events));
    }
  }

  // ---------------------------------------------------------------------
  // No captured audio is lost or reordered while the socket stays open.

  /** The 16-bit samples carried by the audio messages of a log, in order. */
  function SentSamples(log: seq<Outbound>): seq<int>
  {
    if |log| == 0 then []
    else
      SentSamples(log[..|log| - 1])
      + match log[|log| - 1]
        case AudioChunk(wav) => Wav.DecodeSamples(wav)
        case Finalize(_) => []
  }

  /** The capture callback applied to a series of frames. */
  function Capture(st: StreamState, frames: seq<seq<real>>): StreamState
  {
    if |frames| == 0 then st else OnAudioFrame(Capture(st, frames[..|frames| - 1]), frames[|frames| - 1])
  }

  /** One frame: what has been sent plus what is queued grows by exactly
      the frame's samples. */
  lemma CaptureStep(st: StreamState, f: seq<real>)
    requires Valid(st) && st.streaming && CanSend(st)
    ensures var r := OnAudioFrame(st, f);
      && Valid(r) && r.streaming && CanSend(r)
      && SentSamples(r.sent) + Wav.QuantiseAll(Concat(r.buffers))
         == SentSamples(st.sent) + Wav.QuantiseAll(Concat(st.buffers)) + Wav.QuantiseAll(f)
  {
    var r := OnAudioFrame(st, f);
    CaptureCallback(st, f);
    var chunk := Concat(st.buffers + [f]);
    assert chunk == Concat(st.buffers) + f by {
      assert (st.buffers + [f])[..|st.buffers|] == st.buffers;
    }
    Wav.QuantiseAllAppend(Concat(st.buffers), f);
    if st.accumulated + |f| >= st.target {
      assert r.sent[..|r.sent| - 1] == st.sent;
      Wav.DecodeEncode(chunk, SAMPLE_RATE);
      assert SentSamples(r.sent) == SentSamples(st.sent) + Wav.QuantiseAll(chunk);
    }
  }

  lemma Regroup(now: seq<int>, mid: seq<int>, before: seq<int>, a: seq<int>, b: seq<int>, ab: seq<int>)
    requires mid == before + a && now == mid + b && ab == a + b
    ensures now == before + ab
  {
  }

  /** While streaming over an open socket, what has been sent plus what is
      still queued is always what was queued before plus every captured
      frame, in capture order. */
  lemma {:induction false} CaptureLosesNothing(st: StreamState, frames: seq<seq<real>>)
    requires Valid(st) && st.streaming && CanSend(st)
    ensures var r := Capture(st, frames);
      && Valid(r) && r.streaming && CanSend(r)
      && SentSamples(r.sent) + Wav.QuantiseAll(Concat(r.buffers))
         == SentSamples(st.sent) + Wav.QuantiseAll(Concat(st.buffers)) + Wav.QuantiseAll(Concat(frames))
  {
    if |frames| > 0 {
      var init := frames[..|frames| - 1];
      var f := frames[|frames| - 1];
      var mid := Capture(st, init);
      var r := Capture(st, frames);
      var before := SentSamples(st.sent) + Wav.QuantiseAll(Concat(st.buffers));
      assert r == OnAudioFrame(mid, f);
      assert Valid(mid) && mid.streaming && CanSend(mid)
        && SentSamples(mid.sent) + Wav.QuantiseAll(Concat(mid.buffers)) == before + Wav.QuantiseAll(Concat(init)) by {
        CaptureLosesNothing(st, init);
      }
      assert Valid(r) && r.streaming && CanSend(r)
        && SentSamples(r.sent) + Wav.QuantiseAll(Concat(r.buffers))
           == SentSamples(mid.sent) + Wav.QuantiseAll(Concat(mid.buffers)) + Wav.QuantiseAll(f) by {
        CaptureStep(mid, f);
      }
      assert Wav.QuantiseAll(Concat(frames)) == Wav.QuantiseAll(Concat(init)) + Wav.QuantiseAll(f) by {
        assert Concat(frames) == Concat(init) + f;
        Wav.QuantiseAllAppend(Concat(init), f);
      }
      Regroup(SentSamples(r.sent) + Wav.QuantiseAll(Concat(r.buffers)),
              SentSamples(mid.sent) + Wav.QuantiseAll(Concat(mid.buffers)),
              before, Wav.QuantiseAll(Concat(init)), Wav.QuantiseAll(f), Wav.QuantiseAll(Concat(frames)));
    } else {
      assert Wav.QuantiseAll(Concat(frames)) == [];
    }
  }

  /** Stopping an open stream sends the remaining queue and then the
      finalize message, so the samples sent are exactly everything queued. */
  lemma StopSendsRemainder(st: StreamState)
    requires Valid(st) && st.streaming && CanSend(st)
    ensures var r := StopStream(st, false);
      && SentSamples(r.sent) == SentSamples(st.sent) + Wav.QuantiseAll(Concat(st.buffers))
      && r.sent[|r.sent| - 1] == Finalize(FINALIZE_TEXT)
  {
    StopFlushesThenFinalizes(st, false);
    var r := StopStream(st, false);
    var chunk := Concat(st.buffers);
    Wav.DecodeEncode(chunk, SAMPLE_RATE);
    assert r.sent[..|r.sent| - 1] == st.sent + (if |st.buffers| > 0 then [AudioChunk(Wav.EncodeWav(chunk, SAMPLE_RATE))] else []);
    if |st.buffers| > 0 {
      var withAudio := st.sent + [AudioChunk(Wav.EncodeWav(chunk, SAMPLE_RATE))];
      assert withAudio[..|withAudio| - 1] == st.sent;
    } else {
      assert chunk == [];
    }
  }

  // ---------------------------------------------------------------------
  // A superseded socket's close acts on the current socket.
  //
  // Stopping closes the socket, but its `onclose` runs later.  If the
  // button has been clicked again in between, that late `stopStream(true)`
  // nulls `ws` while the new socket connects (so the new stream can never
  // send), or stops the new stream outright once it runs.

  /** Start, stop, and start again. */
  const Restart: seq<Event> := [Toggle, SocketOpen(0), MicAnswer(0, true), Toggle, Toggle]

  /** Then let the first socket's close arrive while the second connects. */
  const OrphanEvents: seq<Event> := Restart + [SocketClose(0), SocketOpen(1), MicAnswer(1, true)]

  /** Or let it arrive once the second stream runs. */
  const InterruptEvents: seq<Event> := Restart + [SocketOpen(1), MicAnswer(1, true), SocketClose(0)]

  /** After `Restart`: the first socket is closing, its finalize message has
      gone out, and `ws` refers to the second, connecting socket. */
  function Restarted(): StreamState
  {
    Initial().(ws := Some(1), sockets := [Closing, Connecting], sent := [Finalize(FINALIZE_TEXT)])
  }

  lemma RestartReaches()
    ensures Run(Initial(), Restart) == Restarted()
  {
    var s1 := Apply(Initial(), Toggle);
    assert s1 == Initial().(ws := Some(0), sockets := [Connecting]);
    var s2 := Apply(s1, SocketOpen(0));
    assert s2 == s1.(sockets := [Open], awaitingMic := {0});
    var s3 := Apply(s2, MicAnswer(0, true));
    assert s3 == s1.(sockets := [Open], streaming := true);
    var s4 := Apply(s3, Toggle);
    assert s4 == Initial().(sockets := [Closing], sent := [Finalize(FINALIZE_TEXT)]);
    assert Apply(s4, Toggle) == Restarted();
    assert Restart[1..][1..][1..][1..][1..] == [];
  }

  lemma {:induction false} RunConcat(st: StreamState, a: seq<Event>, b: seq<Event>)
    ensures Run(st, a + b) == Run(Run(st, a), b)
    decreases |a|
  {
    if |a| > 0 {
      assert (a + b)[0] == a[0] && (a + b)[1..] == a[1..] + b;
      RunConcat(Apply(st, a[0]), a[1..], b);
    } else {
      assert a + b == b;
    }
  }

  /** A whole chunk of silence at the default target. */
  function SilentChunk(): (f: seq<real>)
    ensures |f| == 96000
  {
    seq(96000, _ => 0.0)
  }

  /** As written: after `OrphanEvents` the controller streams while socket 1
      is open, but `ws` is null, so a frame that reaches the target is
      queued and never sent. */
  lemma StaleCloseOrphansStream()
    ensures var st := Run(Initial(), OrphanEvents);
      && st.streaming && st.ws == None && st.sockets == [Closed, Open]
      && var r := OnAudioFrame(st, SilentChunk());
         r.accumulated >= r.target && r.sent == st.sent && r.buffers == [SilentChunk()]
  {
    var tail := [SocketClose(0), SocketOpen(1), MicAnswer(1, true)];
    RunConcat(Initial(), Restart, tail);
    RestartReaches();
    var s6 := Apply(Restarted(), SocketClose(0));
    assert s6 == Restarted().(ws := None, sockets := [Closed, Connecting]);
    var s7 := Apply(s6, SocketOpen(1));
    assert s7 == s6.(sockets := [Closed, Open], awaitingMic := {1});
    var s8 := Apply(s7, MicAnswer(1, true));
    assert s8 == s6.(sockets := [Closed, Open], streaming := true);
    assert Run(Restarted(), tail) == s8 by {
      assert tail[1..][1..][1..] == [];
    }
  }

  /** As written: after `InterruptEvents` the stream on socket 1 has been
      stopped by socket 0's close, its finalize message sent and socket 1
      closed, without the user pressing stop. */
  lemma StaleCloseStopsNewStream()
    ensures var st := Run(Initial(), InterruptEvents);
      && !st.streaming && st.ws == None && st.sockets == [Closed, Closing]
      && st.sent == [Finalize(FINALIZE_TEXT), Finalize(FINALIZE_TEXT)]
  {
    var tail := [SocketOpen(1), MicAnswer(1, true), SocketClose(0)];
    RunConcat(Initial(), Restart, tail);
    RestartReaches();
    var s6 := Apply(Restarted(), SocketOpen(1));
    assert s6 == Restarted().(sockets := [Closing, Open], awaitingMic := {1});
    var s7 := Apply(s6, MicAnswer(1, true));
    assert s7 == Restarted().(sockets := [Closing, Open], streaming := true);
    SocketCloseOutcome(s7, 0);
    var s8 := Apply(s7, SocketClose(0));
    assert s8.sockets == [Closed, Closing];
    assert Run(Restarted(), tail) == s8 by {
      assert tail[1..][1..][1..] == [];
    }
  }

  // ---------------------------------------------------------------------
  // The intended controller: each socket's handlers act only while `ws`
  // still refers to that socket.

  /** The handlers guarded by `ws === thisSocket`: the microphone answer and
      the close of a socket that `ws` no longer refers to change nothing
      but that socket's bookkeeping. */
  function ApplyGuarded(st: StreamState, e: Event): StreamState
  {
    match e
    case MicAnswer(id, ok) =>
      if id in st.awaitingMic && st.ws != Some(id) then st.(awaitingMic := st.awaitingMic - {id})
      else Apply(st, e)
    case SocketClose(id) =>
      if id < |st.sockets| && st.sockets[id] != Closed && st.ws != Some(id) then st.(sockets := st.sockets[id := Closed])
      else Apply(st, e)
    case _ => Apply(st, e)
  }

  function RunGuarded(st: StreamState, events: seq<Event>): StreamState
    decreases |events|
  {
    if |events| == 0 then st else RunGuarded(ApplyGuarded(st, events[0]), events[1..])
  }

  /** The socket `ws` refers to has opened, and its `close` event has not
      yet run: it is open, or the server has started closing it. */
  predicate Attached(st: StreamState) {
    st.ws.Some? && st.ws.value < |st.sockets| &&
    (st.sockets[st.ws.value] == Open || st.sockets[st.ws.value] == Closing)
  }

  /** What the guarded controller keeps: it streams only while attached to
      `ws`, `ws` never refers to a closed socket, and a pending microphone
      answer for the socket `ws` refers to comes from an attached socket. */
  predicate Live(st: StreamState) {
    && (st.streaming ==> Attached(st))
    && (st.ws.Some? && st.ws.value < |st.sockets| ==> st.sockets[st.ws.value] != Closed)
    && (st.ws.Some? && st.ws.value in st.awaitingMic ==> Attached(st))
  }

  lemma GuardedMicKeepsLive(st: StreamState, id: nat, ok: bool)
    requires Valid(st) && Live(st)
    ensures var r := ApplyGuarded(st, MicAnswer(id, ok)); Valid(r) && Live(r) && Extends(st, r)
  {
    if id in st.awaitingMic && st.ws == Some(id) {
      MicAnswerOutcome(st, id, ok);
      if !ok {
        StopFlushesThenFinalizes(st.(awaitingMic := st.awaitingMic - {id}), true);
      }
    }
  }

  lemma GuardedCloseKeepsLive(st: StreamState, id: nat)
    requires Valid(st) && Live(st)
    ensures var r := ApplyGuarded(st, SocketClose(id)); Valid(r) && Live(r) && Extends(st, r)
  {
    if id < |st.sockets| && st.sockets[id] != Closed && st.ws == Some(id) {
      SocketCloseOutcome(st, id);
    }
  }

  lemma GuardedToggleKeepsLive(st: StreamState)
    requires Valid(st) && Live(st)
    ensures var r := ApplyGuarded(st, Toggle); Valid(r) && Live(r) && Extends(st, r)
  {
    if st.streaming {
      StopFlushesThenFinalizes(st, false);
    } else {
      assert |st.sockets| !in st.awaitingMic;
    }
  }

  /** Every event keeps the guarded controller valid and live. */
  lemma GuardedKeepsLive(st: StreamState, e: Event)
    requires Valid(st) && Live(st)
    ensures var r := ApplyGuarded(st, e); Valid(r) && Live(r) && Extends(st, r)
  {
    match e
    case ChunkSetting(ms) =>
    case Toggle => GuardedToggleKeepsLive(st);
    case SocketOpen(id) => SocketOpenMarks(st, id);
    case MicAnswer(id, ok) => GuardedMicKeepsLive(st, id, ok);
    case SocketClosing(id) =>
    case SocketClose(id) => GuardedCloseKeepsLive(st, id);
    case AudioFrame(frame) => CaptureCallback(st, frame);
  }

  lemma {:induction false} RunGuardedKeepsLive(st: StreamState, events: seq<Event>)
    requires Valid(st) && Live(st)
    ensures var r := RunGuarded(st, events); Valid(r) && Live(r) && Extends(st, r)
    decreases |events|
  {
    if |events| > 0 {
      var next := ApplyGuarded(st, events[0]);
      GuardedKeepsLive(st, events[0]);
      RunGuardedKeepsLive(next, events[1..]);
      ExtendsTrans(st, next, RunGuarded(st, events));
    }
  }

  /** In every state the guarded controller reaches, a running stream is
      never orphaned: `ws` refers to its own socket, which is open or which
      the server is closing.  While it is open, a frame that reaches the
      target sends the whole queue with the frame; once it is closing, that
      socket's `close` event ends the stream.  `StaleCloseOrphansStream`
      shows the code as written streaming with `ws` null. */
  lemma GuardedStreamingSends(events: seq<Event>, frame: seq<real>)
    ensures var st := RunGuarded(Initial(), events);
      && (st.streaming ==> Attached(st))
      && (st.streaming && CanSend(st) && st.accumulated + |frame| >= st.target ==>
            OnAudioFrame(st, frame).sent
              == st.sent + [AudioChunk(Wav.EncodeWav(Concat(st.buffers + [frame]), SAMPLE_RATE))])
      && (st.streaming ==> !ApplyGuarded(st, SocketClose(st.ws.value)).streaming)
  {
    var st := RunGuarded(Initial(), events);
    RunGuardedKeepsLive(Initial(), events);
    CaptureCallback(st, frame);
    if st.streaming {
      SocketCloseOutcome(st, st.ws.value);
    }
  }

  /** In the guarded controller a superseded socket's close leaves the
      current stream alone, where `StaleCloseStopsNewStream` shows the code
      as written stopping it. */
  lemma GuardedStaleCloseKeepsStream(st: StreamState, id: nat)
    requires Valid(st) && Live(st) && st.streaming && st.ws != Some(id)
    ensures var r := ApplyGuarded(st, SocketClose(id));
      && r.streaming && r.ws == st.ws && r.buffers == st.buffers && r.sent == st.sent
      && Attached(r) && CanSend(r) == CanSend(st)
  {
  }
}
