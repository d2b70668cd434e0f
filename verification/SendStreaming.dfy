/** The sender's chunk loop under flow control, and the path of its frames to the receiver. */
module SendStreaming {
  import opened Words
  import opened Scripts
  import opened FlowWindow
  import opened SendSlot
  import Codec
  import Reassembly

  const FIN: byte := 1

  /** The frame of the i-th of `n` chunks: numbered from 0, FIN on the last. */
  function WireFrame(kind: byte, streamId: bytes, i: nat, n: nat, chunk: bytes): bytes
    requires |streamId| <= 255
  {
    Codec.Encode(Codec.Message(kind, streamId, ToU32(i), if i + 1 == n then FIN else 0, chunk))
  }

  function WireFrames(kind: byte, streamId: bytes, chunks: seq<bytes>): (frames: seq<bytes>)
    requires |streamId| <= 255
    ensures |frames| == |chunks|
  {
    seq(|chunks|, i requires 0 <= i < |chunks| => WireFrame(kind, streamId, i, |chunks|, chunks[i]))
  }

  /** The channel at a moment of a send: the stream's window and clock, and how the writes to come
      turn out. */
  datatype Channel = Channel(flight: Flight, writes: seq<bool>)

  /** Chunk by chunk: wait for room, then write. How many chunks go out, and what that leaves. */
  function SentOff(x: Channel, chunks: seq<bytes>, timeout: int): (nat, Channel)
    decreases |chunks|
  {
    if chunks == [] then (0, x)
    else
      var (ok, f) := Waited(x.flight, |chunks[0]|, timeout);
      if !ok then (0, x.(flight := f))
      else if !Succeeds(x.writes) then (0, Channel(f, Tail(x.writes)))
      else
        var (n, y) := SentOff(Channel(f, Tail(x.writes)), chunks[1..], timeout);
        (n + 1, y)
  }

  lemma SentOffNext(x: Channel, chunks: seq<bytes>, i: nat, timeout: int)
    requires i < |chunks|
    ensures var (ok, f) := Waited(x.flight, |chunks[i]|, timeout);
      SentOff(x, chunks[i..], timeout) ==
        if !ok then (0, x.(flight := f))
        else if !Succeeds(x.writes) then (0, Channel(f, Tail(x.writes)))
        else
          var (n, y) := SentOff(Channel(f, Tail(x.writes)), chunks[i + 1..], timeout);
          (n + 1, y)
  {
    hide Waited, Succeeds, Tail;
    assert chunks[i..][0] == chunks[i] && chunks[i..][1..] == chunks[i + 1..];
  }

  lemma NoChunks(x: Channel, chunks: seq<bytes>, timeout: int)
    ensures SentOff(x, chunks[|chunks|..], timeout) == (0, x) && chunks[0..] == chunks
  {
  }

  class Sender {
    const flow: FlowController?
    const waitTimeout: int
    const chunkSize: int
    const defaultChunkSize: int
    var now: int
    var naps: seq<Nap>       // how the pauses to come turn out
    var writes: seq<bool>    // and the writes to the channel
    var wire: seq<bytes>

    /** The stream's part of this moment. */
    function Look(id: Id): Flight
      reads this, flow
    {
      Flight(if flow == null then None else Some(WindowOf(id)), now, naps)
    }

    /** Any stream's window. */
    function WindowOf(id: Id): Window
      requires flow != null
      reads this, flow
    {
      Of(flow.windows, id, flow.defaultMax)
    }

    constructor (flow: FlowController?, waitTimeout: int, chunkSize: int, defaultChunkSize: int,
                 naps: seq<Nap>, writes: seq<bool>)
      ensures this.flow == flow && this.waitTimeout == waitTimeout
      ensures this.chunkSize == chunkSize && this.defaultChunkSize == defaultChunkSize
      ensures wire == [] && this.naps == naps && this.writes == writes && now == 0
    {
      this.flow, this.waitTimeout := flow, waitTimeout;
      this.chunkSize, this.defaultChunkSize := chunkSize, defaultChunkSize;
      now, wire := 0, [];
      this.naps, this.writes := naps, writes;
    }

    /** Time passes, at least as much as asked; meanwhile the peer may acknowledge bytes. */
    method Sleep(duration: nat, id: Id)
      requires flow != null
      modifies this`now, this`naps, flow
      ensures Look(id) == Napped(old(Look(id)), duration)
      ensures flow != null ==> forall j :: j != id ==> WindowOf(j) == old(WindowOf(j))
    {
      var nap := NapAt(naps, 0);
      naps := Tail(naps);
      flow.OnAck(id, nap.acked);
      now := now + duration + nap.late;
    }

    /** One try. */
    method TrySend(id: Id, size: nat) returns (ok: bool)
      requires flow != null
      modifies flow
      ensures ok == Admits(old(Look(id)).window.value, size)
      ensures Look(id) == old(Look(id)).(window := Some(Step(old(Look(id)).window.value, Op.TrySend(size), 0)))
      ensures !ok ==> Look(id) == old(Look(id))
      ensures flow != null ==> forall j :: j != id ==> WindowOf(j) == old(WindowOf(j))
    {
      ok := flow.TrySend(id, size);
    }

    /** Waits for room in the send window: terminates on every run, because each turn either gets
        in, gives up after the deadline, or moves the clock. */
    method WaitFlowSendSlot(id: Id, chunkLen: nat) returns (ok: bool)
      modifies this`now, this`naps, flow
      ensures (ok, Look(id)) == Waited(old(Look(id)), chunkLen, waitTimeout)
      ensures flow != null && Admits(old(Look(id)).window.value, chunkLen) ==> ok && now == old(now)
      ensures !ok ==> now > old(now) + waitTimeout
      ensures flow != null ==> forall j :: j != id ==> WindowOf(j) == old(WindowOf(j))
    {
      hide AtTry, Waiting, Waited, Step, Of, NapAt, Admits;
      ghost var x := Look(id);
      WaitsInTime(x, chunkLen, waitTimeout);
      if flow == null {
        assert Waited(x, chunkLen, waitTimeout) == (true, x) by {
          NoLimit(x, chunkLen, waitTimeout);
        }
        return true;
      }
      ghost var k: nat := 0;
      FirstTry(x, chunkLen, waitTimeout);
      TryFinds(x, chunkLen, waitTimeout, 0);
      var deadline := now + waitTimeout;
      var backoff := 5 * MILLISECOND;
      var maxBackoff := 100 * MILLISECOND;
      var admitted := TrySend(id, chunkLen);
      while !admitted
        invariant forall j :: j != id ==> WindowOf(j) == old(WindowOf(j))
        invariant backoff == Backoff(k) && maxBackoff == 100 * MILLISECOND
        invariant admitted ==> (true, Look(id)) == Waited(x, chunkLen, waitTimeout)
        invariant !admitted ==> Look(id) == AtTry(x, k) && Waiting(x, chunkLen, waitTimeout, k)
        invariant !admitted ==> AtTry(x, k).window.Some? && !Admits(AtTry(x, k).window.value, chunkLen)
        decreases deadline - now, !admitted
      {
        TryFails(x, chunkLen, waitTimeout, k);
        if now > deadline {
          return false;
        }
        Sleep(backoff, id);
        var next := backoff * 2;
        if next > maxBackoff {
          backoff := maxBackoff;
        } else {
          backoff := next;
        }
        k := k + 1;
        TryFinds(x, chunkLen, waitTimeout, k);
        admitted := TrySend(id, chunkLen);
      }
      return true;
    }

    /** Builds one frame and writes it; an over-long id is refused before anything is written. */
    method WriteChunk(kind: byte, streamId: bytes, sequence: u32, isLast: bool, chunk: bytes) returns (ok: bool)
      modifies this`wire, this`writes
      ensures |streamId| > 255 ==> !ok && writes == old(writes)
      ensures |streamId| <= 255 ==> ok == Succeeds(old(writes)) && writes == Tail(old(writes))
      ensures wire == if !ok then old(wire) else
        old(wire) + [Codec.Encode(Codec.Message(kind, streamId, sequence, if isLast then FIN else 0, chunk))]
    {
      var flags: byte := 0;
      if isLast {
        flags := FIN;
      }
      var frame := Codec.BuildBinaryMessage(Codec.Message(kind, streamId, sequence, flags, chunk));
      if frame.IdTooLong? {
        return false;
      }
      ok := Succeeds(writes);
      writes := Tail(writes);
      if !ok {
        return;
      }
      wire := wire + [frame.frame];
    }

    /** The chunk loop. What goes out is always a beginning of the numbered frames. */
    method SendAll(kind: byte, streamId: bytes, chunks: seq<bytes>) returns (ok: bool, ghost count: nat)
      modifies this, flow
      ensures count <= |chunks| && (ok <==> count == |chunks|)
      ensures flow != null ==> forall j :: j != Id(streamId) ==> WindowOf(j) == old(WindowOf(j))
      ensures |streamId| > 255 ==>
        && wire == old(wire) && count == 0 && writes == old(writes)
        && (chunks != [] ==> Look(Id(streamId)) == Waited(old(Look(Id(streamId))), |chunks[0]|, waitTimeout).1)
      ensures |streamId| <= 255 ==>
        && wire == old(wire) + WireFrames(kind, streamId, chunks)[..count]
        && (count, Channel(Look(Id(streamId)), writes))
           == SentOff(Channel(old(Look(Id(streamId))), old(writes)), chunks, waitTimeout)
    {
      hide SentOff, Waited, WireFrame, WireFrames, Codec.Encode, Succeeds, Tail;
      var id := Id(streamId);
      ghost var x, valid := Channel(Look(id), writes), |streamId| <= 255;
      ghost var frames := if valid then WireFrames(kind, streamId, chunks) else chunks;
      ghost var all := SentOff(x, chunks, waitTimeout);
      var sequence: u32 := 0;
      count := 0;
      var i := 0;
      NoChunks(x, chunks, waitTimeout);
      while i < |chunks|
        invariant 0 <= i <= |chunks| && count == i && sequence == ToU32(i)
        invariant !valid ==> i == 0 && wire == old(wire) && writes == x.writes && Look(id) == x.flight
        invariant flow != null ==> forall j :: j != id ==> WindowOf(j) == old(WindowOf(j))
        invariant valid ==> wire == old(wire) + frames[..i]
        invariant valid ==> var rest := SentOff(Channel(Look(id), writes), chunks[i..], waitTimeout);
          all == (rest.0 + i, rest.1)
      {
        SentOffNext(Channel(Look(id), writes), chunks, i, waitTimeout);
        if valid {
          WireFramesAt(kind, streamId, chunks, i);
        }
        var chunk := chunks[i];
        var isLast := i == |chunks| - 1;
        var admitted := WaitFlowSendSlot(id, |chunk|);
        if !admitted {
          return false, i;
        }
        var sent := WriteChunk(kind, streamId, sequence, isLast, chunk);
        if !sent {
          return false, i;
        }
        TakeSnoc(frames, i);
        sequence := ToU32(sequence + 1);
        NextU32(i);
        i := i + 1;
        count := i;
      }
      NoChunks(Channel(Look(id), writes), chunks, waitTimeout);
      return true, i;
    }

    /** Splits the payload and sends it from a new window. */
    method SendStreaming(kind: byte, streamId: bytes, data: bytes) returns (ok: bool, ghost count: nat)
      requires chunkSize > 0 || defaultChunkSize > 0
      modifies this, flow
      ensures flow != null ==> forall j :: j != Id(streamId) ==> WindowOf(j) == old(WindowOf(j))
      ensures var chunks := Reassembly.Split(data, EffectiveSize());
        && count <= |chunks| && (ok <==> count == |chunks|)
        && (|streamId| > 255 ==> wire == old(wire) && count == 0 && writes == old(writes))
        && (|streamId| <= 255 ==>
              && wire == old(wire) + WireFrames(kind, streamId, chunks)[..count]
              && (count, Channel(Look(Id(streamId)), writes))
                 == SentOff(Channel(Begun(old(Look(Id(streamId))), if flow == null then 0 else flow.defaultMax),
                                    old(writes)), chunks, waitTimeout))
    {
      hide SentOff;
      if flow != null {
        flow.InitializeStream(Id(streamId), 0);
      }
      var chunks := Reassembly.SplitIntoChunks(data, chunkSize, defaultChunkSize);
      ok, count := SendAll(kind, streamId, chunks);
    }

    function EffectiveSize(): (n: nat)
      requires chunkSize > 0 || defaultChunkSize > 0
      ensures n > 0
    {
      if chunkSize > 0 then chunkSize else defaultChunkSize
    }
  }

  /** A new window of the default size, if sending is limited. */
  function Begun(x: Flight, defaultMax: int): Flight {
    x.(window := if x.window.None? then None else Some(New(defaultMax)))
  }

  predicate AllSucceed(writes: seq<bool>) {
    forall i :: 0 <= i < |writes| ==> writes[i]
  }

  /** Without acknowledgements no more chunks go out than fit the window one after another, and exactly
      those if writing does not fail. */
  lemma {:induction false} QuietSends(x: Channel, chunks: seq<bytes>, i: nat, timeout: int)
    requires i <= |chunks| && x.flight.window.Some? && 0 <= x.flight.window.value.send && Quiet(x.flight.naps)
    ensures var w := x.flight.window.value; var n := SentOff(x, chunks[i..], timeout).0;
      n <= Fitting(chunks, i, w.send, w.max) && (AllSucceed(x.writes) ==> n == Fitting(chunks, i, w.send, w.max))
    decreases |chunks| - i
  {
    hide SentOff, Waited;
    var w := x.flight.window.value;
    FittingAt(chunks, i, w.send, w.max);
    if i < |chunks| {
      SentOffNext(x, chunks, i, timeout);
      QuietWait(x.flight, |chunks[i]|, timeout);
      var (ok, f) := Waited(x.flight, |chunks[i]|, timeout);
      if ok {
        QuietSends(Channel(f, Tail(x.writes)), chunks, i + 1, timeout);
      }
    } else {
      NoChunks(x, chunks, timeout);
    }
  }

  /** With nothing to limit sending, the chunks before the first failing write go out. */
  lemma {:induction false} UnlimitedSends(x: Channel, chunks: seq<bytes>, i: nat, timeout: int)
    requires i <= |chunks| && x.flight.window.None?
    ensures var n := SentOff(x, chunks[i..], timeout).0;
      && n <= |chunks| - i && (forall j :: 0 <= j < n ==> SucceedsAt(x.writes, j))
      && (n < |chunks| - i ==> !SucceedsAt(x.writes, n))
    decreases |chunks| - i
  {
    hide SentOff;
    if i < |chunks| {
      SentOffNext(x, chunks, i, timeout);
      if Succeeds(x.writes) {
        UnlimitedSends(Channel(x.flight, Tail(x.writes)), chunks, i + 1, timeout);
        forall j | 0 < j ensures SucceedsAt(x.writes, j) == SucceedsAt(Tail(x.writes), j - 1) {
        }
      }
    } else {
      NoChunks(x, chunks, timeout);
    }
  }

  /** A peer that acknowledges everything in every pause lets any payload through, however small the
      window, as long as each chunk fits it. */
  lemma {:induction false} AcknowledgedSends(x: Channel, chunks: seq<bytes>, i: nat, timeout: int)
    requires i <= |chunks| && x.flight.window.Some? && AllSucceed(x.writes) && 0 <= timeout
    requires x.flight.window.value.send <= x.flight.window.value.max
    requires |chunks| - i <= |x.flight.naps|
    requires forall j :: 0 <= j < |x.flight.naps| ==> x.flight.naps[j].acked >= x.flight.window.value.max
    requires forall j :: i <= j < |chunks| ==> |chunks[j]| <= x.flight.window.value.max
    ensures SentOff(x, chunks[i..], timeout).0 == |chunks| - i
    decreases |chunks| - i
  {
    hide SentOff, Waited;
    if i < |chunks| {
      SentOffNext(x, chunks, i, timeout);
      AcknowledgedWait(x.flight, |chunks[i]|, timeout);
      WaitsInTime(x.flight, |chunks[i]|, timeout);
      var (ok, f) := Waited(x.flight, |chunks[i]|, timeout);
      AcknowledgedSends(Channel(f, Tail(x.writes)), chunks, i + 1, timeout);
    } else {
      NoChunks(x, chunks, timeout);
    }
  }

  // ---------------------------------------------------------------- what fits

  /** How many chunks from the i-th on fit a window of `max` bytes of which `used` are taken. */
  function Fitting(chunks: seq<bytes>, i: nat, used: int, max: int): (k: nat)
    requires i <= |chunks|
    ensures i + k <= |chunks|
    decreases |chunks| - i
  {
    if i == |chunks| || used + |chunks[i]| > max then 0
    else 1 + Fitting(chunks, i + 1, used + |chunks[i]|, max)
  }

  lemma FittingAt(chunks: seq<bytes>, i: nat, used: int, max: int)
    requires i <= |chunks|
    ensures Fitting(chunks, i, used, max) ==
      if i == |chunks| || used + |chunks[i]| > max then 0 else 1 + Fitting(chunks, i + 1, used + |chunks[i]|, max)
  {
  }

  lemma WireFramesAt(kind: byte, streamId: bytes, chunks: seq<bytes>, i: nat)
    requires |streamId| <= 255 && i < |chunks|
    ensures |WireFrames(kind, streamId, chunks)| == |chunks|
    ensures WireFrames(kind, streamId, chunks)[i]
         == Codec.Encode(Codec.Message(kind, streamId, ToU32(i), if i + 1 == |chunks| then FIN else 0, chunks[i]))
  {
    hide Codec.Encode, ToU32;
  }

  lemma TakeSnoc<T>(s: seq<T>, i: nat)
    requires i < |s|
    ensures s[..i + 1] == s[..i] + [s[i]]
  {
  }

  /** `Fitting` chunks fit together, and one more does not. */
  lemma {:induction false} FittingIsLongest(chunks: seq<bytes>, i: nat, used: int, max: int, j: nat)
    requires i <= j <= |chunks|
    ensures i < j <= i + Fitting(chunks, i, used, max) ==> used + |Concat(chunks[i..j])| <= max
    ensures j > i + Fitting(chunks, i, used, max) ==> used + |Concat(chunks[i..j])| > max
    decreases |chunks| - i
  {
    if i < j {
      assert chunks[i..j][0] == chunks[i] && chunks[i..j][1..] == chunks[i + 1..j];
      FittingIsLongest(chunks, i + 1, used + |chunks[i]|, max, j);
    }
  }

  /** Without acknowledgements a send gets through exactly when the whole payload fits the window. */
  lemma AllFitsExactly(payload: bytes, size: nat, max: int)
    requires size > 0 && payload != []
    ensures var chunks := Reassembly.Split(payload, size);
      Fitting(chunks, 0, 0, max) == |chunks| <==> |payload| <= max
  {
    var chunks := Reassembly.Split(payload, size);
    Reassembly.SplitFacts(payload, size);
    FittingIsLongest(chunks, 0, 0, max, |chunks|);
    assert chunks[0..|chunks|] == chunks;
  }

  // ---------------------------------------------------------------- receiving the frames

  predicate HasFin(flags: byte) {
    flags % 2 == 1
  }

  /** The event a received frame causes: the parsed chunk is handed to the stream. */
  function Received(frame: bytes, at: int): Reassembly.Event
    requires Codec.Decode(frame).Parsed?
  {
    var m := Codec.Decode(frame).msg;
    Reassembly.Arrive(Reassembly.Chunk(m.sequence, m.data, HasFin(m.flags)), at)
  }

  datatype Wired = Frame(index: nat, at: int) | Pause | Resume

  predicate Deliverable(run: seq<Wired>, n: nat) {
    forall i :: 0 <= i < |run| && run[i].Frame? ==> run[i].index < n
  }

  function Events(run: seq<Wired>, frames: seq<bytes>): (es: seq<Reassembly.Event>)
    requires Deliverable(run, |frames|)
    requires forall i :: 0 <= i < |frames| ==> Codec.Decode(frames[i]).Parsed?
    ensures |es| == |run|
  {
    seq(|run|, i requires 0 <= i < |run| =>
      match run[i]
      case Frame(k, at) => Received(frames[k], at)
      case Pause => Reassembly.Pausing
      case Resume => Reassembly.Resuming)
  }

  lemma WireFrameParses(kind: byte, streamId: bytes, payload: bytes, size: nat, i: nat)
    requires size > 0 && |streamId| <= 255
    requires i < |Reassembly.Split(payload, size)| < 0x1_0000_0000
    requires size < 0x1_0000_0000 || |payload| < 0x1_0000_0000
    ensures var chunks := Reassembly.Split(payload, size);
      && Codec.Decode(WireFrames(kind, streamId, chunks)[i]).Parsed?
      && forall at :: Received(WireFrames(kind, streamId, chunks)[i], at)
                   == Reassembly.Arrive(Reassembly.Frames(payload, size)[i], at)
  {
    hide Codec.Encode, Codec.Decode, WireFrames, Reassembly.Split;
    var chunks := Reassembly.Split(payload, size);
    Reassembly.SplitFacts(payload, size);
    var m := Codec.Message(kind, streamId, ToU32(i), if i + 1 == |chunks| then FIN else 0, chunks[i]);
    WireFramesAt(kind, streamId, chunks, i);
    Codec.RoundTripExactly(m, []);
    assert Codec.Encode(m) + [] == Codec.Encode(m);
  }

  /** What each frame on the wire says: kind and id of the stream, the chunk's number, and the chunk. */
  lemma WireFrameSays(kind: byte, streamId: bytes, chunks: seq<bytes>, i: nat)
    requires |streamId| <= 255 && i < |chunks| < 0x1_0000_0000 && |chunks[i]| < 0x1_0000_0000
    ensures Codec.Decode(WireFrames(kind, streamId, chunks)[i])
         == Codec.Parsed(Codec.Message(kind, streamId, i, if i == |chunks| - 1 then FIN else 0, chunks[i]))
  {
    hide Codec.Encode, Codec.Decode, WireFrames;
    var m := Codec.Message(kind, streamId, ToU32(i), if i + 1 == |chunks| then FIN else 0, chunks[i]);
    WireFramesAt(kind, streamId, chunks, i);
    Codec.RoundTripExactly(m, []);
    assert Codec.Encode(m) + [] == Codec.Encode(m);
  }

  /** The end-of-stream flag is on the last frame only, so a cut-short send shows none. */
  lemma FinOnLastFrameOnly(kind: byte, streamId: bytes, payload: bytes, size: nat, i: nat)
    requires size > 0 && |streamId| <= 255
    requires i < |Reassembly.Split(payload, size)| < 0x1_0000_0000
    requires size < 0x1_0000_0000 || |payload| < 0x1_0000_0000
    ensures var d := Codec.Decode(WireFrames(kind, streamId, Reassembly.Split(payload, size))[i]);
      d.Parsed? && (HasFin(d.msg.flags) <==> i == |Reassembly.Split(payload, size)| - 1)
  {
    WireFrameParses(kind, streamId, payload, size, i);
    assert Received(WireFrames(kind, streamId, Reassembly.Split(payload, size))[i], 0)
        == Reassembly.Arrive(Reassembly.Frames(payload, size)[i], 0);
  }

  predicate Carried(run: seq<Wired>, i: nat) {
    exists j :: 0 <= j < |run| && run[j].Frame? && run[j].index == i
  }

  lemma CarriedIsArrived(run: seq<Wired>, wire: seq<bytes>, frames: seq<Reassembly.Chunk>, i: nat)
    requires Reassembly.Numbered(frames) && |wire| == |frames| && i < |frames| && Deliverable(run, |wire|)
    requires forall k :: 0 <= k < |wire| ==> Codec.Decode(wire[k]).Parsed?
    requires forall k, at :: 0 <= k < |wire| ==> Received(wire[k], at) == Reassembly.Arrive(frames[k], at)
    ensures Reassembly.Arrived(Events(run, wire), frames[i]) <==> Carried(run, i)
  {
    var es := Events(run, wire);
    if Reassembly.Arrived(es, frames[i]) {
      var j :| 0 <= j < |es| && es[j].Arrive? && es[j].chunk == frames[i];
      assert frames[run[j].index].sequence == run[j].index;
    }
    if Carried(run, i) {
      var j :| 0 <= j < |run| && run[j].Frame? && run[j].index == i;
      assert es[j].chunk == frames[i];
    }
  }

  /** The whole path: split, number, frame, carry in any order with duplicates and pauses, parse,
      reassemble. The payload comes out once, exactly when the last missing frame has arrived. */
  lemma PayloadCrossesTheWire(kind: byte, streamId: bytes, payload: bytes, size: nat, run: seq<Wired>,
                              onError: bool, t0: int)
    requires size > 0 && payload != [] && |streamId| <= 255
    requires |Reassembly.Split(payload, size)| < 0x1_0000_0000
    requires size < 0x1_0000_0000 || |payload| < 0x1_0000_0000
    requires Deliverable(run, |Reassembly.Split(payload, size)|)
    ensures var frames := WireFrames(kind, streamId, Reassembly.Split(payload, size));
      && (forall i :: 0 <= i < |frames| ==> Codec.Decode(frames[i]).Parsed?)
      && Reassembly.Run(Reassembly.Fresh(Reassembly.Active, true, onError, t0), Events(run, frames)).delivered
         == if forall i :: 0 <= i < |frames| ==> Carried(run, i) then [payload] else []
  {
    var wire := WireFrames(kind, streamId, Reassembly.Split(payload, size));
    var frames := Reassembly.Frames(payload, size);
    forall i | 0 <= i < |wire|
      ensures Codec.Decode(wire[i]).Parsed?
           && forall at :: Received(wire[i], at) == Reassembly.Arrive(frames[i], at)
    {
      WireFrameParses(kind, streamId, payload, size, i);
    }
    Reassembly.FramesNumbered(payload, size);
    var es := Events(run, wire);
    forall j | 0 <= j < |es|
      ensures es[j].Pausing? || es[j].Resuming? || (es[j].Arrive? && es[j].chunk in frames)
    {
      assert run[j].Frame? ==> es[j].chunk == frames[run[j].index];
    }
    Reassembly.DeliveredExactlyOnce(payload, size, es, onError, t0);
    forall i | 0 <= i < |frames| ensures Reassembly.Arrived(es, frames[i]) <==> Carried(run, i) {
      CarriedIsArrived(run, wire, frames, i);
    }
  }
}
