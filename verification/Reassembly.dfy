/** Chunked streams: splitting a payload, and the receiver's reassembly state machine. */
module Reassembly {
  import opened Words

  datatype State = Initializing | Active | Paused | Completed | Errored

  datatype Chunk = Chunk(sequence: u32, data: bytes, isLast: bool)

  /** Everything observable of a stream. `delivered` and `evictions` log the OnComplete and OnError
      calls made so far; `merged` logs the chunks consumed by reassembly. */
  datatype View = View(
    state: State,
    chunks: map<u32, Chunk>,
    expected: u32,
    total: int,
    data: Option<bytes>,
    hasOnComplete: bool,
    hasOnError: bool,
    createdAt: int,
    lastActivity: int,
    destroyed: bool,
    merged: seq<Chunk>,
    delivered: seq<bytes>,
    evictions: nat)

  predicate Terminal(s: State) {
    s == Completed || s == Errored
  }

  // ---------------------------------------------------------------- transition functions

  function Fresh(state: State, hasOnComplete: bool, hasOnError: bool, now: int): View {
    View(state, map[], 0, -1, None, hasOnComplete, hasOnError, now, now, false, [], [], 0)
  }

  function Finish(v: View): View {
    v.(state := Completed,
       delivered := if v.hasOnComplete && v.data.Some? then v.delivered + [v.data.value] else v.delivered)
  }

  function Take(v: View): View
    requires v.expected in v.chunks
  {
    var c := v.chunks[v.expected];
    v.(chunks := v.chunks - {v.expected},
       data := Some(if v.data.None? then c.data else v.data.value + c.data),
       merged := v.merged + [c],
       expected := ToU32(v.expected + 1))
  }

  predicate Ends(v: View, c: Chunk) {
    c.isLast || (v.total > 0 && v.expected >= ToU32(v.total))
  }

  function Drain(v: View): View
    decreases |v.chunks|
  {
    if v.expected !in v.chunks then v
    else
      var w := Take(v);
      if Ends(w, v.chunks[v.expected]) then Finish(w) else Drain(w)
  }

  function Store(v: View, c: Chunk, now: int): View {
    v.(lastActivity := now,
       chunks := v.chunks[c.sequence := c],
       total := if c.isLast then c.sequence + 1 else v.total)
  }

  function Add(v: View, c: Chunk, now: int): View {
    if Terminal(v.state) then v else Drain(Store(v, c, now))
  }

  function DoPause(v: View): View {
    if v.state == Active then v.(state := Paused) else v
  }

  function DoResume(v: View): View {
    if v.state == Paused then Drain(v.(state := Active)) else v
  }

  function DoDestroy(v: View): View {
    v.(chunks := map[], data := None, hasOnComplete := false, hasOnError := false, destroyed := true)
  }

  predicate Stale(v: View, now: int, stall: int, maxAge: int) {
    !Terminal(v.state) && (now - v.lastActivity > stall || now - v.createdAt > maxAge)
  }

  /** One stream's share of a cleanup pass. */
  function Sweep(v: View, now: int, stall: int, maxAge: int): View {
    if Stale(v, now, stall, maxAge) then
      DoDestroy(v.(state := Errored, evictions := if v.hasOnError then v.evictions + 1 else v.evictions))
    else if Terminal(v.state) then DoDestroy(v)
    else v
  }

  // ---------------------------------------------------------------- the stream object

  class Stream {
    var state: State
    var chunks: map<u32, Chunk>
    var expectedSequence: u32
    var totalChunks: int
    var completedData: Option<bytes>
    var hasOnComplete: bool
    var hasOnError: bool
    var createdAt: int
    var lastActivity: int
    var destroyed: bool
    ghost var merged: seq<Chunk>
    ghost var delivered: seq<bytes>
    ghost var evictions: nat

    ghost function Look(): View
      reads this
    {
      View(state, chunks, expectedSequence, totalChunks, completedData, hasOnComplete, hasOnError,
           createdAt, lastActivity, destroyed, merged, delivered, evictions)
    }

    constructor (now: int)
      ensures Look() == Fresh(Initializing, false, false, now)
    {
      state, chunks, expectedSequence, totalChunks := Initializing, map[], 0, -1;
      completedData, hasOnComplete, hasOnError := None, false, false;
      createdAt, lastActivity, destroyed := now, now, false;
      merged, delivered, evictions := [], [], 0;
    }

    method Complete()
      modifies this
      ensures Look() == Finish(old(Look()))
    {
      state := Completed;
      if hasOnComplete && completedData.Some? {
        delivered := delivered + [completedData.value];
      }
    }

    method MergeNext() returns (chunk: Chunk)
      requires expectedSequence in chunks
      modifies this
      ensures chunk == old(chunks[expectedSequence])
      ensures Look() == Take(old(Look()))
    {
      chunk := chunks[expectedSequence];
      chunks := chunks - {expectedSequence};
      if completedData.None? {
        completedData := Some(chunk.data);
      } else {
        completedData := Some(completedData.value + chunk.data);
      }
      merged := merged + [chunk];
      expectedSequence := ToU32(expectedSequence + 1);
    }

    method TryReassemble()
      modifies this
      ensures Look() == Drain(old(Look()))
    {
      while expectedSequence in chunks
        invariant Drain(Look()) == Drain(old(Look()))
        decreases |chunks|
      {
        var chunk := MergeNext();
        if chunk.isLast {
          Complete();
          return;
        }
        if totalChunks > 0 && expectedSequence >= ToU32(totalChunks) {
          Complete();
          return;
        }
      }
    }

    method AddChunk(sequence: u32, data: bytes, isLast: bool, now: int)
      requires destroyed ==> Terminal(state)  // a destroyed stream's chunk map is nil: storing into it panics
      modifies this
      ensures Look() == Add(old(Look()), Chunk(sequence, data, isLast), now)
    {
      if state == Completed || state == Errored {
        return;
      }
      lastActivity := now;
      chunks := chunks[sequence := Chunk(sequence, data, isLast)];
      if isLast {
        totalChunks := sequence + 1;
      }
      TryReassemble();
    }

    method Pause()
      modifies this
      ensures Look() == DoPause(old(Look()))
    {
      if state == Active {
        state := Paused;
      }
    }

    method Resume()
      modifies this
      ensures Look() == DoResume(old(Look()))
    {
      if state == Paused {
        state := Active;
        TryReassemble();
      }
    }

    method Destroy()
      modifies this
      ensures Look() == DoDestroy(old(Look()))
    {
      chunks := map[];
      completedData := None;
      hasOnComplete := false;
      hasOnError := false;
      destroyed := true;
    }
  }

  // ---------------------------------------------------------------- splitting

  function Split(data: bytes, size: nat): (chunks: seq<bytes>)
    requires size > 0
  {
    if data == [] then []
    else if |data| <= size then [data]
    else [data[..size]] + Split(data[size..], size)
  }

  /** One loop turn: moving the next piece from the rest to the pieces already cut. */
  lemma {:induction false} SplitStep(data: bytes, i: nat, size: nat, cut: seq<bytes>)
    requires size > 0 && i < |data| && cut + Split(data[i..], size) == Split(data, size)
    ensures i + size < |data| ==> cut + [data[i..i + size]] + Split(data[i + size..], size) == Split(data, size)
    ensures i + size >= |data| ==> cut + [data[i..]] == Split(data, size)
  {
    var rest := data[i..];
    if i + size < |data| {
      assert rest[..size] == data[i..i + size] && rest[size..] == data[i + size..];
      assert cut + ([data[i..i + size]] + Split(data[i + size..], size))
          == cut + [data[i..i + size]] + Split(data[i + size..], size);
    }
  }

  method SplitIntoChunks(data: bytes, chunkSize: int, defaultChunkSize: int) returns (chunks: seq<bytes>)
    requires chunkSize > 0 || defaultChunkSize > 0
    ensures chunks == Split(data, if chunkSize > 0 then chunkSize else defaultChunkSize)
  {
    var size := chunkSize;
    if size <= 0 {
      size := defaultChunkSize;
    }
    chunks := [];
    var i := 0;
    assert data[0..] == data;
    while i < |data|
      invariant 0 <= i
      invariant i < |data| ==> chunks + Split(data[i..], size) == Split(data, size)
      invariant i >= |data| ==> chunks == Split(data, size)
    {
      SplitStep(data, i, size, chunks);
      var end := i + size;
      if end > |data| {
        end := |data|;
      }
      assert end == |data| ==> data[i..end] == data[i..];
      chunks := chunks + [data[i..end]];
      i := i + size;
    }
  }

  /** The pieces spell the payload; all but the last are full and none is empty. */
  lemma {:induction false} SplitFacts(data: bytes, size: nat)
    requires size > 0
    ensures var cs := Split(data, size);
      && Concat(cs) == data
      && (cs == [] <==> data == [])
      && (forall k :: 0 <= k < |cs| ==> 0 < |cs[k]| <= size && |cs[k]| <= |data|)
      && (forall k :: 0 <= k < |cs| - 1 ==> |cs[k]| == size)
  {
    if |data| > size {
      SplitFacts(data[size..], size);
      assert data == data[..size] + data[size..];
    } else if data != [] {
      assert Concat([data]) == data + Concat([]);
    }
  }

  // ---------------------------------------------------------------- runs of one stream

  datatype Event =
    | Arrive(chunk: Chunk, at: int)
    | Pausing
    | Resuming
    | Sweeping(now: int, stall: int, maxAge: int)

  function Apply(v: View, e: Event): View {
    match e
    case Arrive(c, at) => Add(v, c, at)
    case Pausing => DoPause(v)
    case Resuming => DoResume(v)
    case Sweeping(now, stall, maxAge) => Sweep(v, now, stall, maxAge)
  }

  function Run(v: View, es: seq<Event>): View {
    if es == [] then v else Apply(Run(v, es[..|es| - 1]), es[|es| - 1])
  }

  /** The chunk carried by the latest arrival with this sequence number. */
  function Latest(es: seq<Event>, k: u32): Option<Chunk> {
    if es == [] then None
    else
      var e := es[|es| - 1];
      if e.Arrive? && e.chunk.sequence == k then Some(e.chunk) else Latest(es[..|es| - 1], k)
  }

  /** The data of consecutive chunks, put together. */
  function Joined(cs: seq<Chunk>): bytes {
    if cs == [] then [] else Joined(cs[..|cs| - 1]) + cs[|cs| - 1].data
  }

  lemma {:induction false} JoinedSnoc(cs: seq<Chunk>, c: Chunk)
    ensures Joined(cs + [c]) == Joined(cs) + c.data
  {
    assert (cs + [c])[..|cs + [c]| - 1] == cs;
  }

  lemma {:induction false} AssembledSnoc(cs: seq<Chunk>, c: Chunk)
    ensures Assembled(cs + [c])
         == Some(if Assembled(cs).None? then c.data else Assembled(cs).value + c.data)
  {
    JoinedSnoc(cs, c);
    if cs == [] {
      assert Joined(cs) + c.data == c.data;
    }
  }

  predicate Arrived(es: seq<Event>, c: Chunk) {
    exists i :: 0 <= i < |es| && es[i].Arrive? && es[i].chunk == c
  }

  /** The consumed chunks are arrivals, numbered from 0 without gaps. */
  predicate InOrder(merged: seq<Chunk>, es: seq<Event>) {
    forall i :: 0 <= i < |merged| ==> merged[i].sequence == ToU32(i) && Arrived(es, merged[i])
  }

  /** Each waiting chunk is filed under its number and is the latest arrival of that number. */
  predicate Waiting(chunks: map<u32, Chunk>, es: seq<Event>) {
    forall k :: k in chunks ==> chunks[k].sequence == k && Latest(es, k) == Some(chunks[k])
  }

  function Assembled(merged: seq<Chunk>): Option<bytes> {
    if merged == [] then None else Some(Joined(merged))
  }

  /** What every run keeps, whatever the sender does. */
  ghost predicate Kept(v: View, es: seq<Event>, onComplete: bool, onError: bool) {
    && v.expected == ToU32(|v.merged|)
    && InOrder(v.merged, es)
    && (!v.destroyed ==> v.data == Assembled(v.merged))
    && (!Terminal(v.state) ==> Waiting(v.chunks, es) && v.expected !in v.chunks)
    && (v.destroyed ==> Terminal(v.state))
    && (!v.destroyed ==> v.hasOnComplete == onComplete && v.hasOnError == onError)
    && (v.state == Completed ==> v.evictions == 0)
    && (v.state == Completed ==> v.delivered == if onComplete then [Joined(v.merged)] else [])
    && (v.state == Errored ==> v.delivered == [] && v.evictions == if onError then 1 else 0)
    && (!Terminal(v.state) ==> v.delivered == [] && v.evictions == 0)
  }

  lemma {:induction false} LatestArrived(es: seq<Event>, k: u32)
    ensures Latest(es, k).Some? ==> Arrived(es, Latest(es, k).value)
  {
    if es != [] {
      var init := es[..|es| - 1];
      LatestArrived(init, k);
      if Latest(init, k).Some? {
        var i :| 0 <= i < |init| && init[i].Arrive? && init[i].chunk == Latest(init, k).value;
        assert es[i] == init[i];
      }
      assert es[|es| - 1].Arrive? ==> Arrived(es, es[|es| - 1].chunk);
    }
  }

  lemma {:induction false} ArrivedMore(es: seq<Event>, e: Event, c: Chunk)
    requires Arrived(es, c)
    ensures Arrived(es + [e], c)
  {
    var i :| 0 <= i < |es| && es[i].Arrive? && es[i].chunk == c;
    assert (es + [e])[i] == es[i];
  }

  lemma {:induction false} InOrderMore(merged: seq<Chunk>, es: seq<Event>, e: Event)
    requires InOrder(merged, es)
    ensures InOrder(merged, es + [e])
  {
    forall i | 0 <= i < |merged| ensures Arrived(es + [e], merged[i]) {
      ArrivedMore(es, e, merged[i]);
    }
  }

  /** `Kept` while reassembly is still under way: the next chunk may be waiting. */
  ghost predicate Draining(v: View, es: seq<Event>, onComplete: bool, onError: bool) {
    && !Terminal(v.state) && !v.destroyed
    && v.expected == ToU32(|v.merged|)
    && InOrder(v.merged, es)
    && v.data == Assembled(v.merged)
    && Waiting(v.chunks, es)
    && v.hasOnComplete == onComplete && v.hasOnError == onError
    && v.delivered == [] && v.evictions == 0
  }

  lemma {:induction false} TakeKeeps(v: View, es: seq<Event>, onComplete: bool, onError: bool)
    requires Draining(v, es, onComplete, onError) && v.expected in v.chunks
    ensures Draining(Take(v), es, onComplete, onError)
  {
    hide ToU32, Arrived, Latest, Assembled;
    var c := v.chunks[v.expected];
    LatestArrived(es, v.expected);
    assert InOrder(v.merged + [c], es);
    NextU32(|v.merged|);
    AssembledSnoc(v.merged, c);
  }

  lemma {:induction false} DrainKeeps(v: View, es: seq<Event>, onComplete: bool, onError: bool)
    requires Draining(v, es, onComplete, onError)
    ensures Kept(Drain(v), es, onComplete, onError)
    decreases |v.chunks|
  {
    if v.expected in v.chunks {
      TakeKeeps(v, es, onComplete, onError);
      if !Ends(Take(v), v.chunks[v.expected]) {
        DrainKeeps(Take(v), es, onComplete, onError);
      }
    }
  }

  lemma {:induction false} KeptMore(v: View, es: seq<Event>, e: Event, onComplete: bool, onError: bool)
    requires Kept(v, es, onComplete, onError)
    requires Terminal(v.state) || !e.Arrive?
    ensures Kept(v, es + [e], onComplete, onError)
  {
    InOrderMore(v.merged, es, e);
    assert (es + [e])[..|es + [e]| - 1] == es;
  }

  lemma {:induction false} StoreKeeps(v: View, es: seq<Event>, c: Chunk, at: int, onComplete: bool, onError: bool)
    requires Kept(v, es, onComplete, onError) && !Terminal(v.state)
    ensures Draining(Store(v, c, at), es + [Arrive(c, at)], onComplete, onError)
  {
    var e := Arrive(c, at);
    InOrderMore(v.merged, es, e);
    assert (es + [e])[..|es + [e]| - 1] == es;
  }

  lemma {:induction false} StepKeeps(v: View, es: seq<Event>, e: Event, onComplete: bool, onError: bool)
    requires Kept(v, es, onComplete, onError)
    ensures Kept(Apply(v, e), es + [e], onComplete, onError)
  {
    if e.Arrive? && !Terminal(v.state) {
      StoreKeeps(v, es, e.chunk, e.at, onComplete, onError);
      DrainKeeps(Store(v, e.chunk, e.at), es + [e], onComplete, onError);
    } else {
      KeptMore(v, es, e, onComplete, onError);
      if e.Resuming? && v.state == Paused {
        assert Drain(v.(state := Active)) == v.(state := Active);
      }
    }
  }

  /** Over every run of arrivals, pauses, resumes and cleanups, honest or not. */
  lemma {:induction false} RunKeeps(es: seq<Event>, onComplete: bool, onError: bool, t0: int)
    ensures Kept(Run(Fresh(Active, onComplete, onError, t0), es), es, onComplete, onError)
  {
    if es != [] {
      var init := es[..|es| - 1];
      RunKeeps(init, onComplete, onError, t0);
      StepKeeps(Run(Fresh(Active, onComplete, onError, t0), init), init, es[|es| - 1], onComplete, onError);
      assert init + [es[|es| - 1]] == es;
    }
  }

  /** A finished stream never changes state again and fires no further callback. */
  lemma {:induction false} TerminalAbsorbs(v: View, es: seq<Event>)
    requires Terminal(v.state)
    ensures var w := Run(v, es);
      w.state == v.state && w.delivered == v.delivered && w.evictions == v.evictions && w.merged == v.merged
  {
    if es != [] {
      TerminalAbsorbs(v, es[..|es| - 1]);
    }
  }

  lemma {:induction false} RunAppend(v: View, a: seq<Event>, b: seq<Event>)
    ensures Run(v, a + b) == Run(Run(v, a), b)
  {
    if b == [] {
      assert a + b == a;
    } else {
      assert (a + b)[..|a + b| - 1] == a + b[..|b| - 1];
      RunAppend(v, a, b[..|b| - 1]);
    }
  }

  /** OnComplete and the eviction OnError: never both, never twice, and final once fired. */
  lemma {:induction false} CallbacksAtMostOnce(es: seq<Event>, later: seq<Event>, onComplete: bool, onError: bool,
                                               t0: int)
    ensures var v := Run(Fresh(Active, onComplete, onError, t0), es);
      var w := Run(Fresh(Active, onComplete, onError, t0), es + later);
      && |w.delivered| + w.evictions <= 1
      && (Terminal(v.state) ==> w.state == v.state && w.delivered == v.delivered && w.evictions == v.evictions)
      && (|w.delivered| == 1 <==> w.state == Completed && onComplete)
      && (w.evictions == 1 <==> w.state == Errored && onError)
  {
    var start := Fresh(Active, onComplete, onError, t0);
    RunKeeps(es + later, onComplete, onError, t0);
    RunAppend(start, es, later);
    if Terminal(Run(start, es).state) {
      TerminalAbsorbs(Run(start, es), later);
    }
  }

  // ---------------------------------------------------------------- pausing, destroying, finishing

  /** The last pause or resume of a run was a pause. */
  predicate LastPaused(es: seq<Event>) {
    es != [] && match es[|es| - 1]
    case Pausing => true
    case Resuming => false
    case _ => LastPaused(es[..|es| - 1])
  }

  /** The number of chunks announced by the latest arrival marked as the last. */
  function Announced(es: seq<Event>): int {
    if es == [] then -1
    else
      var e := es[|es| - 1];
      if e.Arrive? && e.chunk.isLast then e.chunk.sequence + 1 else Announced(es[..|es| - 1])
  }

  lemma {:induction false} DrainKeepsTotal(v: View)
    ensures (Drain(v).state == v.state || Drain(v).state == Completed) && Drain(v).total == v.total
    decreases |v.chunks|
  {
    if v.expected in v.chunks && !Ends(Take(v), v.chunks[v.expected]) {
      DrainKeepsTotal(Take(v));
    }
  }

  /** As long as a stream is not finished, it is paused exactly when the latest request was to pause,
      and expects the number of chunks announced last. */
  lemma {:induction false} StandsExactly(es: seq<Event>, onComplete: bool, onError: bool, t0: int)
    ensures var v := Run(Fresh(Active, onComplete, onError, t0), es);
      !Terminal(v.state) ==> v.state == (if LastPaused(es) then Paused else Active) && v.total == Announced(es)
  {
    hide Drain;
    if es != [] {
      var init, e := es[..|es| - 1], es[|es| - 1];
      StandsExactly(init, onComplete, onError, t0);
      var v := Run(Fresh(Active, onComplete, onError, t0), init);
      if e.Arrive? {
        DrainKeepsTotal(Store(v, e.chunk, e.at));
      } else if e.Resuming? {
        DrainKeepsTotal(v.(state := Active));
      }
    }
  }

  /** A destroyed stream has let go of everything and calls nobody, whatever comes. */
  lemma {:induction false} DestroyedIsSilent(v: View, es: seq<Event>)
    requires Terminal(v.state)
    ensures var w := Run(DoDestroy(v), es);
      && w.chunks == map[] && w.data == None && !w.hasOnComplete && !w.hasOnError
      && w.state == v.state && w.delivered == v.delivered && w.evictions == v.evictions
  {
    if es != [] {
      DestroyedIsSilent(v, es[..|es| - 1]);
    }
  }

  function NumberAfter(v: View, k: nat): u32 {
    ToU32(v.expected + k)
  }

  /** The chunk `k` places on ends the stream: it is marked as the last, or completes the number of
      chunks announced. */
  predicate EndsAt(v: View, k: nat) {
    NumberAfter(v, k) in v.chunks
    && (v.chunks[NumberAfter(v, k)].isLast || (v.total > 0 && NumberAfter(v, k + 1) >= ToU32(v.total)))
  }

  /** From `v`, the next `n` waiting chunks were consumed, none before the last of them ending the
      stream; it then is completed if that one does, or else the next chunk is missing. */
  ghost predicate DrainedBy(v: View, w: View, n: nat) {
    && |w.merged| == |v.merged| + n && v.merged <= w.merged
    && (forall k: nat :: k < n ==>
          NumberAfter(v, k) in v.chunks && w.merged[|v.merged| + k] == v.chunks[NumberAfter(v, k)])
    && (forall k: nat :: k + 1 < n ==> !EndsAt(v, k))
    && if n > 0 && EndsAt(v, n - 1) then w.state == Completed
       else w.state == v.state && w.expected !in w.chunks
  }

  lemma NumberedNext(v: View, k: nat)
    requires v.expected in v.chunks
    ensures NumberAfter(Take(v), k) == NumberAfter(v, k + 1) && NumberAfter(v, 0) == v.expected
  {
    var m := 0x1_0000_0000;
    if v.expected + 1 == m {
      assert (m + k) % m == k % m;
    }
  }

  lemma {:induction false} DrainExactly(v: View) returns (n: nat)
    requires !Terminal(v.state)
    ensures DrainedBy(v, Drain(v), n)
    decreases |v.chunks|
  {
    n := 0;
    if v.expected in v.chunks {
      var u := Take(v);
      NumberedNext(v, 0);
      if Ends(u, v.chunks[v.expected]) {
        n := 1;
      } else {
        n := DrainExactly(u);
        DrainedNext(v, Drain(v), n);
        n := n + 1;
      }
    }
  }

  lemma DrainedNext(v: View, w: View, n: nat)
    requires v.expected in v.chunks && !Ends(Take(v), v.chunks[v.expected]) && DrainedBy(Take(v), w, n)
    ensures DrainedBy(v, w, n + 1)
  {
    var u := Take(v);
    NumberedNext(v, 0);
    forall k: nat ensures NumberAfter(u, k) == NumberAfter(v, k + 1) {
      NumberedNext(v, k);
    }
    hide NumberAfter;
    forall k: nat | k < n ensures EndsAt(u, k) == EndsAt(v, k + 1) {
      assert NumberAfter(u, k) in u.chunks;
    }
    assert !EndsAt(v, 0);
    assert w.merged[|v.merged|] == u.merged[|v.merged|];
    forall k: nat | k < n + 1
      ensures NumberAfter(v, k) in v.chunks && w.merged[|v.merged| + k] == v.chunks[NumberAfter(v, k)]
    {
      if k > 0 {
        assert NumberAfter(u, k - 1) in u.chunks;
      }
    }
    forall k: nat | k + 1 < n + 1 ensures !EndsAt(v, k) {
      if k > 0 {
        assert !EndsAt(u, k - 1);
      }
    }
  }

  // ---------------------------------------------------------------- honest senders

  /** The frames of a payload: numbered from 0, the last one marked. */
  function Frames(payload: bytes, size: nat): (frames: seq<Chunk>)
    requires size > 0 && |Split(payload, size)| < 0x1_0000_0000
  {
    var cs := Split(payload, size);
    seq(|cs|, i requires 0 <= i < |cs| => Chunk(i, cs[i], i == |cs| - 1))
  }

  predicate Honest(es: seq<Event>, frames: seq<Chunk>) {
    forall i :: 0 <= i < |es| ==>
      es[i].Pausing? || es[i].Resuming? || (es[i].Arrive? && es[i].chunk in frames)
  }

  predicate AllArrived(es: seq<Event>, frames: seq<Chunk>) {
    forall k :: 0 <= k < |frames| ==> Arrived(es, frames[k])
  }

  /** From the next expected frame on, exactly the arrived frames are waiting. */
  predicate Pending(chunks: map<u32, Chunk>, expected: nat, es: seq<Event>, frames: seq<Chunk>) {
    && (forall k :: expected <= k < |frames| ==> (k in chunks <==> Arrived(es, frames[k])))
    && (forall k :: k in chunks ==> k < |frames| && chunks[k] == frames[k])
  }

  /** Reassembly in progress under an honest sender. */
  ghost predicate Halfway(v: View, es: seq<Event>, frames: seq<Chunk>) {
    && (v.state == Active || v.state == Paused)
    && v.hasOnComplete && v.delivered == [] && !v.destroyed
    && v.expected < |frames|
    && v.data == Assembled(frames[..v.expected])
    && (v.total == -1 || v.total == |frames|)
    && (forall k :: 0 <= k < v.expected ==> Arrived(es, frames[k]))
    && Pending(v.chunks, v.expected, es, frames)
  }

  ghost predicate Done(v: View, es: seq<Event>, frames: seq<Chunk>) {
    && v.state == Completed
    && v.delivered == [Joined(frames)]
    && AllArrived(es, frames)
  }

  predicate Numbered(frames: seq<Chunk>) {
    && 0 < |frames| < 0x1_0000_0000
    && forall k :: 0 <= k < |frames| ==> frames[k].sequence == k && frames[k].isLast == (k == |frames| - 1)
  }

  lemma {:induction false} TakeHonest(v: View, es: seq<Event>, frames: seq<Chunk>)
    requires Numbered(frames) && Halfway(v, es, frames) && v.expected in v.chunks
    ensures v.chunks[v.expected] == frames[v.expected] && v.expected < |frames|
    ensures Take(v).data == Assembled(frames[..v.expected + 1])
    ensures v.expected < |frames| - 1 ==> Halfway(Take(v), es, frames)
  {
    hide Joined;
    var e := v.expected;
    assert frames[..e + 1] == frames[..e] + [frames[e]];
    AssembledSnoc(frames[..e], frames[e]);
    assert Pending(v.chunks - {e}, e + 1, es, frames);
  }

  lemma EndsHonest(v: View, es: seq<Event>, frames: seq<Chunk>)
    requires Numbered(frames) && Halfway(v, es, frames) && v.expected in v.chunks
    ensures Ends(Take(v), v.chunks[v.expected]) <==> v.expected == |frames| - 1
  {
    hide Arrived, Assembled;
  }

  /** The last missing frame completes the payload. */
  lemma LastHonest(v: View, es: seq<Event>, frames: seq<Chunk>)
    requires Numbered(frames) && Halfway(v, es, frames) && v.expected in v.chunks && v.expected == |frames| - 1
    ensures Done(Finish(Take(v)), es, frames)
  {
    TakeHonest(v, es, frames);
    assert frames[..v.expected + 1] == frames;
    hide Arrived, Joined;
  }

  lemma {:induction false} DrainHonest(v: View, es: seq<Event>, frames: seq<Chunk>)
    requires Numbered(frames) && Halfway(v, es, frames)
    ensures HonestState(Drain(v), es, frames)
    decreases |v.chunks|
  {
    hide Ends, Halfway, Done;
    if v.expected in v.chunks {
      TakeHonest(v, es, frames);
      EndsHonest(v, es, frames);
      if Ends(Take(v), v.chunks[v.expected]) {
        LastHonest(v, es, frames);
      } else {
        DrainHonest(Take(v), es, frames);
      }
    }
  }

  ghost predicate HonestState(v: View, es: seq<Event>, frames: seq<Chunk>) {
    Done(v, es, frames) || (Halfway(v, es, frames) && v.expected !in v.chunks)
  }

  lemma {:induction false} ArrivedSnoc(es: seq<Event>, e: Event, c: Chunk)
    ensures Arrived(es + [e], c) <==> Arrived(es, c) || (e.Arrive? && e.chunk == c)
  {
    if Arrived(es, c) {
      ArrivedMore(es, e, c);
    }
    if e.Arrive? && e.chunk == c {
      assert (es + [e])[|es|] == e;
    }
    if Arrived(es + [e], c) {
      var i :| 0 <= i < |es + [e]| && (es + [e])[i].Arrive? && (es + [e])[i].chunk == c;
      if i < |es| {
        assert es[i] == (es + [e])[i];
      }
    }
  }

  lemma {:induction false} HonestStep(v: View, es: seq<Event>, e: Event, frames: seq<Chunk>)
    requires Numbered(frames) && HonestState(v, es, frames)
    requires Honest([e], frames)
    ensures HonestState(Apply(v, e), es + [e], frames)
  {
    assert [e][0] == e;
    forall k | 0 <= k < |frames|
      ensures Arrived(es + [e], frames[k]) <==> Arrived(es, frames[k]) || (e.Arrive? && e.chunk == frames[k])
    {
      ArrivedSnoc(es, e, frames[k]);
    }
    if Done(v, es, frames) {
      assert Done(Apply(v, e), es + [e], frames);
    } else if e.Arrive? {
      var w := Store(v, e.chunk, e.at);
      assert Halfway(w, es + [e], frames);
      DrainHonest(w, es + [e], frames);
    } else if e.Resuming? {
      DrainHonest(v.(state := Active), es, frames);
    }
  }

  lemma {:induction false} HonestRun(es: seq<Event>, frames: seq<Chunk>, onError: bool, t0: int)
    requires Numbered(frames) && Honest(es, frames)
    ensures HonestState(Run(Fresh(Active, true, onError, t0), es), es, frames)
  {
    if es != [] {
      var init, e := es[..|es| - 1], es[|es| - 1];
      assert Honest(init, frames) && Honest([e], frames);
      HonestRun(init, frames, onError, t0);
      HonestStep(Run(Fresh(Active, true, onError, t0), init), init, e, frames);
      assert init + [e] == es;
    }
  }

  lemma {:induction false} JoinedIsConcat(cs: seq<Chunk>, parts: seq<bytes>)
    requires |cs| == |parts| && forall i :: 0 <= i < |cs| ==> cs[i].data == parts[i]
    ensures Joined(cs) == Concat(parts)
  {
    if cs != [] {
      var n := |cs| - 1;
      JoinedIsConcat(cs[..n], parts[..n]);
      ConcatSnoc(parts[..n], parts[n]);
      assert parts[..n] + [parts[n]] == parts;
    }
  }

  lemma {:induction false} FramesNumbered(payload: bytes, size: nat)
    requires size > 0 && payload != [] && |Split(payload, size)| < 0x1_0000_0000
    ensures Numbered(Frames(payload, size)) && Joined(Frames(payload, size)) == payload
  {
    SplitFacts(payload, size);
    JoinedIsConcat(Frames(payload, size), Split(payload, size));
  }

  /** The frames of any non-empty payload, in any order, with any duplicates and any pauses and
      resumes between: the payload is delivered once, at the moment the last missing frame arrives. */
  lemma {:induction false} DeliveredExactlyOnce(payload: bytes, size: nat, es: seq<Event>, onError: bool, t0: int)
    requires size > 0 && payload != [] && |Split(payload, size)| < 0x1_0000_0000
    requires Honest(es, Frames(payload, size))
    ensures Run(Fresh(Active, true, onError, t0), es).delivered
         == if AllArrived(es, Frames(payload, size)) then [payload] else []
  {
    var frames := Frames(payload, size);
    FramesNumbered(payload, size);
    HonestRun(es, frames, onError, t0);
    var v := Run(Fresh(Active, true, onError, t0), es);
    if !Done(v, es, frames) {
      assert !Arrived(es, frames[v.expected]);
    }
  }
}
