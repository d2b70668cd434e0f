/** The table of streams over whole runs: how often a payload is delivered when cleanup, removals and
    late or repeated frames come between. */
module StreamTable {
  import opened Words
  import opened Reassembly
  import opened StreamManagement

  // ---------------------------------------------------------------- operations on the table

  /** The live streams, and what has been delivered for each id by all its streams so far. */
  datatype Table = Table(live: map<Id, View>, got: map<Id, seq<bytes>>)

  const EMPTY := Table(map[], map[])

  /** Each is one locked section. A cleanup pass is, for each stream, marking it when it is stalled, and
      then removing it when it is finished; anything may come between the two. */
  datatype Op =
    | Ensure(id: Id, made: int)
    | Arrives(id: Id, chunk: Chunk, at: int)
    | Mark(id: Id, now: int, stall: int, maxAge: int)
    | Remove(id: Id)
    | Pauses(id: Id)
    | Resumes(id: Id)

  function Got(t: Table, id: Id): seq<bytes> {
    if id in t.got then t.got[id] else []
  }

  function Marked(v: View, now: int, stall: int, maxAge: int): View {
    if Stale(v, now, stall, maxAge)
    then v.(state := Errored, evictions := if v.hasOnError then v.evictions + 1 else v.evictions) else v
  }

  /** One stream moves to `w`, which may call OnComplete. */
  function Moved(t: Table, id: Id, w: View): Table
    requires id in t.live
  {
    var n := |t.live[id].delivered|;
    Table(t.live[id := w], if n < |w.delivered| then t.got[id := Got(t, id) + w.delivered[n..]] else t.got)
  }

  function Step(t: Table, op: Op): Table {
    if op.Ensure? then
      if op.id in t.live then t else t.(live := t.live[op.id := Fresh(Active, true, false, op.made)])
    else if op.id !in t.live then t
    else
      var v := t.live[op.id];
      match op
      case Arrives(id, chunk, at) => Moved(t, id, Add(v, chunk, at))
      case Mark(id, now, stall, maxAge) => Moved(t, id, Marked(v, now, stall, maxAge))
      case Remove(id) => t.(live := t.live - {id})
      case Pauses(id) => Moved(t, id, DoPause(v))
      case Resumes(id) => Moved(t, id, DoResume(v))
  }

  function Steps(t: Table, ops: seq<Op>): Table {
    if ops == [] then t else Step(Steps(t, ops[..|ops| - 1]), ops[|ops| - 1])
  }

  // ---------------------------------------------------------------- the streams one id has had

  /** One stream of an id: when it was made, what came for it, and whether it was marked as stalled. */
  datatype Life = Life(made: int, es: seq<Event>, cut: bool)

  /** The earlier streams of an id, and the one that is live. */
  datatype History = History(past: seq<Life>, now: Option<Life>)

  function LastArrival(es: seq<Event>, made: int): int {
    if es == [] then made
    else if es[|es| - 1].Arrive? then es[|es| - 1].at else LastArrival(es[..|es| - 1], made)
  }

  function With(h: History, e: Event): History {
    if h.now.None? || h.now.value.cut then h else h.(now := Some(h.now.value.(es := h.now.value.es + [e])))
  }

  /** The stream has all the frames. */
  predicate Whole(l: Life, frames: seq<Chunk>) {
    AllArrived(l.es, frames)
  }

  predicate Stalls(l: Life, frames: seq<Chunk>, op: Op)
    requires op.Mark?
  {
    !Whole(l, frames) && (op.now - LastArrival(l.es, l.made) > op.stall || op.now - l.made > op.maxAge)
  }

  /** Told from the operations alone: a stream is there from its creation to its removal, and what comes
      for it counts until it is found stalled. */
  function Lives(ops: seq<Op>, id: Id, frames: seq<Chunk>): History {
    if ops == [] then History([], None)
    else Lived(Lives(ops[..|ops| - 1], id, frames), ops[|ops| - 1], id, frames)
  }

  function Lived(h: History, op: Op, id: Id, frames: seq<Chunk>): History {
    if op.id != id then h
    else match op
      case Ensure(_, made) => if h.now.None? then h.(now := Some(Life(made, [], false))) else h
      case Arrives(_, chunk, at) => With(h, Arrive(chunk, at))
      case Pauses(_) => With(h, Pausing)
      case Resumes(_) => With(h, Resuming)
      case Mark(_, _, _, _) =>
        if h.now.Some? && Stalls(h.now.value, frames, op) then h.(now := Some(h.now.value.(cut := true))) else h
      case Remove(_) => if h.now.Some? then History(h.past + [h.now.value], None) else h
  }

  /** How many of them had all the frames. */
  function Wholes(ls: seq<Life>, frames: seq<Chunk>): nat {
    if ls == [] then 0 else Wholes(ls[..|ls| - 1], frames) + if Whole(ls[|ls| - 1], frames) then 1 else 0
  }

  function WholeLives(h: History, frames: seq<Chunk>): nat {
    Wholes(h.past, frames) + if h.now.Some? && Whole(h.now.value, frames) then 1 else 0
  }

  function Copies(payload: bytes, n: nat): seq<bytes> {
    seq(n, i => payload)
  }

  // ---------------------------------------------------------------- one stream's run

  lemma {:induction false} DrainKeepsTimes(v: View)
    ensures Drain(v).lastActivity == v.lastActivity && Drain(v).createdAt == v.createdAt
    ensures Terminal(v.state) ==> Terminal(Drain(v).state)
    decreases |v.chunks|
  {
    if v.expected in v.chunks && !Ends(Take(v), v.chunks[v.expected]) {
      DrainKeepsTimes(Take(v));
    }
  }

  lemma ApplyKeepsTimes(v: View, e: Event)
    requires !e.Sweeping? && !Terminal(Apply(v, e).state)
    ensures !Terminal(v.state) && Apply(v, e).createdAt == v.createdAt
    ensures Apply(v, e).lastActivity == if e.Arrive? then e.at else v.lastActivity
  {
    if e.Arrive? {
      DrainKeepsTimes(Store(v, e.chunk, e.at));
    } else if e.Resuming? {
      DrainKeepsTimes(v.(state := Active));
    }
  }

  function Of(l: Life): View {
    Run(Fresh(Active, true, false, l.made), l.es)
  }

  lemma {:induction false} TimesOf(l: Life)
    requires (forall i :: 0 <= i < |l.es| ==> !l.es[i].Sweeping?) && !Terminal(Of(l).state)
    ensures Of(l).lastActivity == LastArrival(l.es, l.made) && Of(l).createdAt == l.made
    decreases |l.es|
  {
    hide Apply;
    if l.es != [] {
      var init := l.(es := l.es[..|l.es| - 1]);
      ApplyKeepsTimes(Of(init), l.es[|l.es| - 1]);
      TimesOf(init);
    }
  }

  predicate Sendable(payload: bytes, size: nat) {
    size > 0 && payload != [] && |Split(payload, size)| < 0x1_0000_0000
  }

  /** An honest stream is finished exactly when it has all the frames, and stalled as told. */
  lemma LifeIs(l: Life, payload: bytes, size: nat, op: Op)
    requires Sendable(payload, size) && Honest(l.es, Frames(payload, size)) && op.Mark?
    ensures var v, frames := Of(l), Frames(payload, size);
      && (Terminal(v.state) <==> Whole(l, frames))
      && v.delivered == (if Whole(l, frames) then [payload] else [])
      && (Stale(v, op.now, op.stall, op.maxAge) <==> Stalls(l, frames, op))
  {
    hide Split, Run;
    var frames := Frames(payload, size);
    FramesNumbered(payload, size);
    HonestRun(l.es, frames, false, l.made);
    DeliveredExactlyOnce(payload, size, l.es, false, l.made);
    if !Terminal(Of(l).state) {
      TimesOf(l);
    }
  }

  // ---------------------------------------------------------------- the whole run

  predicate HonestFor(ops: seq<Op>, id: Id, frames: seq<Chunk>) {
    forall i :: 0 <= i < |ops| && ops[i].Arrives? && ops[i].id == id ==> ops[i].chunk in frames
  }

  ghost predicate LiveFits(t: Table, id: Id, now: Option<Life>, frames: seq<Chunk>) {
    match now
    case None => id !in t.live
    case Some(l) =>
      && id in t.live && Honest(l.es, frames)
      && if l.cut then t.live[id].state == Errored && !Whole(l, frames) else t.live[id] == Of(l)
  }

  ghost predicate Fits(t: Table, id: Id, h: History, payload: bytes, frames: seq<Chunk>) {
    LiveFits(t, id, h.now, frames) && Got(t, id) == Copies(payload, WholeLives(h, frames))
  }

  lemma OthersStay(t: Table, op: Op, id: Id)
    requires op.id != id
    ensures (id in Step(t, op).live) == (id in t.live) && (id in t.live ==> Step(t, op).live[id] == t.live[id])
    ensures Got(Step(t, op), id) == Got(t, id)
  {
    hide Add, DoPause, DoResume, Marked;
  }

  /** What an event is for the stream, as an operation. */
  function AsEvent(op: Op): Option<Event> {
    match op
    case Arrives(_, chunk, at) => Some(Arrive(chunk, at))
    case Pauses(_) => Some(Pausing)
    case Resumes(_) => Some(Resuming)
    case _ => None
  }

  lemma HonestMore(es: seq<Event>, e: Event, frames: seq<Chunk>)
    requires Honest(es, frames) && (e.Pausing? || e.Resuming? || (e.Arrive? && e.chunk in frames))
    ensures Honest(es + [e], frames)
  {
  }

  lemma OfMore(l: Life, e: Event)
    ensures Of(l.(es := l.es + [e])) == Apply(Of(l), e)
  {
    assert (l.es + [e])[..|l.es|] == l.es;
  }

  lemma WholeMore(l: Life, e: Event, frames: seq<Chunk>)
    ensures Whole(l, frames) ==> Whole(l.(es := l.es + [e]), frames)
  {
    if Whole(l, frames) {
      forall k | 0 <= k < |frames| ensures Arrived(l.es + [e], frames[k]) {
        ArrivedMore(l.es, e, frames[k]);
      }
    }
  }

  lemma CopiesMore(payload: bytes, n: nat)
    ensures Copies(payload, n) + [payload] == Copies(payload, n + 1)
  {
  }

  /** The live stream moves on, and delivers when this makes it whole. */
  lemma MovedFits(t: Table, id: Id, h: History, l: Life, m: Life, payload: bytes, frames: seq<Chunk>)
    requires Fits(t, id, h, payload, frames) && h.now == Some(l) && !l.cut && !m.cut && Honest(m.es, frames)
    requires Whole(l, frames) ==> Whole(m, frames)
    requires Of(l).delivered == (if Whole(l, frames) then [payload] else [])
    requires Of(m).delivered == (if Whole(m, frames) then [payload] else [])
    ensures Fits(Moved(t, id, Of(m)), id, h.(now := Some(m)), payload, frames)
  {
    hide Of, Whole, Honest, Copies;
    CopiesMore(payload, Wholes(h.past, frames));
    if Whole(m, frames) && !Whole(l, frames) {
      assert [payload][0..] == [payload];
    }
  }

  lemma EventMoves(t: Table, op: Op)
    requires op.id in t.live && AsEvent(op).Some?
    ensures Step(t, op) == Moved(t, op.id, Apply(t.live[op.id], AsEvent(op).value))
    ensures t.live[op.id].state == Errored ==> Step(t, op) == t
  {
    hide Drain;
    assert t.live[op.id := t.live[op.id]] == t.live;
  }

  /** An event for the stream counts unless it was marked. */
  lemma {:induction false} EventFits(t: Table, op: Op, h: History, payload: bytes, size: nat)
    requires Sendable(payload, size) && Fits(t, op.id, h, payload, Frames(payload, size))
    requires AsEvent(op).Some? && (op.Arrives? ==> op.chunk in Frames(payload, size))
    ensures Fits(Step(t, op), op.id, With(h, AsEvent(op).value), payload, Frames(payload, size))
  {
    hide Step, Moved, Frames, Honest, Whole, Of, Copies, Apply, Split;
    var frames, e := Frames(payload, size), AsEvent(op).value;
    if h.now.Some? {
      EventMoves(t, op);
      if !h.now.value.cut {
        var l := h.now.value;
        var m := l.(es := l.es + [e]);
        OfMore(l, e);
        HonestMore(l.es, e, frames);
        WholeMore(l, e, frames);
        LifeIs(l, payload, size, Mark(op.id, 0, 0, 0));
        LifeIs(m, payload, size, Mark(op.id, 0, 0, 0));
        MovedFits(t, op.id, h, l, m, payload, frames);
      }
    } else {
      AbsentStays(t, op);
    }
  }

  lemma AbsentStays(t: Table, op: Op)
    requires op.id !in t.live && !op.Ensure?
    ensures Step(t, op) == t
  {
  }

  lemma NotWholeYet(frames: seq<Chunk>, made: int)
    requires frames != []
    ensures !Whole(Life(made, [], false), frames) && Of(Life(made, [], false)) == Fresh(Active, true, false, made)
    ensures Honest([], frames)
  {
    assert !Arrived([], frames[0]);
  }

  lemma EnsureFits(t: Table, op: Op, h: History, payload: bytes, frames: seq<Chunk>)
    requires Fits(t, op.id, h, payload, frames) && op.Ensure? && frames != []
    ensures Fits(Step(t, op), op.id,
                 if h.now.None? then h.(now := Some(Life(op.made, [], false))) else h, payload, frames)
  {
    hide Whole, Of, Honest;
    NotWholeYet(frames, op.made);
  }

  lemma RemoveFits(t: Table, op: Op, h: History, payload: bytes, frames: seq<Chunk>)
    requires Fits(t, op.id, h, payload, frames) && op.Remove?
    ensures Fits(Step(t, op), op.id,
                 if h.now.Some? then History(h.past + [h.now.value], None) else h, payload, frames)
  {
    hide Whole, Of, Honest;
    if h.now.Some? {
      assert (h.past + [h.now.value])[..|h.past|] == h.past;
    }
  }

  lemma MarkMoves(t: Table, op: Op)
    requires op.id in t.live && op.Mark?
    ensures var v := t.live[op.id];
      if Stale(v, op.now, op.stall, op.maxAge)
      then op.id in Step(t, op).live && Step(t, op).live[op.id].state == Errored && Step(t, op).got == t.got
      else Step(t, op) == t
    ensures t.live[op.id].state == Errored ==> Step(t, op) == t
  {
    assert t.live[op.id := t.live[op.id]] == t.live;
  }

  lemma MarkFits(t: Table, op: Op, h: History, payload: bytes, size: nat)
    requires Sendable(payload, size) && Fits(t, op.id, h, payload, Frames(payload, size)) && op.Mark?
    ensures var frames := Frames(payload, size);
      Fits(Step(t, op), op.id,
           if h.now.Some? && Stalls(h.now.value, frames, op) then h.(now := Some(h.now.value.(cut := true))) else h,
           payload, frames)
  {
    hide Step, Frames, Honest, AllArrived, Of, Copies, Split, Stale;
    var frames := Frames(payload, size);
    if h.now.None? {
      AbsentStays(t, op);
    } else {
      var l := h.now.value;
      MarkMoves(t, op);
      if !l.cut {
        LifeIs(l, payload, size, op);
      }
    }
  }

  lemma {:induction false} RunFits(ops: seq<Op>, id: Id, payload: bytes, size: nat)
    requires Sendable(payload, size) && HonestFor(ops, id, Frames(payload, size))
    ensures Fits(Steps(EMPTY, ops), id, Lives(ops, id, Frames(payload, size)), payload, Frames(payload, size))
  {
    hide Step, Frames, Fits, Split, Stalls, With;
    var frames := Frames(payload, size);
    if ops == [] {
      NothingFits(id, payload, frames);
    } else {
      var init, op := ops[..|ops| - 1], ops[|ops| - 1];
      RunFits(init, id, payload, size);
      var t, h := Steps(EMPTY, init), Lives(init, id, frames);
      if op.id != id {
        OtherFits(t, op, id, h, payload, frames);
      } else {
        match op
        case Ensure(_, _) =>
          SomeFrames(payload, size);
          EnsureFits(t, op, h, payload, frames);
        case Mark(_, _, _, _) => MarkFits(t, op, h, payload, size);
        case Remove(_) => RemoveFits(t, op, h, payload, frames);
        case _ => EventFits(t, op, h, payload, size);
      }
    }
  }

  lemma SomeFrames(payload: bytes, size: nat)
    requires Sendable(payload, size)
    ensures Frames(payload, size) != []
  {
    FramesNumbered(payload, size);
  }

  lemma NothingFits(id: Id, payload: bytes, frames: seq<Chunk>)
    ensures Fits(EMPTY, id, History([], None), payload, frames)
  {
  }

  lemma OtherFits(t: Table, op: Op, id: Id, h: History, payload: bytes, frames: seq<Chunk>)
    requires op.id != id && Fits(t, id, h, payload, frames)
    ensures Fits(Step(t, op), id, h, payload, frames)
  {
    hide Step, Whole, Of, Honest, Copies;
    OthersStay(t, op, id);
  }

  // ---------------------------------------------------------------- the results

  /** Over every run on the table (creations, arrivals in any order and number, pauses, cleanup passes
      with anything between marking and removing, removals, and whatever other ids do) the payload is
      delivered once for each stream of its id that had all the frames, and nothing else is. */
  lemma DeliveredPerLife(ops: seq<Op>, id: Id, payload: bytes, size: nat)
    requires Sendable(payload, size) && HonestFor(ops, id, Frames(payload, size))
    ensures var frames := Frames(payload, size);
      && Got(Steps(EMPTY, ops), id) == Copies(payload, WholeLives(Lives(ops, id, frames), frames))
      && (id in Steps(EMPTY, ops).live <==> Lives(ops, id, frames).now.Some?)
  {
    RunFits(ops, id, payload, size);
  }

  /** How often one frame came. */
  function Count(ops: seq<Op>, id: Id, c: Chunk): nat {
    if ops == [] then 0
    else
      var op := ops[|ops| - 1];
      Count(ops[..|ops| - 1], id, c) + if op.Arrives? && op.id == id && op.chunk == c then 1 else 0
  }

  function HasIt(now: Option<Life>, c: Chunk): nat {
    if now.Some? && Arrived(now.value.es, c) then 1 else 0
  }

  lemma {:induction false} EachNeedsOne(ops: seq<Op>, id: Id, frames: seq<Chunk>, c: Chunk)
    requires c in frames
    ensures var h := Lives(ops, id, frames); Wholes(h.past, frames) + HasIt(h.now, c) <= Count(ops, id, c)
  {
    hide Arrived, Stalls;
    if ops == [] {
      NoneArrived(c);
    } else {
      var init, op := ops[..|ops| - 1], ops[|ops| - 1];
      var h := Lives(init, id, frames);
      EachNeedsOne(init, id, frames, c);
      NoneArrived(c);
      if op.id == id && h.now.Some? {
        var l := h.now.value;
        WholeHasEach(l, frames, c);
        if AsEvent(op).Some? {
          ArrivedSnoc(l.es, AsEvent(op).value, c);
        }
        if op.Remove? {
          assert (h.past + [l])[..|h.past|] == h.past;
        }
      }
    }
  }

  lemma NoneArrived(c: Chunk)
    ensures !Arrived([], c)
  {
  }

  lemma WholeHasEach(l: Life, frames: seq<Chunk>, c: Chunk)
    requires c in frames
    ensures Whole(l, frames) ==> Arrived(l.es, c)
  {
  }

  /** However cleanup falls, a payload is never delivered more often than each of its frames came; so
      without duplicates, at most once. */
  lemma NoMoreThanFramesCame(ops: seq<Op>, id: Id, payload: bytes, size: nat, c: Chunk)
    requires Sendable(payload, size) && HonestFor(ops, id, Frames(payload, size)) && c in Frames(payload, size)
    ensures |Got(Steps(EMPTY, ops), id)| <= Count(ops, id, c)
  {
    var frames := Frames(payload, size);
    DeliveredPerLife(ops, id, payload, size);
    EachNeedsOne(ops, id, frames, c);
    var h := Lives(ops, id, frames);
    if h.now.Some? {
      WholeHasEach(h.now.value, frames, c);
    }
  }

  lemma Next(ops: seq<Op>, op: Op, id: Id, frames: seq<Chunk>)
    ensures Lives(ops + [op], id, frames) == Lived(Lives(ops, id, frames), op, id, frames)
    ensures HonestFor(ops, id, frames) && (op.Arrives? && op.id == id ==> op.chunk in frames) ==>
      HonestFor(ops + [op], id, frames)
  {
    assert (ops + [op])[..|ops|] == ops;
  }

  lemma Extend(ops: seq<Op>, h: History, op: Op, id: Id, frames: seq<Chunk>) returns (more: seq<Op>, g: History)
    requires Lives(ops, id, frames) == h && HonestFor(ops, id, frames)
    requires op.Arrives? && op.id == id ==> op.chunk in frames
    ensures more == ops + [op] && g == Lived(h, op, id, frames)
    ensures Lives(more, id, frames) == g && HonestFor(more, id, frames)
    ensures forall c :: Count(more, id, c)
                     == Count(ops, id, c) + if op.Arrives? && op.id == id && op.chunk == c then 1 else 0
  {
    more, g := ops + [op], Lived(h, op, id, frames);
    Next(ops, op, id, frames);
  }

  lemma OnlyFrame(payload: bytes, size: nat)
    requires payload != [] && |payload| <= size
    ensures Sendable(payload, size) && Frames(payload, size) == [Chunk(0, payload, true)]
  {
  }

  lemma OneArrived(l: Life, c: Chunk, at: int)
    requires l.es == [Arrive(c, at)]
    ensures forall d :: Arrived(l.es, d) <==> d == c
  {
    assert l.es[0].chunk == c;
  }

  /** It is delivered twice when its frames come again after a pass. */
  lemma DeliveredTwice(id: Id, payload: bytes, size: nat) returns (ops: seq<Op>)
    requires payload != [] && |payload| <= size
    ensures HonestFor(ops, id, Frames(payload, size)) && Got(Steps(EMPTY, ops), id) == [payload, payload]
  {
    OnlyFrame(payload, size);
    hide Lives, Steps, Split, Arrived, Frames;
    var c := Chunk(0, payload, true);
    var frames := [c];
    var h := History([], None);
    NothingYet(id, frames);
    ops, h := Extend([], h, Ensure(id, 0), id, frames);
    ops, h := Extend(ops, h, Arrives(id, c, 0), id, frames);
    var l := h.now.value;
    OneArrived(l, c, 0);
    ops, h := Extend(ops, h, Remove(id), id, frames);
    ops, h := Extend(ops, h, Ensure(id, 0), id, frames);
    ops, h := Extend(ops, h, Arrives(id, c, 0), id, frames);
    assert h == History([l], Some(l));
    assert Wholes([l], frames) == Wholes([], frames) + 1;
    DeliveredPerLife(ops, id, payload, size);
  }

  lemma NothingYet(id: Id, frames: seq<Chunk>)
    ensures Lives([], id, frames) == History([], None) && HonestFor([], id, frames)
    ensures forall c :: Count([], id, c) == 0
  {
  }

  /** The first frame comes, and its stream is found stalled and removed. */
  lemma Evicted(id: Id, c: Chunk, d: Chunk, stall: nat) returns (ops: seq<Op>, l: Life)
    requires c != d
    ensures Lives(ops, id, [c, d]) == History([l], None) && HonestFor(ops, id, [c, d]) && !Whole(l, [c, d])
    ensures forall e :: Count(ops, id, e) == if e == c then 1 else 0
  {
    hide Lives, Arrived, Count;
    var frames := [c, d];
    var h := History([], None);
    NothingYet(id, frames);
    ops, h := Extend([], h, Ensure(id, 0), id, frames);
    ops, h := Extend(ops, h, Arrives(id, c, 0), id, frames);
    OneArrived(h.now.value, c, 0);
    assert LastArrival(h.now.value.es, 0) == 0 && frames[1] == d;
    ops, h := Extend(ops, h, Mark(id, stall + 1, stall, stall + 1), id, frames);
    l := h.now.value;
    ops, h := Extend(ops, h, Remove(id), id, frames);
  }

  /** And it is not delivered although all its frames came, when the stream was found stalled between. */
  lemma LateFrameWaits(id: Id, payload: bytes, size: nat, stall: nat) returns (ops: seq<Op>)
    requires Sendable(payload, size) && |Frames(payload, size)| == 2
    ensures HonestFor(ops, id, Frames(payload, size)) && Got(Steps(EMPTY, ops), id) == []
    ensures forall c :: c in Frames(payload, size) ==> Count(ops, id, c) == 1
  {
    FramesNumbered(payload, size);
    hide Lives, Steps, Split, Arrived, Frames, Count;
    var c, d := Frames(payload, size)[0], Frames(payload, size)[1];
    var frames := [c, d];
    assert Frames(payload, size) == frames;
    var l;
    ops, l := Evicted(id, c, d, stall);
    var h;
    ops, h := Extend(ops, History([l], None), Ensure(id, 0), id, frames);
    ops, h := Extend(ops, h, Arrives(id, d, 0), id, frames);
    OneArrived(h.now.value, d, 0);
    assert frames[0] == c;
    assert Wholes([l], frames) == Wholes([], frames);
    DeliveredPerLife(ops, id, payload, size);
  }

  // ---------------------------------------------------------------- the program's operations

  /** What a cleanup pass does for one stream, if nothing comes between. */
  function Turn(t: Table, id: Id, now: int, stall: int, maxAge: int): Table {
    var t1 := Step(t, Mark(id, now, stall, maxAge));
    if id in t1.live && Terminal(t1.live[id].state) then Step(t1, Remove(id)) else t1
  }

  lemma TurnIs(t: Table, id: Id, now: int, stall: int, maxAge: int)
    ensures Turn(t, id, now, stall, maxAge).got == t.got
    ensures Turn(t, id, now, stall, maxAge).live
         == if id in t.live && Expired(t.live[id], now, stall, maxAge) then t.live - {id} else t.live
  {
    if id in t.live {
      var v := t.live[id];
      assert t.live[id := v] == t.live;
      assert t.live[id := Marked(v, now, stall, maxAge)] - {id} == t.live - {id};
    }
  }

  function Turns(t: Table, ids: seq<Id>, now: int, stall: int, maxAge: int): Table {
    if ids == [] then t
    else Turn(Turns(t, ids[..|ids| - 1], now, stall, maxAge), ids[|ids| - 1], now, stall, maxAge)
  }

  ghost function Surviving(live: map<Id, View>, now: int, stall: int, maxAge: int): map<Id, View> {
    map k | k in live && !Expired(live[k], now, stall, maxAge) :: live[k]
  }

  /** A pass over all streams, in any order, leaves exactly those that are neither finished nor stalled. */
  lemma {:induction false} PassIsTurns(t: Table, ids: seq<Id>, now: int, stall: int, maxAge: int)
    ensures Turns(t, ids, now, stall, maxAge).got == t.got
    ensures Turns(t, ids, now, stall, maxAge).live
         == map k | k in t.live && !(k in ids && Expired(t.live[k], now, stall, maxAge)) :: t.live[k]
    ensures (forall k :: k in t.live ==> k in ids) ==>
      Turns(t, ids, now, stall, maxAge).live == Surviving(t.live, now, stall, maxAge)
  {
    hide Expired, Turn;
    if ids != [] {
      var init, last := ids[..|ids| - 1], ids[|ids| - 1];
      assert ids == init + [last];
      PassIsTurns(t, init, now, stall, maxAge);
      TurnIs(Turns(t, init, now, stall, maxAge), last, now, stall, maxAge);
    }
  }

  /** The program's pass. */
  method CleanupPass(manager: StreamManager, now: int)
    requires manager.Valid()
    modifies manager, manager.streams.Values
    ensures manager.Valid()
    ensures Views(manager.streams)
         == Surviving(old(Views(manager.streams)), now, old(manager.StallLimit()), old(manager.maxStreamAge))
  {
    manager.Cleanup(now);
  }

  lemma ReceiveIs(live: map<Id, View>, id: Id, chunk: Chunk, made: int, at: int)
    ensures Step(Step(Table(live, map[]), Ensure(id, made)), Arrives(id, chunk, at)).live
         == live[id := Add(if id in live then live[id] else Fresh(Active, true, false, made), chunk, at)]
  {
    hide Add;
  }

  /** A streamed frame is received: its stream is made if there is none, and the frame goes to it. */
  method Receive(manager: StreamManager, id: Id, sequence: int, data: bytes, isLast: bool, made: int, at: int)
    requires manager.Valid()
    modifies manager, manager.streams.Values
    ensures manager.Valid()
    ensures var chunk := Chunk(ToU32(sequence), data, isLast);
      Views(manager.streams) == Step(Step(Table(old(Views(manager.streams)), map[]), Ensure(id, made)),
                                     Arrives(id, chunk, at)).live
  {
    hide Add, Step;
    ReceiveIs(Views(manager.streams), id, Chunk(ToU32(sequence), data, isLast), made, at);
    if id !in manager.streams {
      var stream := manager.EnsureStream(id, true, false, made);
    }
    manager.AddChunk(id, sequence, data, isLast, at);
  }
}
