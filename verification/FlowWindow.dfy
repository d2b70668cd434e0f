/** Per-stream send and receive windows. */
module FlowWindow {
  import opened Words

  datatype Window = Window(send: int, receive: int, max: int)

  datatype Op =
    | TrySend(size: nat)
    | OnAck(size: nat)
    | Receive(size: nat)
    | Release(size: nat)
    | Initialize(max: int)   // a non-positive size asks for the default
    | Remove

  function New(max: int): Window {
    Window(0, max, max)
  }

  function Admits(w: Window, size: nat): bool {
    w.send + size <= w.max
  }

  function Accepts(w: Window, size: nat): bool {
    size <= w.receive
  }

  /** The effect of one call on one stream's window; a stream without an entry behaves as a new one. */
  function Step(w: Window, op: Op, defaultMax: int): Window {
    match op
    case TrySend(n) => if Admits(w, n) then w.(send := w.send + n) else w
    case OnAck(n) => w.(send := if w.send > n then w.send - n else 0)
    case Receive(n) => if Accepts(w, n) then w.(receive := w.receive - n) else w
    case Release(n) => w.(receive := if w.receive + n > w.max then w.max else w.receive + n)
    case Initialize(m) => New(if m > 0 then m else defaultMax)
    case Remove => New(defaultMax)
  }

  /** The stream's window, or what it will be auto-initialized to. */
  function Of(windows: map<Id, Window>, id: Id, defaultMax: int): Window {
    if id in windows then windows[id] else New(defaultMax)
  }

  /** The effect of one call on the whole table: acknowledging and releasing make no entry, removing
      takes it out, anything else leaves one. */
  function OnTable(windows: map<Id, Window>, id: Id, op: Op, defaultMax: int): map<Id, Window> {
    if op.Remove? || ((op.OnAck? || op.Release?) && id !in windows) then windows - {id}
    else windows[id := Step(Of(windows, id, defaultMax), op, defaultMax)]
  }

  class FlowController {
    var windows: map<Id, Window>
    const defaultMax: int

    constructor (defaultMax: int)
      ensures this.defaultMax == defaultMax && windows == map[]
    {
      this.defaultMax := defaultMax;
      windows := map[];
    }

    method InitializeStream(id: Id, maxWindowSize: int)
      modifies this
      ensures windows == OnTable(old(windows), id, Initialize(maxWindowSize), defaultMax)
    {
      var windowSize := defaultMax;
      if maxWindowSize > 0 {
        windowSize := maxWindowSize;
      }
      windows := windows[id := Window(0, windowSize, windowSize)];
    }

    method TrySend(id: Id, size: nat) returns (ok: bool)
      modifies this
      ensures ok == Admits(Of(old(windows), id, defaultMax), size)
      ensures windows == OnTable(old(windows), id, Op.TrySend(size), defaultMax)
    {
      if id !in windows {
        windows := windows[id := Window(0, defaultMax, defaultMax)];
      }
      var window := windows[id];
      if window.send + size > window.max {
        return false;
      }
      windows := windows[id := window.(send := window.send + size)];
      return true;
    }

    method OnAck(id: Id, ackedSize: nat)
      modifies this
      ensures windows == OnTable(old(windows), id, Op.OnAck(ackedSize), defaultMax)
    {
      if id in windows {
        var window := windows[id];
        if window.send > ackedSize {
          windows := windows[id := window.(send := window.send - ackedSize)];
        } else {
          windows := windows[id := window.(send := 0)];
        }
      }
    }

    method Receive(id: Id, size: nat) returns (ok: bool)
      modifies this
      ensures ok == Accepts(Of(old(windows), id, defaultMax), size)
      ensures windows == OnTable(old(windows), id, Op.Receive(size), defaultMax)
    {
      if id !in windows {
        windows := windows[id := Window(0, defaultMax, defaultMax)];
      }
      var window := windows[id];
      if window.receive < size {
        return false;
      }
      windows := windows[id := window.(receive := window.receive - size)];
      return true;
    }

    method ReleaseReceiveWindow(id: Id, size: nat)
      modifies this
      ensures windows == OnTable(old(windows), id, Op.Release(size), defaultMax)
    {
      if id in windows {
        var window := windows[id];
        var newWindow := window.receive + size;
        if newWindow > window.max {
          windows := windows[id := window.(receive := window.max)];
        } else {
          windows := windows[id := window.(receive := newWindow)];
        }
      }
    }

    method RemoveStream(id: Id)
      modifies this
      ensures windows == OnTable(old(windows), id, Op.Remove, defaultMax)
    {
      windows := windows - {id};
    }
  }

  // ---------------------------------------------------------------- runs of one stream

  function Run(w: Window, ops: seq<Op>, defaultMax: int): Window {
    if ops == [] then w else Step(Run(w, ops[..|ops| - 1], defaultMax), ops[|ops| - 1], defaultMax)
  }

  predicate Traffic(ops: seq<Op>) {
    forall i :: 0 <= i < |ops| ==> !ops[i].Initialize? && !ops[i].Remove?
  }

  /** What each call added to the bytes in flight: the size admitted, or minus the size acknowledged. */
  function Sent(w: Window, ops: seq<Op>, d: int): (ds: seq<int>)
    ensures |ds| == |ops|
  {
    if ops == [] then []
    else
      var init := ops[..|ops| - 1];
      var more: int := match ops[|ops| - 1]
        case TrySend(n) => if Admits(Run(w, init, d), n) then n else 0
        case OnAck(n) => 0 - n
        case _ => 0;
      Sent(w, init, d) + [more]
  }

  /** What each call added to the bytes held: the size accepted, or minus the size released. */
  function Held(w: Window, ops: seq<Op>, d: int): (ds: seq<int>)
    ensures |ds| == |ops|
  {
    if ops == [] then []
    else
      var init := ops[..|ops| - 1];
      var more: int := match ops[|ops| - 1]
        case Receive(n) => if Accepts(Run(w, init, d), n) then n else 0
        case Release(n) => 0 - n
        case _ => 0;
      Held(w, init, d) + [more]
  }

  function Sum(ds: seq<int>): int {
    if ds == [] then 0 else Sum(ds[..|ds| - 1]) + ds[|ds| - 1]
  }

  /** `x` is the largest sum over the suffixes of `ds`, the empty one included. */
  predicate LargestSuffix(ds: seq<int>, x: int) {
    && (forall i :: 0 <= i <= |ds| ==> Sum(ds[i..]) <= x)
    && (exists i :: 0 <= i <= |ds| && Sum(ds[i..]) == x)
  }

  lemma LargestSuffixSnoc(ds: seq<int>, d: int, x: int)
    requires LargestSuffix(ds, x)
    ensures LargestSuffix(ds + [d], if x + d > 0 then x + d else 0)
  {
    var more := ds + [d];
    forall i | 0 <= i <= |ds| ensures Sum(more[i..]) == Sum(ds[i..]) + d {
      assert more[i..][..|more[i..]| - 1] == ds[i..];
    }
    assert Sum(more[|more|..]) == 0;
    var i :| 0 <= i <= |ds| && Sum(ds[i..]) == x;
    assert Sum(more[i..]) == x + d;
  }

  /** From a new window, the send window is the largest net amount (admitted - acknowledged) over
      any suffix of the run, and it stays within [0, max]. */
  lemma {:induction false} SendWindowIsSuffixMaximum(max: nat, ops: seq<Op>, d: int)
    requires Traffic(ops)
    ensures Run(New(max), ops, d).max == max
    ensures 0 <= Run(New(max), ops, d).send <= max
    ensures LargestSuffix(Sent(New(max), ops, d), Run(New(max), ops, d).send)
  {
    var n := New(max);
    if ops == [] {
      assert Sum(Sent(n, ops, d)[0..]) == 0;
    } else {
      var init := ops[..|ops| - 1];
      SendWindowIsSuffixMaximum(max, init, d);
      LargestSuffixSnoc(Sent(n, init, d), Sent(n, ops, d)[|init|], Run(n, init, d).send);
    }
  }

  /** The bytes held (max - receive window) are the largest net amount (accepted - released) over
      any suffix of the run, and the receive window stays within [0, max]. */
  lemma {:induction false} ReceiveWindowIsSuffixMaximum(max: nat, ops: seq<Op>, d: int)
    requires Traffic(ops)
    ensures Run(New(max), ops, d).max == max
    ensures 0 <= Run(New(max), ops, d).receive <= max
    ensures LargestSuffix(Held(New(max), ops, d), max - Run(New(max), ops, d).receive)
  {
    var n := New(max);
    if ops == [] {
      assert Sum(Held(n, ops, d)[0..]) == 0;
    } else {
      var init := ops[..|ops| - 1];
      ReceiveWindowIsSuffixMaximum(max, init, d);
      LargestSuffixSnoc(Held(n, init, d), Held(n, ops, d)[|init|], max - Run(n, init, d).receive);
    }
  }

  predicate SuffixesFit(ds: seq<int>, size: int, max: int) {
    forall i :: 0 <= i <= |ds| ==> Sum(ds[i..]) + size <= max
  }

  /** Admission in terms of history alone: a call goes through exactly when no suffix of the run
      would be left with more than `max` bytes unacknowledged, or unreleased. */
  lemma AdmittedExactly(max: nat, ops: seq<Op>, d: int, size: nat)
    requires Traffic(ops)
    ensures Admits(Run(New(max), ops, d), size) <==> SuffixesFit(Sent(New(max), ops, d), size, max)
    ensures Accepts(Run(New(max), ops, d), size) <==> SuffixesFit(Held(New(max), ops, d), size, max)
  {
    SendWindowIsSuffixMaximum(max, ops, d);
    ReceiveWindowIsSuffixMaximum(max, ops, d);
  }

  predicate WithinBounds(w: Window) {
    0 <= w.send <= w.max && 0 <= w.receive <= w.max
  }

  /** A window is within its bounds after every run exactly when its size is not negative. */
  lemma BoundsNeedNonNegativeMax(max: int, d: int)
    ensures 0 <= max
       <==> forall ops | Traffic(ops) :: WithinBounds(Run(New(max), ops, d))
  {
    if 0 <= max {
      forall ops | Traffic(ops)
        ensures WithinBounds(Run(New(max), ops, d))
      {
        SendWindowIsSuffixMaximum(max, ops, d);
        ReceiveWindowIsSuffixMaximum(max, ops, d);
      }
    } else {
      assert Traffic([]) && Run(New(max), [], d) == New(max);
    }
  }

  // ---------------------------------------------------------------- runs over many streams

  datatype Call = Call(id: Id, op: Op)

  function Only(calls: seq<Call>, id: Id): seq<Op> {
    if calls == [] then []
    else
      var c := calls[|calls| - 1];
      var rest := Only(calls[..|calls| - 1], id);
      if c.id == id then rest + [c.op] else rest
  }

  /** The table after interleaved calls of many streams. */
  function RunAll(calls: seq<Call>, defaultMax: int): map<Id, Window> {
    if calls == [] then map[]
    else
      var c := calls[|calls| - 1];
      OnTable(RunAll(calls[..|calls| - 1], defaultMax), c.id, c.op, defaultMax)
  }

  /** A call moves its own stream's window and leaves every other entry of the table as it is. */
  lemma TableStep(windows: map<Id, Window>, id: Id, op: Op, defaultMax: int, other: Id)
    ensures Of(OnTable(windows, id, op, defaultMax), id, defaultMax)
         == Step(Of(windows, id, defaultMax), op, defaultMax)
    ensures other != id ==> (other in OnTable(windows, id, op, defaultMax) <==> other in windows)
    ensures other != id ==>
      Of(OnTable(windows, id, op, defaultMax), other, defaultMax) == Of(windows, other, defaultMax)
  {
  }

  /** However the calls of many streams interleave on the shared table, and whichever entries are made
      and removed meanwhile, each stream's window is where its own calls alone would have left it. */
  lemma {:induction false} StreamsDoNotInterfere(calls: seq<Call>, id: Id, defaultMax: int)
    ensures Of(RunAll(calls, defaultMax), id, defaultMax) == Run(New(defaultMax), Only(calls, id), defaultMax)
  {
    if calls != [] {
      var init, c := calls[..|calls| - 1], calls[|calls| - 1];
      StreamsDoNotInterfere(init, id, defaultMax);
      TableStep(RunAll(init, defaultMax), c.id, c.op, defaultMax, id);
      if c.id == id {
        assert Only(calls, id)[..|Only(init, id)|] == Only(init, id);
      }
    }
  }

  /** A stream has an entry exactly while its latest call, other than acknowledgements and releases
      that found none, was not its removal. */
  lemma {:induction false} EntryExactly(calls: seq<Call>, id: Id, defaultMax: int)
    ensures id in RunAll(calls, defaultMax) <==> Entered(Only(calls, id))
  {
    if calls != [] {
      var init, c := calls[..|calls| - 1], calls[|calls| - 1];
      EntryExactly(init, id, defaultMax);
      TableStep(RunAll(init, defaultMax), c.id, c.op, defaultMax, id);
      if c.id == id {
        assert Only(calls, id)[..|Only(init, id)|] == Only(init, id);
      }
    }
  }

  predicate Entered(ops: seq<Op>) {
    ops != [] && match ops[|ops| - 1]
    case Remove => false
    case OnAck(_) => Entered(ops[..|ops| - 1])
    case Release(_) => Entered(ops[..|ops| - 1])
    case _ => true
  }

  lemma {:induction false} OnlyAppend(a: seq<Call>, b: seq<Call>, id: Id)
    ensures Only(a + b, id) == Only(a, id) + Only(b, id)
  {
    if b == [] {
      assert a + b == a;
    } else {
      assert (a + b)[..|a + b| - 1] == a + b[..|b| - 1];
      OnlyAppend(a, b[..|b| - 1], id);
    }
  }

  lemma {:induction false} RunAppend(w: Window, a: seq<Op>, b: seq<Op>, d: int)
    ensures Run(w, a + b, d) == Run(Run(w, a, d), b, d)
  {
    if b == [] {
      assert a + b == a;
    } else {
      assert (a + b)[..|a + b| - 1] == a + b[..|b| - 1];
      RunAppend(w, a, b[..|b| - 1], d);
    }
  }

  /** From its initialization on, whatever came before it and whatever other streams do meanwhile. */
  lemma SinceInitialized(before: seq<Call>, id: Id, size: int, after: seq<Call>, d: int)
    ensures Of(RunAll(before + [Call(id, Initialize(size))] + after, d), id, d)
         == Run(New(if size > 0 then size else d), Only(after, id), d)
  {
    var c := Call(id, Initialize(size));
    assert Only([c], id) == [c.op] by {
      assert [c][..0] == [];
    }
    StreamsDoNotInterfere(before + [c] + after, id, d);
    OnlyAppend(before + [c], after, id);
    OnlyAppend(before, [c], id);
    RunAppend(New(d), Only(before, id) + [c.op], Only(after, id), d);
    RunAppend(New(d), Only(before, id), [c.op], d);
    assert [c.op][..0] == [];
  }

  /** What the history since then says of a window. */
  ghost predicate FollowsHistory(w: Window, max: int, ops: seq<Op>, d: int) {
    && w.max == max
    && LargestSuffix(Sent(New(max), ops, d), w.send)
    && LargestSuffix(Held(New(max), ops, d), max - w.receive)
    && forall n: nat ::
         && (Admits(w, n) <==> SuffixesFit(Sent(New(max), ops, d), n, max))
         && (Accepts(w, n) <==> SuffixesFit(Held(New(max), ops, d), n, max))
  }

  /** On the shared table, for every default size: a stream's window, and what it admits and accepts,
      are told by its own calls since it was initialized, and before that by all of them. */
  lemma SharedTableExactly(before: seq<Call>, id: Id, size: int, after: seq<Call>, d: int)
    requires Traffic(Only(after, id)) && 0 <= d
    ensures FollowsHistory(Of(RunAll(before + [Call(id, Initialize(size))] + after, d), id, d),
                           if size > 0 then size else d, Only(after, id), d)
    ensures FollowsHistory(Of(RunAll(after, d), id, d), d, Only(after, id), d)
  {
    SinceInitialized(before, id, size, after, d);
    StreamsDoNotInterfere(after, id, d);
    WindowFollowsHistory(if size > 0 then size else d, Only(after, id), d);
    WindowFollowsHistory(d, Only(after, id), d);
  }

  lemma WindowFollowsHistory(max: nat, ops: seq<Op>, d: int)
    requires Traffic(ops)
    ensures FollowsHistory(Run(New(max), ops, d), max, ops, d)
  {
    SendWindowIsSuffixMaximum(max, ops, d);
    ReceiveWindowIsSuffixMaximum(max, ops, d);
    forall n: nat
      ensures Admits(Run(New(max), ops, d), n) <==> SuffixesFit(Sent(New(max), ops, d), n, max)
      ensures Accepts(Run(New(max), ops, d), n) <==> SuffixesFit(Held(New(max), ops, d), n, max)
    {
      AdmittedExactly(max, ops, d, n);
    }
  }
}
