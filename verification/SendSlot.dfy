/** Waiting for room in the send window: tries with growing pauses between them, up to a deadline. */
module SendSlot {
  import opened Words
  import opened Scripts
  import opened FlowWindow

  const MILLISECOND := 1_000_000

  /** One pause: how much longer it takes than asked, and what the peer acknowledges meanwhile. */
  datatype Nap = Nap(late: nat, acked: nat)

  /** The stream's window, if sending is limited, the clock, and the pauses to come. */
  datatype Flight = Flight(window: Option<Window>, now: int, naps: seq<Nap>)

  /** Without instructions a pause is punctual and nothing is acknowledged. */
  function NapAt(naps: seq<Nap>, i: nat): Nap {
    if i < |naps| then naps[i] else Nap(0, 0)
  }

  /** How long the pause after try `i` is meant to be. */
  function Backoff(i: nat): nat {
    if i == 0 then 5 * MILLISECOND
    else if i == 1 then 10 * MILLISECOND
    else if i == 2 then 20 * MILLISECOND
    else if i == 3 then 40 * MILLISECOND
    else if i == 4 then 80 * MILLISECOND
    else 100 * MILLISECOND
  }

  function TryTime(start: int, naps: seq<Nap>, k: nat): int {
    if k == 0 then start else TryTime(start, naps, k - 1) + Backoff(k - 1) + NapAt(naps, k - 1).late
  }

  function AckedBy(naps: seq<Nap>, k: nat): nat {
    if k == 0 then 0 else AckedBy(naps, k - 1) + NapAt(naps, k - 1).acked
  }

  /** The bytes in flight at try `k`. */
  function InFlight(w: Window, naps: seq<Nap>, k: nat): int {
    if k == 0 then w.send else if w.send > AckedBy(naps, k) then w.send - AckedBy(naps, k) else 0
  }

  predicate RoomAt(w: Window, naps: seq<Nap>, size: nat, k: nat) {
    InFlight(w, naps, k) + size <= w.max
  }

  lemma NextNap(w: Window, naps: seq<Nap>, k: nat)
    ensures InFlight(w, naps, k + 1)
         == Step(w.(send := InFlight(w, naps, k)), OnAck(NapAt(naps, k).acked), 0).send
  {
  }

  /** The first try from `k` on that finds room or comes after the deadline. */
  function LastTry(w: Window, naps: seq<Nap>, size: nat, start: int, deadline: int, k: nat): (r: nat)
    ensures k <= r && (RoomAt(w, naps, size, r) || deadline < TryTime(start, naps, r))
    ensures forall j :: k <= j < r ==> !RoomAt(w, naps, size, j) && TryTime(start, naps, j) <= deadline
    decreases if TryTime(start, naps, k) <= deadline then deadline - TryTime(start, naps, k) + 1 else 0
  {
    if RoomAt(w, naps, size, k) || deadline < TryTime(start, naps, k) then k
    else LastTry(w, naps, size, start, deadline, k + 1)
  }

  /** Waiting for `size` bytes of room: whether it is found, and where that leaves everything. */
  function Waited(x: Flight, size: nat, timeout: int): (bool, Flight) {
    match x.window
    case None => (true, x)
    case Some(w) =>
      var k := LastTry(w, x.naps, size, x.now, x.now + timeout, 0);
      var ok := RoomAt(w, x.naps, size, k);
      (ok, Flight(Some(w.(send := InFlight(w, x.naps, k) + if ok then size else 0)),
                  TryTime(x.now, x.naps, k), From(x.naps, k)))
  }

  /** Where things stand at try `k`. */
  function AtTry(x: Flight, k: nat): Flight
    requires x.window.Some?
  {
    Flight(Some(x.window.value.(send := InFlight(x.window.value, x.naps, k))),
           TryTime(x.now, x.naps, k), From(x.naps, k))
  }

  /** A pause. */
  function Napped(x: Flight, duration: nat): Flight
    requires x.window.Some?
  {
    Flight(Some(Step(x.window.value, OnAck(NapAt(x.naps, 0).acked), 0)),
           x.now + duration + NapAt(x.naps, 0).late, Tail(x.naps))
  }

  /** No try before `k` was the last. */
  predicate Waiting(x: Flight, size: nat, timeout: int, k: nat)
    requires x.window.Some?
  {
    LastTry(x.window.value, x.naps, size, x.now, x.now + timeout, 0)
      == LastTry(x.window.value, x.naps, size, x.now, x.now + timeout, k)
  }

  lemma NoLimit(x: Flight, size: nat, timeout: int)
    requires x.window.None?
    ensures Waited(x, size, timeout) == (true, x)
  {
  }

  lemma FirstTry(x: Flight, size: nat, timeout: int)
    requires x.window.Some?
    ensures AtTry(x, 0) == x && Waiting(x, size, timeout, 0)
  {
    FromNext(x.naps, 0);
  }

  lemma TryFinds(x: Flight, size: nat, timeout: int, k: nat)
    requires x.window.Some? && Waiting(x, size, timeout, k)
    ensures AtTry(x, k).window.Some?
    ensures var y := AtTry(x, k); Admits(y.window.value, size) ==>
      Waited(x, size, timeout) == (true, y.(window := Some(Step(y.window.value, TrySend(size), 0))))
  {
  }

  lemma TryFails(x: Flight, size: nat, timeout: int, k: nat)
    requires x.window.Some? && Waiting(x, size, timeout, k) && !Admits(AtTry(x, k).window.value, size)
    ensures var y := AtTry(x, k);
      if y.now > x.now + timeout then Waited(x, size, timeout) == (false, y)
      else Waiting(x, size, timeout, k + 1) && AtTry(x, k + 1) == Napped(y, Backoff(k))
  {
    NextNap(x.window.value, x.naps, k);
    FromNext(x.naps, k);
  }

  /** Try `k` finds room, and every try before it is within the deadline. */
  predicate InTime(x: Flight, size: nat, timeout: int, k: nat)
    requires x.window.Some?
  {
    RoomAt(x.window.value, x.naps, size, k) && forall j: nat :: j < k ==> TryTime(x.now, x.naps, j) <= x.now + timeout
  }

  /** Waiting succeeds exactly when some try finds room by what was acknowledged until then and every
      try before it is within the deadline. */
  lemma WaitExactly(x: Flight, size: nat, timeout: int)
    requires x.window.Some?
    ensures Waited(x, size, timeout).0 <==> exists k: nat :: InTime(x, size, timeout, k)
  {
    hide RoomAt, TryTime;
    var w, deadline := x.window.value, x.now + timeout;
    var r := LastTry(w, x.naps, size, x.now, deadline, 0);
    if k: nat :| InTime(x, size, timeout, k) {
      if r < k {
        assert TryTime(x.now, x.naps, r) <= deadline;
      }
    }
    assert RoomAt(w, x.naps, size, r) ==> InTime(x, size, timeout, r);
  }

  lemma {:induction false} TimePasses(start: int, naps: seq<Nap>, k: nat)
    ensures start <= TryTime(start, naps, k)
  {
    if k > 0 {
      TimePasses(start, naps, k - 1);
    }
  }

  /** With room at once it succeeds at once, and gives up only after the deadline. */
  lemma WaitsInTime(x: Flight, size: nat, timeout: int)
    ensures var (ok, y) := Waited(x, size, timeout);
      && x.now <= y.now
      && (x.window.Some? && Admits(x.window.value, size) ==> ok && y.now == x.now && y.naps == x.naps)
      && (!ok ==> x.now + timeout < y.now)
      && (x.window.Some? ==> y.window.Some? && y.window.value.max == x.window.value.max)
      && (x.window.Some? && ok ==> y.window.value.send <= y.window.value.max)
  {
    if x.window.Some? {
      TimePasses(x.now, x.naps, LastTry(x.window.value, x.naps, size, x.now, x.now + timeout, 0));
    }
  }

  /** The pauses start at five milliseconds and double up to a hundred. */
  lemma BackoffDoubles(i: nat)
    ensures Backoff(0) == 5_000_000
    ensures Backoff(i + 1) == if 2 * Backoff(i) > 100_000_000 then 100_000_000 else 2 * Backoff(i)
  {
  }

  /** Who gives up had room at none of the tries, the last but one of which was in time, and does so within
      a pause after the deadline, at most a hundred milliseconds and what that pause was late. */
  lemma GivesUpSoon(x: Flight, size: nat, timeout: int) returns (k: nat)
    requires x.window.Some? && 0 <= timeout && !Waited(x, size, timeout).0
    ensures k > 0 && Waited(x, size, timeout).1.now == TryTime(x.now, x.naps, k)
    ensures forall j: nat :: j <= k ==> !RoomAt(x.window.value, x.naps, size, j)
    ensures TryTime(x.now, x.naps, k - 1) <= x.now + timeout
    ensures TryTime(x.now, x.naps, k) <= x.now + timeout + 100_000_000 + NapAt(x.naps, k - 1).late
  {
    hide RoomAt;
    k := LastTry(x.window.value, x.naps, size, x.now, x.now + timeout, 0);
    assert TryTime(x.now, x.naps, 0) == x.now;
    assert k > 0 ==> TryTime(x.now, x.naps, k - 1) <= x.now + timeout;
  }

  predicate Quiet(naps: seq<Nap>) {
    forall i :: 0 <= i < |naps| ==> naps[i].acked == 0
  }

  lemma {:induction false} QuietAcks(naps: seq<Nap>, k: nat)
    requires Quiet(naps)
    ensures AckedBy(naps, k) == 0 && Quiet(From(naps, k))
  {
    if k > 0 {
      QuietAcks(naps, k - 1);
    }
  }

  /** Without acknowledgements waiting does not help. */
  lemma QuietWait(x: Flight, size: nat, timeout: int)
    requires x.window.Some? && 0 <= x.window.value.send && Quiet(x.naps)
    ensures var (ok, y) := Waited(x, size, timeout);
      && ok == Admits(x.window.value, size) && Quiet(y.naps)
      && y.window == Some(Step(x.window.value, TrySend(size), 0))
  {
    var w := x.window.value;
    var k := LastTry(w, x.naps, size, x.now, x.now + timeout, 0);
    QuietAcks(x.naps, k);
  }

  /** A single acknowledgement of everything in flight is enough for whatever fits the window. */
  lemma AcknowledgedWait(x: Flight, size: nat, timeout: int)
    requires x.window.Some? && 0 <= timeout && size <= x.window.value.max
    requires x.window.value.send <= NapAt(x.naps, 0).acked
    ensures var (ok, y) := Waited(x, size, timeout);
      ok && (y.naps == x.naps || y.naps == Tail(x.naps))
  {
    var w := x.window.value;
    assert AckedBy(x.naps, 1) == AckedBy(x.naps, 0) + NapAt(x.naps, 0).acked;
    assert RoomAt(w, x.naps, size, 1);
    assert TryTime(x.now, x.naps, 0) == x.now;
    assert LastTry(w, x.naps, size, x.now, x.now + timeout, 0) <= 1;
    FromNext(x.naps, 0);
  }
}
