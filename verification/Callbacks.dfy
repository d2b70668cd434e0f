/** Pending requests of the buffered HTTP path: the callback table, the timeout, duplicate answers,
    failed sends and closing connections. */
module Callbacks {
  import opened Words

  datatype Key = Key(tcp: Id, request: Id)

  // ---------------------------------------------------------------- the table as one flat map

  function Found<CB>(m: map<Key, CB>, k: Key): Option<CB> {
    if k in m then Some(m[k]) else None
  }

  function Without<CB>(m: map<Key, CB>, tcp: Id): map<Key, CB> {
    map k | k in m && k.tcp != tcp :: m[k]
  }

  /** The nested map holds exactly the flat one, and never an empty inner map. */
  ghost predicate Nests<CB>(nested: map<Id, map<Id, CB>>, flat: map<Key, CB>) {
    && (forall t :: t in nested ==> nested[t] != map[])
    && (forall k: Key :: k in flat <==> k.tcp in nested && k.request in nested[k.tcp])
    && (forall k: Key :: k in flat ==> flat[k] == nested[k.tcp][k.request])
  }

  /** Taking one callback out of its inner map, and the inner map out when that leaves it empty. */
  lemma NestsTake<CB>(nested: map<Id, map<Id, CB>>, flat: map<Key, CB>, k: Key)
    requires Nests(nested, flat) && k in flat
    ensures var inner := nested[k.tcp] - {k.request};
      Nests(if |inner| == 0 then nested - {k.tcp} else nested[k.tcp := inner], flat - {k})
  {
    var inner := nested[k.tcp] - {k.request};
    if |inner| == 0 {
      assert inner == map[];
      forall j: Key | j in flat && j.tcp == k.tcp ensures j == k {
        assert j.request !in inner;
      }
    }
  }

  lemma NestsAt<CB>(nested: map<Id, map<Id, CB>>, flat: map<Key, CB>, k: Key)
    requires Nests(nested, flat)
    ensures k in flat <==> k.tcp in nested && k.request in nested[k.tcp]
    ensures k in flat ==> flat[k] == nested[k.tcp][k.request]
  {
  }

  class CallbackContainer<CB> {
    var callbacks: map<Id, map<Id, CB>>
    ghost var Contents: map<Key, CB>

    ghost predicate Valid()
      reads this
    {
      Nests(callbacks, Contents)
    }

    constructor ()
      ensures Valid() && Contents == map[]
    {
      callbacks := map[];
      Contents := map[];
    }

    method Get(tcp: Id, request: Id) returns (cb: Option<CB>)
      requires Valid()
      ensures cb == Found(Contents, Key(tcp, request))
    {
      if tcp in callbacks {
        var tcpCallbacks := callbacks[tcp];
        if request in tcpCallbacks {
          return Some(tcpCallbacks[request]);
        }
      }
      return None;
    }

    method Take(tcp: Id, request: Id) returns (cb: Option<CB>)
      requires Valid()
      modifies this
      ensures Valid()
      ensures cb == Found(old(Contents), Key(tcp, request))
      ensures Contents == old(Contents) - {Key(tcp, request)}
    {
      hide Nests;
      var key := Key(tcp, request);
      NestsAt(callbacks, Contents, key);
      if tcp !in callbacks {
        return None;
      }
      var tcpCallbacks := callbacks[tcp];
      if request !in tcpCallbacks {
        return None;
      }
      cb := Some(tcpCallbacks[request]);
      NestsTake(callbacks, Contents, key);
      tcpCallbacks := tcpCallbacks - {request};
      callbacks := callbacks[tcp := tcpCallbacks];
      assert callbacks - {tcp} == old(callbacks) - {tcp};
      if |tcpCallbacks| == 0 {
        callbacks := callbacks - {tcp};
      }
      Contents := Contents - {key};
    }

    method Set(tcp: Id, request: Id, cb: CB)
      requires Valid()
      modifies this
      ensures Valid() && Contents == old(Contents)[Key(tcp, request) := cb]
    {
      if tcp !in callbacks {
        callbacks := callbacks[tcp := map[]];
      }
      callbacks := callbacks[tcp := callbacks[tcp][request := cb]];
      Contents := Contents[Key(tcp, request) := cb];
      assert request in callbacks[tcp];
    }

    method Remove(tcp: Id)
      requires Valid()
      modifies this
      ensures Valid() && Contents == Without(old(Contents), tcp)
    {
      callbacks := callbacks - {tcp};
      Contents := Without(Contents, tcp);
    }
  }

  // ---------------------------------------------------------------- requests as a step machine

  datatype Timer = Unarmed | Armed | Stopped | Firing | Fired

  datatype Sending = Registered | Sending | Sent | Failing | Failed

  /** `dropped` counts callbacks discarded unrun. */
  datatype Request = Request(timer: Timer, sending: Sending, runs: nat, dropped: nat)

  /** `held` are callbacks taken from the table by a response or the timer and not yet run, `shut` the
      connections whose socket is closed, `gone` those whose handler is over as well. */
  datatype State = State(table: map<Key, Key>, requests: map<Key, Request>, held: multiset<Key>,
                         shut: set<Id>, gone: set<Id>)

  function Init(): State {
    State(map[], map[], multiset{}, {}, {})
  }

  /** How a callback ends on an open connection: its answer is written; the download limit refuses it,
      and the browser is told 404 and the connection closed; or the write fails and it is closed. */
  datatype Ending = Answered | OverLimit | WriteFails

  /** What the client sent as a response: only whole responses consume a callback. A head or body
      frame goes to the stream session, and a buffered request has none. */
  datatype Frame = WholeBinary | Legacy | HeadOrBody | Unreadable

  datatype Step =
    | Register(k: Key)
    | Arm(k: Key)
    | SendOk(k: Key)
    | SendFails(k: Key)          // the timer is stopped
    | GiveUp(k: Key, told: bool) // the callback is taken and ignored, the browser told 404 if the
                                 // connection still takes it, and the connection closed
    | Response(k: Key, frame: Frame)
    | RunCallback(k: Key, ending: Ending)
    | Fire(k: Key)
    | TimerTakes(k: Key)
    | Close(tcp: Id)

  predicate Enabled(s: State, step: Step) {
    match step
    case Register(k) => k !in s.requests
    case Arm(k) => k in s.requests && s.requests[k].sending == Registered
    case SendOk(k) => k in s.requests && s.requests[k].sending == Sending.Sending
    case SendFails(k) => k in s.requests && s.requests[k].sending == Sending.Sending
    case GiveUp(k, _) => k in s.requests && s.requests[k].sending == Failing
    case Response(k, frame) => true
    case RunCallback(k, _) => k in s.requests && k in s.held
    case Fire(k) => k in s.requests && s.requests[k].timer == Armed
    case TimerTakes(k) => k in s.requests && s.requests[k].timer == Firing
    case Close(tcp) => true
  }

  /** Stopping a timer that has fired, or has yet to be armed, does nothing. */
  function Stop(t: Timer): Timer {
    if t == Armed then Stopped else t
  }

  function TakeToRun(s: State, k: Key): State {
    if k in s.table then s.(table := s.table - {k}, held := s.held + multiset{s.table[k]}) else s
  }

  function Apply(s: State, step: Step): State
    requires Enabled(s, step)
  {
    match step
    case Register(k) =>
      s.(table := s.table[k := k], requests := s.requests[k := Request(Unarmed, Registered, 0, 0)])
    case Arm(k) => Put(s, k, s.requests[k].(timer := Armed, sending := Sending.Sending))
    case SendOk(k) => Put(s, k, s.requests[k].(sending := Sent))
    case SendFails(k) => Put(s, k, s.requests[k].(timer := Stop(s.requests[k].timer), sending := Failing))
    case GiveUp(k, _) =>
      var r := s.requests[k];
      Put(s.(table := s.table - {k}, shut := s.shut + {k.tcp}), k,
          r.(sending := Failed, dropped := r.dropped + if k in s.table then 1 else 0))
    case Response(k, frame) => if frame == WholeBinary || frame == Legacy then TakeToRun(s, k) else s
    case RunCallback(k, ending) =>
      var r := s.requests[k];
      Put(s.(held := s.held - multiset{k}, shut := if ending == Answered then s.shut else s.shut + {k.tcp}), k,
          r.(timer := Stop(r.timer), runs := r.runs + 1))
    case Fire(k) => Put(s, k, s.requests[k].(timer := Firing))
    case TimerTakes(k) => Put(TakeToRun(s, k), k, s.requests[k].(timer := Fired))
    case Close(tcp) =>
      s.(table := Without(s.table, tcp), shut := s.shut + {tcp}, gone := s.gone + {tcp},
         requests := map k | k in s.requests ::
           if k in s.table && k.tcp == tcp then s.requests[k].(dropped := s.requests[k].dropped + 1) else s.requests[k])
  }

  function Put(s: State, k: Key, r: Request): State {
    s.(requests := s.requests[k := r])
  }

  function Exec(steps: seq<Step>): Option<State> {
    if steps == [] then Some(Init())
    else
      var before := Exec(steps[..|steps| - 1]);
      if before.Some? && Enabled(before.value, steps[|steps| - 1])
      then Some(Apply(before.value, steps[|steps| - 1])) else None
  }

  // ---------------------------------------------------------------- where a callback can be

  predicate GaveUp(r: Request) {
    r.sending == Failed
  }

  predicate SendFailed(r: Request) {
    r.sending == Failing || r.sending == Failed
  }

  /** A callback is in exactly one place: the table, a holder's hands, run or dropped. */
  predicate Accounted(s: State, k: Key) {
    if k !in s.requests then k !in s.table && s.held[k] == 0
    else
      var r := s.requests[k];
      && (if k in s.table then 1 else 0) + s.held[k] + r.runs + r.dropped == 1
      && (k in s.table ==> s.table[k] == k)
  }

  /** The timer and the send leave nothing behind. */
  predicate TimerTold(s: State, k: Key) {
    k in s.requests ==>
      var r := s.requests[k];
      && (r.timer == Fired ==> k !in s.table)
      && (r.timer == Stopped ==> r.runs == 1 || SendFailed(r))
      && (GaveUp(r) ==> k !in s.table)
      && (r.dropped > 0 ==> GaveUp(r) || k.tcp in s.gone)
      && (r.timer == Unarmed <==> r.sending == Registered)
  }

  ghost predicate Inv(s: State) {
    forall k :: Accounted(s, k) && TimerTold(s, k)
  }

  /** A step on one request leaves the others where they were. */
  lemma OthersStay(s: State, step: Step, k: Key)
    requires Enabled(s, step) && Accounted(s, k) && TimerTold(s, k)
    requires !step.Close? && step.k != k && Accounted(s, step.k)
    ensures Accounted(Apply(s, step), k) && TimerTold(Apply(s, step), k)
  {
  }

  lemma CloseKeeps(s: State, tcp: Id, k: Key)
    requires Accounted(s, k) && TimerTold(s, k)
    ensures Accounted(Apply(s, Close(tcp)), k) && TimerTold(Apply(s, Close(tcp)), k)
  {
  }

  lemma OwnStepKeeps(s: State, step: Step)
    requires Enabled(s, step) && !step.Close? && Accounted(s, step.k) && TimerTold(s, step.k)
    ensures Accounted(Apply(s, step), step.k) && TimerTold(Apply(s, step), step.k)
  {
  }

  lemma {:induction false} StepKeeps(s: State, step: Step)
    requires Inv(s) && Enabled(s, step)
    ensures Inv(Apply(s, step))
  {
    hide Apply, Accounted, TimerTold;
    forall k ensures Accounted(Apply(s, step), k) && TimerTold(Apply(s, step), k) {
      assert Accounted(s, k) && TimerTold(s, k);
      if step.Close? {
        CloseKeeps(s, step.tcp, k);
      } else {
        assert Accounted(s, step.k) && TimerTold(s, step.k);
        if k == step.k {
          OwnStepKeeps(s, step);
        } else {
          OthersStay(s, step, k);
        }
      }
    }
  }

  lemma {:induction false} ExecKeeps(steps: seq<Step>)
    requires Exec(steps).Some?
    ensures Inv(Exec(steps).value)
  {
    if steps != [] {
      ExecKeeps(steps[..|steps| - 1]);
      StepKeeps(Exec(steps[..|steps| - 1]).value, steps[|steps| - 1]);
    }
  }

  /** In every interleaving of responses, duplicates, the timeout, failed sends and closing
      connections, a registered callback is in one place, and so runs at most once. */
  lemma AtMostOnce(steps: seq<Step>, k: Key)
    requires Exec(steps).Some? && k in Exec(steps).value.requests
    ensures var s := Exec(steps).value;
      var r := s.requests[k];
      && r.runs <= 1
      && (if k in s.table then 1 else 0) + s.held[k] + r.runs + r.dropped == 1
  {
    ExecKeeps(steps);
    assert Accounted(Exec(steps).value, k);
  }

  /** Once the timer's handler is over and nobody holds the callback, it has run exactly once
      precisely when it was not dropped; and it is only dropped by a failed send or a close. */
  lemma ExactlyOnceAfterTimer(steps: seq<Step>, k: Key)
    requires Exec(steps).Some? && k in Exec(steps).value.requests
    requires var s := Exec(steps).value; s.requests[k].timer == Fired && s.held[k] == 0
    ensures var s := Exec(steps).value;
      var r := s.requests[k];
      && (r.runs == 1 <==> r.dropped == 0)
      && (!SendFailed(r) && k.tcp !in s.gone ==> r.runs == 1)
  {
    ExecKeeps(steps);
    assert Accounted(Exec(steps).value, k) && TimerTold(Exec(steps).value, k);
  }

  /** An armed timer is enough: whatever happened before, when it fires, the callback of a request
      whose send did not fail on an open connection has run, or is in hand and then runs. */
  lemma TimerSettles(steps: seq<Step>, k: Key, ending: Ending)
    requires Exec(steps).Some? && k in Exec(steps).value.requests
    requires var s := Exec(steps).value;
      s.requests[k].timer == Armed && !SendFailed(s.requests[k]) && k.tcp !in s.gone
    ensures Exec(steps + [Fire(k), TimerTakes(k)]).Some?
    ensures var s := Exec(steps + [Fire(k), TimerTakes(k)]).value;
      && (s.held[k] == 0 ==> s.requests[k].runs == 1)
      && (s.held[k] != 0 ==>
            var t := Exec(steps + [Fire(k), TimerTakes(k)] + [RunCallback(k, ending)]);
            t.Some? && t.value.requests[k].runs == 1)
  {
    var more := steps + [Fire(k), TimerTakes(k)];
    ExecKeeps(steps);
    assert Accounted(Exec(steps).value, k) && TimerTold(Exec(steps).value, k);
    ExecSnoc(steps, Fire(k));
    ExecSnoc(steps + [Fire(k)], TimerTakes(k));
    assert steps + [Fire(k)] + [TimerTakes(k)] == more;
    ExecKeeps(more);
    assert Accounted(Exec(more).value, k);
    if Exec(more).value.held[k] != 0 {
      ExecSnoc(more, RunCallback(k, ending));
    }
  }

  lemma ExecSnoc(steps: seq<Step>, step: Step)
    requires Exec(steps).Some? && Enabled(Exec(steps).value, step)
    ensures Exec(steps + [step]) == Some(Apply(Exec(steps).value, step))
  {
    assert (steps + [step])[..|steps|] == steps;
  }

  /** A whole response, binary or legacy, settles a pending request at once: its callback is in hand and
      then runs, answering if the connection is open. Any other frame, and any response to a request no
      longer pending, changes nothing. */
  lemma ResponseSettles(steps: seq<Step>, k: Key, frame: Frame)
    requires Exec(steps).Some?
    ensures var s, t := Exec(steps).value, Exec(steps + [Response(k, frame)]);
      && t.Some?
      && (k !in s.table || (frame != WholeBinary && frame != Legacy) ==> t == Some(s))
      && (k in s.table && (frame == WholeBinary || frame == Legacy) ==>
            && k !in t.value.table && k in t.value.requests && t.value.held[k] == 1
            && var u := Exec(steps + [Response(k, frame)] + [RunCallback(k, Answered)]);
               u.Some? && u.value.requests[k].runs == 1 && u.value.held[k] == 0
               && (Answers(t.value, RunCallback(k, Answered), k) <==> k.tcp !in s.shut))
  {
    var s, more := Exec(steps).value, steps + [Response(k, frame)];
    ExecKeeps(steps);
    assert Accounted(s, k);
    ExecSnoc(steps, Response(k, frame));
    if k in s.table && (frame == WholeBinary || frame == Legacy) {
      ExecSnoc(more, RunCallback(k, Answered));
    }
  }

  /** Closing a connection drops the callbacks still pending on it, and no other. */
  lemma CloseDrops(steps: seq<Step>, tcp: Id, k: Key)
    requires Exec(steps).Some?
    ensures var s, t := Exec(steps).value, Exec(steps + [Close(tcp)]);
      && t.Some? && tcp in t.value.shut
      && (k in t.value.table <==> k in s.table && k.tcp != tcp)
      && (k in s.requests ==>
            && k in t.value.requests
            && t.value.requests[k].dropped == s.requests[k].dropped + if k in s.table && k.tcp == tcp then 1 else 0)
  {
    ExecSnoc(steps, Close(tcp));
  }

  // ---------------------------------------------------------------- answers to the browser

  /** The step writes an answer to this request; nothing goes out on a closed connection. */
  predicate Answers(s: State, step: Step, k: Key) {
    && k.tcp !in s.shut
    && (step == RunCallback(k, Answered) || step == RunCallback(k, OverLimit) || step == GiveUp(k, true))
  }

  /** How many answers a run has written to this request. */
  function AnswersTo(steps: seq<Step>, k: Key): nat
    requires Exec(steps).Some?
  {
    if steps == [] then 0
    else
      var init := steps[..|steps| - 1];
      AnswersTo(init, k) + if Answers(Exec(init).value, steps[|steps| - 1], k) then 1 else 0
  }

  /** The i-th step of the run is this one, and finds the request's connection open. */
  predicate HitsAt(steps: seq<Step>, k: Key, what: Step, i: nat)
    requires i < |steps|
  {
    steps[i] == what && Exec(steps[..i]).Some? && k.tcp !in Exec(steps[..i]).value.shut
  }

  predicate Hits(steps: seq<Step>, k: Key, what: Step) {
    exists i :: 0 <= i < |steps| && HitsAt(steps, k, what, i)
  }

  lemma HitsSnoc(init: seq<Step>, step: Step, k: Key, what: Step)
    requires Exec(init).Some?
    ensures Hits(init + [step], k, what) <==> Hits(init, k, what) || (step == what && k.tcp !in Exec(init).value.shut)
  {
    var steps := init + [step];
    assert steps[..|init|] == init;
    forall i | 0 <= i < |init| ensures HitsAt(steps, k, what, i) <==> HitsAt(init, k, what, i) {
      assert steps[..i] == init[..i];
    }
    if Hits(init, k, what) {
      var i :| 0 <= i < |init| && HitsAt(init, k, what, i);
      assert HitsAt(steps, k, what, i);
    }
    if step == what && k.tcp !in Exec(init).value.shut {
      assert HitsAt(steps, k, what, |init|);
    }
  }

  lemma ExecLast(steps: seq<Step>)
    requires steps != [] && Exec(steps).Some?
    ensures var init, step := steps[..|steps| - 1], steps[|steps| - 1];
      Exec(init).Some? && Enabled(Exec(init).value, step) && Exec(steps).value == Apply(Exec(init).value, step)
  {
  }

  /** Where a request's answers came from: at most one of the callback's two, at most one from the
      failed send, and after either page 404 the connection is closed. */
  predicate Sources(steps: seq<Step>, k: Key)
    requires Exec(steps).Some?
  {
    var s := Exec(steps).value;
    var answered, refused, told :=
      Hits(steps, k, RunCallback(k, Answered)), Hits(steps, k, RunCallback(k, OverLimit)),
      Hits(steps, k, GiveUp(k, true));
    && AnswersTo(steps, k) == (if answered then 1 else 0) + (if refused then 1 else 0) + (if told then 1 else 0)
    && !(answered && refused) && !(refused && told)
    && (refused || told ==> k.tcp in s.shut)
    && (answered || refused ==> k in s.requests && s.requests[k].runs == 1)
    && (told ==> k in s.requests && GaveUp(s.requests[k]))
  }

  lemma SourcesStep(s: State, step: Step, k: Key)
    requires Enabled(s, step) && Accounted(s, k)
    ensures s.shut <= Apply(s, step).shut
    ensures k in s.requests ==>
      && k in Apply(s, step).requests && s.requests[k].runs <= Apply(s, step).requests[k].runs
      && (GaveUp(s.requests[k]) ==> GaveUp(Apply(s, step).requests[k]))
    ensures step.RunCallback? && step.k == k ==>
      && k in s.requests && s.requests[k].runs == 0 && Apply(s, step).requests[k].runs == 1
      && (step.ending != Answered ==> k.tcp in Apply(s, step).shut)
    ensures step.GiveUp? && step.k == k ==>
      && k in s.requests && !GaveUp(s.requests[k]) && GaveUp(Apply(s, step).requests[k]) && k.tcp in Apply(s, step).shut
  {
  }

  lemma {:induction false} SourcesKept(steps: seq<Step>, k: Key)
    requires Exec(steps).Some?
    ensures Sources(steps, k)
  {
    if steps != [] {
      var init, step := steps[..|steps| - 1], steps[|steps| - 1];
      assert steps == init + [step];
      hide Exec, Apply, Hits;
      ExecLast(steps);
      SourcesKept(init, k);
      ExecKeeps(init);
      ExecKeeps(steps);
      assert Accounted(Exec(init).value, k) && Accounted(Exec(steps).value, k);
      SourcesStep(Exec(init).value, step, k);
      HitsSnoc(init, step, k, RunCallback(k, Answered));
      HitsSnoc(init, step, k, RunCallback(k, OverLimit));
      HitsSnoc(init, step, k, GiveUp(k, true));
    }
  }

  lemma ShutStep(s: State, step: Step)
    requires Enabled(s, step)
    ensures s.shut <= Apply(s, step).shut
  {
  }

  lemma {:induction false} ShutForGood(steps: seq<Step>, tcp: Id, i: nat)
    requires Exec(steps).Some? && i <= |steps| && Exec(steps[..i]).Some? && tcp in Exec(steps[..i]).value.shut
    ensures tcp in Exec(steps).value.shut
  {
    hide Exec, Apply;
    if i == |steps| {
      assert steps[..i] == steps;
    } else {
      var init := steps[..|steps| - 1];
      assert init[..i] == steps[..i];
      ExecLast(steps);
      ShutForGood(init, tcp, i);
      ShutStep(Exec(init).value, steps[|steps| - 1]);
    }
  }

  lemma {:induction false} Beginning(steps: seq<Step>, i: nat)
    requires Exec(steps).Some? && i <= |steps|
    ensures Exec(steps[..i]).Some?
  {
    if i == |steps| {
      assert steps[..i] == steps;
    } else {
      var init := steps[..|steps| - 1];
      Beginning(init, i);
      assert init[..i] == steps[..i];
    }
  }

  /** What comes after the failed send's 404 finds the connection closed. */
  lemma AnsweredBeforeTold(steps: seq<Step>, k: Key, i: nat, j: nat)
    requires Exec(steps).Some? && i < |steps| && j < |steps|
    requires HitsAt(steps, k, RunCallback(k, Answered), i) && HitsAt(steps, k, GiveUp(k, true), j)
    ensures i < j
  {
    if j < i {
      var upTo := steps[..j + 1];
      Beginning(steps, j + 1);
      assert upTo[..|upTo| - 1] == steps[..j];
      assert steps[..i][..j + 1] == upTo;
      ShutForGood(steps[..i], k.tcp, j + 1);
    }
  }

  /** A request is answered at most twice, and twice exactly when its callback wrote the answer on an
      open connection, left it open, and the failed send's 404 then still found it open. */
  lemma TwoAnswersExactly(steps: seq<Step>, k: Key)
    requires Exec(steps).Some?
    ensures AnswersTo(steps, k) <= 2
    ensures AnswersTo(steps, k) == 2 <==>
      exists i, j :: 0 <= i < j < |steps|
        && HitsAt(steps, k, RunCallback(k, Answered), i) && HitsAt(steps, k, GiveUp(k, true), j)
  {
    SourcesKept(steps, k);
    if AnswersTo(steps, k) == 2 {
      var i :| 0 <= i < |steps| && HitsAt(steps, k, RunCallback(k, Answered), i);
      var j :| 0 <= j < |steps| && HitsAt(steps, k, GiveUp(k, true), j);
      AnsweredBeforeTold(steps, k, i, j);
    }
  }

  lemma TimeoutInHand(k: Key) returns (steps: seq<Step>, s: State)
    ensures Exec(steps) == Some(s) && k in s.requests && k in s.held && s.shut == {}
    ensures s.requests[k] == Request(Fired, Sending.Sending, 0, 0)
  {
    hide Exec;
    ExecNothing();
    steps, s := Next([], Init(), Register(k));
    steps, s := Next(steps, s, Arm(k));
    assert s.requests[k] == Request(Armed, Sending.Sending, 0, 0) && k in s.table && s.table[k] == k;
    steps, s := Next(steps, s, Fire(k));
    steps, s := Next(steps, s, TimerTakes(k));
  }

  /** That happens: sending stalls until the timeout has answered 504, then fails and answers 404. */
  lemma TwoAnswersHappen(k: Key) returns (steps: seq<Step>)
    ensures Exec(steps).Some? && AnswersTo(steps, k) == 2
  {
    hide Exec, AnswersTo;
    var first, s := TimeoutInHand(k);
    var second, t := Next(first, s, RunCallback(k, Answered));
    assert t.requests[k] == Request(Fired, Sending.Sending, 1, 0) && t.shut == {};
    var third, u := Next(second, t, SendFails(k));
    var v;
    steps, v := Next(third, u, GiveUp(k, true));
    assert steps[..|first|] == first && steps[..|third|] == third;
    assert HitsAt(steps, k, RunCallback(k, Answered), |first|);
    assert HitsAt(steps, k, GiveUp(k, true), |third|);
    TwoAnswersExactly(steps, k);
  }

  lemma ExecNothing()
    ensures Exec([]) == Some(Init())
  {
  }

  lemma Next(steps: seq<Step>, s: State, step: Step) returns (more: seq<Step>, s': State)
    requires Exec(steps) == Some(s) && Enabled(s, step)
    ensures more == steps + [step] && s' == Apply(s, step) && Exec(more) == Some(s')
  {
    more, s' := steps + [step], Apply(s, step);
    ExecSnoc(steps, step);
  }
}
