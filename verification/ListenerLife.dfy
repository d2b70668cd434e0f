/** Public TCP listeners: creation, recovery after accept errors, and destruction of the container,
    each locked section or system call one step. */
module ListenerLife {
  import opened Words

  /** Where a goroutine stands in CreateServer or in its accept loop. */
  datatype Pc =
    | AtGet                    // look the container up
    | AtCheck                  // a source server already? else pick a port
    | AtSetPort(port: nat)
    | AtListen(port: nat)
    | AtReady(l: nat)          // tell the client
    | AtStore(l: nat)          // make it the container's source server
    | AtReturn                 // the accept loop that called closes its own listener
    | Accepting(l: nat)
    | AtClear(l: nat)          // accept failed: forget the source server, then create a new one
    | Done

  /** `origin` is the listener of the accept loop from which CreateServer was called. */
  datatype Task = Task(cid: Id, pc: Pc, origin: Option<nat>)

  /** A tunnel mapping; goroutines go on using it after it left the table (`live` off).
      `task` is the goroutine looking after it, `bound` how many listeners were bound for it. */
  datatype Container = Container(live: bool, tunnelPort: nat, sourcePort: nat, server: Option<nat>,
                                 task: Option<nat>, bound: nat)

  datatype Listener = Listener(cid: Id, port: nat)

  /** `listeners` are the open ones. */
  datatype State = State(containers: map<Id, Container>, tasks: map<nat, Task>,
                         listeners: map<nat, Listener>, next: nat)

  function Init(): State {
    State(map[], map[], map[], 0)
  }

  /** How a call turned out: whether it succeeded, the port found available, the new goroutine. */
  datatype Outcome = Outcome(ok: bool, port: nat, tid: nat)

  datatype Step =
    | Create(cid: Id, tunnelPort: nat)
    | Start(tid: nat, cid: Id)          // the tunnel event, once for every container
    | Go(tid: nat, outcome: Outcome)
    | Destroy(cid: Id)

  predicate Enabled(s: State, step: Step) {
    match step
    case Create(cid, tunnelPort) => cid !in s.containers
    case Start(tid, cid) => tid !in s.tasks && cid in s.containers && s.containers[cid].task == None
    case Go(tid, o) =>
      && tid in s.tasks && s.tasks[tid].pc != Done && s.tasks[tid].cid in s.containers
      && o.port > 0
      && (s.tasks[tid].pc.AtStore? && s.containers[s.tasks[tid].cid].live ==> o.tid !in s.tasks)
    case Destroy(cid) => cid in s.containers
  }

  function PortFree(s: State, port: nat): bool {
    forall l :: l in s.listeners ==> s.listeners[l].port != port
  }

  /** The port wanted by the client, or the one used before, or any available one. */
  function Picked(c: Container, available: nat): nat {
    if c.tunnelPort != 0 then c.tunnelPort else if c.sourcePort != 0 then c.sourcePort else available
  }

  function CloseListener(s: State, l: nat): State {
    s.(listeners := s.listeners - {l})
  }

  function Move(s: State, tid: nat, pc: Pc): State
    requires tid in s.tasks
  {
    s.(tasks := s.tasks[tid := s.tasks[tid].(pc := pc)])
  }

  function PutContainer(s: State, cid: Id, c: Container): State {
    s.(containers := s.containers[cid := c])
  }

  /** One step of CreateServer. */
  function Creating(s: State, tid: nat, o: Outcome): State
    requires tid in s.tasks && s.tasks[tid].cid in s.containers
  {
    var t := s.tasks[tid];
    var c := s.containers[t.cid];
    match t.pc
    case AtGet => Move(s, tid, if c.live then AtCheck else AtReturn)
    case AtCheck =>
      if c.server.Some? then Move(s, tid, AtReturn)
      else if c.tunnelPort == 0 && c.sourcePort == 0 && !o.ok then Move(s, tid, AtReturn)
      else Move(s, tid, AtSetPort(Picked(c, o.port)))
    case AtSetPort(p) =>
      if c.live then Move(PutContainer(s, t.cid, c.(sourcePort := p)), tid, AtListen(p)) else Move(s, tid, AtReturn)
    case AtListen(p) =>
      if o.ok && PortFree(s, p) then
        Move(PutContainer(s.(listeners := s.listeners[s.next := Listener(t.cid, p)], next := s.next + 1),
                          t.cid, c.(bound := c.bound + 1)), tid, AtReady(s.next))
      else Move(s, tid, AtReturn)
    case AtReady(l) => if o.ok then Move(s, tid, AtStore(l)) else Move(CloseListener(s, l), tid, AtReturn)
    case AtStore(l) =>
      if c.live then
        var stored := Move(s, tid, if t.origin == None then Done else AtReturn);
        PutContainer(stored.(tasks := stored.tasks[o.tid := Task(t.cid, Accepting(l), None)]),
                     t.cid, c.(server := Some(l), task := Some(o.tid)))
      else Move(CloseListener(s, l), tid, AtReturn)
    case AtReturn => Move(if t.origin.Some? then CloseListener(s, t.origin.value) else s, tid, Done)
    case _ => s
  }

  /** One step of the accept loop: a connection or a passing error leaves it where it is. */
  function Serving(s: State, tid: nat, o: Outcome): State
    requires tid in s.tasks && s.tasks[tid].cid in s.containers
  {
    var t := s.tasks[tid];
    var c := s.containers[t.cid];
    match t.pc
    case Accepting(l) => if l in s.listeners && o.ok then s else Move(s, tid, AtClear(l))
    case AtClear(l) =>
      var cleared := if c.live then PutContainer(s, t.cid, c.(server := None)) else s;
      cleared.(tasks := cleared.tasks[tid := Task(t.cid, AtGet, Some(l))])
    case _ => s
  }

  function Apply(s: State, step: Step): State
    requires Enabled(s, step)
  {
    match step
    case Create(cid, port) => PutContainer(s, cid, Container(true, port, 0, None, None, 0))
    case Start(tid, cid) =>
      PutContainer(s, cid, s.containers[cid].(task := Some(tid))).(tasks := s.tasks[tid := Task(cid, AtGet, None)])
    case Go(tid, o) =>
      if s.tasks[tid].pc.Accepting? || s.tasks[tid].pc.AtClear? then Serving(s, tid, o) else Creating(s, tid, o)
    case Destroy(cid) =>
      var c := s.containers[cid];
      if !c.live then s
      else
        PutContainer(if c.server.Some? then CloseListener(s, c.server.value) else s, cid, c.(live := false))
  }

  function ExecFrom(s: State, steps: seq<Step>): Option<State> {
    if steps == [] then Some(s)
    else
      var before := ExecFrom(s, steps[..|steps| - 1]);
      if before.Some? && Enabled(before.value, steps[|steps| - 1])
      then Some(Apply(before.value, steps[|steps| - 1])) else None
  }

  // ---------------------------------------------------------------- what every step keeps

  /** The open listeners bound for one container. */
  function Mine(s: State, cid: Id): set<nat> {
    set l | l in s.listeners && s.listeners[l].cid == cid
  }

  /** Its own listener, open, on the container's port. */
  predicate Holds(s: State, cid: Id, c: Container, l: nat) {
    l in s.listeners && s.listeners[l] == Listener(cid, c.sourcePort) && Mine(s, cid) == {l} && c.bound == 1
    && (c.tunnelPort != 0 ==> c.sourcePort == c.tunnelPort) && c.sourcePort != 0
  }

  predicate Unbound(s: State, cid: Id, c: Container) {
    Mine(s, cid) == {} && c.server == None && c.bound == 0
  }

  predicate MayUse(c: Container, port: nat) {
    port != 0 && (c.tunnelPort != 0 ==> port == c.tunnelPort)
  }

  predicate Serves(s: State, cid: Id, c: Container, l: nat) {
    && Own(s, cid, l) && c.server == Some(l) && c.bound == 1
    && if c.live then Holds(s, cid, c, l) else Mine(s, cid) == {}
  }

  /** A goroutine that started without a listener. */
  predicate FirstOk(s: State, cid: Id, c: Container, pc: Pc) {
    match pc
    case AtGet => Unbound(s, cid, c)
    case AtCheck => Unbound(s, cid, c)
    case AtSetPort(p) => Unbound(s, cid, c) && MayUse(c, p)
    case AtListen(p) => Unbound(s, cid, c) && MayUse(c, p) && p == c.sourcePort
    case AtReady(l) => Holds(s, cid, c, l) && c.server == None
    case AtStore(l) => Holds(s, cid, c, l) && c.server == None
    case AtReturn => Mine(s, cid) == {} && c.server == None && c.bound <= 1
    case Accepting(l) => Serves(s, cid, c, l)
    case AtClear(l) => Serves(s, cid, c, l)
    case Done => Mine(s, cid) == {} && (c.live ==> c.server == None) && c.bound <= 1
  }

  /** No other container's listener, now or later: numbers are not used again. */
  predicate Own(s: State, cid: Id, l: nat) {
    l < s.next && (l in s.listeners ==> s.listeners[l].cid == cid)
  }

  /** An accept loop trying to recover, its own listener still open until it returns. */
  predicate RecoveringOk(s: State, cid: Id, c: Container, pc: Pc, l: nat) {
    Own(s, cid, l) && match pc
    case AtGet => if c.live then Holds(s, cid, c, l) && c.server == None else c.bound == 1 && Mine(s, cid) <= {l}
    case AtCheck => Holds(s, cid, c, l) && c.server == None
    case AtSetPort(p) => Holds(s, cid, c, l) && c.server == None && p == c.sourcePort
    case AtListen(p) => Holds(s, cid, c, l) && c.server == None && p == c.sourcePort
    case AtReturn => Mine(s, cid) <= {l} && (c.live ==> c.server == None) && c.bound == 1
    case Done => Mine(s, cid) == {} && (c.live ==> c.server == None) && c.bound == 1
    case _ => false
  }

  predicate Cell(s: State, cid: Id)
    requires cid in s.containers
  {
    var c := s.containers[cid];
    if c.task == None then Mine(s, cid) == {} && c.server == None && c.bound == 0
    else
      && c.task.value in s.tasks
      && var t := s.tasks[c.task.value];
      && t.cid == cid
      && if t.origin.Some? then RecoveringOk(s, cid, c, t.pc, t.origin.value) else FirstOk(s, cid, c, t.pc)
  }

  /** Every goroutine that is not over is the one that looks after its container. */
  predicate OneTaskEach(s: State) {
    forall tid :: tid in s.tasks && s.tasks[tid].pc != Done ==>
      s.tasks[tid].cid in s.containers && s.containers[s.tasks[tid].cid].task == Some(tid)
  }

  /** And no two of them share a port. */
  predicate ListenersKnown(s: State) {
    && (forall l :: l in s.listeners ==> l < s.next && s.listeners[l].cid in s.containers)
    && forall l, m :: l in s.listeners && m in s.listeners && s.listeners[l].port == s.listeners[m].port ==> l == m
  }

  predicate Inv(s: State) {
    && (forall cid :: cid in s.containers ==> Cell(s, cid))
    && OneTaskEach(s) && ListenersKnown(s)
  }

  /** Nothing of one container changed. */
  predicate SameFor(s: State, s': State, cid: Id) {
    && cid in s.containers && cid in s'.containers && s'.containers[cid] == s.containers[cid]
    && Mine(s', cid) == Mine(s, cid)
    && (forall l :: l in Mine(s, cid) ==> s'.listeners[l] == s.listeners[l])
    && s.next <= s'.next
    && (forall l :: l < s.next && l in s'.listeners ==> l in s.listeners && s'.listeners[l] == s.listeners[l])
    && (var task := s.containers[cid].task;
        task.Some? && task.value in s.tasks ==> task.value in s'.tasks && s'.tasks[task.value] == s.tasks[task.value])
  }

  lemma CellStays(s: State, s': State, cid: Id)
    requires SameFor(s, s', cid) && Cell(s, cid)
    ensures Cell(s', cid)
  {
  }

  /** What a step can do to the listeners, seen from a container that is not its own. */
  ghost predicate ListenersMoved(s: State, s': State, cid: Id) {
    || (s'.listeners == s.listeners && s'.next == s.next)
    || (s'.next == s.next + 1 && exists p :: PortFree(s, p) && s'.listeners == s.listeners[s.next := Listener(cid, p)])
    || (s'.next == s.next && exists l :: Own(s, cid, l) && s'.listeners == s.listeners - {l})
  }

  lemma ListenersSame(s: State, s': State, mover: Id, cid: Id)
    requires ListenersMoved(s, s', mover) && ListenersKnown(s) && cid != mover
    requires cid in s.containers && cid in s'.containers && s'.containers[cid] == s.containers[cid]
    requires var task := s.containers[cid].task;
      task.Some? && task.value in s.tasks ==> task.value in s'.tasks && s'.tasks[task.value] == s.tasks[task.value]
    ensures SameFor(s, s', cid)
  {
  }

  lemma CreatingMoves(s: State, tid: nat, o: Outcome)
    requires Enabled(s, Go(tid, o)) && Cell(s, s.tasks[tid].cid) && ListenersKnown(s)
    requires s.containers[s.tasks[tid].cid].task == Some(tid)
    ensures ListenersMoved(s, Creating(s, tid, o), s.tasks[tid].cid)
  {
    var t, s' := s.tasks[tid], Creating(s, tid, o);
    match t.pc
    case AtListen(p) => assert s'.listeners == s.listeners || s'.listeners == s.listeners[s.next := Listener(t.cid, p)];
    case AtReady(l) => assert Own(s, t.cid, l);
    case AtStore(l) => assert Own(s, t.cid, l);
    case AtReturn =>
      if t.origin.Some? {
        assert Own(s, t.cid, t.origin.value);
      }
    case _ =>
  }

  lemma StepMoves(s: State, step: Step)
    requires Inv(s) && Enabled(s, step)
    ensures ListenersMoved(s, Apply(s, step), Mover(s, step))
  {
    match step
    case Go(tid, o) =>
      assert Cell(s, s.tasks[tid].cid);
      CreatingMoves(s, tid, o);
    case Destroy(cid) =>
      assert Cell(s, cid);
      var c := s.containers[cid];
      if c.live && c.server.Some? {
        assert Own(s, cid, c.server.value);
      }
    case _ =>
  }

  /** A step changes its own container only. */
  lemma StepTouches(s: State, step: Step)
    requires Enabled(s, step)
    ensures forall k :: k in s.containers && k != Mover(s, step) ==>
      k in Apply(s, step).containers && Apply(s, step).containers[k] == s.containers[k]
    ensures Apply(s, step).containers.Keys == s.containers.Keys + {Mover(s, step)}
  {
  }

  /** The goroutine that moved still looks after the container, or hands it over and is done. */
  predicate TasksMoved(s: State, s': State, cid: Id, tid: nat, loop: nat) {
    && tid in s'.tasks && s'.tasks[tid].cid == cid && cid in s'.containers
    && (|| (s'.containers[cid].task == Some(tid) && s'.tasks == s.tasks[tid := s'.tasks[tid]])
        || (&& s'.containers[cid].task == Some(loop) && s'.tasks[tid].pc == Done && loop in s'.tasks
            && s'.tasks == s.tasks[tid := s'.tasks[tid]][loop := s'.tasks[loop]] && s'.tasks[loop].cid == cid))
  }

  lemma GoMovesTasks(s: State, tid: nat, o: Outcome)
    requires Inv(s) && Enabled(s, Go(tid, o))
    ensures TasksMoved(s, Apply(s, Go(tid, o)), s.tasks[tid].cid, tid, o.tid)
  {
    hide Holds, Own, Mine;
    assert Cell(s, s.tasks[tid].cid);
    match s.tasks[tid].pc
    case AtStore(l) => assert s.tasks[tid].origin == None;
    case _ =>
  }

  lemma OtherTasksStay(s: State, step: Step)
    requires Inv(s) && Enabled(s, step)
    ensures forall k :: k in s.tasks && s.tasks[k].cid != Mover(s, step) ==>
      k in Apply(s, step).tasks && Apply(s, step).tasks[k] == s.tasks[k]
  {
    if step.Go? {
      hide Apply, Cell;
      GoMovesTasks(s, step.tid, step.outcome);
    }
  }

  function Mover(s: State, step: Step): Id
    requires Enabled(s, step)
  {
    if step.Go? then s.tasks[step.tid].cid else step.cid
  }

  predicate BeforeListen(pc: Pc) {
    pc.AtGet? || pc.AtCheck? || pc.AtSetPort?
  }

  lemma CreatingKeepsUnbound(s: State, tid: nat, o: Outcome)
    requires Inv(s) && Enabled(s, Go(tid, o)) && s.tasks[tid].origin == None && BeforeListen(s.tasks[tid].pc)
    ensures var cid := s.tasks[tid].cid; cid in Creating(s, tid, o).containers && Cell(Creating(s, tid, o), cid)
  {
    assert Cell(s, s.tasks[tid].cid);
  }

  lemma CreatingKeepsBound(s: State, tid: nat, o: Outcome)
    requires Inv(s) && Enabled(s, Go(tid, o)) && s.tasks[tid].origin == None && !BeforeListen(s.tasks[tid].pc)
    requires !s.tasks[tid].pc.Accepting? && !s.tasks[tid].pc.AtClear?
    ensures var cid := s.tasks[tid].cid; cid in Creating(s, tid, o).containers && Cell(Creating(s, tid, o), cid)
  {
    assert Cell(s, s.tasks[tid].cid);
  }

  lemma CreatingKeepsRecovering(s: State, tid: nat, o: Outcome)
    requires Inv(s) && Enabled(s, Go(tid, o)) && s.tasks[tid].origin.Some?
    ensures var cid := s.tasks[tid].cid; cid in Creating(s, tid, o).containers && Cell(Creating(s, tid, o), cid)
  {
    assert Cell(s, s.tasks[tid].cid);
  }

  lemma ServingKeeps(s: State, tid: nat, o: Outcome)
    requires Inv(s) && Enabled(s, Go(tid, o)) && (s.tasks[tid].pc.Accepting? || s.tasks[tid].pc.AtClear?)
    ensures var cid := s.tasks[tid].cid; cid in Serving(s, tid, o).containers && Cell(Serving(s, tid, o), cid)
  {
    assert Cell(s, s.tasks[tid].cid);
  }

  lemma MoverKeeps(s: State, step: Step)
    requires Inv(s) && Enabled(s, step)
    ensures Mover(s, step) in Apply(s, step).containers && Cell(Apply(s, step), Mover(s, step))
  {
    hide Inv, Cell, Serving, Creating, PutContainer;
    if step.Create? {
      CreateKeeps(s, step.cid, step.tunnelPort);
    } else if step.Start? {
      StartKeeps(s, step.tid, step.cid);
    } else if step.Destroy? {
      DestroyKeeps(s, step.cid);
    } else {
      var tid, o := step.tid, step.outcome;
      if s.tasks[tid].pc.Accepting? || s.tasks[tid].pc.AtClear? {
        ServingKeeps(s, tid, o);
      } else if s.tasks[tid].origin == None {
        if BeforeListen(s.tasks[tid].pc) {
          CreatingKeepsUnbound(s, tid, o);
        } else {
          CreatingKeepsBound(s, tid, o);
        }
      } else {
        CreatingKeepsRecovering(s, tid, o);
      }
    }
  }

  lemma CreateKeeps(s: State, cid: Id, port: nat)
    requires Inv(s) && Enabled(s, Create(cid, port))
    ensures var s' := Apply(s, Create(cid, port)); cid in s'.containers && Cell(s', cid)
  {
    assert Mine(Apply(s, Create(cid, port)), cid) == {};
  }

  lemma StartKeeps(s: State, tid: nat, cid: Id)
    requires Inv(s) && Enabled(s, Start(tid, cid))
    ensures var s' := Apply(s, Start(tid, cid)); cid in s'.containers && Cell(s', cid)
  {
    assert Cell(s, cid);
  }

  lemma DestroyKeeps(s: State, cid: Id)
    requires Inv(s) && Enabled(s, Destroy(cid))
    ensures var s' := Apply(s, Destroy(cid)); cid in s'.containers && Cell(s', cid)
  {
    assert Cell(s, cid);
  }

  lemma StepKeepsKnown(s: State, step: Step)
    requires Inv(s) && Enabled(s, step)
    ensures ListenersKnown(Apply(s, step))
  {
    hide Apply, Cell, Mine;
    StepMoves(s, step);
    StepTouches(s, step);
  }

  lemma StepKeepsOneTask(s: State, step: Step)
    requires Inv(s) && Enabled(s, step)
    ensures OneTaskEach(Apply(s, step))
  {
    hide Cell;
    if step.Go? {
      hide Apply;
      GoMovesTasks(s, step.tid, step.outcome);
      StepTouches(s, step);
    }
  }

  lemma {:induction false} StepKeeps(s: State, step: Step)
    requires Inv(s) && Enabled(s, step)
    ensures Inv(Apply(s, step))
  {
    hide Apply, Cell, Mine, ListenersMoved, SameFor, Mover;
    var s' := Apply(s, step);
    StepKeepsOneTask(s, step);
    StepKeepsKnown(s, step);
    MoverKeeps(s, step);
    StepMoves(s, step);
    StepTouches(s, step);
    OtherTasksStay(s, step);
    forall cid | cid in s'.containers ensures Cell(s', cid) {
      if cid != Mover(s, step) {
        assert Cell(s, cid);
        TaskCid(s, cid);
        ListenersSame(s, s', Mover(s, step), cid);
        CellStays(s, s', cid);
      }
    }
  }

  lemma TaskCid(s: State, cid: Id)
    requires cid in s.containers && Cell(s, cid)
    ensures s.containers[cid].task.Some? ==>
      s.containers[cid].task.value in s.tasks && s.tasks[s.containers[cid].task.value].cid == cid
  {
  }

  lemma {:induction false} RunKeeps(s: State, steps: seq<Step>)
    requires Inv(s) && ExecFrom(s, steps).Some?
    ensures Inv(ExecFrom(s, steps).value)
  {
    if steps != [] {
      RunKeeps(s, steps[..|steps| - 1]);
      StepKeeps(ExecFrom(s, steps[..|steps| - 1]).value, steps[|steps| - 1]);
    }
  }

  lemma ReachableOk(steps: seq<Step>)
    requires ExecFrom(Init(), steps).Some?
    ensures Inv(ExecFrom(Init(), steps).value)
  {
    RunKeeps(Init(), steps);
  }

  // ---------------------------------------------------------------- who holds an open listener

  predicate IsSource(s: State, l: nat)
    requires l in s.listeners && s.listeners[l].cid in s.containers
  {
    var c := s.containers[s.listeners[l].cid];
    c.live && c.server == Some(l)
  }

  /** A goroutine that has the listener in hand and is past serving it. */
  predicate InFlight(s: State, tid: nat, l: nat) {
    && tid in s.tasks && s.tasks[tid].pc != Done
    && (s.tasks[tid].pc in {AtReady(l), AtStore(l), AtClear(l)} || s.tasks[tid].origin == Some(l))
  }

  lemma CarrierIsOwner(s: State, tid: nat, l: nat)
    requires Inv(s) && l in s.listeners && InFlight(s, tid, l)
    ensures s.tasks[tid].cid == s.listeners[l].cid && s.containers[s.listeners[l].cid].task == Some(tid)
  {
    assert Cell(s, s.tasks[tid].cid);
  }

  lemma OpenListenerHeld(s: State, l: nat)
    requires Inv(s) && l in s.listeners
    ensures IsSource(s, l) || exists tid :: InFlight(s, tid, l)
  {
    var cid := s.listeners[l].cid;
    assert Cell(s, cid);
    assert l in Mine(s, cid);
    if !IsSource(s, l) {
      assert InFlight(s, s.containers[cid].task.value, l);
    }
  }

  /** In every interleaving, an open public listener is the source server of a live container or in
      the hands of one goroutine that is not over. */
  lemma EveryListenerHeld(steps: seq<Step>, l: nat)
    requires ExecFrom(Init(), steps).Some? && l in ExecFrom(Init(), steps).value.listeners
    ensures var s := ExecFrom(Init(), steps).value;
      && s.listeners[l].cid in s.containers
      && (IsSource(s, l) || exists tid :: InFlight(s, tid, l))
      && (forall a, b :: InFlight(s, a, l) && InFlight(s, b, l) ==> a == b)
  {
    var s := ExecFrom(Init(), steps).value;
    ReachableOk(steps);
    OpenListenerHeld(s, l);
    forall a, b | InFlight(s, a, l) && InFlight(s, b, l) ensures a == b {
      CarrierIsOwner(s, a, l);
      CarrierIsOwner(s, b, l);
    }
  }

  function Rank(pc: Pc): nat {
    match pc
    case AtClear(_) => 8
    case AtGet => 7
    case AtCheck => 6
    case AtSetPort(_) => 5
    case AtListen(_) => 4
    case AtReady(_) => 3
    case AtStore(_) => 2
    case AtReturn => 1
    case Done => 0
    case Accepting(_) => 0
  }

  lemma RankFalls(s: State, tid: nat, o: Outcome)
    requires Enabled(s, Go(tid, o)) && !s.tasks[tid].pc.Accepting?
    ensures var s' := Apply(s, Go(tid, o));
      && tid in s'.tasks && Rank(s'.tasks[tid].pc) < Rank(s.tasks[tid].pc) && !s'.tasks[tid].pc.Accepting?
  {
  }

  lemma TaskStays(s: State, step: Step, tid: nat)
    requires Enabled(s, step) && tid in s.tasks && !(step.Go? && step.tid == tid)
    ensures tid in Apply(s, step).tasks && Apply(s, step).tasks[tid] == s.tasks[tid]
  {
  }

  /** How many steps of a run are this goroutine's own. */
  function OwnSteps(steps: seq<Step>, tid: nat): nat {
    if steps == [] then 0
    else
      var last := steps[|steps| - 1];
      OwnSteps(steps[..|steps| - 1], tid) + if last.Go? && last.tid == tid then 1 else 0
  }

  /** Whatever runs beside it and however its calls turn out, a goroutine that is not serving is over
      after at most eight steps of its own, and never comes to serve. */
  lemma {:induction false} FlightEnds(s: State, more: seq<Step>, tid: nat)
    requires tid in s.tasks && !s.tasks[tid].pc.Accepting? && ExecFrom(s, more).Some?
    ensures var s' := ExecFrom(s, more).value;
      && tid in s'.tasks && !s'.tasks[tid].pc.Accepting?
      && OwnSteps(more, tid) + Rank(s'.tasks[tid].pc) <= Rank(s.tasks[tid].pc) <= 8
      && (OwnSteps(more, tid) >= 8 ==> s'.tasks[tid].pc == Done)
  {
    if more != [] {
      hide Apply, Enabled;
      var init, step := more[..|more| - 1], more[|more| - 1];
      FlightEnds(s, init, tid);
      if step.Go? && step.tid == tid {
        RankFalls(ExecFrom(s, init).value, tid, step.outcome);
      } else {
        TaskStays(ExecFrom(s, init).value, step, tid);
      }
    }
  }

  /** When a destroyed container's goroutines are over, no listener of it is open. */
  lemma NoneLeftAtQuiescence(steps: seq<Step>, cid: Id)
    requires ExecFrom(Init(), steps).Some? && cid in ExecFrom(Init(), steps).value.containers
    requires var s := ExecFrom(Init(), steps).value;
      !s.containers[cid].live && forall tid :: tid in s.tasks && s.tasks[tid].cid == cid ==> s.tasks[tid].pc == Done
    ensures Mine(ExecFrom(Init(), steps).value, cid) == {}
  {
    ReachableOk(steps);
    assert Cell(ExecFrom(Init(), steps).value, cid);
  }

  // ---------------------------------------------------------------- after Destroy

  predicate Dead(s: State, cid: Id) {
    cid in s.containers && !s.containers[cid].live
  }

  /** Nothing brings a container back or makes a listener its source server. */
  lemma {:induction false} DeadForGood(s: State, more: seq<Step>, cid: Id)
    requires Dead(s, cid) && ExecFrom(s, more).Some?
    ensures Dead(ExecFrom(s, more).value, cid)
    ensures ExecFrom(s, more).value.containers[cid].server == s.containers[cid].server
  {
    if more != [] {
      DeadForGood(s, more[..|more| - 1], cid);
      StepTouches(ExecFrom(s, more[..|more| - 1]).value, more[|more| - 1]);
    }
  }

  /** The container's goroutine has recorded its port and is about to listen for the first time. */
  predicate AboutToListen(s: State, cid: Id) {
    && cid in s.containers && s.containers[cid].task.Some?
    && s.containers[cid].task.value in s.tasks
    && s.tasks[s.containers[cid].task.value].pc.AtListen?
    && s.tasks[s.containers[cid].task.value].origin == None
  }

  lemma StaysUnboundStep(s: State, step: Step, cid: Id)
    requires Inv(s) && Dead(s, cid) && !AboutToListen(s, cid) && Enabled(s, step)
    ensures var s' := Apply(s, step);
      Dead(s', cid) && !AboutToListen(s', cid) && s'.containers[cid].bound == s.containers[cid].bound
  {
    assert Cell(s, cid);
    if Mover(s, step) != cid {
      OthersStay(s, step, cid);
    } else if step.Go? {
      assert Cell(s, s.tasks[step.tid].cid);
    }
  }

  lemma OthersStay(s: State, step: Step, cid: Id)
    requires Inv(s) && Enabled(s, step) && cid in s.containers && Mover(s, step) != cid
    ensures SameFor(s, Apply(s, step), cid)
  {
    hide Apply, Cell, Mine, ListenersMoved, SameFor, Mover;
    assert Cell(s, cid);
    StepMoves(s, step);
    StepTouches(s, step);
    OtherTasksStay(s, step);
    TaskCid(s, cid);
    ListenersSame(s, Apply(s, step), Mover(s, step), cid);
  }

  lemma {:induction false} StaysUnbound(s: State, more: seq<Step>, cid: Id)
    requires Inv(s) && Dead(s, cid) && !AboutToListen(s, cid) && ExecFrom(s, more).Some?
    ensures var s' := ExecFrom(s, more).value;
      Dead(s', cid) && !AboutToListen(s', cid) && s'.containers[cid].bound == s.containers[cid].bound
  {
    if more != [] {
      var init := more[..|more| - 1];
      StaysUnbound(s, init, cid);
      RunKeeps(s, init);
      StaysUnboundStep(ExecFrom(s, init).value, more[|more| - 1], cid);
    }
  }

  lemma ExecOne(s: State, step: Step)
    requires Enabled(s, step)
    ensures ExecFrom(s, [step]) == Some(Apply(s, step))
  {
    assert [step][..0] == [];
  }

  lemma {:induction false} ExecThen(s: State, a: seq<Step>, b: seq<Step>)
    requires ExecFrom(s, a).Some?
    ensures ExecFrom(s, a + b) == ExecFrom(ExecFrom(s, a).value, b)
  {
    if b == [] {
      assert a + b == a;
    } else {
      var init := b[..|b| - 1];
      ExecThen(s, a, init);
      assert (a + b)[..|a + b| - 1] == a + init;
    }
  }

  lemma SameForTrans(s: State, t: State, u: State, cid: Id)
    requires SameFor(s, t, cid) && SameFor(t, u, cid)
    requires s.containers[cid].task.Some? ==> s.containers[cid].task.value in s.tasks
    ensures SameFor(s, u, cid)
  {
  }

  predicate Fewer(s: State, s': State) {
    forall l :: l in s'.listeners ==> l in s.listeners && s'.listeners[l] == s.listeners[l]
  }

  /** A destroyed container's goroutine can be driven to give up its listener, no other container
      noticing and no listener being opened. */
  lemma {:induction false} GivesUp(s: State, l: nat, other: Id) returns (more: seq<Step>)
    requires Inv(s) && l in s.listeners && Dead(s, s.listeners[l].cid)
    requires other in s.containers && other != s.listeners[l].cid
    ensures ExecFrom(s, more).Some? && Inv(ExecFrom(s, more).value)
    ensures var s' := ExecFrom(s, more).value;
      SameFor(s, s', other) && l !in s'.listeners && Fewer(s, s')
    decreases var c := s.containers[s.listeners[l].cid];
      if c.task.Some? && c.task.value in s.tasks then Rank(s.tasks[c.task.value].pc) else 0
  {
    var cid := s.listeners[l].cid;
    OpenListenerHeld(s, l);
    var tid :| InFlight(s, tid, l);
    CarrierIsOwner(s, tid, l);
    var step := Go(tid, Outcome(false, 1, tid));
    var s1 := Apply(s, step);
    ExecOne(s, step);
    StepKeeps(s, step);
    OthersStay(s, step, other);
    FailedStep(s, tid);
    if l !in s1.listeners {
      more := [step];
    } else {
      RankFalls(s, tid, step.outcome);
      var rest := GivesUp(s1, l, other);
      more := [step] + rest;
      ExecThen(s, [step], rest);
      assert Cell(s, other);
      SameForTrans(s, s1, ExecFrom(s1, rest).value, other);
    }
  }

  /** A step whose calls fail opens nothing and, its container being gone, hands nothing over. */
  lemma FailedStep(s: State, tid: nat)
    requires Inv(s) && tid in s.tasks && s.tasks[tid].pc != Done && Dead(s, s.tasks[tid].cid)
    ensures var s' := Apply(s, Go(tid, Outcome(false, 1, tid)));
      && Fewer(s, s')
      && Dead(s', s.tasks[tid].cid)
      && s'.containers[s.tasks[tid].cid].task == s.containers[s.tasks[tid].cid].task
  {
  }

  lemma FreesPort(s: State, l: nat, other: Id) returns (more: seq<Step>)
    requires Inv(s) && l in s.listeners && other in s.containers && other != s.listeners[l].cid
    ensures ExecFrom(s, more).Some? && Inv(ExecFrom(s, more).value)
    ensures var s' := ExecFrom(s, more).value;
      SameFor(s, s', other) && l !in s'.listeners && Fewer(s, s')
  {
    var cid := s.listeners[l].cid;
    if s.containers[cid].live {
      var s1 := Apply(s, Destroy(cid));
      ExecOne(s, Destroy(cid));
      StepKeeps(s, Destroy(cid));
      OthersStay(s, Destroy(cid), other);
      if l !in s1.listeners {
        more := [Destroy(cid)];
      } else {
        var rest := GivesUp(s1, l, other);
        more := [Destroy(cid)] + rest;
        ExecThen(s, [Destroy(cid)], rest);
        assert Cell(s, other);
        SameForTrans(s, s1, ExecFrom(s1, rest).value, other);
      }
    } else {
      more := GivesUp(s, l, other);
    }
  }

  /** The port can be had: whoever holds it is destroyed and gives it up. */
  lemma FreesTheWay(s: State, cid: Id) returns (more: seq<Step>)
    requires Inv(s) && AboutToListen(s, cid)
    ensures ExecFrom(s, more).Some? && Inv(ExecFrom(s, more).value)
    ensures var s1, tid := ExecFrom(s, more).value, s.containers[cid].task.value;
      && cid in s1.containers && s1.containers[cid] == s.containers[cid]
      && tid in s1.tasks && s1.tasks[tid] == s.tasks[tid] && PortFree(s1, s.tasks[tid].pc.port)
  {
    var p := s.tasks[s.containers[cid].task.value].pc.port;
    more := [];
    if !PortFree(s, p) {
      var l :| l in s.listeners && s.listeners[l].port == p;
      NotItsOwn(s, cid, l);
      hide Inv, Mine, AboutToListen;
      more := FreesPort(s, l, cid);
    }
  }

  lemma NotItsOwn(s: State, cid: Id, l: nat)
    requires Inv(s) && AboutToListen(s, cid) && l in s.listeners
    ensures s.listeners[l].cid != cid
  {
    assert Cell(s, cid);
    assert l !in Mine(s, cid);
  }

  lemma Binds(s: State, cid: Id)
    requires AboutToListen(s, cid) && PortFree(s, s.tasks[s.containers[cid].task.value].pc.port)
    requires s.tasks[s.containers[cid].task.value].cid == cid
    ensures var step := Go(s.containers[cid].task.value, Outcome(true, 1, s.containers[cid].task.value));
      && Enabled(s, step) && cid in Apply(s, step).containers
      && Apply(s, step).containers[cid].bound > s.containers[cid].bound
  {
  }

  lemma BindsLate(s: State, cid: Id) returns (more: seq<Step>)
    requires Inv(s) && AboutToListen(s, cid)
    ensures ExecFrom(s, more).Some? && cid in ExecFrom(s, more).value.containers
    ensures ExecFrom(s, more).value.containers[cid].bound > s.containers[cid].bound
  {
    var tid := s.containers[cid].task.value;
    assert s.tasks[tid].cid == cid by {
      assert Cell(s, cid);
    }
    more := FreesTheWay(s, cid);
    var s1 := ExecFrom(s, more).value;
    hide Inv, PortFree, ExecFrom, Apply;
    Binds(s1, cid);
    ExecOne(s1, Go(tid, Outcome(true, 1, tid)));
    ExecThen(s, more, [Go(tid, Outcome(true, 1, tid))]);
    more := more + [Go(tid, Outcome(true, 1, tid))];
  }

  /** After Destroy, no listener is ever bound for the container again exactly when its goroutine was
      not already between recording its port and listening. One that is bound late is never made
      the source server (DeadForGood) and does not outlive its goroutine (NoneLeftAtQuiescence). */
  lemma NoneBoundAfterDestroyExactly(steps: seq<Step>, cid: Id)
    requires ExecFrom(Init(), steps).Some? && Dead(ExecFrom(Init(), steps).value, cid)
    ensures var s := ExecFrom(Init(), steps).value;
      (forall more | ExecFrom(s, more).Some? ::
         && cid in ExecFrom(s, more).value.containers
         && ExecFrom(s, more).value.containers[cid].bound == s.containers[cid].bound)
      <==> !AboutToListen(s, cid)
  {
    var s := ExecFrom(Init(), steps).value;
    ReachableOk(steps);
    if AboutToListen(s, cid) {
      var more := BindsLate(s, cid);
    } else {
      forall more | ExecFrom(s, more).Some?
        ensures cid in ExecFrom(s, more).value.containers
        ensures ExecFrom(s, more).value.containers[cid].bound == s.containers[cid].bound
      {
        StaysUnbound(s, more, cid);
      }
    }
  }

  /** That moment exists: the port is recorded, the container destroyed, and only then bound. */
  lemma DestroyCanComeBetween(cid: Id) returns (steps: seq<Step>)
    ensures ExecFrom(Init(), steps).Some? && Dead(ExecFrom(Init(), steps).value, cid)
    ensures AboutToListen(ExecFrom(Init(), steps).value, cid)
  {
    hide ExecFrom;
    var s, o := Init(), Outcome(true, 8080, 1);
    steps := [];
    ExecNothing(s);
    steps, s := Next(steps, s, Create(cid, 0));
    steps, s := Next(steps, s, Start(0, cid));
    steps, s := Next(steps, s, Go(0, o));
    steps, s := Next(steps, s, Go(0, o));
    steps, s := Next(steps, s, Go(0, o));
    steps, s := Next(steps, s, Destroy(cid));
  }

  lemma ExecNothing(s: State)
    ensures ExecFrom(s, []) == Some(s)
  {
  }

  lemma Next(steps: seq<Step>, s: State, step: Step) returns (more: seq<Step>, s': State)
    requires ExecFrom(Init(), steps) == Some(s) && Enabled(s, step)
    ensures more == steps + [step] && s' == Apply(s, step) && ExecFrom(Init(), more) == Some(s')
  {
    more, s' := steps + [step], Apply(s, step);
    ExecOne(s, step);
    ExecThen(Init(), steps, [step]);
  }

  // ---------------------------------------------------------------- recovery

  /** An accept loop has failed and gone on to create a new listener, or has been over since. */
  predicate Recovering(s: State, cid: Id) {
    && cid in s.containers && s.containers[cid].task.Some?
    && s.containers[cid].task.value in s.tasks
    && s.tasks[s.containers[cid].task.value].origin.Some?
  }

  lemma RecoveringStays(s: State, step: Step, cid: Id)
    requires Inv(s) && Recovering(s, cid) && Enabled(s, step)
    ensures var s' := Apply(s, step);
      Recovering(s', cid) && s'.containers[cid].bound == s.containers[cid].bound
  {
    assert Cell(s, cid);
    if Mover(s, step) != cid {
      OthersStay(s, step, cid);
    } else if step.Go? {
      assert Cell(s, s.tasks[step.tid].cid);
    }
  }

  /** Recovery never succeeds: the failed accept loop closes its own listener only when it returns,
      so the same port cannot be bound again, and nobody tries later. From then on the container has
      no source server while it lives, and no further listener is bound for it. */
  lemma {:induction false} RecoveryNeverRebinds(steps: seq<Step>, more: seq<Step>, cid: Id)
    requires ExecFrom(Init(), steps).Some? && Recovering(ExecFrom(Init(), steps).value, cid)
    requires ExecFrom(ExecFrom(Init(), steps).value, more).Some?
    ensures var s, s' := ExecFrom(Init(), steps).value, ExecFrom(ExecFrom(Init(), steps).value, more).value;
      && Inv(s') && Recovering(s', cid)
      && s'.containers[cid].bound == s.containers[cid].bound == 1
      && (s'.containers[cid].live ==> s'.containers[cid].server == None)
  {
    var s := ExecFrom(Init(), steps).value;
    ReachableOk(steps);
    if more != [] {
      var init := more[..|more| - 1];
      RecoveryNeverRebinds(steps, init, cid);
      var t := ExecFrom(s, init).value;
      RecoveringStays(t, more[|more| - 1], cid);
      StepKeeps(t, more[|more| - 1]);
    }
    assert Cell(s, cid);
    assert Cell(ExecFrom(s, more).value, cid);
  }

  /** So each container binds at most one listener in its life. */
  lemma OneListenerEver(steps: seq<Step>, cid: Id)
    requires ExecFrom(Init(), steps).Some? && cid in ExecFrom(Init(), steps).value.containers
    ensures ExecFrom(Init(), steps).value.containers[cid].bound <= 1
    ensures |Mine(ExecFrom(Init(), steps).value, cid)| <= 1
  {
    var s := ExecFrom(Init(), steps).value;
    ReachableOk(steps);
    assert Cell(s, cid);
    var c := s.containers[cid];
    if c.task.Some? && s.tasks[c.task.value].origin.Some? {
      var l := s.tasks[c.task.value].origin.value;
      assert Mine(s, cid) <= {l};
      if l in Mine(s, cid) {
        assert Mine(s, cid) == {l};
      } else {
        assert Mine(s, cid) == {};
      }
    }
  }

  /** Recovery is reached: a container that serves, whose accept then fails for good, is live and
      recovering. */
  lemma RecoveryHappens(cid: Id) returns (steps: seq<Step>)
    ensures ExecFrom(Init(), steps).Some? && Recovering(ExecFrom(Init(), steps).value, cid)
    ensures ExecFrom(Init(), steps).value.containers[cid].live
  {
    hide ExecFrom;
    var s;
    steps, s := Served(cid);
    var fails := Outcome(false, 1, 2);
    steps, s := Next(steps, s, Go(1, fails));
    steps, s := Next(steps, s, Go(1, fails));
  }

  /** A container whose public listener is served by goroutine 1. */
  lemma Served(cid: Id) returns (steps: seq<Step>, s: State)
    ensures ExecFrom(Init(), steps) == Some(s) && s.tasks.Keys == {0, 1}
    ensures cid in s.containers && s.containers[cid] == Container(true, 0, 8080, Some(0), Some(1), 1)
    ensures 1 in s.tasks && s.tasks[1] == Task(cid, Accepting(0), None)
  {
    hide ExecFrom;
    var o := Outcome(true, 8080, 1);
    ExecNothing(Init());
    steps, s := Next([], Init(), Create(cid, 0));
    steps, s := Next(steps, s, Start(0, cid));
    steps, s := Next(steps, s, Go(0, o));
    steps, s := Next(steps, s, Go(0, o));
    steps, s := Next(steps, s, Go(0, o));
    assert s == State(map[cid := Container(true, 0, 8080, None, Some(0), 0)],
                      map[0 := Task(cid, AtListen(8080), None)], map[], 0);
    steps, s := Next(steps, s, Go(0, o));
    steps, s := Next(steps, s, Go(0, o));
    steps, s := Next(steps, s, Go(0, o));
  }

  // ---------------------------------------------------------------- creation

  /** The port a new listener is to have: the one the client asked for, else one that is available. */
  function Wanted(c: Container, available: nat): nat {
    if c.tunnelPort > 0 then c.tunnelPort else available
  }

  /** The creating goroutine has come this far, and nothing else has changed but what it did itself. */
  predicate Underway(s: State, s': State, cid: Id, tid: nat, pc: Pc, c: Container) {
    && s'.containers == s.containers[cid := c] && tid in s'.tasks && s'.tasks[tid] == Task(cid, pc, None)
    && s'.tasks.Keys == s.tasks.Keys + {tid}
  }

  lemma PreparingMoves(s: State, s0: State, cid: Id, tid: nat, available: nat, nt: nat, c: Container)
    requires Underway(s0, s, cid, tid, AtGet, c) && s.listeners == s0.listeners && s.next == s0.next
    requires c.live && c.server == None && c.sourcePort == 0 && available > 0 && nt !in s.tasks && nt != tid
    requires PortFree(s, Wanted(c, available))
    ensures var go, p := Go(tid, Outcome(true, available, nt)), Wanted(c, available);
      && Enabled(s, go) && Enabled(Apply(s, go), go) && Enabled(Apply(Apply(s, go), go), go)
      && var s3 := Apply(Apply(Apply(s, go), go), go);
         && Underway(s0, s3, cid, tid, AtListen(p), c.(sourcePort := p))
         && s3.listeners == s0.listeners && s3.next == s0.next
  {
  }

  lemma ListeningMoves(s: State, s0: State, cid: Id, tid: nat, available: nat, nt: nat, c: Container, p: nat)
    requires Underway(s0, s, cid, tid, AtListen(p), c) && s.listeners == s0.listeners && s.next == s0.next
    requires c.live && available > 0 && nt !in s.tasks && nt != tid && PortFree(s, p)
    ensures var go := Go(tid, Outcome(true, available, nt));
      && Enabled(s, go) && Enabled(Apply(s, go), go) && Enabled(Apply(Apply(s, go), go), go)
      && var s3 := Apply(Apply(Apply(s, go), go), go);
         && s3.containers == s0.containers[cid := c.(bound := c.bound + 1, server := Some(s0.next), task := Some(nt))]
         && tid in s3.tasks && s3.tasks[tid] == Task(cid, Done, None)
         && nt in s3.tasks && s3.tasks[nt] == Task(cid, Accepting(s0.next), None)
         && s3.listeners == s0.listeners[s0.next := Listener(cid, p)]
  {
  }

  lemma Starts(s: State, cid: Id, tid: nat)
    requires cid in s.containers && tid !in s.tasks && s.containers[cid].task == None
    ensures Enabled(s, Start(tid, cid))
    ensures var s1 := Apply(s, Start(tid, cid));
      && Underway(s, s1, cid, tid, AtGet, s.containers[cid].(task := Some(tid)))
      && s1.listeners == s.listeners && s1.next == s.next
  {
  }

  lemma SamePorts(s: State, t: State, port: nat)
    requires s.listeners == t.listeners
    ensures PortFree(s, port) == PortFree(t, port)
  {
  }

  /** Whatever else is going on, a new container whose calls all succeed and whose port is free is served
      on that port: a listener is bound for it, made its source server and accepted on. */
  lemma CreationServes(s: State, cid: Id, tid: nat, available: nat, nt: nat) returns (more: seq<Step>)
    requires cid in s.containers && tid !in s.tasks && nt !in s.tasks && nt != tid && available > 0
    requires var c := s.containers[cid];
      c.live && c.task == None && c.server == None && c.sourcePort == 0 && PortFree(s, Wanted(c, available))
    ensures ExecFrom(s, more).Some?
    ensures var c, s', p := s.containers[cid], ExecFrom(s, more).value, Wanted(s.containers[cid], available);
      && s'.containers == s.containers[cid :=
           c.(sourcePort := p, bound := c.bound + 1, server := Some(s.next), task := Some(nt))]
      && nt in s'.tasks && s'.tasks[nt] == Task(cid, Accepting(s.next), None)
      && tid in s'.tasks && s'.tasks[tid].pc == Done
      && s'.listeners == s.listeners[s.next := Listener(cid, p)]
  {
    hide Apply, Enabled, ExecFrom, PortFree;
    var c := s.containers[cid].(task := Some(tid));
    var p := Wanted(c, available);
    var go := Go(tid, Outcome(true, available, nt));
    Starts(s, cid, tid);
    var s1 := Apply(s, Start(tid, cid));
    SamePorts(s, s1, p);
    PreparingMoves(s1, s, cid, tid, available, nt, c);
    var s4 := Apply(Apply(Apply(s1, go), go), go);
    SamePorts(s, s4, p);
    ListeningMoves(s4, s, cid, tid, available, nt, c.(sourcePort := p), p);
    hide Underway;
    ExecOne(s, Start(tid, cid));
    more := ThreeMoves(s, [Start(tid, cid)], go);
    more := ThreeMoves(s, more, go);
  }

  /** Three more moves of one goroutine. */
  lemma ThreeMoves(s: State, steps: seq<Step>, go: Step) returns (more: seq<Step>)
    requires ExecFrom(s, steps).Some?
    requires var t := ExecFrom(s, steps).value;
      Enabled(t, go) && Enabled(Apply(t, go), go) && Enabled(Apply(Apply(t, go), go), go)
    ensures ExecFrom(s, more) == Some(Apply(Apply(Apply(ExecFrom(s, steps).value, go), go), go))
  {
    more := OneMove(s, steps, go);
    more := OneMove(s, more, go);
    more := OneMove(s, more, go);
  }

  lemma OneMove(s: State, steps: seq<Step>, go: Step) returns (more: seq<Step>)
    requires ExecFrom(s, steps).Some? && Enabled(ExecFrom(s, steps).value, go)
    ensures ExecFrom(s, more) == Some(Apply(ExecFrom(s, steps).value, go))
  {
    more := steps + [go];
    assert more[..|more| - 1] == steps;
  }
}
