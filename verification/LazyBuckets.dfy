/** Client buckets made on first use while limits change: the limit is read in one locked section and
    the bucket is made in another. */
module LazyBuckets {
  import opened Words
  import Limiter

  /** Between the two sections a goroutine holds on to the limit object it read. */
  datatype Pending = Pending(id: Id, limit: nat, checked: bool)

  /** Limit objects are numbered; `values` is what they say for this direction, `buckets` the rates of
      the stored buckets. */
  datatype State = State(limits: map<Id, nat>, values: map<nat, Option<real>>,
                         buckets: map<Id, real>, pending: map<nat, Pending>)

  /** Constructed: no client has a bucket yet. */
  function Init(limits: map<Id, nat>, values: map<nat, Option<real>>): State {
    State(limits, values, map[], map[])
  }

  datatype Step =
    | Read(tid: nat, id: Id)                       // first section
    | Look(tid: nat)                               // no limit in this direction: no bucket
    | Create(tid: nat)                             // second section
    | Set(id: Id, rate: Option<real>, ref: nat)
    | Remove(id: Id)
    | Update(limits: map<Id, nat>, values: map<nat, Option<real>>)

  predicate Injective(limits: map<Id, nat>) {
    forall a, b :: a in limits && b in limits && limits[a] == limits[b] ==> a == b
  }

  ghost predicate Enabled(s: State, step: Step) {
    match step
    case Read(tid, id) => tid !in s.pending && id != Limiter.NO_CLIENT
    case Look(tid) => tid in s.pending && !s.pending[tid].checked && s.pending[tid].limit in s.values
    case Create(tid) => tid in s.pending && s.pending[tid].checked && Says(s, s.pending[tid].limit)
    case Set(id, _, ref) => id in s.limits || ref !in s.values
    case Remove(_) => true
    case Update(limits, values) => Injective(limits) && limits.Values <= values.Keys && values.Keys !! s.values.Keys
  }

  /** The limit object names a rate for this direction. */
  predicate Says(s: State, ref: nat) {
    ref in s.values && s.values[ref].Some?
  }

  predicate Limited(s: State, id: Id) {
    id in s.limits && Says(s, s.limits[id])
  }

  function AfterCreate(s: State, tid: nat): State
    requires tid in s.pending && Says(s, s.pending[tid].limit)
  {
    var p := s.pending[tid];
    s.(pending := s.pending - {tid},
       buckets := if p.id in s.buckets then s.buckets else s.buckets[p.id := s.values[p.limit].value])
  }

  /** Merged into the client's limit object, or into a new one. */
  function AfterSet(s: State, id: Id, rate: Option<real>, ref: nat): State {
    var o := if id in s.limits then s.limits[id] else ref;
    var was := if id in s.limits && o in s.values then s.values[o] else None;
    s.(limits := s.limits[id := o],
       values := s.values[o := if rate.Some? then rate else was],
       buckets := if rate.Some? then s.buckets[id := rate.value] else s.buckets)
  }

  function AfterUpdate(s: State, limits: map<Id, nat>, values: map<nat, Option<real>>): State
    requires limits.Values <= values.Keys
  {
    s.(limits := limits, values := s.values + values,
       buckets := map id | id in limits && values[limits[id]].Some? :: values[limits[id]].value)
  }

  function Apply(s: State, step: Step): State
    requires Enabled(s, step)
  {
    match step
    case Read(tid, id) =>
      if id in s.limits then s.(pending := s.pending[tid := Pending(id, s.limits[id], false)]) else s
    case Look(tid) =>
      var p := s.pending[tid];
      if s.values[p.limit].None? then s.(pending := s.pending - {tid})
      else s.(pending := s.pending[tid := p.(checked := true)])
    case Create(tid) => AfterCreate(s, tid)
    case Set(id, rate, ref) => AfterSet(s, id, rate, ref)
    case Remove(id) => s.(limits := s.limits - {id}, buckets := s.buckets - {id})
    case Update(limits, values) => AfterUpdate(s, limits, values)
  }

  ghost function Exec(s: State, steps: seq<Step>): Option<State> {
    if steps == [] then Some(s)
    else
      var before := Exec(s, steps[..|steps| - 1]);
      if before.Some? && Enabled(before.value, steps[|steps| - 1])
      then Some(Apply(before.value, steps[|steps| - 1])) else None
  }

  // ---------------------------------------------------------------- what every interleaving keeps

  /** Every client that has a limit and a bucket has the bucket of that limit. */
  predicate Matching(s: State) {
    forall id :: Limited(s, id) && id in s.buckets ==> Some(s.buckets[id]) == s.values[s.limits[id]]
  }

  ghost predicate Wellformed(s: State) {
    && Injective(s.limits)
    && (forall id :: id in s.limits ==> s.limits[id] in s.values)
    && forall tid :: tid in s.pending ==>
         s.pending[tid].limit in s.values && (s.pending[tid].checked ==> Says(s, s.pending[tid].limit))
  }

  /** A limit without a bucket is one nobody has changed: all who wait for its bucket read it. */
  ghost predicate Untouched(s: State) {
    forall id, tid :: Limited(s, id) && id !in s.buckets && tid in s.pending && s.pending[tid].id == id ==>
      s.pending[tid].limit == s.limits[id]
  }

  /** No two clients share a limit object, also among those removed. */
  ghost predicate OwnObjects(s: State) {
    forall id, tid :: id in s.limits && tid in s.pending && s.pending[tid].limit == s.limits[id] ==>
      s.pending[tid].id == id
  }

  ghost predicate Inv(s: State) {
    Wellformed(s) && Matching(s) && Untouched(s) && OwnObjects(s)
  }

  lemma StepWellformed(s: State, step: Step)
    requires Wellformed(s) && Enabled(s, step)
    ensures Wellformed(Apply(s, step))
  {
  }

  lemma StepMatching(s: State, step: Step)
    requires Inv(s) && Enabled(s, step)
    ensures Matching(Apply(s, step))
  {
  }

  lemma StepUntouched(s: State, step: Step)
    requires Inv(s) && Enabled(s, step)
    ensures Untouched(Apply(s, step))
  {
  }

  lemma StepOwnObjects(s: State, step: Step)
    requires Wellformed(s) && OwnObjects(s) && Enabled(s, step)
    ensures OwnObjects(Apply(s, step))
  {
  }

  lemma {:induction false} StepKeeps(s: State, step: Step)
    requires Inv(s) && Enabled(s, step)
    ensures Inv(Apply(s, step))
  {
    hide Apply;
    StepWellformed(s, step);
    StepMatching(s, step);
    StepUntouched(s, step);
    StepOwnObjects(s, step);
  }

  lemma {:induction false} ExecKeeps(s: State, steps: seq<Step>)
    requires Inv(s)
    ensures Exec(s, steps).Some? ==> Inv(Exec(s, steps).value)
  {
    hide Inv, Apply, Enabled;
    if steps != [] && Exec(s, steps).Some? {
      ExecKeeps(s, steps[..|steps| - 1]);
      StepKeeps(Exec(s, steps[..|steps| - 1]).value, steps[|steps| - 1]);
    }
  }

  /** A configuration as it is read from a file: an object of its own for each client. */
  predicate Configured(limits: map<Id, nat>, values: map<nat, Option<real>>) {
    Injective(limits) && limits.Values <= values.Keys
  }

  lemma InitKeeps(limits: map<Id, nat>, values: map<nat, Option<real>>)
    requires Configured(limits, values)
    ensures Inv(Init(limits, values))
  {
  }

  /** Whatever limit changes come between the two sections of whatever checks, a bucket stored for a
      client that has a limit always has the rate of that limit. */
  lemma {:induction false} LimitedBucketsMatch(limits: map<Id, nat>, values: map<nat, Option<real>>,
                                               steps: seq<Step>, id: Id)
    requires Configured(limits, values) && Exec(Init(limits, values), steps).Some?
    ensures var s := Exec(Init(limits, values), steps).value;
      Limited(s, id) && id in s.buckets ==> Some(s.buckets[id]) == s.values[s.limits[id]]
  {
    InitKeeps(limits, values);
    ExecKeeps(Init(limits, values), steps);
  }

  // ---------------------------------------------------------------- buckets without a limit

  predicate Orphan(s: State, id: Id) {
    id in s.buckets && !Limited(s, id)
  }

  /** A goroutine makes the bucket of a client that has none and is no longer limited. */
  predicate MakesOrphan(s: State, step: Step, id: Id) {
    && step.Create? && step.tid in s.pending && s.pending[step.tid].id == id
    && id !in s.buckets && !Limited(s, id)
  }

  predicate Clears(step: Step, id: Id) {
    match step
    case Set(i, rate, _) => i == id && rate.Some?
    case Remove(i) => i == id
    case Update(_, _) => true
    case _ => false
  }

  lemma {:induction false} StepOrphans(s: State, step: Step, id: Id)
    requires Inv(s) && Enabled(s, step)
    ensures Orphan(Apply(s, step), id) <==> MakesOrphan(s, step, id) || (Orphan(s, id) && !Clears(step, id))
  {
  }

  /** The last of these steps that touched the matter made the bucket. */
  ghost predicate OrphanMade(s: State, steps: seq<Step>, id: Id, i: nat)
    requires i < |steps|
  {
    && Exec(s, steps[..i]).Some? && MakesOrphan(Exec(s, steps[..i]).value, steps[i], id)
    && forall j :: i < j < |steps| ==> !Clears(steps[j], id)
  }

  lemma OrphanMadeSnoc(s: State, steps: seq<Step>, step: Step, id: Id, i: nat)
    requires i < |steps|
    ensures OrphanMade(s, steps + [step], id, i) <==> OrphanMade(s, steps, id, i) && !Clears(step, id)
  {
    var more := steps + [step];
    assert more[..i] == steps[..i] && more[|steps|] == step;
    assert forall j :: i < j < |steps| ==> more[j] == steps[j];
  }

  /** A bucket without a limit is stored exactly when a goroutine made it at a moment when the limit it
      had read was gone, and neither a new limit, a removal nor an update came since. */
  lemma {:induction false} OrphanExactly(limits: map<Id, nat>, values: map<nat, Option<real>>, steps: seq<Step>, id: Id)
    requires Configured(limits, values) && Exec(Init(limits, values), steps).Some?
    ensures Orphan(Exec(Init(limits, values), steps).value, id)
       <==> exists i: nat :: i < |steps| && OrphanMade(Init(limits, values), steps, id, i)
  {
    hide Inv, Apply, Enabled, OrphanMade, MakesOrphan, Orphan;
    var s0 := Init(limits, values);
    InitKeeps(limits, values);
    if steps == [] {
      NoOrphan(limits, values, id);
    } else {
      var init, last := steps[..|steps| - 1], steps[|steps| - 1];
      var s := Exec(s0, init).value;
      OrphanExactly(limits, values, init, id);
      ExecKeeps(s0, init);
      StepOrphans(s, last, id);
      assert steps == init + [last];
      MadeLast(s0, steps, id);
      forall i: nat | i < |init|
        ensures OrphanMade(s0, steps, id, i) <==> OrphanMade(s0, init, id, i) && !Clears(last, id)
      {
        OrphanMadeSnoc(s0, init, last, id, i);
      }
    }
  }

  lemma NoOrphan(limits: map<Id, nat>, values: map<nat, Option<real>>, id: Id)
    ensures !Orphan(Init(limits, values), id)
  {
  }

  lemma MadeLast(s: State, steps: seq<Step>, id: Id)
    requires Exec(s, steps).Some? && steps != []
    ensures var init, last := steps[..|steps| - 1], steps[|steps| - 1];
      OrphanMade(s, steps, id, |steps| - 1) <==> MakesOrphan(Exec(s, init).value, last, id)
  {
  }

  // ---------------------------------------------------------------- only by a change in between

  predicate Detaches(step: Step, id: Id) {
    step.Update? || step == Remove(id)
  }

  /** The limit a goroutine holds is still the client's. */
  predicate Attached(s: State, p: Pending) {
    p.id in s.limits && s.limits[p.id] == p.limit
  }

  /** A goroutine read this client's limit, and then it was removed or replaced. */
  ghost predicate ChangedBetween(steps: seq<Step>, tid: nat, id: Id) {
    exists i, j :: 0 <= i < j < |steps| && steps[i] == Read(tid, id) && Detaches(steps[j], id)
  }

  lemma ReadAgain(steps: seq<Step>, step: Step, tid: nat, id: Id)
    ensures ChangedBetween(steps, tid, id) ==> ChangedBetween(steps + [step], tid, id)
    ensures Read(tid, id) in steps && Detaches(step, id) ==> ChangedBetween(steps + [step], tid, id)
  {
    var more := steps + [step];
    if ChangedBetween(steps, tid, id) {
      var i, j :| 0 <= i < j < |steps| && steps[i] == Read(tid, id) && Detaches(steps[j], id);
      assert more[i] == Read(tid, id) && Detaches(more[j], id);
    }
    if Read(tid, id) in steps && Detaches(step, id) {
      var i :| 0 <= i < |steps| && steps[i] == Read(tid, id);
      assert more[i] == Read(tid, id) && Detaches(more[|steps|], id);
    }
  }

  lemma PendingStep(s: State, step: Step, tid: nat)
    requires Enabled(s, step) && tid in Apply(s, step).pending
    ensures var p := Apply(s, step).pending[tid];
      if tid in s.pending then
        && s.pending[tid].id == p.id
        && (Attached(s, s.pending[tid]) && !Detaches(step, p.id) ==> Attached(Apply(s, step), p))
      else
        step == Read(tid, p.id) && Attached(Apply(s, step), p)
  {
  }

  lemma {:induction false} DetachedByChange(s: State, steps: seq<Step>, tid: nat)
    requires s.pending == map[] && Exec(s, steps).Some? && tid in Exec(s, steps).value.pending
    ensures var u := Exec(s, steps).value; var p := u.pending[tid];
      Read(tid, p.id) in steps && (Attached(u, p) || ChangedBetween(steps, tid, p.id))
  {
    hide Enabled, Apply, Attached, ChangedBetween, Detaches;
    var init, last := steps[..|steps| - 1], steps[|steps| - 1];
    assert steps == init + [last];
    var before := Exec(s, init).value;
    PendingStep(before, last, tid);
    if tid in before.pending {
      DetachedByChange(s, init, tid);
      ReadAgain(init, last, tid, before.pending[tid].id);
    }
  }

  /** Such a bucket needs a removal or an update between the two sections of the goroutine that made it. */
  lemma {:induction false} OrphanNeedsChange(limits: map<Id, nat>, values: map<nat, Option<real>>,
                                             steps: seq<Step>, step: Step, id: Id)
    requires Configured(limits, values) && Exec(Init(limits, values), steps).Some?
    requires Enabled(Exec(Init(limits, values), steps).value, step)
    requires MakesOrphan(Exec(Init(limits, values), steps).value, step, id)
    ensures ChangedBetween(steps, step.tid, id)
  {
    DetachedByChange(Init(limits, values), steps, step.tid);
    hide ChangedBetween, Exec;
  }

  /** It does happen: the limit is removed while a bucket is about to be made for it. */
  lemma {:induction false} OrphanHappens(id: Id, rate: real) returns (steps: seq<Step>)
    requires id != Limiter.NO_CLIENT
    ensures var s0 := Init(map[id := 0], map[0 := Some(rate)]);
      Exec(s0, steps).Some? && Orphan(Exec(s0, steps).value, id)
  {
    var s0 := Init(map[id := 0], map[0 := Some(rate)]);
    steps := With(s0, [], Read(0, id));
    steps := With(s0, steps, Look(0));
    steps := With(s0, steps, Remove(id));
    steps := With(s0, steps, Create(0));
  }

  lemma With(s: State, steps: seq<Step>, step: Step) returns (more: seq<Step>)
    requires Exec(s, steps).Some? && Enabled(Exec(s, steps).value, step)
    ensures Exec(s, more) == Some(Apply(Exec(s, steps).value, step))
  {
    more := steps + [step];
    assert more[..|more| - 1] == steps;
  }

  // ---------------------------------------------------------------- nothing in between

  /** The rates in force in this direction. */
  function Rates(s: State): map<Id, real> {
    map id | id in s.limits && Says(s, s.limits[id]) :: s.values[s.limits[id]].value
  }

  /** The same direction as the sequential limiter sees it. */
  predicate Shows(s: State, t: Limiter.Table) {
    && Rates(s) == t.rates && s.buckets.Keys == t.clients.Keys
    && forall id :: id in s.buckets ==> Limiter.Matches(t.clients[id], s.buckets[id])
  }

  /** The goroutine's steps in one go. */
  function AllSteps(s: State, tid: nat, id: Id): State
    requires Wellformed(s) && tid !in s.pending && id != Limiter.NO_CLIENT
  {
    var s1 := Apply(s, Read(tid, id));
    if tid !in s1.pending then s1
    else
      var s2 := Apply(s1, Look(tid));
      if tid !in s2.pending then s2 else Apply(s2, Create(tid))
  }

  lemma AllStepsAre(s: State, tid: nat, id: Id)
    requires Wellformed(s) && tid !in s.pending && id != Limiter.NO_CLIENT
    ensures AllSteps(s, tid, id) ==
      if Limited(s, id) && id !in s.buckets then s.(buckets := s.buckets[id := s.values[s.limits[id]].value]) else s
  {
    if id in s.limits {
      var o := s.limits[id];
      var s1 := Apply(s, Read(tid, id));
      assert s1.pending - {tid} == s.pending;
      if s.values[o].Some? {
        assert Apply(s1, Look(tid)).pending - {tid} == s.pending;
      }
    }
  }

  /** Uninterrupted, the two sections are the sequential limiter's one step. */
  lemma UninterruptedIsObtain(s: State, t: Limiter.Table, tid: nat, id: Id, now: real)
    requires Inv(s) && Shows(s, t) && tid !in s.pending && id != Limiter.NO_CLIENT
    ensures Shows(AllSteps(s, tid, id), Limiter.Obtain(t, id, now))
  {
    AllStepsAre(s, tid, id);
    hide Inv, Wellformed, AllSteps, Rates;
    RatesAre(s, id);
    assert AllSteps(s, tid, id).limits == s.limits && AllSteps(s, tid, id).values == s.values;
    SameRates(s, AllSteps(s, tid, id));
  }

  lemma RatesAre(s: State, id: Id)
    ensures id in Rates(s) <==> Limited(s, id)
    ensures id in Rates(s) ==> Some(Rates(s)[id]) == s.values[s.limits[id]]
  {
  }

  lemma SameRates(s: State, u: State)
    requires s.limits == u.limits && s.values == u.values
    ensures Rates(s) == Rates(u)
  {
  }

  // ---------------------------------------------------------------- changes of limits

  /** Setting a limit is what the sequential limiter does. */
  lemma SetIsSetLimit(s: State, t: Limiter.Table, id: Id, rate: Option<real>, ref: nat, now: real)
    requires Inv(s) && Shows(s, t) && Enabled(s, Set(id, rate, ref))
    ensures Shows(Apply(s, Set(id, rate, ref)), Limiter.SetLimit(t, id, rate, now))
  {
    hide Rates;
    var u, v := Apply(s, Set(id, rate, ref)), Limiter.SetLimit(t, id, rate, now);
    forall j ensures (j in Rates(u) <==> j in v.rates) && (j in Rates(u) ==> Rates(u)[j] == v.rates[j]) {
      RatesAre(s, j);
      RatesAre(u, j);
    }
  }

  /** So is removing one. */
  lemma RemoveIsRemoveLimit(s: State, t: Limiter.Table, id: Id)
    requires Shows(s, t)
    ensures Shows(Apply(s, Remove(id)), Limiter.RemoveLimit(t, id))
  {
    hide Rates;
    var u, v := Apply(s, Remove(id)), Limiter.RemoveLimit(t, id);
    forall j ensures (j in Rates(u) <==> j in v.rates) && (j in Rates(u) ==> Rates(u)[j] == v.rates[j]) {
      RatesAre(s, j);
      RatesAre(u, j);
    }
  }

  lemma UpdatedRates(s: State, limits: map<Id, nat>, values: map<nat, Option<real>>)
    requires Enabled(s, Update(limits, values))
    ensures Rates(AfterUpdate(s, limits, values)) == Rates(Init(limits, values))
  {
  }

  lemma UpdatedBuckets(s: State, limits: map<Id, nat>, values: map<nat, Option<real>>)
    requires Enabled(s, Update(limits, values))
    ensures AfterUpdate(s, limits, values).buckets == Rates(Init(limits, values))
  {
  }

  /** And so is replacing them all. */
  lemma UpdateIsUpdated(s: State, limits: map<Id, nat>, values: map<nat, Option<real>>,
                        globalRate: Option<real>, now: real)
    requires Enabled(s, Update(limits, values))
    ensures var u := Apply(s, Update(limits, values));
      Shows(u, Limiter.Updated(Rates(Init(limits, values)), globalRate, now))
  {
    UpdatedRates(s, limits, values);
    UpdatedBuckets(s, limits, values);
    hide AfterUpdate, Rates;
  }
}
