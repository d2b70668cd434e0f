/** When a bandwidth check is refused after both its probes said yes, and what that costs. */
module LateRefusals {
  import opened Words
  import opened TokenBuckets
  import opened ConcurrentLimiter
  import Limiter

  predicate Late(pc: Pc) {
    pc == LateGlobal || pc == LateClient
  }

  // ---------------------------------------------------------------- the check with nobody between its turns

  function BucketAt(s: State, key: Key): Option<Bucket> {
    if key in s.buckets then Some(s.buckets[key]) else None
  }

  function PairAt(s: State, id: Id): Limiter.Pair {
    Limiter.Pair(BucketAt(s, Client(id)), BucketAt(s, Global))
  }

  function PcOf(v: Limiter.Verdict): Pc {
    match v
    case Granted => Pc.Granted
    case ClientRefused => Refused
    case GlobalRefused => Refused
    case LateGlobal => Pc.LateGlobal
    case LateClient => Pc.LateClient
  }

  /** All four turns of one thread; a thread that is through does not move. */
  function FourTurns(s: State, tid: nat, ts: Limiter.Instants): State
    requires tid in s.threads
  {
    var s1 := Advance(s, tid, ts.probeClient);
    var s2 := Advance(s1, tid, ts.probeGlobal);
    var s3 := Advance(s2, tid, ts.takeGlobal);
    Advance(s3, tid, ts.takeClient)
  }

  /** The two models of a check are one: a thread's turns, taken together, are the sequential check
      of the same pair of buckets, and touch no other bucket. */
  lemma {:induction false} FourTurnsAreTheCheck(s: State, tid: nat, ts: Limiter.Instants)
    requires tid in s.threads && s.threads[tid].pc == Started && s.threads[tid].id != Limiter.NO_CLIENT
    ensures var t, s' := s.threads[tid], FourTurns(s, tid, ts);
      var (v, q) := Limiter.CheckPair(PairAt(s, t.id), t.n, ts);
      && s'.threads == s.threads[tid := t.(pc := PcOf(v))]
      && PairAt(s', t.id) == q
      && forall k :: k != Global && k != Client(t.id) ==> BucketAt(s', k) == BucketAt(s, k)
  {
    hide Operate, BucketAt, Limiter.HasIn, Limiter.RefillIn, Limiter.DebitIn;
    var t := s.threads[tid];
    OperateIs(s, tid, Client(t.id), Probe(ts.probeClient), ClientSeen, Refused);
    var s1 := Advance(s, tid, ts.probeClient);
    OperateIs(s1, tid, Global, Probe(ts.probeGlobal), GlobalSeen, Refused);
    var s2 := Advance(s1, tid, ts.probeGlobal);
    OperateIs(s2, tid, Global, Consume(t.n, ts.takeGlobal), GlobalTaken, LateGlobal);
    var s3 := Advance(s2, tid, ts.takeGlobal);
    OperateIs(s3, tid, Client(t.id), Consume(t.n, ts.takeClient), Granted, LateClient);
  }

  lemma OperateIs(s: State, tid: nat, key: Key, call: TokenBuckets.Call, yes: Pc, no: Pc)
    requires tid in s.threads && (call.Consume? ==> call.n == s.threads[tid].n)
    ensures var t, b := s.threads[tid], BucketAt(s, key);
      var s' := Operate(s, tid, key, call, t.n, yes, no);
      && s'.threads == s.threads[tid := t.(pc := if Limiter.HasIn(b, t.n, call.at) then yes else no)]
      && BucketAt(s', key) == (if call.Probe? then Limiter.RefillIn(b, call.at) else Limiter.DebitIn(b, t.n, call.at))
      && forall k :: k != key ==> BucketAt(s', k) == BucketAt(s, k)
  {
  }

  /** A call without client id, likewise. */
  lemma {:induction false} OneTurnIsTheCheck(s: State, tid: nat, at: real)
    requires tid in s.threads && s.threads[tid].pc == Started && s.threads[tid].id == Limiter.NO_CLIENT
    ensures var t, s', b := s.threads[tid], Advance(s, tid, at), BucketAt(s, Global);
      && s'.threads[tid].pc == (if Limiter.HasIn(b, t.n, at) then Granted else Refused)
      && BucketAt(s', Global) == Limiter.DebitIn(b, t.n, at)
      && forall k :: k != Global ==> BucketAt(s', k) == BucketAt(s, k)
  {
  }

  // ---------------------------------------------------------------- a bucket in any interleaving

  lemma BucketIs(rates: map<Key, real>, start: real, s: State, key: Key, at: real)
    requires Inv(rates, start, s) && key in rates && s.now <= at
    ensures key in s.buckets && s.buckets[key].capacity == rates[key] == s.buckets[key].rate
    ensures 0.0 <= rates[key] ==> 0.0 <= Refill(s.buckets[key], at).tokens
    ensures Refill(s.buckets[key], at).tokens <= rates[key]
  {
    assert BucketFollowsLog(rates, start, s, key);
    var r, cs := rates[key], CallsOn(s.log, key);
    var b := New(r, r, start);
    RunKeepsParameters(b, cs);
    if 0.0 <= r {
      TokensNeverNegative(r, r, start, cs);
      EarnedPositive(r, at - s.buckets[key].lastRefill);
    }
  }

  // ---------------------------------------------------------------- undisturbed threads are not late

  predicate Touches(e: Entry, id: Id) {
    e.key == Global || e.key == Client(id)
  }

  /** No other thread has used the global bucket or this client's since this thread's first entry. */
  predicate AloneSoFar(log: seq<Entry>, tid: nat, id: Id) {
    forall i, j :: 0 <= i < j < |log| && log[i].tid == tid && log[j].tid != tid ==> !Touches(log[j], id)
  }

  /** No other thread used them between this thread's first entry and its last. */
  predicate Undisturbed(log: seq<Entry>, tid: nat, id: Id) {
    forall i, j, k :: 0 <= i < j < k < |log| && log[i].tid == tid && log[k].tid == tid && log[j].tid != tid ==>
      !Touches(log[j], id)
  }

  lemma AloneSnoc(log: seq<Entry>, e: Entry, tid: nat, id: Id)
    ensures AloneSoFar(log + [e], tid, id) ==> AloneSoFar(log, tid, id)
    ensures AloneSoFar(log + [e], tid, id) && e.tid != tid && Touches(e, id) ==> !Entered(log, tid)
    ensures Undisturbed(log + [e], tid, id) ==> Undisturbed(log, tid, id)
    ensures Undisturbed(log + [e], tid, id) && e.tid == tid ==> AloneSoFar(log, tid, id)
  {
    var more := log + [e];
    assert forall i :: 0 <= i < |log| ==> more[i] == log[i];
    if Undisturbed(more, tid, id) && e.tid == tid {
      forall i, j | 0 <= i < j < |log| && log[i].tid == tid && log[j].tid != tid ensures !Touches(log[j], id) {
        assert more[i].tid == tid && more[j].tid != tid && more[|log|].tid == tid;
      }
    }
    if Entered(log, tid) && e.tid != tid {
      var i :| 0 <= i < |log| && log[i].tid == tid;
      assert more[i].tid == tid && more[|log|] == e;
    }
  }

  predicate Entered(log: seq<Entry>, tid: nat) {
    exists i :: 0 <= i < |log| && log[i].tid == tid
  }

  lemma EnteredSnoc(log: seq<Entry>, e: Entry, tid: nat)
    ensures Entered(log + [e], tid) <==> Entered(log, tid) || e.tid == tid
  {
    var more := log + [e];
    if e.tid == tid {
      assert more[|log|].tid == tid;
    }
    if Entered(log, tid) {
      var i :| 0 <= i < |log| && log[i].tid == tid;
      assert more[i].tid == tid;
    }
  }

  /** From now on there are n tokens, as long as nobody takes any. */
  ghost predicate Lasts(b: Bucket, n: real, now: real) {
    forall t :: now <= t ==> Has(b, n, t)
  }

  /** If the bucket exists, the thread has looked at it and would still find its n tokens. */
  ghost predicate Warranted(s: State, tid: nat, n: real, key: Key) {
    key in s.buckets ==> Entered(s.log, tid) && Lasts(s.buckets[key], n, s.now)
  }

  ghost predicate Ready(s: State, tid: nat, t: Thread) {
    && (t.pc == ClientSeen || t.pc == GlobalSeen || t.pc == GlobalTaken ==> Warranted(s, tid, t.n, Client(t.id)))
    && (t.pc == GlobalSeen ==> Warranted(s, tid, t.n, Global))
  }

  ghost predicate Safe(s: State, tid: nat, t: Thread) {
    && (AloneSoFar(s.log, tid, t.id) ==> Ready(s, tid, t))
    && (Undisturbed(s.log, tid, t.id) ==> !Late(t.pc))
  }

  /** What others do to a bucket between the thread's turns. */
  lemma {:induction false} OthersTurn(s: State, other: nat, key: Key, call: TokenBuckets.Call, n: real, yes: Pc, no: Pc,
                                      tid: nat, t: Thread)
    requires other in s.threads && other != tid && s.now <= call.at && Safe(s, tid, t)
    ensures Safe(Operate(s, other, key, call, n, yes, no), tid, t)
  {
    hide Has, TokenBuckets.Step;
    if key in s.buckets {
      var e := Entry(other, key, call, if Has(s.buckets[key], n, call.at) && call.Consume? then n else 0.0);
      AloneSnoc(s.log, e, tid, t.id);
      EnteredSnoc(s.log, e, tid);
      hide AloneSoFar, Undisturbed, Entered;
      assert Operate(s, other, key, call, n, yes, no).log == s.log + [e];
    }
  }

  /** The thread's own turn: a probe that says yes warrants the bucket, and a warranted take succeeds. */
  lemma {:induction false} OwnTurn(s: State, tid: nat, t: Thread, key: Key, call: TokenBuckets.Call, yes: Pc, no: Pc)
    requires tid in s.threads && s.threads[tid] == t && s.now <= call.at && Safe(s, tid, t) && 0.0 <= t.n
    requires ThreadMay(t, key, call, yes, no)
    requires key in s.buckets ==> s.buckets[key].capacity == s.buckets[key].rate
    ensures var s' := Operate(s, tid, key, call, t.n, yes, no); Safe(s', tid, s'.threads[tid])
  {
    if key in s.buckets {
      var b, ok := s.buckets[key], Has(s.buckets[key], t.n, call.at);
      var e := Entry(tid, key, call, if ok && call.Consume? then t.n else 0.0);
      AloneSnoc(s.log, e, tid, t.id);
      EnteredSnoc(s.log, e, tid);
      if ok && call.Probe? {
        ProbeWarrants(b, t.n, call.at);
      }
      hide AloneSoFar, Undisturbed, Entered, Has, TokenBuckets.Step;
      assert Operate(s, tid, key, call, t.n, yes, no).log == s.log + [e];
    }
  }

  lemma ProbeWarrants(b: Bucket, n: real, at: real)
    requires b.capacity == b.rate && 0.0 <= n && Has(b, n, at)
    ensures Lasts(TokenBuckets.Step(b, Probe(at)), n, at)
  {
    forall t | at <= t ensures Has(Refill(b, at), n, t) {
      Limiter.StaysAvailable(b, n, at, t);
    }
  }

  lemma {:induction false} StepKeepsSafe(rates: map<Key, real>, start: real, s: State, step: ConcurrentLimiter.Step,
                                         tid: nat)
    requires Inv(rates, start, s) && Enabled(s, step) && tid in s.threads && Safe(s, tid, s.threads[tid])
    ensures Safe(Apply(s, step), tid, Apply(s, step).threads[tid])
  {
    hide Safe, Operate, Advance, BucketsFollow;
    if step.Turn? {
      var who := step.tid;
      assert ThreadFollowsLog(rates, s, who);
      var key, call, yes, no := AdvanceIs(s, who, step.at);
      if !Through(s.threads[who].pc) {
        Turns(rates, start, s, who, key, call, yes, no, tid);
      }
    } else {
      SafeIgnoresThreads(s, s.threads[step.tid := Thread(step.id, step.n, Started)], tid, s.threads[tid]);
    }
  }

  lemma SafeIgnoresThreads(s: State, threads: map<nat, Thread>, tid: nat, t: Thread)
    requires Safe(s, tid, t)
    ensures Safe(s.(threads := threads), tid, t)
  {
  }

  lemma {:induction false} Turns(rates: map<Key, real>, start: real, s: State, who: nat,
                                 key: Key, call: TokenBuckets.Call, yes: Pc, no: Pc, tid: nat)
    requires Inv(rates, start, s) && who in s.threads && tid in s.threads && s.now <= call.at
    requires Safe(s, tid, s.threads[tid]) && 0.0 <= s.threads[who].n && ThreadMay(s.threads[who], key, call, yes, no)
    ensures var s' := Operate(s, who, key, call, s.threads[who].n, yes, no); Safe(s', tid, s'.threads[tid])
  {
    if who == tid {
      if key in s.buckets {
        BucketIs(rates, start, s, key, s.now);
      }
      OwnTurn(s, tid, s.threads[tid], key, call, yes, no);
    } else {
      OthersTurn(s, who, key, call, s.threads[who].n, yes, no, tid, s.threads[tid]);
      hide Safe;
    }
  }

  lemma {:induction false} ExecIsSafe(rates: map<Key, real>, start: real, steps: seq<ConcurrentLimiter.Step>, tid: nat)
    requires Exec(rates, start, steps).Some? && tid in Exec(rates, start, steps).value.threads
    ensures var s := Exec(rates, start, steps).value; Safe(s, tid, s.threads[tid])
  {
    hide Safe, Apply;
    var init, step := steps[..|steps| - 1], steps[|steps| - 1];
    var s := Exec(rates, start, init).value;
    ExecKeeps(rates, start, init);
    if tid in s.threads {
      ExecIsSafe(rates, start, init, tid);
      StepKeepsSafe(rates, start, s, step, tid);
    } else {
      NewcomerIsSafe(s, step, tid);
    }
  }

  lemma NewcomerIsSafe(s: State, step: ConcurrentLimiter.Step, tid: nat)
    requires Enabled(s, step) && tid !in s.threads && tid in Apply(s, step).threads
    ensures Safe(Apply(s, step), tid, Apply(s, step).threads[tid])
  {
    hide AloneSoFar, Undisturbed;
  }

  /** In every interleaving, a check whose buckets nobody else uses between its first and its last
      operation takes neither of the two late branches. */
  lemma {:induction false} UndisturbedIsNotLate(rates: map<Key, real>, start: real,
                                                steps: seq<ConcurrentLimiter.Step>, tid: nat)
    requires Exec(rates, start, steps).Some? && tid in Exec(rates, start, steps).value.threads
    ensures var s := Exec(rates, start, steps).value;
      Late(s.threads[tid].pc) ==> !Undisturbed(s.log, tid, s.threads[tid].id)
  {
    ExecIsSafe(rates, start, steps, tid);
  }

  // ---------------------------------------------------------------- which calls can be late

  /** What the probes that a thread has passed say about its size. */
  predicate Seen(rates: map<Key, real>, t: Thread) {
    && (t.pc == ClientSeen || t.pc == GlobalSeen || t.pc == GlobalTaken || Late(t.pc) ==>
          t.id != Limiter.NO_CLIENT && (Client(t.id) in rates ==> t.n <= rates[Client(t.id)]))
    && (t.pc == GlobalSeen || t.pc == GlobalTaken || Late(t.pc) ==> Global in rates ==> t.n <= rates[Global])
    && (t.pc == LateGlobal ==> 0.0 < t.n && Global in rates)
    && (t.pc == LateClient ==> 0.0 < t.n && Client(t.id) in rates)
  }

  lemma {:induction false} OperateSees(rates: map<Key, real>, start: real, s: State, tid: nat,
                                       key: Key, call: TokenBuckets.Call, yes: Pc, no: Pc)
    requires Inv(rates, start, s) && tid in s.threads && s.now <= call.at && Seen(rates, s.threads[tid])
    requires ThreadMay(s.threads[tid], key, call, yes, no) && 0.0 <= s.threads[tid].n
    ensures Seen(rates, Operate(s, tid, key, call, s.threads[tid].n, yes, no).threads[tid])
  {
    if key in rates {
      AnswerTells(rates, start, s, key, s.threads[tid].n, call.at);
    }
    assert s.buckets.Keys == rates.Keys;
    hide Has, TokenBuckets.Step, Inv;
  }

  lemma {:induction false} TurnSees(rates: map<Key, real>, start: real, s: State, tid: nat, at: real)
    requires Inv(rates, start, s) && tid in s.threads && s.now <= at && Seen(rates, s.threads[tid])
    ensures Seen(rates, Advance(s, tid, at).threads[tid])
  {
    hide Operate, Advance, Seen, BucketsFollow;
    assert ThreadFollowsLog(rates, s, tid);
    var key, call, yes, no := AdvanceIs(s, tid, at);
    if !Through(s.threads[tid].pc) {
      OperateSees(rates, start, s, tid, key, call, yes, no);
    }
  }

  /** A yes means that the size fits the capacity; a no to such a size, that it is not zero. */
  lemma AnswerTells(rates: map<Key, real>, start: real, s: State, key: Key, n: real, at: real)
    requires Inv(rates, start, s) && key in rates && s.now <= at && 0.0 <= n
    ensures if Has(s.buckets[key], n, at) then n <= rates[key] else 0.0 <= rates[key] ==> 0.0 < n
  {
    BucketIs(rates, start, s, key, at);
  }

  lemma {:induction false} StepSees(rates: map<Key, real>, start: real, s: State,
                                    step: ConcurrentLimiter.Step, tid: nat)
    requires Inv(rates, start, s) && Enabled(s, step) && tid in Apply(s, step).threads
    requires tid in s.threads ==> Seen(rates, s.threads[tid])
    ensures Seen(rates, Apply(s, step).threads[tid])
  {
    if step.Turn? && step.tid == tid {
      TurnSees(rates, start, s, tid, step.at);
    } else if step.Turn? {
      hide Has, TokenBuckets.Step, Inv, Seen;
    }
  }

  lemma {:induction false} AllSeen(rates: map<Key, real>, start: real, steps: seq<ConcurrentLimiter.Step>, tid: nat)
    requires Exec(rates, start, steps).Some? && tid in Exec(rates, start, steps).value.threads
    ensures Seen(rates, Exec(rates, start, steps).value.threads[tid])
  {
    hide Apply, Seen, Inv;
    var init, step := steps[..|steps| - 1], steps[|steps| - 1];
    var s := Exec(rates, start, init).value;
    ExecKeeps(rates, start, init);
    if tid in s.threads {
      AllSeen(rates, start, init, tid);
    }
    StepSees(rates, start, s, step, tid);
  }

  // ---------------------------------------------------------------- a run that ends in a late refusal

  /** Some interleaving brings a call of n bytes by this client there. */
  ghost predicate Reaches(rates: map<Key, real>, start: real, steps: seq<ConcurrentLimiter.Step>, tid: nat, t: Thread) {
    && Exec(rates, start, steps).Some?
    && tid in Exec(rates, start, steps).value.threads
    && Exec(rates, start, steps).value.threads[tid] == t
  }

  predicate Brimful(b: Bucket, rate: real, now: real) {
    b.tokens == b.capacity == b.rate == rate && b.lastRefill <= now
  }

  lemma BrimfulStays(b: Bucket, rate: real, now: real)
    requires Brimful(b, rate, now) && 0.0 <= rate
    ensures Refill(b, now) == New(rate, rate, now)
  {
    EarnedPositive(rate, now - b.lastRefill);
  }

  /** A bucket that is not in debt is full again a second later. */
  lemma FullAfterASecond(b: Bucket, now: real)
    requires 0.0 <= b.tokens && 0.0 <= b.rate == b.capacity && b.lastRefill + 1.0 <= now
    ensures Refill(b, now) == New(b.capacity, b.rate, now)
  {
    EarnedAdds(b.rate, 0.0, 1.0, now - b.lastRefill);
    EarnedPositive(b.rate, now - b.lastRefill - 1.0);
  }

  lemma RefillAtOnce(b: Bucket)
    requires b.tokens <= b.capacity
    ensures Refill(b, b.lastRefill) == b
  {
    assert Earned(b.rate, 0.0) == 0.0;
  }

  /** Threads below k have paid the global bucket and are about to take from the client's, still full. */
  ghost predicate Paid(rates: map<Key, real>, s: State, id: Id, n: real, k: nat) {
    && s.buckets.Keys == rates.Keys && Client(id) in rates
    && (forall i: nat :: i in s.threads <==> i < k)
    && (forall i: nat :: i < k ==> s.threads[i] == Thread(id, n, GlobalTaken))
    && Brimful(s.buckets[Client(id)], rates[Client(id)], s.now)
    && (Global in rates ==> Solvent(s.buckets[Global], rates[Global], s.now))
  }

  predicate Solvent(b: Bucket, rate: real, now: real) {
    b.capacity == b.rate == rate && 0.0 <= b.tokens && b.lastRefill <= now
  }

  predicate Fits(rates: map<Key, real>, id: Id, n: real) {
    && id != Limiter.NO_CLIENT && 0.0 < n
    && (Client(id) in rates ==> n <= rates[Client(id)])
    && (Global in rates ==> n <= rates[Global])
  }

  /** One probe of a full bucket. */
  lemma ProbeFull(s: State, tid: nat, key: Key, at: real, yes: Pc, no: Pc)
    requires tid in s.threads && 0.0 <= s.threads[tid].n
    requires key in s.buckets ==>
      Refill(s.buckets[key], at) == New(s.buckets[key].capacity, s.buckets[key].rate, at)
      && s.threads[tid].n <= s.buckets[key].capacity
    ensures var s' := Operate(s, tid, key, Probe(at), s.threads[tid].n, yes, no);
      && s'.now == at && s'.threads == s.threads[tid := s.threads[tid].(pc := yes)]
      && s'.buckets == if key !in s.buckets then s.buckets
           else s.buckets[key := New(s.buckets[key].capacity, s.buckets[key].rate, at)]
  {
  }

  lemma TakeFull(s: State, tid: nat, key: Key, at: real, yes: Pc, no: Pc)
    requires tid in s.threads && 0.0 <= s.threads[tid].n
    requires key in s.buckets ==>
      s.buckets[key] == New(s.buckets[key].capacity, s.buckets[key].rate, at)
      && s.threads[tid].n <= s.buckets[key].capacity
    ensures var s' := Operate(s, tid, key, Consume(s.threads[tid].n, at), s.threads[tid].n, yes, no);
      && s'.now == at && s'.threads == s.threads[tid := s.threads[tid].(pc := yes)]
      && s'.buckets == if key !in s.buckets then s.buckets
           else s.buckets[key := s.buckets[key].(tokens := s.buckets[key].capacity - s.threads[tid].n)]
  {
    if key in s.buckets {
      RefillAtOnce(s.buckets[key]);
    }
  }

  predicate FullAt(b: Bucket, rate: real, at: real) {
    b.capacity == b.rate == rate && Refill(b, at) == New(rate, rate, at)
  }

  /** Thread k is on its way to join them. */
  ghost predicate Joining(rates: map<Key, real>, s: State, id: Id, n: real, k: nat, pc: Pc, at: real) {
    && s.buckets.Keys == rates.Keys && s.now <= at
    && (forall i: nat :: i in s.threads <==> i <= k)
    && (forall i: nat :: i <= k ==> s.threads[i] == Thread(id, n, if i < k then GlobalTaken else pc))
    && (Client(id) in rates ==> Brimful(s.buckets[Client(id)], rates[Client(id)], s.now))
    && (Global in rates ==> s.buckets[Global].lastRefill <= s.now && FullAt(s.buckets[Global], rates[Global], at))
  }

  lemma Arrives(rates: map<Key, real>, s: State, id: Id, n: real, k: nat)
    requires Paid(rates, s, id, n, k) && Fits(rates, id, n)
    ensures Joining(rates, Apply(s, ConcurrentLimiter.Step.Call(k, id, n)), id, n, k, Started, s.now + 1.0)
  {
    if Global in rates {
      FullAfterASecond(s.buckets[Global], s.now + 1.0);
    }
    hide Refill;
  }

  lemma Probes(rates: map<Key, real>, s: State, id: Id, n: real, k: nat, pc: Pc, at: real)
    requires Joining(rates, s, id, n, k, pc, at) && Fits(rates, id, n) && (pc == Started || pc == ClientSeen)
    ensures Joining(rates, Advance(s, k, at), id, n, k, if pc == Started then ClientSeen else GlobalSeen, at)
    ensures Global in rates && pc == ClientSeen ==>
      Advance(s, k, at).buckets[Global] == New(rates[Global], rates[Global], at)
  {
    hide Operate, Refill;
    if Client(id) in rates {
      BrimfulStays(s.buckets[Client(id)], rates[Client(id)], at);
    }
    if pc == Started {
      ProbeFull(s, k, Client(id), at, ClientSeen, Refused);
    } else {
      ProbeFull(s, k, Global, at, GlobalSeen, Refused);
      if Global in rates {
        RefillAtOnce(New(rates[Global], rates[Global], at));
      }
    }
  }

  lemma Pays(rates: map<Key, real>, s: State, id: Id, n: real, k: nat, at: real)
    requires Joining(rates, s, id, n, k, GlobalSeen, at) && Fits(rates, id, n) && Client(id) in rates
    requires Global in rates ==> s.buckets[Global] == New(rates[Global], rates[Global], at)
    ensures Paid(rates, Advance(s, k, at), id, n, k + 1)
  {
    hide Operate, Refill;
    TakeFull(s, k, Global, at, GlobalTaken, LateGlobal);
  }

  /** Another call comes a second later, passes both probes and pays the global bucket. */
  lemma {:induction false} AnotherPays(rates: map<Key, real>, start: real, steps: seq<ConcurrentLimiter.Step>,
                                       id: Id, n: real, k: nat)
    returns (more: seq<ConcurrentLimiter.Step>)
    requires Exec(rates, start, steps).Some? && Paid(rates, Exec(rates, start, steps).value, id, n, k)
    requires Fits(rates, id, n)
    ensures Exec(rates, start, more).Some? && Paid(rates, Exec(rates, start, more).value, id, n, k + 1)
  {
    hide Advance, Refill;
    var s := Exec(rates, start, steps).value;
    var at := s.now + 1.0;
    Arrives(rates, s, id, n, k);
    more := With(rates, start, steps, ConcurrentLimiter.Step.Call(k, id, n));
    hide Paid;
    Probes(rates, Exec(rates, start, more).value, id, n, k, Started, at);
    more := With(rates, start, more, Turn(k, at));
    Probes(rates, Exec(rates, start, more).value, id, n, k, ClientSeen, at);
    more := With(rates, start, more, Turn(k, at));
    Pays(rates, Exec(rates, start, more).value, id, n, k, at);
    more := With(rates, start, more, Turn(k, at));
  }

  lemma With(rates: map<Key, real>, start: real, steps: seq<ConcurrentLimiter.Step>, step: ConcurrentLimiter.Step)
    returns (more: seq<ConcurrentLimiter.Step>)
    requires Exec(rates, start, steps).Some? && Enabled(Exec(rates, start, steps).value, step)
    ensures Exec(rates, start, more) == Some(Apply(Exec(rates, start, steps).value, step))
  {
    more := steps + [step];
    ExecSnoc(rates, start, steps, step);
  }

  lemma {:induction false} ManyPay(rates: map<Key, real>, start: real, id: Id, n: real, k: nat)
    returns (steps: seq<ConcurrentLimiter.Step>)
    requires Fits(rates, id, n) && Client(id) in rates
    ensures Exec(rates, start, steps).Some? && Paid(rates, Exec(rates, start, steps).value, id, n, k)
  {
    if k == 0 {
      steps := [];
    } else {
      steps := ManyPay(rates, start, id, n, k - 1);
      steps := AnotherPays(rates, start, steps, id, n, k - 1);
    }
  }

  function Times(m: nat, n: real): real {
    if m == 0 then 0.0 else Times(m - 1, n) + n
  }

  /** Enough calls of n bytes ask for more than the bucket has. */
  lemma Enough(c: real, n: real) returns (m: nat)
    requires 0.0 < n && 0.0 <= c
    ensures c < Times(m, n)
  {
    m := (c / n).Floor + 1;
    TimesIs(m, n);
    assert c / n < m as real;
    assert c == (c / n) * n;
    Longer(c / n, m as real, n);
  }

  lemma Longer(a: real, b: real, n: real)
    requires a < b && 0.0 < n
    ensures a * n < b * n
  {
  }

  lemma {:induction false} TimesIs(m: nat, n: real)
    ensures Times(m, n) == (m as real) * n
  {
    if m > 0 {
      TimesIs(m - 1, n);
      assert (m as real) * n == ((m - 1) as real) * n + n;
    }
  }

  /** Threads j to k are about to take from the client's bucket, which has `left` tokens at this instant. */
  ghost predicate Queueing(s: State, id: Id, n: real, j: nat, k: nat, at: real, left: real) {
    && s.now <= at && Client(id) in s.buckets
    && (forall i: nat :: j <= i < k ==> i in s.threads && s.threads[i] == Thread(id, n, GlobalTaken))
    && Refill(s.buckets[Client(id)], at).tokens == left && 0.0 <= left
  }

  lemma Takes(s: State, id: Id, n: real, j: nat, k: nat, at: real, left: real)
    requires Queueing(s, id, n, j, k, at, left) && j < k && 0.0 < n
    ensures n <= left ==> Queueing(Advance(s, j, at), id, n, j + 1, k, at, left - n)
    ensures left < n ==> Advance(s, j, at).threads[j] == Thread(id, n, LateClient)
  {
    if n <= left {
      RefillAtOnce(Debit(s.buckets[Client(id)], n, at));
    }
    hide Refill;
  }

  /** One after the other takes at the same instant, until the tokens left are too few. */
  lemma {:induction false} Drain(rates: map<Key, real>, start: real, steps: seq<ConcurrentLimiter.Step>,
                                 id: Id, n: real, j: nat, k: nat, at: real, left: real)
    returns (more: seq<ConcurrentLimiter.Step>, tid: nat)
    requires Exec(rates, start, steps).Some? && Queueing(Exec(rates, start, steps).value, id, n, j, k, at, left)
    requires 0.0 < n && j <= k && left < Times(k - j, n)
    ensures Reaches(rates, start, more, tid, Thread(id, n, LateClient))
    decreases k - j
  {
    assert j < k by {
      assert Queueing(Exec(rates, start, steps).value, id, n, j, k, at, left);
    }
    hide Advance, Refill, Exec;
    Takes(Exec(rates, start, steps).value, id, n, j, k, at, left);
    more := With(rates, start, steps, Turn(j, at));
    if n <= left {
      more, tid := Drain(rates, start, more, id, n, j + 1, k, at, left - n);
    } else {
      tid := j;
    }
  }

  /** A call of n bytes by this client can be refused by the last of its operations exactly when the
      client is limited and n is positive and fits both limits. */
  lemma {:induction false} LateClientExactly(rates: map<Key, real>, start: real, id: Id, n: real)
    ensures (exists steps, tid :: Reaches(rates, start, steps, tid, Thread(id, n, LateClient)))
       <==> Client(id) in rates && Fits(rates, id, n)
  {
    if steps, tid :| Reaches(rates, start, steps, tid, Thread(id, n, LateClient)) {
      AllSeen(rates, start, steps, tid);
    }
    if Client(id) in rates && Fits(rates, id, n) {
      var c := rates[Client(id)];
      var k := Enough(c, n);
      var steps := ManyPay(rates, start, id, n, k);
      var s := Exec(rates, start, steps).value;
      BrimfulStays(s.buckets[Client(id)], c, s.now);
      var more, tid := Drain(rates, start, steps, id, n, 0, k, s.now, c);
      assert Reaches(rates, start, more, tid, Thread(id, n, LateClient));
    }
  }

  /** A call of n bytes without a client limit of its own, or with one it fits, can be refused by its
      take from the global bucket exactly when that is limited and n is positive and fits. */
  lemma {:induction false} LateGlobalExactly(rates: map<Key, real>, start: real, id: Id, n: real)
    ensures (exists steps, tid :: Reaches(rates, start, steps, tid, Thread(id, n, LateGlobal)))
       <==> Global in rates && Fits(rates, id, n)
  {
    if steps, tid :| Reaches(rates, start, steps, tid, Thread(id, n, LateGlobal)) {
      AllSeen(rates, start, steps, tid);
    }
    if Global in rates && Fits(rates, id, n) {
      var steps := GlobalRunsDry(rates, start, id, n);
      assert Reaches(rates, start, steps, 0, Thread(id, n, LateGlobal));
    }
  }

  /** Between the probe and the take, a call without client id empties the global bucket. */
  lemma {:induction false} GlobalRunsDry(rates: map<Key, real>, start: real, id: Id, n: real)
    returns (steps: seq<ConcurrentLimiter.Step>)
    requires Global in rates && Fits(rates, id, n)
    ensures Reaches(rates, start, steps, 0, Thread(id, n, LateGlobal))
  {
    hide Advance, Refill;
    var g := rates[Global];
    RefillAtOnce(New(g, g, start));
    steps := With(rates, start, [], ConcurrentLimiter.Step.Call(0, id, n));
    Probes(rates, Exec(rates, start, steps).value, id, n, 0, Started, start);
    steps := With(rates, start, steps, Turn(0, start));
    hide Exec, Init;
    Probes(rates, Exec(rates, start, steps).value, id, n, 0, ClientSeen, start);
    steps := With(rates, start, steps, Turn(0, start));
    Snatched(Exec(rates, start, steps).value, id, n, g, start);
    steps := With(rates, start, steps, ConcurrentLimiter.Step.Call(1, Limiter.NO_CLIENT, g));
    steps := With(rates, start, steps, Turn(1, start));
    steps := With(rates, start, steps, Turn(0, start));
  }

  lemma Snatched(s: State, id: Id, n: real, g: real, at: real)
    requires 0 in s.threads && s.threads[0] == Thread(id, n, GlobalSeen) && 1 !in s.threads && s.now <= at
    requires Global in s.buckets && s.buckets[Global] == New(g, g, at) && 0.0 < n <= g
    ensures var s1 := Advance(s.(threads := s.threads[1 := Thread(Limiter.NO_CLIENT, g, Started)]), 1, at);
      s1.now == at && Advance(s1, 0, at).threads[0] == Thread(id, n, LateGlobal)
  {
    hide Operate;
    var s0 := s.(threads := s.threads[1 := Thread(Limiter.NO_CLIENT, g, Started)]);
    TakeFull(s0, 1, Global, at, Granted, Refused);
    TakeEmpty(Advance(s0, 1, at), 0, Global, at, GlobalTaken, LateGlobal);
  }

  lemma TakeEmpty(s: State, tid: nat, key: Key, at: real, yes: Pc, no: Pc)
    requires tid in s.threads && 0.0 < s.threads[tid].n && key in s.buckets
    requires s.buckets[key].lastRefill == at && s.buckets[key].tokens == 0.0 <= s.buckets[key].capacity
    ensures Operate(s, tid, key, Consume(s.threads[tid].n, at), s.threads[tid].n, yes, no).threads[tid]
         == s.threads[tid].(pc := no)
  {
    RefillAtOnce(s.buckets[key]);
  }

  /** A late refusal that has taken tokens from the global bucket. */
  ghost predicate Wastes(rates: map<Key, real>, start: real, steps: seq<ConcurrentLimiter.Step>, tid: nat) {
    && Exec(rates, start, steps).Some?
    && tid in Exec(rates, start, steps).value.threads
    && Late(Exec(rates, start, steps).value.threads[tid].pc)
    && TakenBy(Exec(rates, start, steps).value.log, tid, Global) > 0.0
  }

  /** Overlapping checks can take global tokens for bytes that are refused exactly when the global
      limit and some client's are positive. */
  lemma {:induction false} WasteExactly(rates: map<Key, real>, start: real)
    ensures (exists steps, tid :: Wastes(rates, start, steps, tid))
       <==> && Global in rates && 0.0 < rates[Global]
            && exists id :: id != Limiter.NO_CLIENT && Client(id) in rates && 0.0 < rates[Client(id)]
  {
    if steps, tid :| Wastes(rates, start, steps, tid) {
      AllSeen(rates, start, steps, tid);
      GrantsArePaid(rates, start, steps, tid);
      ExecKeeps(rates, start, steps);
      assert ThreadFollowsLog(rates, Exec(rates, start, steps).value, tid);
    }
    if Global in rates && 0.0 < rates[Global] {
      if id :| id != Limiter.NO_CLIENT && Client(id) in rates && 0.0 < rates[Client(id)] {
        var n := Min(rates[Global], rates[Client(id)]);
        LateClientExactly(rates, start, id, n);
        var steps, tid :| Reaches(rates, start, steps, tid, Thread(id, n, LateClient));
        GrantsArePaid(rates, start, steps, tid);
        assert Wastes(rates, start, steps, tid);
      }
    }
  }
}
