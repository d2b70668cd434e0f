/** Overlapping bandwidth checks, each bucket operation one atomic step, limits unchanged. */
module ConcurrentLimiter {
  import opened Words
  import opened TokenBuckets
  import Limiter

  datatype Key = Global | Client(id: Id)

  /** The last two are the refusals that come after both probes said yes. */
  datatype Pc = Started | ClientSeen | GlobalSeen | GlobalTaken | Granted | Refused | LateGlobal | LateClient

  datatype Thread = Thread(id: Id, n: real, pc: Pc)

  datatype Entry = Entry(tid: nat, key: Key, call: Call, taken: real)

  /** `log` lists every bucket operation so far, oldest first. */
  datatype State = State(now: real, buckets: map<Key, Bucket>, threads: map<nat, Thread>, log: seq<Entry>)

  function Init(rates: map<Key, real>, start: real): State {
    State(start, map k | k in rates :: New(rates[k], rates[k], start), map[], [])
  }

  datatype Step = Call(tid: nat, id: Id, n: real) | Turn(tid: nat, at: real)

  /** The bucket's new contents, the thread's next place and the log entry of one operation. */
  function Record(s: State, tid: nat, key: Key, call: TokenBuckets.Call, bucket: Bucket, taken: real, next: Pc): State
    requires tid in s.threads
  {
    s.(now := call.at,
       buckets := s.buckets[key := bucket],
       threads := s.threads[tid := s.threads[tid].(pc := next)],
       log := s.log + [Entry(tid, key, call, taken)])
  }

  /** One bucket operation by a thread, after which it goes to `yes` or `no`. A missing bucket is no limit. */
  function Operate(s: State, tid: nat, key: Key, call: TokenBuckets.Call, n: real, yes: Pc, no: Pc): (s': State)
    requires tid in s.threads
    ensures s'.threads.Keys == s.threads.Keys
  {
    if key !in s.buckets then s.(now := call.at, threads := s.threads[tid := s.threads[tid].(pc := yes)])
    else
      var ok := Has(s.buckets[key], n, call.at);
      var taken := if ok && call.Consume? then n else 0.0;
      Record(s, tid, key, call, TokenBuckets.Step(s.buckets[key], call), taken, if ok then yes else no)
  }

  /** The thread's next operation: a call without client id takes from the global bucket at once,
      any other looks at both buckets and then takes from both, global first. */
  function Advance(s: State, tid: nat, at: real): (s': State)
    requires tid in s.threads
    ensures s'.threads.Keys == s.threads.Keys
  {
    var t := s.threads[tid];
    match t.pc
    case Started =>
      if t.id == Limiter.NO_CLIENT then Operate(s, tid, Global, Consume(t.n, at), t.n, Granted, Refused)
      else Operate(s, tid, Client(t.id), Probe(at), t.n, ClientSeen, Refused)
    case ClientSeen => Operate(s, tid, Global, Probe(at), t.n, GlobalSeen, Refused)
    case GlobalSeen => Operate(s, tid, Global, Consume(t.n, at), t.n, GlobalTaken, LateGlobal)
    case GlobalTaken => Operate(s, tid, Client(t.id), Consume(t.n, at), t.n, Granted, LateClient)
    case _ => s
  }

  predicate Enabled(s: State, step: Step) {
    match step
    case Call(tid, id, n) => tid !in s.threads && 0.0 <= n
    case Turn(tid, at) => tid in s.threads && s.now <= at
  }

  function Apply(s: State, step: Step): (s': State)
    requires Enabled(s, step)
    ensures s.threads.Keys <= s'.threads.Keys
  {
    match step
    case Call(tid, id, n) => s.(threads := s.threads[tid := Thread(id, n, Started)])
    case Turn(tid, at) => Advance(s, tid, at)
  }

  /** The state an interleaving ends in, if every step of it can be taken. */
  function Exec(rates: map<Key, real>, start: real, steps: seq<Step>): Option<State> {
    if steps == [] then Some(Init(rates, start))
    else
      var before := Exec(rates, start, steps[..|steps| - 1]);
      if before.Some? && Enabled(before.value, steps[|steps| - 1])
      then Some(Apply(before.value, steps[|steps| - 1])) else None
  }

  // ---------------------------------------------------------------- each bucket sees an ordered run

  function CallsOn(log: seq<Entry>, key: Key): seq<TokenBuckets.Call> {
    if log == [] then []
    else
      var init, e := CallsOn(log[..|log| - 1], key), log[|log| - 1];
      if e.key == key then init + [e.call] else init
  }

  /** What one thread took from one bucket, and what all took from it between two instants. */
  function TakenBy(log: seq<Entry>, tid: nat, key: Key): real {
    if log == [] then 0.0
    else
      var e := log[|log| - 1];
      TakenBy(log[..|log| - 1], tid, key) + if e.tid == tid && e.key == key then e.taken else 0.0
  }

  function DebitedBetween(log: seq<Entry>, key: Key, from: real, to: real): real {
    if log == [] then 0.0
    else
      var e := log[|log| - 1];
      DebitedBetween(log[..|log| - 1], key, from, to) + if e.key == key && from <= e.call.at <= to then e.taken else 0.0
  }

  /** The same sum over the calls one bucket served. */
  function SpentBetween(b: Bucket, cs: seq<TokenBuckets.Call>, from: real, to: real): real {
    if cs == [] then 0.0
    else
      var init, last := cs[..|cs| - 1], cs[|cs| - 1];
      SpentBetween(b, init, from, to) + if from <= last.at <= to then Taken(b, cs, |cs| - 1) else 0.0
  }

  predicate OrderedUpTo(start: real, cs: seq<TokenBuckets.Call>, now: real) {
    && Ordered(start, cs) && SizesNonNegative(cs) && start <= now
    && forall i :: 0 <= i < |cs| ==> cs[i].at <= now
  }

  /** The bucket is where its own calls left it, and the log accounts for what they took. */
  ghost predicate BucketFollowsLog(rates: map<Key, real>, start: real, s: State, key: Key)
    requires key in rates
  {
    var b, cs := New(rates[key], rates[key], start), CallsOn(s.log, key);
    && key in s.buckets && s.buckets[key] == Run(b, cs)
    && OrderedUpTo(start, cs, s.now)
    && forall from, to :: DebitedBetween(s.log, key, from, to) == SpentBetween(b, cs, from, to)
  }

  /** What a thread has taken from a bucket, by where it stands. */
  function Owed(rates: map<Key, real>, t: Thread, key: Key): real {
    if key !in rates then 0.0
    else match key
      case Global => if t.pc == GlobalTaken || t.pc == Granted || t.pc == LateClient then t.n else 0.0
      case Client(id) => if id == t.id && id != Limiter.NO_CLIENT && t.pc == Granted then t.n else 0.0
  }

  ghost predicate ThreadFollowsLog(rates: map<Key, real>, s: State, tid: nat)
    requires tid in s.threads
  {
    var t := s.threads[tid];
    && 0.0 <= t.n
    && (t.id == Limiter.NO_CLIENT ==> t.pc == Started || t.pc == Granted || t.pc == Refused)
    && forall key :: TakenBy(s.log, tid, key) == Owed(rates, t, key)
  }

  ghost predicate BucketsFollow(rates: map<Key, real>, start: real, s: State) {
    && start <= s.now && s.buckets.Keys == rates.Keys
    && forall key :: key in rates ==> BucketFollowsLog(rates, start, s, key)
  }

  ghost predicate ThreadsFollow(rates: map<Key, real>, s: State) {
    && s.buckets.Keys == rates.Keys
    && (forall tid :: tid in s.threads ==> ThreadFollowsLog(rates, s, tid))
    && (forall tid, key :: tid !in s.threads ==> TakenBy(s.log, tid, key) == 0.0)
  }

  ghost predicate Inv(rates: map<Key, real>, start: real, s: State) {
    BucketsFollow(rates, start, s) && ThreadsFollow(rates, s)
  }

  lemma {:induction false} CallsSnoc(log: seq<Entry>, e: Entry, key: Key)
    ensures CallsOn(log + [e], key) == if e.key == key then CallsOn(log, key) + [e.call] else CallsOn(log, key)
  {
    assert (log + [e])[..|log + [e]| - 1] == log;
  }

  lemma {:induction false} TakenSnoc(log: seq<Entry>, e: Entry, tid: nat, key: Key)
    ensures TakenBy(log + [e], tid, key)
         == TakenBy(log, tid, key) + if e.tid == tid && e.key == key then e.taken else 0.0
  {
    assert (log + [e])[..|log + [e]| - 1] == log;
  }

  lemma {:induction false} DebitedSnoc(log: seq<Entry>, e: Entry, key: Key, from: real, to: real)
    ensures DebitedBetween(log + [e], key, from, to)
         == DebitedBetween(log, key, from, to) + if e.key == key && from <= e.call.at <= to then e.taken else 0.0
  {
    assert (log + [e])[..|log + [e]| - 1] == log;
  }

  lemma {:induction false} OrderedSnoc(start: real, cs: seq<TokenBuckets.Call>, now: real, c: TokenBuckets.Call)
    requires OrderedUpTo(start, cs, now) && now <= c.at && (c.Consume? ==> 0.0 <= c.n)
    ensures OrderedUpTo(start, cs + [c], c.at)
  {
  }

  /** Another bucket's operation leaves this one's account as it was. */
  lemma {:induction false} OtherBucketStep(rates: map<Key, real>, start: real, s: State, e: Entry, key: Key, s': State)
    requires key in rates && BucketFollowsLog(rates, start, s, key)
    requires s'.log == s.log + [e] && s'.now == e.call.at && s.now <= e.call.at
    requires e.key != key && key in s'.buckets && s'.buckets[key] == s.buckets[key]
    ensures BucketFollowsLog(rates, start, s', key)
  {
    CallsSnoc(s.log, e, key);
    var b, cs := New(rates[key], rates[key], start), CallsOn(s.log, key);
    forall from, to ensures DebitedBetween(s'.log, key, from, to) == SpentBetween(b, cs, from, to) {
      DebitedSnoc(s.log, e, key, from, to);
    }
  }

  lemma {:induction false} OwnBucketStep(rates: map<Key, real>, start: real, s: State, e: Entry, s': State)
    requires e.key in rates && BucketFollowsLog(rates, start, s, e.key)
    requires s'.log == s.log + [e] && s'.now == e.call.at && s.now <= e.call.at
    requires e.call.Consume? ==> 0.0 <= e.call.n
    requires e.key in s'.buckets && s'.buckets[e.key] == TokenBuckets.Step(s.buckets[e.key], e.call)
    requires e.taken == if e.call.Consume? && Has(s.buckets[e.key], e.call.n, e.call.at) then e.call.n else 0.0
    ensures BucketFollowsLog(rates, start, s', e.key)
  {
    var b, cs := New(rates[e.key], rates[e.key], start), CallsOn(s.log, e.key);
    var more := cs + [e.call];
    CallsSnoc(s.log, e, e.key);
    OrderedSnoc(start, cs, s.now, e.call);
    assert more[..|more| - 1] == cs && Taken(b, more, |cs|) == e.taken;
    forall from, to ensures DebitedBetween(s'.log, e.key, from, to) == SpentBetween(b, more, from, to) {
      DebitedSnoc(s.log, e, e.key, from, to);
    }
  }

  lemma {:induction false} IdleBucketStep(rates: map<Key, real>, start: real, s: State, key: Key, s': State)
    requires key in rates && BucketFollowsLog(rates, start, s, key)
    requires s'.log == s.log && s.now <= s'.now && key in s'.buckets && s'.buckets[key] == s.buckets[key]
    ensures BucketFollowsLog(rates, start, s', key)
  {
  }

  lemma {:induction false} OperateKeepsBuckets(rates: map<Key, real>, start: real, s: State, tid: nat,
                               key: Key, call: TokenBuckets.Call, n: real, yes: Pc, no: Pc, k: Key)
    requires BucketsFollow(rates, start, s) && tid in s.threads && s.now <= call.at && k in rates
    requires (call.Consume? ==> call.n == n) && 0.0 <= n
    ensures BucketFollowsLog(rates, start, Operate(s, tid, key, call, n, yes, no), k)
  {
    var s' := Operate(s, tid, key, call, n, yes, no);
    if key !in s.buckets {
      IdleBucketStep(rates, start, s, k, s');
    } else {
      var e := s'.log[|s.log|];
      if k == key {
        OwnBucketStep(rates, start, s, e, s');
      } else {
        OtherBucketStep(rates, start, s, e, k, s');
      }
    }
  }

  /** What a thread owes moves with its place: by its own size when it took, else not at all. */
  lemma OwedMoves(rates: map<Key, real>, t: Thread, key: Key, call: TokenBuckets.Call, yes: Pc, no: Pc, k: Key)
    requires ThreadMay(t, key, call, yes, no)
    ensures Owed(rates, t.(pc := no), k) == Owed(rates, t, k)
    ensures Owed(rates, t.(pc := yes), k)
         == Owed(rates, t, k) + if key in rates && call.Consume? && k == key then t.n else 0.0
  {
  }

  lemma RecordOwes(rates: map<Key, real>, s: State, tid: nat, key: Key, call: TokenBuckets.Call, bucket: Bucket,
                   taken: real, next: Pc, k: Key)
    requires tid in s.threads
    ensures TakenBy(Record(s, tid, key, call, bucket, taken, next).log, tid, k)
         == TakenBy(s.log, tid, k) + if k == key then taken else 0.0
  {
    TakenSnoc(s.log, Entry(tid, key, call, taken), tid, k);
  }

  lemma {:induction false} OperateOwes(rates: map<Key, real>, s: State, tid: nat,
                               key: Key, call: TokenBuckets.Call, n: real, yes: Pc, no: Pc, k: Key)
    requires s.buckets.Keys == rates.Keys && tid in s.threads && ThreadFollowsLog(rates, s, tid)
    requires n == s.threads[tid].n && ThreadMay(s.threads[tid], key, call, yes, no)
    ensures var s' := Operate(s, tid, key, call, n, yes, no);
      TakenBy(s'.log, tid, k) == Owed(rates, s'.threads[tid], k)
  {
    OwedMoves(rates, s.threads[tid], key, call, yes, no, k);
    assert TakenBy(s.log, tid, k) == Owed(rates, s.threads[tid], k);
    if key in s.buckets {
      var ok := Has(s.buckets[key], n, call.at);
      RecordOwes(rates, s, tid, key, call, TokenBuckets.Step(s.buckets[key], call),
                 if ok && call.Consume? then n else 0.0, if ok then yes else no, k);
    }
  }

  lemma {:induction false} OperateKeepsThreads(rates: map<Key, real>, s: State, tid: nat,
                               key: Key, call: TokenBuckets.Call, n: real, yes: Pc, no: Pc, who: nat)
    requires s.buckets.Keys == rates.Keys && tid in s.threads && who in s.threads
    requires ThreadFollowsLog(rates, s, tid) && ThreadFollowsLog(rates, s, who)
    requires n == s.threads[tid].n && ThreadMay(s.threads[tid], key, call, yes, no)
    ensures ThreadFollowsLog(rates, Operate(s, tid, key, call, n, yes, no), who)
  {
    var s' := Operate(s, tid, key, call, n, yes, no);
    forall k ensures TakenBy(s'.log, who, k) == Owed(rates, s'.threads[who], k) {
      if who == tid {
        OperateOwes(rates, s, tid, key, call, n, yes, no, k);
      } else {
        assert TakenBy(s.log, who, k) == Owed(rates, s.threads[who], k);
        if key in s.buckets {
          TakenSnoc(s.log, s'.log[|s.log|], who, k);
        }
      }
    }
  }

  lemma {:induction false} OperateKeepsAllBuckets(rates: map<Key, real>, start: real, s: State, tid: nat,
                               key: Key, call: TokenBuckets.Call, n: real, yes: Pc, no: Pc)
    requires BucketsFollow(rates, start, s) && tid in s.threads && s.now <= call.at
    requires (call.Consume? ==> call.n == n) && 0.0 <= n
    ensures BucketsFollow(rates, start, Operate(s, tid, key, call, n, yes, no))
  {
    hide BucketFollowsLog, Has, TokenBuckets.Step;
    var s' := Operate(s, tid, key, call, n, yes, no);
    forall k | k in rates ensures BucketFollowsLog(rates, start, s', k) {
      OperateKeepsBuckets(rates, start, s, tid, key, call, n, yes, no, k);
    }
  }

  lemma {:induction false} OperateKeepsAllThreads(rates: map<Key, real>, s: State, tid: nat,
                               key: Key, call: TokenBuckets.Call, n: real, yes: Pc, no: Pc)
    requires ThreadsFollow(rates, s) && tid in s.threads && n == s.threads[tid].n
    requires ThreadMay(s.threads[tid], key, call, yes, no)
    ensures ThreadsFollow(rates, Operate(s, tid, key, call, n, yes, no))
  {
    var s' := Operate(s, tid, key, call, n, yes, no);
    assert ThreadFollowsLog(rates, s, tid);
    forall who | who in s.threads ensures ThreadFollowsLog(rates, s', who) {
      OperateKeepsThreads(rates, s, tid, key, call, n, yes, no, who);
    }
    forall who: nat, k | who !in s.threads ensures TakenBy(s'.log, who, k) == 0.0 {
      if key in s.buckets {
        TakenSnoc(s.log, s'.log[|s.log|], who, k);
      }
    }
  }

  lemma {:induction false} OperateKeeps(rates: map<Key, real>, start: real, s: State, tid: nat,
                               key: Key, call: TokenBuckets.Call, n: real, yes: Pc, no: Pc)
    requires Inv(rates, start, s) && tid in s.threads && s.now <= call.at
    requires (call.Consume? ==> call.n == n) && n == s.threads[tid].n
    requires ThreadMay(s.threads[tid], key, call, yes, no)
    ensures Inv(rates, start, Operate(s, tid, key, call, n, yes, no))
  {
    assert ThreadFollowsLog(rates, s, tid);
    OperateKeepsAllBuckets(rates, start, s, tid, key, call, n, yes, no);
    OperateKeepsAllThreads(rates, s, tid, key, call, n, yes, no);
  }

  /** The four operations `Advance` performs, and the one of a call without client id. */
  predicate ThreadMay(t: Thread, key: Key, call: TokenBuckets.Call, yes: Pc, no: Pc) {
    || (t.pc == Started && t.id == Limiter.NO_CLIENT
        && key == Global && call.Consume? && yes == Granted && no == Refused)
    || (t.id != Limiter.NO_CLIENT
        && (|| (t.pc == Started && key == Client(t.id) && call.Probe? && yes == ClientSeen && no == Refused)
            || (t.pc == ClientSeen && key == Global && call.Probe? && yes == GlobalSeen && no == Refused)
            || (t.pc == GlobalSeen && key == Global && call.Consume? && yes == GlobalTaken && no == LateGlobal)
            || (t.pc == GlobalTaken && key == Client(t.id) && call.Consume?
                && yes == Granted && no == LateClient)))
  }

  predicate Through(pc: Pc) {
    pc == Granted || pc == Refused || pc == LateGlobal || pc == LateClient
  }

  /** A turn is one of these operations, or nothing when the thread is through. */
  lemma {:induction false} AdvanceIs(s: State, tid: nat, at: real)
    returns (key: Key, call: TokenBuckets.Call, yes: Pc, no: Pc)
    requires tid in s.threads
    requires s.threads[tid].id == Limiter.NO_CLIENT ==> s.threads[tid].pc == Started || Through(s.threads[tid].pc)
    ensures call.at == at && (call.Consume? ==> call.n == s.threads[tid].n)
    ensures Through(s.threads[tid].pc) ==> Advance(s, tid, at) == s
    ensures !Through(s.threads[tid].pc) ==>
      && ThreadMay(s.threads[tid], key, call, yes, no)
      && Advance(s, tid, at) == Operate(s, tid, key, call, s.threads[tid].n, yes, no)
  {
    hide Operate;
    var t := s.threads[tid];
    match t.pc
    case Started =>
      if t.id == Limiter.NO_CLIENT {
        key, call, yes, no := Global, Consume(t.n, at), Granted, Refused;
      } else {
        key, call, yes, no := Client(t.id), Probe(at), ClientSeen, Refused;
      }
    case ClientSeen => key, call, yes, no := Global, Probe(at), GlobalSeen, Refused;
    case GlobalSeen => key, call, yes, no := Global, Consume(t.n, at), GlobalTaken, LateGlobal;
    case GlobalTaken => key, call, yes, no := Client(t.id), Consume(t.n, at), Granted, LateClient;
    case _ => key, call, yes, no := Global, Probe(at), Refused, Refused;
  }

  lemma {:induction false} ExecKeeps(rates: map<Key, real>, start: real, steps: seq<Step>)
    ensures Exec(rates, start, steps).Some? ==> Inv(rates, start, Exec(rates, start, steps).value)
  {
    if Exec(rates, start, steps).Some? {
      if steps == [] {
        assert Inv(rates, start, Init(rates, start));
      } else {
        ExecKeeps(rates, start, steps[..|steps| - 1]);
        var s, step := Exec(rates, start, steps[..|steps| - 1]).value, steps[|steps| - 1];
        StepKeeps(rates, start, s, step);
      }
    }
  }

  lemma {:induction false} StepKeeps(rates: map<Key, real>, start: real, s: State, step: Step)
    requires Inv(rates, start, s) && Enabled(s, step)
    ensures Inv(rates, start, Apply(s, step))
  {
    if step.Turn? {
      var tid, at := step.tid, step.at;
      assert ThreadFollowsLog(rates, s, tid);
      var key, call, yes, no := AdvanceIs(s, tid, at);
      hide BucketsFollow, ThreadsFollow, Operate, Advance;
      if !Through(s.threads[tid].pc) {
        OperateKeeps(rates, start, s, tid, key, call, s.threads[tid].n, yes, no);
      }
    } else {
      var s' := Apply(s, step);
      assert forall key :: TakenBy(s.log, step.tid, key) == 0.0;
      forall key | key in rates ensures BucketFollowsLog(rates, start, s', key) {
        assert BucketFollowsLog(rates, start, s, key);
      }
    }
  }

  // ---------------------------------------------------------------- what every interleaving keeps

  lemma {:induction false} SpentNothingBefore(b: Bucket, cs: seq<TokenBuckets.Call>, start: real, from: real, to: real)
    requires Ordered(start, cs) && (cs == [] || cs[|cs| - 1].at < from)
    ensures SpentBetween(b, cs, from, to) == 0.0
  {
    if cs != [] {
      var init := cs[..|cs| - 1];
      assert init != [] ==> init[|init| - 1].at <= cs[|cs| - 1].at;
      SpentNothingBefore(b, init, start, from, to);
    }
  }

  lemma {:induction false} OrderedInit(start: real, cs: seq<TokenBuckets.Call>)
    requires Ordered(start, cs) && cs != []
    ensures Ordered(start, cs[..|cs| - 1])
    ensures |cs| > 1 ==> cs[|cs| - 2].at <= cs[|cs| - 1].at
  {
  }

  /** Up to its last call, an ordered run spends in a window what it admitted since the window opened. */
  lemma {:induction false} SpentIsAdmitted(b: Bucket, cs: seq<TokenBuckets.Call>, start: real, from: real, to: real)
    returns (i: nat)
    requires Ordered(start, cs) && cs != [] && from <= cs[|cs| - 1].at <= to
    ensures i < |cs| && from <= cs[i].at && SpentBetween(b, cs, from, to) == Admitted(b, cs, i)
  {
    var n := |cs| - 1;
    var init, last := cs[..n], cs[n];
    OrderedInit(start, cs);
    var spent := SpentBetween(b, init, from, to);
    assert SpentBetween(b, cs, from, to) == spent + Taken(b, cs, n);
    if n == 0 || cs[n - 1].at < from {
      SpentNothingBefore(b, init, start, from, to);
      assert Admitted(b, cs, n) == Taken(b, cs, n) + Admitted(b, cs, |cs|);
      i := n;
    } else {
      i := SpentIsAdmitted(b, init, start, from, to);
      assert init + [last] == cs;
      AdmittedSnoc(b, init, last, i);
    }
  }

  /** One burst of a second's worth, plus what is earned over the span. */
  function Allowance(rate: real, span: real): real {
    rate * (1.0 + span)
  }

  lemma {:induction false} SpentBound(rate: real, start: real, cs: seq<TokenBuckets.Call>, from: real, to: real)
    requires 0.0 <= rate && Ordered(start, cs) && from <= to
    ensures SpentBetween(New(rate, rate, start), cs, from, to) <= Allowance(rate, to - from)
  {
    var b := New(rate, rate, start);
    assert Allowance(rate, to - from) == rate + Earned(rate, to - from);
    EarnedPositive(rate, to - from);
    if cs != [] {
      var n := |cs| - 1;
      if to < cs[n].at || cs[n].at < from {
        SpentBound(rate, start, cs[..n], from, to);
        if cs[n].at < from {
          SpentNothingBefore(b, cs, start, from, to);
        }
      } else {
        var i := SpentIsAdmitted(b, cs, start, from, to);
        IntervalBound(rate, rate, start, cs, i);
        var span := cs[n].at - cs[i].at;
        EarnedAdds(rate, 0.0, span, to - from);
        EarnedPositive(rate, to - from - span);
      }
    }
  }

  /** In every interleaving, the bytes taken from any client's bucket, and from the global one, over
      any interval of length d are at most rate * (1 + d). */
  lemma {:induction false} DebitsBounded(rates: map<Key, real>, start: real, steps: seq<Step>, key: Key,
                                         from: real, to: real)
    requires Exec(rates, start, steps).Some? && key in rates && 0.0 <= rates[key] && from <= to
    ensures DebitedBetween(Exec(rates, start, steps).value.log, key, from, to) <= Allowance(rates[key], to - from)
  {
    ExecKeeps(rates, start, steps);
    var s, r := Exec(rates, start, steps).value, rates[key];
    assert BucketFollowsLog(rates, start, s, key);
    var cs := CallsOn(s.log, key);
    SpentBound(r, start, cs, from, to);
    assert DebitedBetween(s.log, key, from, to) == SpentBetween(New(r, r, start), cs, from, to);
  }

  /** In every interleaving, a granted call took its bytes from the global bucket and from its own
      client's, wherever those are limited; a refused one took nothing from its client's, and took
      from the global one exactly when it was refused by the last of its four operations. */
  lemma {:induction false} GrantsArePaid(rates: map<Key, real>, start: real, steps: seq<Step>, tid: nat)
    requires Exec(rates, start, steps).Some? && tid in Exec(rates, start, steps).value.threads
    ensures var s := Exec(rates, start, steps).value; var t := s.threads[tid];
      && (t.pc == Granted && Global in rates ==> TakenBy(s.log, tid, Global) == t.n)
      && (t.pc == Granted && t.id != Limiter.NO_CLIENT && Client(t.id) in rates ==>
            TakenBy(s.log, tid, Client(t.id)) == t.n)
      && (t.pc == Refused || t.pc == LateGlobal ==> forall key :: TakenBy(s.log, tid, key) == 0.0)
      && (t.pc == LateClient ==> TakenBy(s.log, tid, Client(t.id)) == 0.0)
      && (t.pc == LateClient && Global in rates ==> TakenBy(s.log, tid, Global) == t.n)
  {
    ExecKeeps(rates, start, steps);
    assert ThreadFollowsLog(rates, Exec(rates, start, steps).value, tid);
  }

  lemma {:induction false} ExecSnoc(rates: map<Key, real>, start: real, steps: seq<Step>, step: Step)
    requires Exec(rates, start, steps).Some? && Enabled(Exec(rates, start, steps).value, step)
    ensures Exec(rates, start, steps + [step]) == Some(Apply(Exec(rates, start, steps).value, step))
  {
    assert (steps + [step])[..|steps + [step]| - 1] == steps;
  }
}
