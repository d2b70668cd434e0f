/** The two-level bandwidth limiter. Upload and download are the same code over separate fields:
    this is one direction of it. */
module Limiter {
  import opened Words
  import opened TokenBuckets

  const NO_CLIENT := Id([])

  /** The instants at which one check reads the clock. */
  datatype Instants = Instants(create: real, probeClient: real, probeGlobal: real, takeGlobal: real, takeClient: real)

  predicate InOrder(from: real, ts: Instants) {
    from <= ts.create <= ts.probeClient <= ts.probeGlobal <= ts.takeGlobal <= ts.takeClient
  }

  /** The last two are the outcomes the code comments call theoretically unreachable. */
  datatype Verdict = Granted | ClientRefused | GlobalRefused | LateGlobal | LateClient

  datatype Pair = Pair(client: Option<Bucket>, global: Option<Bucket>)

  /** One configured direction: the limits and the live buckets. */
  datatype Table = Table(rates: map<Id, real>, globalRate: Option<real>,
                         global: Option<Bucket>, clients: map<Id, Bucket>)

  function Fill(rate: Option<real>, now: real): Option<Bucket> {
    if rate.None? then None else Some(New(rate.value, rate.value, now))
  }

  // ---------------------------------------------------------------- specification of a check

  function HasIn(b: Option<Bucket>, n: real, at: real): bool {
    b.None? || Has(b.value, n, at)
  }

  function RefillIn(b: Option<Bucket>, at: real): Option<Bucket> {
    if b.None? then None else Some(Refill(b.value, at))
  }

  function DebitIn(b: Option<Bucket>, n: real, at: real): Option<Bucket> {
    if b.None? then None else Some(Debit(b.value, n, at))
  }

  /** Check client, check global, take global, take client. */
  function CheckPair(p: Pair, n: real, ts: Instants): (Verdict, Pair) {
    var p1 := p.(client := RefillIn(p.client, ts.probeClient));
    if !HasIn(p.client, n, ts.probeClient) then (ClientRefused, p1)
    else
      var p2 := p1.(global := RefillIn(p1.global, ts.probeGlobal));
      if !HasIn(p1.global, n, ts.probeGlobal) then (GlobalRefused, p2)
      else
        var p3 := p2.(global := DebitIn(p2.global, n, ts.takeGlobal));
        if !HasIn(p2.global, n, ts.takeGlobal) then (LateGlobal, p3)
        else
          var p4 := p3.(client := DebitIn(p3.client, n, ts.takeClient));
          if !HasIn(p3.client, n, ts.takeClient) then (LateClient, p4) else (Granted, p4)
  }

  /** The client's bucket, made on first use. */
  function Obtain(t: Table, id: Id, now: real): Table {
    if id == NO_CLIENT || id !in t.rates || id in t.clients then t
    else t.(clients := t.clients[id := New(t.rates[id], t.rates[id], now)])
  }

  function ClientBucket(t: Table, id: Id): Option<Bucket> {
    if id != NO_CLIENT && id in t.rates && id in t.clients then Some(t.clients[id]) else None
  }

  function PutBack(t: Table, id: Id, p: Pair): Table {
    t.(global := p.global, clients := if p.client.None? then t.clients else t.clients[id := p.client.value])
  }

  function CheckTable(t: Table, id: Id, n: real, ts: Instants): (Verdict, Table) {
    if id == NO_CLIENT then
      if HasIn(t.global, n, ts.takeGlobal) then (Granted, t.(global := DebitIn(t.global, n, ts.takeGlobal)))
      else (GlobalRefused, t.(global := DebitIn(t.global, n, ts.takeGlobal)))
    else
      var o := Obtain(t, id, ts.create);
      var (v, p) := CheckPair(Pair(ClientBucket(o, id), o.global), n, ts);
      (v, PutBack(o, id, p))
  }

  function SetLimit(t: Table, id: Id, rate: Option<real>, now: real): Table {
    if rate.None? then t
    else t.(rates := t.rates[id := rate.value], clients := t.clients[id := New(rate.value, rate.value, now)])
  }

  function RemoveLimit(t: Table, id: Id): Table {
    t.(rates := t.rates - {id}, clients := t.clients - {id})
  }

  /** NewBandwidthLimiter: client buckets are left for first use. */
  function Constructed(rates: map<Id, real>, globalRate: Option<real>, now: real): Table {
    Table(rates, globalRate, Fill(globalRate, now), map[])
  }

  /** UpdateLimits: every client bucket is made at once. */
  function Updated(rates: map<Id, real>, globalRate: Option<real>, now: real): Table {
    Table(rates, globalRate, Fill(globalRate, now), map id | id in rates :: New(rates[id], rates[id], now))
  }

  // ---------------------------------------------------------------- the program

  class BandwidthLimiter {
    var rates: map<Id, real>
    var globalRate: Option<real>
    var globalBucket: TokenBucket?
    var clientBuckets: map<Id, TokenBucket>

    ghost predicate Valid()
      reads this
    {
      && (forall a, b :: a in clientBuckets && b in clientBuckets && a != b ==> clientBuckets[a] != clientBuckets[b])
      && (forall a :: a in clientBuckets ==> clientBuckets[a] != globalBucket)
    }

    ghost function Global(): Option<Bucket>
      reads this, globalBucket
    {
      if globalBucket == null then None else Some(globalBucket.Look())
    }

    ghost function Look(): Table
      reads this, globalBucket, clientBuckets.Values
    {
      Table(rates, globalRate, Global(), map id | id in clientBuckets :: clientBuckets[id].Look())
    }

    constructor (rates: map<Id, real>, globalRate: Option<real>, now: real)
      ensures Valid() && Look() == Constructed(rates, globalRate, now)
      ensures globalBucket != null ==> fresh(globalBucket)
    {
      this.rates, this.globalRate := rates, globalRate;
      clientBuckets, globalBucket := map[], null;
      new;
      if globalRate.Some? {
        globalBucket := new TokenBucket(globalRate.value, globalRate.value, now);
      }
    }

    method GetClientBucket(id: Id, now: real) returns (bucket: TokenBucket?)
      requires Valid()
      modifies this`clientBuckets
      ensures Valid() && Look() == Obtain(old(Look()), id, now)
      ensures bucket == if id != NO_CLIENT && id in rates && id in clientBuckets then clientBuckets[id] else null
      ensures forall k :: k in clientBuckets ==>
        if k in old(clientBuckets) then clientBuckets[k] == old(clientBuckets[k]) else fresh(clientBuckets[k])
    {
      if id == NO_CLIENT || id !in rates {
        return null;
      }
      if id in clientBuckets {
        return clientBuckets[id];
      }
      bucket := new TokenBucket(rates[id], rates[id], now);
      clientBuckets := clientBuckets[id := bucket];
      assert Look().clients == Obtain(old(Look()), id, now).clients;
    }

    /** Check both buckets, then take from both, global first. */
    method CheckBoth(client: TokenBucket?, global: TokenBucket?, n: real, ts: Instants) returns (ok: bool)
      requires client != null ==> client != global
      modifies client, global
      ensures ok == (CheckPair(old(PairOf(client, global)), n, ts).0 == Granted)
      ensures PairOf(client, global) == CheckPair(old(PairOf(client, global)), n, ts).1
    {
      if client != null {
        var has := client.CanConsume(n, ts.probeClient);
        if !has {
          return false;
        }
      }
      if global != null {
        var has := global.CanConsume(n, ts.probeGlobal);
        if !has {
          return false;
        }
      }
      if global != null {
        var taken := global.Consume(n, ts.takeGlobal);
        if !taken {
          return false;
        }
      }
      if client != null {
        var taken := client.Consume(n, ts.takeClient);
        if !taken {
          return false;
        }
      }
      return true;
    }

    method CheckGlobal(n: real, at: real) returns (ok: bool)
      modifies globalBucket
      ensures ok == HasIn(old(Global()), n, at) && Global() == DebitIn(old(Global()), n, at)
    {
      if globalBucket != null {
        ok := globalBucket.Consume(n, at);
        return;
      }
      return true;
    }

    method Check(id: Id, n: real, ts: Instants) returns (ok: bool)
      requires Valid()
      modifies this`clientBuckets, globalBucket, clientBuckets.Values
      ensures Valid()
      ensures ok == (CheckTable(old(Look()), id, n, ts).0 == Granted)
      ensures Look() == CheckTable(old(Look()), id, n, ts).1
    {
      hide CheckPair, Refill, Has, Debit;
      if id == NO_CLIENT {
        ok := CheckGlobal(n, ts.takeGlobal);
        assert Look().clients == old(Look()).clients;
        return;
      }
      var client := GetClientBucket(id, ts.create);
      ghost var o := Look();
      ok := CheckBoth(client, globalBucket, n, ts);
      assert Look().clients == if client == null then o.clients else o.clients[id := client.Look()];
    }

    method SetClientLimit(id: Id, rate: Option<real>, now: real)
      requires Valid()
      modifies this
      ensures Valid() && Look() == SetLimit(old(Look()), id, rate, now)
    {
      if rate.Some? {
        rates := rates[id := rate.value];
        var bucket := new TokenBucket(rate.value, rate.value, now);
        clientBuckets := clientBuckets[id := bucket];
      }
      assert Look().clients == SetLimit(old(Look()), id, rate, now).clients;
    }

    method RemoveClientLimit(id: Id)
      requires Valid()
      modifies this
      ensures Valid() && Look() == RemoveLimit(old(Look()), id)
    {
      rates := rates - {id};
      clientBuckets := clientBuckets - {id};
      assert Look().clients == RemoveLimit(old(Look()), id).clients;
    }

    method UpdateLimits(newRates: map<Id, real>, newGlobal: Option<real>, now: real)
      requires Valid()
      modifies this
      ensures Valid() && Look() == Updated(newRates, newGlobal, now)
    {
      rates := newRates;
      globalRate := newGlobal;
      globalBucket := null;
      clientBuckets := map[];
      if newGlobal.Some? {
        globalBucket := new TokenBucket(newGlobal.value, newGlobal.value, now);
      }
      var todo := newRates.Keys;
      while todo != {}
        invariant Valid() && todo <= newRates.Keys
        invariant rates == newRates && globalRate == newGlobal && Global() == Fill(newGlobal, now)
        invariant globalBucket != null ==> fresh(globalBucket)
        invariant clientBuckets.Keys == newRates.Keys - todo
        invariant forall k :: k in clientBuckets ==>
          fresh(clientBuckets[k]) && clientBuckets[k].Look() == New(newRates[k], newRates[k], now)
        decreases todo
      {
        var id :| id in todo;
        Fresh(id, newRates[id], now);
        todo := todo - {id};
      }
      assert Look().clients == Updated(newRates, newGlobal, now).clients;
    }

    /** One client's turn of the loop. */
    method Fresh(id: Id, rate: real, now: real)
      requires Valid()
      modifies this`clientBuckets
      ensures Valid() && id in clientBuckets && fresh(clientBuckets[id])
      ensures clientBuckets[id].Look() == New(rate, rate, now)
      ensures clientBuckets == old(clientBuckets)[id := clientBuckets[id]]
    {
      var bucket := new TokenBucket(rate, rate, now);
      clientBuckets := clientBuckets[id := bucket];
    }
  }

  ghost function PairOf(client: TokenBucket?, global: TokenBucket?): Pair
    reads client, global
  {
    Pair(if client == null then None else Some(client.Look()), if global == null then None else Some(global.Look()))
  }

  // ---------------------------------------------------------------- every bucket matches its limit

  predicate Matches(b: Bucket, rate: real) {
    b.capacity == rate && b.rate == rate
  }

  /** Each live bucket has the capacity and rate of the limit configured for it. */
  predicate Configured(t: Table) {
    && (forall id :: id in t.clients ==> id in t.rates && Matches(t.clients[id], t.rates[id]))
    && (t.global.Some? <==> t.globalRate.Some?)
    && (t.global.Some? ==> Matches(t.global.value, t.globalRate.value))
  }

  datatype Op =
    | Checking(id: Id, n: real, ts: Instants)
    | Setting(id: Id, rate: Option<real>, now: real)
    | Removing(id: Id)
    | Updating(rates: map<Id, real>, globalRate: Option<real>, now: real)

  function Apply(t: Table, op: Op): Table {
    match op
    case Checking(id, n, ts) => CheckTable(t, id, n, ts).1
    case Setting(id, rate, now) => SetLimit(t, id, rate, now)
    case Removing(id) => RemoveLimit(t, id)
    case Updating(rates, g, now) => Updated(rates, g, now)
  }

  function Run(t: Table, ops: seq<Op>): Table {
    if ops == [] then t else Apply(Run(t, ops[..|ops| - 1]), ops[|ops| - 1])
  }

  lemma CheckKeepsParameters(p: Pair, n: real, ts: Instants)
    ensures var q := CheckPair(p, n, ts).1;
      && (q.client.Some? <==> p.client.Some?) && (q.global.Some? <==> p.global.Some?)
      && (p.client.Some? ==>
            q.client.value.capacity == p.client.value.capacity && q.client.value.rate == p.client.value.rate)
      && (p.global.Some? ==>
            q.global.value.capacity == p.global.value.capacity && q.global.value.rate == p.global.value.rate)
  {
  }

  lemma {:induction false} BucketsMatchLimits(t: Table, ops: seq<Op>)
    requires Configured(t)
    ensures Configured(Run(t, ops))
  {
    if ops != [] {
      var u, op := Run(t, ops[..|ops| - 1]), ops[|ops| - 1];
      BucketsMatchLimits(t, ops[..|ops| - 1]);
      if op.Checking? && op.id != NO_CLIENT {
        var o := Obtain(u, op.id, op.ts.create);
        assert Configured(o);
        CheckKeepsParameters(Pair(ClientBucket(o, op.id), o.global), op.n, op.ts);
      }
    }
  }

  // ---------------------------------------------------------------- checks that do not overlap

  predicate MatchesSelf(b: Option<Bucket>) {
    b.Some? ==> b.value.capacity == b.value.rate
  }

  lemma StaysAvailable(b: Bucket, n: real, s: real, t: real)
    requires b.capacity == b.rate && 0.0 <= n && s <= t && Has(b, n, s)
    ensures Has(Refill(b, s), n, t)
  {
    EarnedPositive(b.rate, t - s);
  }

  /** A check with the buckets to itself: the two branches after the checks are never taken, a
      refusal takes from neither bucket, and a grant takes exactly n from each. */
  lemma UninterruptedCheck(p: Pair, n: real, ts: Instants)
    requires 0.0 <= n && MatchesSelf(p.client) && MatchesSelf(p.global)
    requires ts.probeClient <= ts.probeGlobal <= ts.takeGlobal <= ts.takeClient
    ensures var (v, q) := CheckPair(p, n, ts);
      && v != LateGlobal && v != LateClient
      && (v == Granted <==> HasIn(p.client, n, ts.probeClient) && HasIn(p.global, n, ts.probeGlobal))
      && (v == ClientRefused ==> q == p.(client := RefillIn(p.client, ts.probeClient)))
      && (v == GlobalRefused ==> q == Pair(RefillIn(p.client, ts.probeClient), RefillIn(p.global, ts.probeGlobal)))
      && (v == Granted && p.client.Some? ==>
            q.client.value.tokens == Refill(Refill(p.client.value, ts.probeClient), ts.takeClient).tokens - n)
      && (v == Granted && p.global.Some? ==>
            q.global.value.tokens == Refill(Refill(p.global.value, ts.probeGlobal), ts.takeGlobal).tokens - n)
  {
    if p.global.Some? && Has(p.global.value, n, ts.probeGlobal) {
      StaysAvailable(p.global.value, n, ts.probeGlobal, ts.takeGlobal);
    }
    if p.client.Some? && Has(p.client.value, n, ts.probeClient) {
      StaysAvailable(p.client.value, n, ts.probeClient, ts.takeClient);
    }
  }

  /** The bucket a check of this client looks at: none, the stored one, or a full one made on the spot. */
  function Consulted(t: Table, id: Id, now: real): Option<Bucket> {
    if id == NO_CLIENT || id !in t.rates then None
    else Some(if id in t.clients then t.clients[id] else New(t.rates[id], t.rates[id], now))
  }

  /** A check is granted exactly when the client's bucket, if it is limited, and the global one, if there
      is one, both have the bytes. */
  lemma GrantedExactly(t: Table, id: Id, n: real, ts: Instants)
    requires Configured(t) && 0.0 <= n
    requires ts.probeClient <= ts.probeGlobal <= ts.takeGlobal <= ts.takeClient
    ensures CheckTable(t, id, n, ts).0 == Granted <==>
      && HasIn(Consulted(t, id, ts.create), n, ts.probeClient)
      && HasIn(t.global, n, if id == NO_CLIENT then ts.takeGlobal else ts.probeGlobal)
  {
    if id != NO_CLIENT {
      var o := Obtain(t, id, ts.create);
      UninterruptedCheck(Pair(ClientBucket(o, id), o.global), n, ts);
    }
  }

  /** A bucket that has just been made has exactly its limit. */
  lemma NewHas(rate: real, made: real, n: real, at: real)
    requires made <= at && 0.0 <= n
    ensures Has(New(rate, rate, made), n, at) <==> n <= rate
  {
    if 0.0 <= rate {
      EarnedPositive(rate, at - made);
    }
  }

  /** After a limit was set, the client's next check is granted exactly when it is within the new
      limit and the global bucket has the bytes; without a limit in the request, and for every other
      client, the next check is decided as before. */
  lemma AfterSetLimit(t: Table, id: Id, rate: Option<real>, now: real, j: Id, n: real, ts: Instants)
    requires Configured(t) && 0.0 <= n && InOrder(now, ts)
    ensures CheckTable(SetLimit(t, id, rate, now), j, n, ts).0 == Granted <==>
      if rate.Some? && j == id && j != NO_CLIENT then n <= rate.value && HasIn(t.global, n, ts.probeGlobal)
      else CheckTable(t, j, n, ts).0 == Granted
  {
    hide CheckTable, Has, HasIn;
    var u := SetLimit(t, id, rate, now);
    assert Configured(u);
    GrantedExactly(t, j, n, ts);
    GrantedExactly(u, j, n, ts);
    if rate.Some? && j == id && j != NO_CLIENT {
      NewHas(rate.value, now, n, ts.probeClient);
      ConsultedHas(u, j, n, ts);
    }
  }

  lemma ConsultedHas(t: Table, id: Id, n: real, ts: Instants)
    requires id != NO_CLIENT && id in t.rates
    ensures HasIn(Consulted(t, id, ts.create), n, ts.probeClient)
         == Has(if id in t.clients then t.clients[id] else New(t.rates[id], t.rates[id], ts.create), n, ts.probeClient)
  {
  }

  /** After a limit was removed only the global bucket decides; other clients are decided as before. */
  lemma AfterRemoveLimit(t: Table, id: Id, j: Id, n: real, ts: Instants)
    requires Configured(t) && 0.0 <= n && InOrder(ts.create, ts)
    ensures CheckTable(RemoveLimit(t, id), j, n, ts).0 == Granted <==>
      if j == id && j != NO_CLIENT then HasIn(t.global, n, ts.probeGlobal) else CheckTable(t, j, n, ts).0 == Granted
  {
    hide CheckTable;
    assert Configured(RemoveLimit(t, id));
    GrantedExactly(t, j, n, ts);
    GrantedExactly(RemoveLimit(t, id), j, n, ts);
  }

  /** After an update, or on a new limiter, a first check is granted exactly within the configured limits. */
  lemma AfterUpdate(rates: map<Id, real>, globalRate: Option<real>, now: real, id: Id, n: real, ts: Instants)
    requires 0.0 <= n && InOrder(now, ts)
    ensures forall t :: t == Updated(rates, globalRate, now) || t == Constructed(rates, globalRate, now) ==>
      (CheckTable(t, id, n, ts).0 == Granted <==>
         && (id != NO_CLIENT && id in rates ==> n <= rates[id])
         && (globalRate.Some? ==> n <= globalRate.value))
  {
    hide CheckTable, Has;
    var at := if id == NO_CLIENT then ts.takeGlobal else ts.probeGlobal;
    forall t | t == Updated(rates, globalRate, now) || t == Constructed(rates, globalRate, now)
      ensures CheckTable(t, id, n, ts).0 == Granted <==>
         && (id != NO_CLIENT && id in rates ==> n <= rates[id])
         && (globalRate.Some? ==> n <= globalRate.value)
    {
      assert Configured(t);
      GrantedExactly(t, id, n, ts);
      if id != NO_CLIENT && id in rates {
        NewHas(rates[id], now, n, ts.probeClient);
        NewHas(rates[id], ts.create, n, ts.probeClient);
      }
      if globalRate.Some? {
        NewHas(globalRate.value, now, n, at);
      }
    }
  }

  // ---------------------------------------------------------------- first use or up front

  predicate Full(b: Bucket, now: real) {
    b.tokens == b.capacity && b.lastRefill <= now
  }

  /** `eager` holds every configured client's bucket; `lazy` lacks some that are still untouched. */
  ghost predicate SameButUntouched(lazy: Table, eager: Table, now: real) {
    && lazy.rates == eager.rates && lazy.globalRate == eager.globalRate && lazy.global == eager.global
    && Configured(lazy) && Configured(eager)
    && eager.clients.Keys == eager.rates.Keys
    && forall id :: id in eager.clients ==>
         || eager.rates[id] < 0.0   // such a client is always refused
         || (id in lazy.clients && lazy.clients[id] == eager.clients[id])
         || (id !in lazy.clients && Full(eager.clients[id], now))
  }

  function TimeAfter(op: Op, now: real): real {
    match op
    case Checking(_, _, ts) => ts.takeClient
    case Setting(_, _, at) => at
    case Removing(_) => now
    case Updating(_, _, at) => at
  }

  predicate Timely(op: Op, now: real) {
    && (op.Checking? ==> 0.0 <= op.n && InOrder(now, op.ts))
    && now <= TimeAfter(op, now)
  }

  function Now(start: real, ops: seq<Op>): real {
    if ops == [] then start else TimeAfter(ops[|ops| - 1], Now(start, ops[..|ops| - 1]))
  }

  predicate AllTimely(start: real, ops: seq<Op>) {
    ops == [] || (AllTimely(start, ops[..|ops| - 1]) && Timely(ops[|ops| - 1], Now(start, ops[..|ops| - 1])))
  }

  lemma FullRefills(a: Bucket, b: Bucket, t: real)
    requires a.capacity == b.capacity && a.rate == b.rate && 0.0 <= a.rate
    requires Full(a, t) && Full(b, t)
    ensures Refill(a, t) == Refill(b, t)
  {
    EarnedPositive(a.rate, t - a.lastRefill);
    EarnedPositive(a.rate, t - b.lastRefill);
  }

  lemma CheckPairSame(p: Pair, q: Pair, n: real, ts: Instants)
    requires p.global == q.global && RefillIn(p.client, ts.probeClient) == RefillIn(q.client, ts.probeClient)
    ensures CheckPair(p, n, ts) == CheckPair(q, n, ts)
  {
  }

  /** One client's entries in the two tables may differ only while untouched, or when always refused. */
  ghost predicate Alike(lazy: Option<Bucket>, eager: Bucket, now: real) {
    || eager.rate < 0.0
    || lazy == Some(eager)
    || (lazy.None? && Full(eager, now))
  }

  /** The client's part of a check on tables related by `SameButUntouched`. */
  lemma CheckPairAlike(lazy: Option<Bucket>, eager: Bucket, global: Option<Bucket>, n: real, ts: Instants, now: real)
    requires Alike(lazy, eager, now) && 0.0 <= n && InOrder(now, ts) && eager.capacity == eager.rate
    requires lazy.Some? ==> lazy.value.capacity == eager.capacity && lazy.value.rate == eager.rate
    ensures var l := if lazy.Some? then lazy.value else New(eager.rate, eager.rate, ts.create);
      var (v, p) := CheckPair(Pair(Some(l), global), n, ts);
      var (w, q) := CheckPair(Pair(Some(eager), global), n, ts);
      v == w && p.global == q.global && p.client.Some? && q.client.Some? && (p.client == q.client || eager.rate < 0.0)
  {
    var l := if lazy.Some? then lazy.value else New(eager.rate, eager.rate, ts.create);
    if 0.0 <= eager.rate {
      if lazy.None? {
        FullRefills(l, eager, ts.probeClient);
      }
      CheckPairSame(Pair(Some(l), global), Pair(Some(eager), global), n, ts);
    }
  }

  lemma PutBackAlike(lazy: Table, eager: Table, id: Id, now: real, later: real, p: Pair, q: Pair)
    requires SameButUntouched(lazy, eager, now) && now <= later && id in eager.rates
    requires p.global == q.global && p.client.Some? && q.client.Some?
    requires Matches(p.client.value, eager.rates[id]) && Matches(q.client.value, eager.rates[id])
    requires p.client == q.client || eager.rates[id] < 0.0
    requires p.global.Some? == eager.global.Some?
    requires p.global.Some? ==> Matches(p.global.value, eager.globalRate.value)
    ensures SameButUntouched(PutBack(lazy, id, p), PutBack(eager, id, q), later)
  {
  }

  /** A limited client's check, with its bucket made on the spot when it has none yet. */
  lemma CheckTableIs(t: Table, id: Id, n: real, ts: Instants)
    requires id != NO_CLIENT && id in t.rates
    ensures var b := if id in t.clients then t.clients[id] else New(t.rates[id], t.rates[id], ts.create);
      var r := CheckPair(Pair(Some(b), t.global), n, ts);
      CheckTable(t, id, n, ts) == (r.0, PutBack(t, id, r.1))
  {
    var o := Obtain(t, id, ts.create);
    var r := CheckPair(Pair(ClientBucket(o, id), t.global), n, ts);
    CheckKeepsParameters(Pair(ClientBucket(o, id), t.global), n, ts);
    assert o.clients[id := r.1.client.value] == t.clients[id := r.1.client.value];
  }

  lemma CheckSame(lazy: Table, eager: Table, id: Id, n: real, ts: Instants, now: real)
    requires SameButUntouched(lazy, eager, now) && 0.0 <= n && InOrder(now, ts)
    requires id != NO_CLIENT && id in eager.rates
    ensures CheckTable(lazy, id, n, ts).0 == CheckTable(eager, id, n, ts).0
    ensures SameButUntouched(CheckTable(lazy, id, n, ts).1, CheckTable(eager, id, n, ts).1, ts.takeClient)
  {
    var l, e := if id in lazy.clients then Some(lazy.clients[id]) else None, eager.clients[id];
    var b := if l.Some? then l.value else New(e.rate, e.rate, ts.create);
    CheckPairAlike(l, e, lazy.global, n, ts, now);
    CheckKeepsParameters(Pair(Some(b), lazy.global), n, ts);
    CheckKeepsParameters(Pair(Some(e), eager.global), n, ts);
    CheckTableIs(lazy, id, n, ts);
    CheckTableIs(eager, id, n, ts);
    PutBackAlike(lazy, eager, id, now, ts.takeClient,
                 CheckPair(Pair(Some(b), lazy.global), n, ts).1, CheckPair(Pair(Some(e), eager.global), n, ts).1);
  }

  /** Without a client limit only the shared global bucket is involved. */
  lemma CheckSameUnlimited(lazy: Table, eager: Table, id: Id, n: real, ts: Instants, now: real)
    requires SameButUntouched(lazy, eager, now) && InOrder(now, ts)
    requires id == NO_CLIENT || id !in eager.rates
    ensures CheckTable(lazy, id, n, ts).0 == CheckTable(eager, id, n, ts).0
    ensures SameButUntouched(CheckTable(lazy, id, n, ts).1, CheckTable(eager, id, n, ts).1, ts.takeClient)
  {
    CheckKeepsParameters(Pair(None, lazy.global), n, ts);
  }

  function Answers(t: Table, ops: seq<Op>): seq<bool> {
    if ops == [] then []
    else
      var init, op := ops[..|ops| - 1], ops[|ops| - 1];
      var before := Answers(t, init);
      if op.Checking? then before + [CheckTable(Run(t, init), op.id, op.n, op.ts).0 == Granted] else before
  }

  lemma FollowsSetLimit(lazy: Table, eager: Table, now: real, id: Id, rate: Option<real>, later: real)
    requires SameButUntouched(lazy, eager, now) && now <= later
    ensures SameButUntouched(SetLimit(lazy, id, rate, later), SetLimit(eager, id, rate, later), later)
  {
  }

  lemma FollowsRemoveLimit(lazy: Table, eager: Table, now: real, id: Id)
    requires SameButUntouched(lazy, eager, now)
    ensures SameButUntouched(RemoveLimit(lazy, id), RemoveLimit(eager, id), now)
  {
  }

  lemma FollowsStep(lazy: Table, eager: Table, now: real, op: Op)
    requires SameButUntouched(lazy, eager, now) && Timely(op, now)
    ensures SameButUntouched(Apply(lazy, op), Apply(eager, op), TimeAfter(op, now))
    ensures op.Checking? ==> CheckTable(lazy, op.id, op.n, op.ts).0 == CheckTable(eager, op.id, op.n, op.ts).0
  {
    hide CheckTable, SetLimit, RemoveLimit;
    if op.Setting? {
      FollowsSetLimit(lazy, eager, now, op.id, op.rate, op.now);
    } else if op.Removing? {
      FollowsRemoveLimit(lazy, eager, now, op.id);
    } else if op.Updating? {
    } else if op.id != NO_CLIENT && op.id in eager.rates {
      CheckSame(lazy, eager, op.id, op.n, op.ts, now);
    } else {
      CheckSameUnlimited(lazy, eager, op.id, op.n, op.ts, now);
    }
  }

  lemma {:induction false} LazyFollowsEager(lazy: Table, eager: Table, now: real, ops: seq<Op>)
    requires SameButUntouched(lazy, eager, now) && AllTimely(now, ops)
    ensures SameButUntouched(Run(lazy, ops), Run(eager, ops), Now(now, ops))
    ensures Answers(lazy, ops) == Answers(eager, ops)
  {
    hide CheckTable, SameButUntouched, Apply, Timely;
    if ops != [] {
      var init, op := ops[..|ops| - 1], ops[|ops| - 1];
      LazyFollowsEager(lazy, eager, now, init);
      FollowsStep(Run(lazy, init), Run(eager, init), Now(now, init), op);
    }
  }

  /** A limiter that makes client buckets on first use answers every sequence of checks, with limit
      changes between, exactly as one that made them all up front. */
  lemma FirstUseEqualsUpFront(rates: map<Id, real>, globalRate: Option<real>, now: real, ops: seq<Op>)
    requires AllTimely(now, ops)
    ensures Answers(Constructed(rates, globalRate, now), ops) == Answers(Updated(rates, globalRate, now), ops)
  {
    LazyFollowsEager(Constructed(rates, globalRate, now), Updated(rates, globalRate, now), now, ops);
  }
}
