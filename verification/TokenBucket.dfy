/** The lazily refilled token bucket. */
module TokenBuckets {
  datatype Bucket = Bucket(tokens: real, lastRefill: real, capacity: real, rate: real)

  function New(capacity: real, rate: real, now: real): Bucket {
    Bucket(capacity, now, capacity, rate)
  }

  function Min(a: real, b: real): real {
    if a < b then a else b
  }

  /** Tokens earned over a time span. */
  function Earned(rate: real, span: real): real {
    span * rate
  }

  function Refill(b: Bucket, now: real): Bucket {
    b.(tokens := Min(b.capacity, b.tokens + Earned(b.rate, now - b.lastRefill)), lastRefill := now)
  }

  lemma EarnedAdds(rate: real, r: real, s: real, t: real)
    ensures Earned(rate, t - r) == Earned(rate, s - r) + Earned(rate, t - s)
  {
  }

  lemma EarnedPositive(rate: real, span: real)
    requires 0.0 <= rate && 0.0 <= span
    ensures 0.0 <= Earned(rate, span)
  {
  }

  function Has(b: Bucket, n: real, now: real): bool {
    Refill(b, now).tokens >= n
  }

  function Debit(b: Bucket, n: real, now: real): Bucket {
    var r := Refill(b, now);
    if r.tokens >= n then r.(tokens := r.tokens - n) else r
  }

  class TokenBucket {
    var tokens: real
    var lastRefill: real
    const capacity: real
    const rate: real

    function Look(): Bucket
      reads this
    {
      Bucket(tokens, lastRefill, capacity, rate)
    }

    constructor (capacity: real, rate: real, now: real)
      ensures Look() == New(capacity, rate, now)
    {
      this.capacity, this.rate := capacity, rate;
      tokens, lastRefill := capacity, now;
    }

    method DoRefill(now: real)
      modifies this
      ensures Look() == Refill(old(Look()), now)
    {
      var elapsed := now - lastRefill;
      var tokensToAdd := Earned(rate, elapsed);
      tokens := Min(capacity, tokens + tokensToAdd);
      lastRefill := now;
    }

    method CanConsume(n: real, now: real) returns (ok: bool)
      modifies this
      ensures ok == Has(old(Look()), n, now)
      ensures Look() == Refill(old(Look()), now)
    {
      DoRefill(now);
      ok := tokens >= n;
    }

    method Consume(n: real, now: real) returns (ok: bool)
      modifies this
      ensures ok == Has(old(Look()), n, now)
      ensures Look() == Debit(old(Look()), n, now)
    {
      DoRefill(now);
      if tokens >= n {
        tokens := tokens - n;
        return true;
      }
      return false;
    }

    method GetAvailableTokens(now: real) returns (available: real)
      modifies this
      ensures Look() == Refill(old(Look()), now) && available == Look().tokens
    {
      DoRefill(now);
      available := tokens;
    }
  }

  // ---------------------------------------------------------------- runs of calls

  /** A probe is CanConsume or GetAvailableTokens: it refills and takes nothing. */
  datatype Call = Probe(at: real) | Consume(n: real, at: real)

  function Step(b: Bucket, c: Call): Bucket {
    match c
    case Probe(at) => Refill(b, at)
    case Consume(n, at) => Debit(b, n, at)
  }

  function Run(b: Bucket, cs: seq<Call>): Bucket {
    if cs == [] then b else Step(Run(b, cs[..|cs| - 1]), cs[|cs| - 1])
  }

  /** The amount the i-th call took out. */
  function Taken(b: Bucket, cs: seq<Call>, i: nat): real
    requires i < |cs|
  {
    match cs[i]
    case Probe(_) => 0.0
    case Consume(n, at) => if Has(Run(b, cs[..i]), n, at) then n else 0.0
  }

  /** Bytes admitted from the i-th call to the end of the run. */
  function Admitted(b: Bucket, cs: seq<Call>, i: nat): real
    requires i <= |cs|
    decreases |cs| - i
  {
    if i == |cs| then 0.0 else Taken(b, cs, i) + Admitted(b, cs, i + 1)
  }

  lemma {:induction false} AdmittedSnoc(b: Bucket, cs: seq<Call>, c: Call, i: nat)
    requires i <= |cs|
    ensures Admitted(b, cs + [c], i) == Admitted(b, cs, i) + Taken(b, cs + [c], |cs|)
    decreases |cs| - i
  {
    var more := cs + [c];
    if i < |cs| {
      assert more[..i] == cs[..i];
      AdmittedSnoc(b, cs, c, i + 1);
    } else {
      assert Admitted(b, more, |more|) == 0.0;
    }
  }

  /** What time `s`, at which `spent` was admitted since, leaves of the budget at time `t`. */
  function Budget(b: Bucket, s: real, t: real, spent: real): real {
    b.capacity + Earned(b.rate, t - s) - spent
  }

  /** The level at time `t` is `x`: the least of the capacity and of the budgets left by every
      earlier instant at which the bucket was looked at, creation included. */
  ghost predicate LevelIs(created: real, b: Bucket, cs: seq<Call>, t: real, x: real) {
    && x <= b.capacity
    && x <= Budget(b, created, t, Admitted(b, cs, 0))
    && (forall i :: 0 <= i < |cs| ==> x <= Budget(b, cs[i].at, t, Admitted(b, cs, i)))
    && (x == b.capacity || x == Budget(b, created, t, Admitted(b, cs, 0))
        || exists i :: 0 <= i < |cs| && x == Budget(b, cs[i].at, t, Admitted(b, cs, i)))
  }

  lemma BudgetShift(b: Bucket, s: real, t0: real, t: real, spent: real, d: real)
    ensures Budget(b, s, t, spent + d) == Budget(b, s, t0, spent) - d + Earned(b.rate, t - t0)
  {
    EarnedAdds(b.rate, s, t0, t);
  }

  lemma LevelStep(created: real, b: Bucket, cs: seq<Call>, c: Call, t: real, x: real, y: real)
    requires LevelIs(created, b, cs, c.at, x)
    requires y == Min(b.capacity, x - Taken(b, cs + [c], |cs|) + Earned(b.rate, t - c.at))
    ensures LevelIs(created, b, cs + [c], t, y)
  {
    hide Earned, Taken;
    var more, d := cs + [c], Taken(b, cs + [c], |cs|);
    var earned := Earned(b.rate, t - c.at);
    AdmittedSnoc(b, cs, c, 0);
    BudgetShift(b, created, c.at, t, Admitted(b, cs, 0), d);
    forall i | 0 <= i < |cs|
      ensures Budget(b, more[i].at, t, Admitted(b, more, i))
           == Budget(b, cs[i].at, c.at, Admitted(b, cs, i)) - d + earned
    {
      AdmittedSnoc(b, cs, c, i);
      BudgetShift(b, cs[i].at, c.at, t, Admitted(b, cs, i), d);
    }
    AdmittedSnoc(b, cs, c, |cs|);
    assert Budget(b, more[|cs|].at, t, Admitted(b, more, |cs|)) == b.capacity - d + earned;
    if y != b.capacity && x != b.capacity && x != Budget(b, created, c.at, Admitted(b, cs, 0)) {
      var i :| 0 <= i < |cs| && x == Budget(b, cs[i].at, c.at, Admitted(b, cs, i));
      assert y == Budget(b, more[i].at, t, Admitted(b, more, i));
    }
  }

  /** The exact level of a bucket created full, after any calls at any times. */
  lemma {:induction false} LevelExactly(capacity: real, rate: real, created: real, cs: seq<Call>, t: real)
    ensures var b := New(capacity, rate, created);
      LevelIs(created, b, cs, t, Refill(Run(b, cs), t).tokens)
  {
    var b := New(capacity, rate, created);
    RunKeepsParameters(b, cs);
    if cs == [] {
      assert Admitted(b, cs, 0) == 0.0;
    } else {
      var init, c := cs[..|cs| - 1], cs[|cs| - 1];
      assert init + [c] == cs && cs[..|init|] == init;
      LevelExactly(capacity, rate, created, init, c.at);
      RunKeepsParameters(b, init);
      LevelStep(created, b, init, c, t, Refill(Run(b, init), c.at).tokens, Refill(Run(b, cs), t).tokens);
    }
  }

  lemma {:induction false} RunKeepsParameters(b: Bucket, cs: seq<Call>)
    ensures Run(b, cs).capacity == b.capacity && Run(b, cs).rate == b.rate
    ensures Run(b, cs).lastRefill == if cs == [] then b.lastRefill else cs[|cs| - 1].at
  {
    if cs != [] {
      RunKeepsParameters(b, cs[..|cs| - 1]);
    }
  }

  /** Consume(n) at `t` says yes exactly when n fits the capacity and, from every earlier instant s,
      what was admitted since plus n is at most capacity + rate * (t - s). */
  lemma ConsumeExactly(capacity: real, rate: real, created: real, cs: seq<Call>, n: real, t: real)
    ensures var b := New(capacity, rate, created);
      Has(Run(b, cs), n, t) <==>
        && n <= capacity
        && n <= Budget(b, created, t, Admitted(b, cs, 0))
        && forall i :: 0 <= i < |cs| ==> n <= Budget(b, cs[i].at, t, Admitted(b, cs, i))
  {
    LevelExactly(capacity, rate, created, cs, t);
    var b := New(capacity, rate, created);
    LevelReaches(created, b, cs, t, Refill(Run(b, cs), t).tokens, n);
  }

  lemma LevelReaches(created: real, b: Bucket, cs: seq<Call>, t: real, x: real, n: real)
    requires LevelIs(created, b, cs, t, x)
    ensures x >= n <==>
      && n <= b.capacity
      && n <= Budget(b, created, t, Admitted(b, cs, 0))
      && forall i :: 0 <= i < |cs| ==> n <= Budget(b, cs[i].at, t, Admitted(b, cs, i))
  {
    if x < n && x != b.capacity && x != Budget(b, created, t, Admitted(b, cs, 0)) {
      var i :| 0 <= i < |cs| && x == Budget(b, cs[i].at, t, Admitted(b, cs, i));
    }
  }

  // ---------------------------------------------------------------- probes change nothing

  predicate Ordered(created: real, cs: seq<Call>) {
    && (forall i :: 0 <= i < |cs| ==> created <= cs[i].at)
    && (forall i, j :: 0 <= i < j < |cs| ==> cs[i].at <= cs[j].at)
  }

  /** The run without its probes. */
  function Consumptions(cs: seq<Call>): seq<Call> {
    if cs == [] then []
    else
      var init, c := Consumptions(cs[..|cs| - 1]), cs[|cs| - 1];
      if c.Probe? then init else init + [c]
  }

  lemma RefillTwice(b: Bucket, s: real, t: real)
    requires b.lastRefill <= s <= t && (0.0 <= b.rate || b.tokens <= b.capacity)
    ensures Refill(Refill(b, s), t) == Refill(b, t)
  {
    EarnedAdds(b.rate, b.lastRefill, s, t);
    if 0.0 <= b.rate {
      EarnedPositive(b.rate, t - s);
    } else {
      EarnedPositive(0.0 - b.rate, s - b.lastRefill);
      EarnedPositive(0.0 - b.rate, t - s);
      assert Earned(b.rate, s - b.lastRefill) == 0.0 - Earned(0.0 - b.rate, s - b.lastRefill);
      assert Earned(b.rate, t - s) == 0.0 - Earned(0.0 - b.rate, t - s);
    }
  }

  predicate SizesNonNegative(cs: seq<Call>) {
    forall i :: 0 <= i < |cs| && cs[i].Consume? ==> 0.0 <= cs[i].n
  }

  lemma {:induction false} NeverAboveCapacity(b: Bucket, cs: seq<Call>)
    requires b.tokens <= b.capacity && SizesNonNegative(cs)
    ensures Run(b, cs).tokens <= b.capacity
  {
    if cs != [] {
      NeverAboveCapacity(b, cs[..|cs| - 1]);
      RunKeepsParameters(b, cs[..|cs| - 1]);
    }
  }

  /** With clocks that do not run backwards, the tokens at any later time, and so every later answer,
      are the same with and without the probes. */
  lemma {:induction false} ProbesChangeNothing(b: Bucket, cs: seq<Call>, t: real)
    requires Ordered(b.lastRefill, cs) && b.tokens <= b.capacity
    requires 0.0 <= b.rate || SizesNonNegative(cs)
    requires b.lastRefill <= t && forall i :: 0 <= i < |cs| ==> cs[i].at <= t
    ensures Refill(Run(b, cs), t) == Refill(Run(b, Consumptions(cs)), t)
  {
    hide Earned, Refill;
    if cs != [] {
      var init, c := cs[..|cs| - 1], cs[|cs| - 1];
      ProbesChangeNothing(b, init, c.at);
      RunKeepsParameters(b, init);
      if c.Probe? {
        if SizesNonNegative(init) {
          NeverAboveCapacity(b, init);
        }
        RefillTwice(Run(b, init), c.at, t);
        ProbesChangeNothing(b, init, t);
      } else {
        assert Consumptions(cs)[..|Consumptions(init)|] == Consumptions(init);
      }
    }
  }

  lemma AnswersIgnoreProbes(capacity: real, rate: real, created: real, cs: seq<Call>, n: real, t: real)
    requires Ordered(created, cs) && (0.0 <= rate || SizesNonNegative(cs))
    requires created <= t && forall i :: 0 <= i < |cs| ==> cs[i].at <= t
    ensures var b := New(capacity, rate, created); Has(Run(b, cs), n, t) == Has(Run(b, Consumptions(cs)), n, t)
  {
    ProbesChangeNothing(New(capacity, rate, created), cs, t);
  }

  lemma {:induction false} TokensNeverNegative(capacity: real, rate: real, created: real, cs: seq<Call>)
    requires 0.0 <= capacity && 0.0 <= rate && Ordered(created, cs)
    ensures 0.0 <= Run(New(capacity, rate, created), cs).tokens
  {
    if cs != [] {
      var b, init, c := New(capacity, rate, created), cs[..|cs| - 1], cs[|cs| - 1];
      TokensNeverNegative(capacity, rate, created, init);
      RunKeepsParameters(b, init);
      EarnedPositive(rate, c.at - Run(b, init).lastRefill);
    }
  }

  /** Whatever the calls, the bytes admitted from the i-th call to the last stay within one
      capacity plus what is earned in between. */
  lemma IntervalBound(capacity: real, rate: real, created: real, cs: seq<Call>, i: nat)
    requires 0.0 <= capacity && 0.0 <= rate && Ordered(created, cs) && i < |cs|
    ensures Admitted(New(capacity, rate, created), cs, i) <= capacity + Earned(rate, cs[|cs| - 1].at - cs[i].at)
  {
    hide Run, Taken, Refill, Earned, Ordered;
    var b, last := New(capacity, rate, created), |cs| - 1;
    var init, c := cs[..last], cs[last];
    assert init + [c] == cs;
    AdmittedSnoc(b, init, c, i);
    TakenBound(capacity, rate, created, init, c);
    LevelExactly(capacity, rate, created, init, c.at);
    if i == last {
      EarnedNothing(rate);
      assert Admitted(b, init, i) == 0.0;
    }
  }

  lemma EarnedNothing(rate: real)
    ensures Earned(rate, 0.0) == 0.0
  {
  }

  /** No call takes more than there is. */
  lemma TakenBound(capacity: real, rate: real, created: real, cs: seq<Call>, c: Call)
    requires 0.0 <= capacity && 0.0 <= rate && Ordered(created, cs + [c])
    ensures var b := New(capacity, rate, created); Taken(b, cs + [c], |cs|) <= Refill(Run(b, cs), c.at).tokens
  {
    hide Earned, Ordered, Refill, Run;
    var b, more := New(capacity, rate, created), cs + [c];
    assert more[..|cs|] == cs && more[|cs|] == c;
    OrderedPrefix(created, cs, c);
    TokensNeverNegative(capacity, rate, created, cs);
    RunKeepsParameters(b, cs);
    NotNegativeLater(Run(b, cs), c.at);
  }

  lemma NotNegativeLater(b: Bucket, t: real)
    requires 0.0 <= b.tokens && 0.0 <= b.capacity && 0.0 <= b.rate && b.lastRefill <= t
    ensures 0.0 <= Refill(b, t).tokens
  {
    hide Earned;
    EarnedPositive(b.rate, t - b.lastRefill);
  }

  lemma OrderedPrefix(created: real, cs: seq<Call>, c: Call)
    requires Ordered(created, cs + [c])
    ensures Ordered(created, cs) && created <= c.at && (cs != [] ==> cs[|cs| - 1].at <= c.at)
  {
    var more := cs + [c];
    assert more[|cs|] == c && forall i :: 0 <= i < |cs| ==> more[i] == cs[i];
  }
}
