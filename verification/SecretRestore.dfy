/** Putting the kept secrets back into the masked form: exactly when the original comes out again. */
module SecretRestore {
  import opened Words
  import opened Texts
  import opened JsonPath
  import opened Secrets

  // ---------------------------------------------------------------- paths that enter a string

  /** The first string on the way along the path, or the end of the path. */
  function StringAt(t: Json, p: seq<string>): seq<string>
    decreases |p|
  {
    if t.Str? || p == [] then [] else [p[0]] + StringAt(Prop(t, p[0]), p[1..])
  }

  lemma {:induction false} StringAtIs(t: Json, p: seq<string>)
    requires Plain(t) && Get(t, p).Str?
    ensures var q := StringAt(t, p);
      && |q| <= |p| && p == q + p[|q|..] && Spot(t, q) && (|q| == |p| ==> Straight(t, p))
    decreases |p|
  {
    hide Prop, HasOwn, Plain;
    if !t.Str? && p != [] {
      PlainProp(t, p[0]);
      NullishHasNothing(t, p);
      GetUndefined(p[1..]);
      OwnIfThere(t, p[0]);
      StringAtIs(Prop(t, p[0]), p[1..]);
      var q := StringAt(Prop(t, p[0]), p[1..]);
      assert p == [p[0]] + p[1..];
      assert ([p[0]] + q)[1..] == q;
    }
  }

  lemma OwnIfThere(t: Json, k: string)
    requires Plain(t) && !t.Str? && Prop(t, k) != Undefined
    ensures HasOwn(t, k)
  {
  }

  lemma OneCharacter(c: char, p: seq<string>)
    ensures Get(Str([c]), p) == Undefined || Get(Str([c]), p) == Str([c])
  {
    if p != [] {
      GetUndefined(p[1..]);
      if Prop(Str([c]), p[0]) != Undefined {
        OneCharacter(c, p[1..]);
      }
    }
  }

  /** What a path below the placeholder finds is itself masked if anything is left to mask. */
  lemma BelowMask(p: seq<string>)
    ensures IsLive(Get(MASK, p)) || Get(MASK, p) == MASK || Nullish(Get(MASK, p))
  {
    if p != [] {
      GetUndefined(p[1..]);
      OneCharacter('*', p[1..]);
    }
  }

  // ---------------------------------------------------------------- a container in a string's place

  /** A container stands at the place, reached through own keys. */
  predicate Held(t: Json, q: seq<string>)
    decreases |q|
  {
    if q == [] then Container(t) else HasOwn(t, q[0]) && Held(Prop(t, q[0]), q[1..])
  }

  lemma {:induction false} HeldIs(t: Json, q: seq<string>)
    requires Held(t, q)
    ensures Container(t) && Container(Get(t, q))
    decreases |q|
  {
    if q != [] {
      HeldIs(Prop(t, q[0]), q[1..]);
    }
  }

  lemma SpreadHeld(t: Json, q: seq<string>)
    requires Held(t, q)
    ensures Held(Spread(t), q)
  {
    HeldIs(t, q);
  }

  lemma SpreadReads(t: Json, p: seq<string>)
    requires Container(t)
    ensures Container(Get(Spread(t), p)) ==> Container(Get(t, p))
  {
    if p != [] {
      GetUndefined(p[1..]);
    }
  }

  lemma OwnAfter(c: Json, k: string, v: Json, j: string)
    requires Container(c) && HasOwn(c, j)
    ensures HasOwn(WithProp(c, k, v), j)
  {
  }

  lemma {:induction false} PutKeepsHeld(c: Json, p: seq<string>, v: Json, q: seq<string>)
    requires Container(c) && p != [] && Held(c, q) && !Container(Get(c, p))
    ensures Held(PutIn(c, p, v), q)
    decreases |p|
  {
    hide Spread;
    if q != [] {
      var child := Prop(c, p[0]);
      var x := if |p| == 1 then v else PutIn(Base(child, p[1]), p[1..], v);
      OwnAfter(c, p[0], x, q[0]);
      if p[0] != q[0] {
        PropElsewhere(c, p[0], x, q[0]);
      } else {
        PropAfterWithProp(c, p[0], x);
        HeldIs(child, q[1..]);
        if |p| > 1 {
          SpreadHeld(child, q[1..]);
          SpreadReads(child, p[1..]);
          PutKeepsHeld(Spread(child), p[1..], v, q[1..]);
        }
      }
    }
  }

  lemma SetKeepsHeld(t: Json, path: string, v: Json, q: seq<string>)
    requires Held(t, q) && !Container(At(t, path))
    ensures Held(Set(t, path, v), q)
  {
    NoSegments();
    HeldIs(t, q);
    SpreadHeld(t, q);
    SpreadReads(t, ParsePath(path));
    if ParsePath(path) != [] {
      PutKeepsHeld(Spread(t), ParsePath(path), v, q);
    }
  }

  lemma MaskOneKeepsHeld(t: Json, path: string, q: seq<string>)
    requires Held(t, q)
    ensures Held(MaskOne(t, path), q)
  {
    hide Held, Set, At;
    if IsLive(At(t, path)) {
      SetKeepsHeld(t, path, MASK, q);
    }
  }

  lemma {:induction false} MaskKeepsHeld(t: Json, paths: seq<string>, q: seq<string>)
    requires Held(t, q)
    ensures Held(MaskAll(t, paths), q)
  {
    hide Held, MaskOne;
    if paths != [] {
      MaskKeepsHeld(t, paths[..|paths| - 1], q);
      MaskOneKeepsHeld(MaskAll(t, paths[..|paths| - 1]), paths[|paths| - 1], q);
    }
  }

  lemma RestoreOneKeepsHeld(t: Json, path: string, secret: string, q: seq<string>)
    requires Held(t, q)
    ensures Held(RestoreOne(t, path, secret), q)
  {
    hide Held, Set, At;
    if At(t, path) == MASK || Nullish(At(t, path)) {
      SetKeepsHeld(t, path, Str(secret), q);
    }
  }

  lemma {:induction false} RestoreKeepsHeld(t: Json, secrets: map<string, string>, order: seq<string>, q: seq<string>)
    requires Held(t, q) && forall p :: p in order ==> p in secrets
    ensures Held(RestoreAll(t, secrets, order), q)
  {
    hide Held, RestoreOne;
    if order != [] {
      var init, last := order[..|order| - 1], order[|order| - 1];
      RestoreKeepsHeld(t, secrets, init, q);
      RestoreOneKeepsHeld(RestoreAll(t, secrets, init), last, secrets[last], q);
    }
  }

  /** Setting below a string puts a container in its place. */
  lemma {:induction false} PutBelowString(t: Json, q: seq<string>, rest: seq<string>, v: Json)
    requires Plain(t) && Spot(t, q) && rest != []
    ensures Held(PutIn(Spread(t), q + rest, v), q)
    decreases |q|
  {
    if q == [] {
      assert q + rest == rest;
    } else {
      var p := q + rest;
      assert p[0] == q[0] && p[1..] == q[1..] + rest && |p| > 1;
      var child := Prop(t, q[0]);
      OwnProps(t, q[0], child);
      PlainProp(t, q[0]);
      PutBelowString(child, q[1..], rest, v);
      var x := PutIn(Spread(child), p[1..], v);
      NotNullish(child, q[1..]);
      PropAfterWithProp(t, q[0], x);
      OwnAfter(t, q[0], x, q[0]);
      assert PutIn(Spread(t), p, v) == WithProp(t, q[0], x);
    }
  }

  lemma NotNullish(t: Json, q: seq<string>)
    requires Spot(t, q)
    ensures !Nullish(t)
  {
  }

  /** Setting a path that is not sound, with a string at its part `q`. */
  lemma SetBelowString(t: Json, path: string, v: Json, q: seq<string>, rest: seq<string>)
    requires Plain(t) && Spot(t, q) && ParsePath(path) == q + rest && (rest == [] ==> q == [] && path != "")
    ensures Held(Set(t, path, v), q)
  {
    NoSegments();
    if rest != [] {
      PutBelowString(t, q, rest, v);
    }
  }

  /** A live path that is not sound, cut in two where it meets the string. */
  lemma UnsoundAt(t: Json, path: string) returns (q: seq<string>, rest: seq<string>)
    requires Plain(t) && IsLive(At(t, path)) && !Sound(t, path)
    ensures q == StringAt(t, ParsePath(path)) && ParsePath(path) == q + rest && (rest == [] ==> q == [] && path != "")
    ensures Spot(t, q) && Straight(t, q)
  {
    var p := ParsePath(path);
    StringAtIs(t, p);
    q := StringAt(t, p);
    rest := p[|q|..];
    StraightString(t, q);
  }

  // ---------------------------------------------------------------- masking too early

  lemma {:induction false} PutPlain(c: Json, p: seq<string>, v: Json)
    requires Plain(c) && Container(c) && p != [] && Get(c, p).Str? && Plain(v)
    ensures Plain(PutIn(c, p, v))
    decreases |p|
  {
    hide IndexOf;
    var child := Prop(c, p[0]);
    GetUndefined(p[1..]);
    PlainProp(c, p[0]);
    OwnProps(c, p[0], child);
    if |p| > 1 {
      SpreadPlain(child);
      NullishHasNothing(child, p[1..]);
      PropSpread(child, p[1]);
      NullishHasNothing(Spread(child), p[1..]);
      PutPlain(Spread(child), p[1..], v);
      OwnProps(c, p[0], PutIn(Spread(child), p[1..], v));
    } else {
      OwnProps(c, p[0], v);
    }
  }

  lemma SpreadPlain(t: Json)
    requires Plain(t)
    ensures Plain(Spread(t))
  {
  }

  lemma MaskOnePlain(t: Json, path: string)
    requires Plain(t)
    ensures Plain(MaskOne(t, path))
  {
    var p := ParsePath(path);
    NoSegments();
    SpreadPlain(t);
    if IsLive(At(t, path)) && p != [] {
      NullishHasNothing(t, p);
      PropSpread(t, p[0]);
      NullishHasNothing(Spread(t), p);
      PutPlain(Spread(t), p, MASK);
    }
  }

  /** A path that finds something to mask below a string takes the string apart for good. */
  lemma {:induction false} UntimelyBreaks(t: Json, paths: seq<string>) returns (q: seq<string>)
    requires Plain(t) && !Timely(t, paths)
    ensures Spot(t, q) && Plain(MaskAll(t, paths)) && Held(MaskAll(t, paths), q)
  {
    hide At, Plain, Sound, Held, Set, Spots, Covers, Masked, Straight, IsLive;
    var init, last := paths[..|paths| - 1], paths[|paths| - 1];
    var m := MaskAll(t, init);
    if Timely(t, init) {
      var places := MaskAllMasks(t, init);
      MaskedPlain(t, places);
      var rest;
      q, rest := UnsoundAt(m, last);
      MaskedSpot(t, places, q);
      SetBelowString(m, last, MASK, q, rest);
    } else {
      q := UntimelyBreaks(t, init);
      MaskOneKeepsHeld(m, last, q);
    }
    MaskOnePlain(m, last);
  }

  // ---------------------------------------------------------------- restoring one secret

  /** A kept secret goes back to its place, which is thereby unmasked. */
  lemma RestoreUnmasks(t: Json, places: seq<seq<string>>, path: string)
    requires Plain(t) && Spots(t, places) && Kept(t, path)
    ensures Spots(t, Minus(places, ParsePath(path)))
    ensures RestoreOne(Masked(t, places), path, At(t, path).s) == Masked(t, Minus(places, ParsePath(path)))
  {
    hide Masked, Set, ParsePath, Replace;
    var m, q := Masked(t, places), ParsePath(path);
    MaskedReads(t, places, q);
    MinusSpots(t, places, q);
    if q in places {
      Unmask(t, places, q);
      SetIsReplace(m, path, Get(t, q));
    }
  }

  /** What the path would find inside the placeholder. */
  function InMask(t: Json, path: string): Json {
    var p, n := ParsePath(path), |StringAt(t, ParsePath(path))|;
    if n <= |p| then Get(MASK, p[n..]) else Undefined
  }

  lemma UnsoundReads(t: Json, places: seq<seq<string>>, path: string) returns (q: seq<string>, rest: seq<string>)
    requires Plain(t) && Spots(t, places) && IsLive(At(t, path)) && !Sound(t, path)
    ensures q == StringAt(t, ParsePath(path)) && ParsePath(path) == q + rest && (rest == [] ==> q == [] && path != "")
    ensures At(Masked(t, places), path) == if q in places then InMask(t, path) else At(t, path)
    ensures q in places ==> Spot(Masked(t, places), q) && InMask(t, path) == Get(MASK, rest)
  {
    hide Masked, Sound, StringAt;
    q, rest := UnsoundAt(t, path);
    assert ParsePath(path)[|q|..] == rest;
    MaskedReads(t, places, q);
    GetBelow(t, q, rest);
    GetBelow(Masked(t, places), q, rest);
  }

  /** A secret found inside a string that is whole again is left alone. */
  lemma RestoreSkips(t: Json, places: seq<seq<string>>, path: string)
    requires Plain(t) && Spots(t, places) && IsLive(At(t, path)) && !Sound(t, path)
    requires StringAt(t, ParsePath(path)) !in places
    ensures RestoreOne(Masked(t, places), path, At(t, path).s) == Masked(t, places)
  {
    hide Masked, Set, Sound, StringAt, Get, InMask;
    var q, rest := UnsoundReads(t, places, path);
  }

  /** If the string is still masked, the placeholder is taken apart instead. */
  lemma RestoreTakesApart(t: Json, places: seq<seq<string>>, path: string)
    requires Plain(t) && Spots(t, places) && IsLive(At(t, path)) && !Sound(t, path)
    requires StringAt(t, ParsePath(path)) in places && !IsLive(InMask(t, path))
    ensures Held(RestoreOne(Masked(t, places), path, At(t, path).s), StringAt(t, ParsePath(path)))
  {
    hide Masked, Set, Sound, StringAt, Held, InMask, Get;
    var q, rest := UnsoundReads(t, places, path);
    MaskedPlain(t, places);
    BelowMask(rest);
    SetBelowString(Masked(t, places), path, Str(At(t, path).s), q, rest);
  }

  // ---------------------------------------------------------------- restoring all of them

  /** No secret found inside a string comes before the one that the string itself is. */
  predicate InOrder(t: Json, order: seq<string>) {
    order == [] ||
      var init, last := order[..|order| - 1], order[|order| - 1];
      InOrder(t, init) && (Sound(t, last) || StringAt(t, ParsePath(last)) in KeptPlaces(t, init))
  }

  function MinusAll(t: Json, places: seq<seq<string>>, paths: seq<string>): seq<seq<string>> {
    if paths == [] then places
    else
      var rest, last := MinusAll(t, places, paths[..|paths| - 1]), paths[|paths| - 1];
      if Kept(t, last) then Minus(rest, ParsePath(last)) else rest
  }

  lemma {:induction false} MinusAllIs(t: Json, places: seq<seq<string>>, paths: seq<string>, p: seq<string>)
    ensures p in MinusAll(t, places, paths) <==> p in places && p !in KeptPlaces(t, paths)
  {
    hide ParsePath, Kept, KeptPlaces;
    if paths == [] {
      NoneKept(t);
    } else {
      var init, last := paths[..|paths| - 1], paths[|paths| - 1];
      assert paths == init + [last];
      MinusAllIs(t, places, init, p);
      KeptPlacesSnoc(t, init, last);
      MinusIs(MinusAll(t, places, init), ParsePath(last), p);
    }
  }

  predicate AllLive(t: Json, order: seq<string>) {
    forall path :: path in order ==> IsLive(At(t, path))
  }

  /** The kept values under live paths. */
  predicate Holds(t: Json, secrets: map<string, string>, order: seq<string>) {
    AllLive(t, order) && forall path :: path in order ==> path in secrets && secrets[path] == At(t, path).s
  }

  lemma HoldsInit(t: Json, secrets: map<string, string>, order: seq<string>)
    requires Holds(t, secrets, order) && order != []
    ensures var init, last := order[..|order| - 1], order[|order| - 1];
      && Holds(t, secrets, init) && order == init + [last]
      && last in order && IsLive(At(t, last)) && last in secrets && secrets[last] == At(t, last).s
      && (forall path :: path in init ==> path in order && path in secrets)
  {
    hide At, RestoreOne;
    assert order[|order| - 1] in order;
  }

  lemma {:induction false} RestoreAllUnmasks(t: Json, secrets: map<string, string>, places: seq<seq<string>>,
                                             order: seq<string>)
    requires Plain(t) && Spots(t, places) && Holds(t, secrets, order) && InOrder(t, order)
    ensures Spots(t, MinusAll(t, places, order))
    ensures RestoreAll(Masked(t, places), secrets, order) == Masked(t, MinusAll(t, places, order))
  {
    hide Masked, Spots, Sound, RestoreOne, ParsePath, Get, StringAt, KeptPlaces, Holds;
    if order != [] {
      var init, last := order[..|order| - 1], order[|order| - 1];
      HoldsInit(t, secrets, order);
      RestoreAllUnmasks(t, secrets, places, init);
      var left := MinusAll(t, places, init);
      if Kept(t, last) {
        RestoreUnmasks(t, left, last);
      } else {
        MinusAllIs(t, places, init, StringAt(t, ParsePath(last)));
        RestoreSkips(t, left, last);
      }
    }
  }

  /** A secret found inside a string has been masked by way of that string, if no path came too early. */
  lemma {:induction false} MaskedByString(t: Json, paths: seq<string>, path: string)
    requires Plain(t) && Timely(t, paths) && path in paths && IsLive(At(t, path)) && !Sound(t, path)
    ensures StringAt(t, ParsePath(path)) in KeptPlaces(t, paths) && !IsLive(InMask(t, path))
  {
    hide Masked, Sound, StringAt, InMask, Get, KeptPlaces, Plain, Spots, ParsePath, MaskAll;
    var init, last := paths[..|paths| - 1], paths[|paths| - 1];
    assert paths == init + [last];
    KeptPlacesSnoc(t, init, last);
    if path in init {
      MaskedByString(t, init, path);
    } else {
      var places := MaskAllMasks(t, init);
      var q, rest := UnsoundReads(t, places, path);
      if IsLive(At(Masked(t, places), path)) {
        LiveWasLive(t, places, path);
      }
    }
  }

  /** A secret restored out of order leaves a container where there was a string. */
  lemma {:induction false} OutOfOrder(t: Json, secrets: map<string, string>, paths: seq<string>,
                                      places: seq<seq<string>>, order: seq<string>)
    returns (q: seq<string>)
    requires Plain(t) && Timely(t, paths) && Spots(t, places) && Covers(t, paths, places)
    requires Holds(t, secrets, order) && (forall path :: path in order ==> path in paths) && !InOrder(t, order)
    ensures Spot(t, q) && Held(RestoreAll(Masked(t, places), secrets, order), q)
  {
    hide Masked, Sound, StringAt, InMask, Get, KeptPlaces, Plain, Spots, Held, RestoreOne, Timely, Holds, ParsePath;
    var init, last := order[..|order| - 1], order[|order| - 1];
    HoldsInit(t, secrets, order);
    if InOrder(t, init) {
      RestoreAllUnmasks(t, secrets, places, init);
      MaskedByString(t, paths, last);
      q := StringAt(t, ParsePath(last));
      MinusAllIs(t, places, init, q);
      RestoreTakesApart(t, MinusAll(t, places, init), last);
      var _, _ := UnsoundAt(t, last);
    } else {
      q := OutOfOrder(t, secrets, paths, places, init);
      RestoreOneKeepsHeld(RestoreAll(Masked(t, places), secrets, init), last, secrets[last], q);
    }
  }

  // ---------------------------------------------------------------- the whole form

  /** The keys of a map in some order, possibly repeated. */
  predicate Enumerates(order: seq<string>, m: map<string, string>) {
    (forall p :: p in order ==> p in m) && forall p :: p in m ==> p in order
  }

  lemma EnumeratesLive(t: Json, paths: seq<string>, order: seq<string>)
    requires Enumerates(order, CollectAll(t, paths))
    ensures Holds(t, CollectAll(t, paths), order)
    ensures forall path :: path in paths && IsLive(At(t, path)) <==> path in order
  {
    hide CollectAll, At;
    forall path ensures path in CollectAll(t, paths) <==> path in paths && IsLive(At(t, path))
      ensures path in CollectAll(t, paths) ==> CollectAll(t, paths)[path] == At(t, path).s
    {
      CollectedAre(t, paths, path);
    }
  }

  /** All kept secrets are restored, so nothing is left masked. */
  lemma NoneLeft(t: Json, paths: seq<string>, places: seq<seq<string>>, order: seq<string>)
    requires Covers(t, paths, places) && forall path :: path in paths && IsLive(At(t, path)) <==> path in order
    ensures MinusAll(t, places, order) == []
  {
    hide ParsePath, At, MinusAll, Sound, KeptPlaces;
    forall p ensures p !in MinusAll(t, places, order) {
      MinusAllIs(t, places, order, p);
      SamePlaces(t, paths, order);
    }
    if MinusAll(t, places, order) != [] {
      HeadIn(MinusAll(t, places, order));
    }
  }

  lemma HeadIn<T>(s: seq<T>)
    requires s != []
    ensures s[0] in s
  {
  }

  lemma SamePlaces(t: Json, paths: seq<string>, order: seq<string>)
    requires forall path :: path in paths && IsLive(At(t, path)) <==> path in order
    ensures KeptPlaces(t, paths) == KeptPlaces(t, order)
  {
    hide ParsePath, At, Sound;
  }

  lemma NothingMasked(t: Json)
    ensures Masked(t, []) == t
  {
  }

  /** A tree with nothing to mask. */
  lemma {:induction false} FalsyTimely(t: Json, paths: seq<string>)
    requires Falsy(t)
    ensures Timely(t, paths) && MaskAll(t, paths) == t
  {
    if paths != [] {
      var init, p := paths[..|paths| - 1], ParsePath(paths[|paths| - 1]);
      FalsyTimely(t, init);
      if p != [] {
        NullishHasNothing(t, p);
        GetUndefined(p[1..]);
      }
    }
  }

  lemma HeldIsNoString(t: Json, u: Json, q: seq<string>)
    requires Spot(t, q) && Held(u, q)
    ensures t != u
  {
    HeldIs(u, q);
  }

  lemma TimelyForm(t: Json, schema: Schema, order: seq<string>)
    requires Plain(t) && !Falsy(t) && Enumerates(order, Collecting(t, Some(schema)))
    requires Timely(t, SchemaPaths(schema))
    ensures RestoreAll(Masking(t, Some(schema)), Collecting(t, Some(schema)), order) == t <==> InOrder(t, order)
  {
    hide Masked, Spots, Covers, Sound, At, RestoreAll, Masking, Timely, MinusAll, Holds, InOrder, Held, Spot;
    hide AllPaths, CollectAll;
    var paths, secrets := AllPaths(t, schema), Collecting(t, Some(schema));
    var places := MaskingMasks(t, schema);
    EnumeratesLive(t, paths, order);
    if InOrder(t, order) {
      RestoreAllUnmasks(t, secrets, places, order);
      NoneLeft(t, paths, places, order);
      NothingMasked(t);
    } else {
      AllPathsTimely(t, schema);
      var q := OutOfOrder(t, secrets, paths, places, order);
      HeldIsNoString(t, RestoreAll(Masked(t, places), secrets, order), q);
    }
  }

  lemma AllPathsTimely(t: Json, schema: Schema)
    requires Plain(t) && Timely(t, SchemaPaths(schema))
    ensures Timely(t, AllPaths(t, schema))
  {
    ClientsTimely(t, SchemaPaths(schema), |Clients(t)|);
  }

  lemma UntimelyForm(t: Json, schema: Schema, order: seq<string>)
    requires Plain(t) && !Falsy(t) && Enumerates(order, Collecting(t, Some(schema)))
    requires !Timely(t, SchemaPaths(schema))
    ensures RestoreAll(Masking(t, Some(schema)), Collecting(t, Some(schema)), order) != t
  {
    hide At, RestoreAll, Timely, Held, Spot, MaskAll, MaskClients, SchemaPaths, ClientPaths, Collecting;
    var q := UntimelyBreaks(t, SchemaPaths(schema));
    var m := MaskAll(t, SchemaPaths(schema));
    MaskClientsInTurn(m, |Clients(m)|);
    MaskKeepsHeld(m, ClientPaths(|Clients(m)|), q);
    RestoreKeepsHeld(Masking(t, Some(schema)), Collecting(t, Some(schema)), order, q);
    HeldIsNoString(t, RestoreAll(Masking(t, Some(schema)), Collecting(t, Some(schema)), order), q);
  }

  /** Restoring the kept secrets into the masked form, for any tree, schema, number of clients and
      order of the secrets, gives back the tree exactly when there was a tree, no path masked part of
      a string, and no secret found inside a string is restored before that string. */
  lemma RestoredExactly(t: Json, schema: Schema, order: seq<string>)
    requires Plain(t) && Enumerates(order, Collecting(t, Some(schema)))
    ensures RestoreAll(Masking(t, Some(schema)), Collecting(t, Some(schema)), order) == t
       <==> !Nullish(t) && Timely(t, SchemaPaths(schema)) && InOrder(t, order)
  {
    if Falsy(t) {
      FalsyTimely(t, SchemaPaths(schema));
      if order != [] {
        HeadIn(order);
      }
    } else if Timely(t, SchemaPaths(schema)) {
      TimelyForm(t, schema, order);
    } else {
      UntimelyForm(t, schema, order);
    }
  }

  // ---------------------------------------------------------------- in the order they were kept

  /** The kept paths, each where it was first kept. */
  function AsKept(t: Json, paths: seq<string>): seq<string> {
    if paths == [] then []
    else
      var before, last := AsKept(t, paths[..|paths| - 1]), paths[|paths| - 1];
      if IsLive(At(t, last)) && last !in before then before + [last] else before
  }

  lemma {:induction false} AsKeptIs(t: Json, paths: seq<string>, path: string)
    ensures path in AsKept(t, paths) <==> path in paths && IsLive(At(t, path))
  {
    hide At;
    if paths != [] {
      AsKeptIs(t, paths[..|paths| - 1], path);
      assert paths == paths[..|paths| - 1] + [paths[|paths| - 1]];
    }
  }

  lemma AsKeptEnumerates(t: Json, paths: seq<string>)
    ensures Enumerates(AsKept(t, paths), CollectAll(t, paths))
  {
    hide AsKept, CollectAll, At;
    forall path ensures path in AsKept(t, paths) <==> path in CollectAll(t, paths) {
      AsKeptIs(t, paths, path);
      CollectedAre(t, paths, path);
    }
  }

  lemma AsKeptPlaces(t: Json, paths: seq<string>, q: seq<string>)
    requires q in KeptPlaces(t, paths)
    ensures q in KeptPlaces(t, AsKept(t, paths))
  {
    hide AsKept, At, ParsePath, Sound;
    var path :| path in paths && Kept(t, path) && ParsePath(path) == q;
    AsKeptIs(t, paths, path);
  }

  lemma {:induction false} AsKeptInOrder(t: Json, paths: seq<string>)
    requires Plain(t) && Timely(t, paths)
    ensures InOrder(t, AsKept(t, paths))
  {
    hide At, ParsePath, Sound, KeptPlaces, StringAt, MaskAll, InMask, Plain;
    if paths != [] {
      var init, last := paths[..|paths| - 1], paths[|paths| - 1];
      assert paths == init + [last];
      AsKeptInOrder(t, init);
      if IsLive(At(t, last)) && last !in AsKept(t, init) {
        var before := AsKept(t, init);
        assert (before + [last])[..|before|] == before;
        if !Sound(t, last) {
          MaskedByString(t, paths, last);
          KeptPlacesSnoc(t, init, last);
          AsKeptPlaces(t, init, StringAt(t, ParsePath(last)));
        }
      }
    }
  }

  /** In the order in which the secrets were kept only the masking decides. */
  lemma RestoredAsKeptExactly(t: Json, schema: Schema)
    requires Plain(t) && !Falsy(t)
    ensures var order := AsKept(t, AllPaths(t, schema));
      && Enumerates(order, Collecting(t, Some(schema)))
      && (Timely(t, SchemaPaths(schema)) <==>
            RestoreAll(Masking(t, Some(schema)), Collecting(t, Some(schema)), order) == t)
  {
    hide At, Timely, RestoreAll, Masking, CollectAll, AllPaths, InOrder;
    var paths := AllPaths(t, schema);
    AsKeptEnumerates(t, paths);
    RestoredExactly(t, schema, AsKept(t, paths));
    if Timely(t, SchemaPaths(schema)) {
      AllPathsTimely(t, schema);
      AsKeptInOrder(t, paths);
    }
  }

  // ---------------------------------------------------------------- schemas without indices

  /** The path has a segment and none of them can index. */
  predicate NamesOnly(path: string) {
    ParsePath(path) != [] && forall i :: 0 <= i < |ParsePath(path)| ==> IndexOf(ParsePath(path)[i]) == None
  }

  lemma {:induction false} NamesAreStraight(t: Json, p: seq<string>)
    requires forall i :: 0 <= i < |p| ==> IndexOf(p[i]) == None
    ensures Straight(t, p)
    decreases |p|
  {
    hide IndexOf, Prop;
    if p != [] {
      NamesAreStraight(Prop(t, p[0]), p[1..]);
    }
  }

  lemma {:induction false} NamesTimely(t: Json, paths: seq<string>)
    requires forall path :: path in paths ==> NamesOnly(path)
    ensures Timely(t, paths)
  {
    hide ParsePath, MaskAll, IndexOf;
    if paths != [] {
      var init, last := paths[..|paths| - 1], paths[|paths| - 1];
      assert paths == init + [last] && last in paths && NamesOnly(last);
      NamesTimely(t, init);
      NamesAreStraight(MaskAll(t, init), ParsePath(last));
    }
  }

  lemma {:induction false} SoundInOrder(t: Json, order: seq<string>)
    requires forall path :: path in order ==> Sound(t, path)
    ensures InOrder(t, order)
  {
    hide Sound;
    if order != [] {
      assert order == order[..|order| - 1] + [order[|order| - 1]];
      SoundInOrder(t, order[..|order| - 1]);
    }
  }

  /** For a schema whose secret paths hold no index, restoring undoes masking for every tree, number of
      clients and order of the secrets. */
  lemma NamesRestored(t: Json, schema: Schema, order: seq<string>)
    requires Plain(t) && Enumerates(order, Collecting(t, Some(schema)))
    requires forall path :: path in SchemaPaths(schema) ==> NamesOnly(path)
    ensures RestoreAll(Masking(t, Some(schema)), Collecting(t, Some(schema)), order) == t <==> !Nullish(t)
  {
    hide NamesOnly, Sound, RestoreAll, Masking, At, ClientPaths, SchemaPaths, CollectAll;
    RestoredExactly(t, schema, order);
    NamesTimely(t, SchemaPaths(schema));
    forall path | path in order ensures Sound(t, path) {
      CollectedAre(t, AllPaths(t, schema), path);
      if path in SchemaPaths(schema) {
        NamesSound(t, path);
      } else {
        ClientPathsAre(|Clients(t)|, path);
        var i: nat :| i < |Clients(t)| && path == ClientPath(i);
        ClientPathSound(t, i);
      }
    }
    SoundInOrder(t, order);
  }

  lemma NamesSound(t: Json, path: string)
    requires NamesOnly(path)
    ensures Sound(t, path)
  {
    NamesAreStraight(t, ParsePath(path));
  }

  /** The two secrets of the program's own schema. */
  const TOKEN := "token"
  const CLIENT_SECRET := "clientSecret"

  lemma OneName(name: string)
    requires name != "" && '.' !in name && '[' !in name && !IsDigit(name[0])
    ensures NamesOnly(name)
  {
    hide ParsePath;
    NameParses(name);
  }

  /** With the program's own schema the form's round trip always works. */
  lemma ShippedSchemaRestored(t: Json, schema: Schema, order: seq<string>)
    requires Plain(t) && Enumerates(order, Collecting(t, Some(schema)))
    requires SchemaPaths(schema) == [TOKEN, CLIENT_SECRET]
    ensures RestoreAll(Masking(t, Some(schema)), Collecting(t, Some(schema)), order) == t <==> !Nullish(t)
  {
    ShippedNames();
    hide ParsePath, Collecting, RestoreAll, Masking, NamesOnly;
    NamesRestored(t, schema, order);
  }

  lemma ShippedNames()
    ensures NamesOnly(TOKEN) && NamesOnly(CLIENT_SECRET)
  {
    hide NamesOnly;
    OneName(TOKEN);
    OneName(CLIENT_SECRET);
  }

  // ---------------------------------------------------------------- nothing shows

  /** At every secret path that enters no string, the masked form shows nothing, an empty string or
      the placeholder, and never a secret. */
  lemma NothingShows(t: Json, schema: Schema, path: string)
    requires Plain(t) && !Falsy(t) && Timely(t, SchemaPaths(schema)) && path in AllPaths(t, schema) && Sound(t, path)
    ensures var v := At(Masking(t, Some(schema)), path); v.Str? ==> v.s == "" || v.s == "***"
  {
    hide Masking, Timely, Plain, Masked, Spots, Straight, ParsePath, AllPaths;
    var places := MaskingMasks(t, schema);
    var q := ParsePath(path);
    assert Straight(t, q);
    MaskedReads(t, places, q);
    if Kept(t, path) {
      assert q in KeptPlaces(t, AllPaths(t, schema));
    }
  }

  /** With a schema of names, at every secret path and for every client. */
  lemma NoNameShows(t: Json, schema: Schema, path: string)
    requires Plain(t) && !Falsy(t) && (forall p :: p in SchemaPaths(schema) ==> NamesOnly(p))
    requires path in AllPaths(t, schema)
    ensures var v := At(Masking(t, Some(schema)), path); v.Str? ==> v.s == "" || v.s == "***"
  {
    hide NamesOnly, Sound, Masking, At, ClientPaths, SchemaPaths;
    NamesTimely(t, SchemaPaths(schema));
    if path in SchemaPaths(schema) {
      NamesSound(t, path);
    } else {
      ClientPathsAre(|Clients(t)|, path);
      var i: nat :| i < |Clients(t)| && path == ClientPath(i);
      ClientPathSound(t, i);
    }
    NothingShows(t, schema, path);
  }

  /** Before the schema has arrived the round trip works as well, and keeps no secret. */
  lemma NoSchemaRestored(t: Json, order: seq<string>)
    requires Enumerates(order, Collecting(t, None))
    ensures order == [] && (RestoreAll(Masking(t, None), Collecting(t, None), order) == t <==> !Nullish(t))
  {
    if order != [] {
      HeadIn(order);
    }
  }
}
