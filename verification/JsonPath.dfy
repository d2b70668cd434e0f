/** Reading and immutably writing a value at a dotted or indexed path of a JSON tree. */
module JsonPath {
  import opened Words
  import opened Texts

  /** A JavaScript value made of JSON. Arrays can carry named properties beside their items. */
  datatype Json =
    | Undefined
    | Null
    | Bool(b: bool)
    | Num(n: int)
    | Str(s: string)
    | Arr(items: seq<Json>, props: map<string, Json>)
    | Obj(fields: map<string, Json>)

  predicate Nullish(t: Json) {
    t.Undefined? || t.Null?
  }

  predicate Container(t: Json) {
    t.Arr? || t.Obj?
  }

  /** As it comes from JSON: no array has named properties. */
  predicate Plain(t: Json) {
    match t
    case Arr(items, props) => props == map[] && forall i :: 0 <= i < |items| ==> Plain(items[i])
    case Obj(m) => forall k :: k in m ==> Plain(m[k])
    case _ => true
  }

  // ---------------------------------------------------------------- array indices

  /** The index a key stands for: digits without a leading zero. */
  function IndexOf(k: string): Option<nat> {
    if IsDigits(k) && Decimal(Value(k)) == k then Some(Value(k)) else None
  }

  lemma IndexOfDecimal(n: nat)
    ensures IndexOf(Decimal(n)) == Some(n)
  {
    DecimalValue(n);
  }

  lemma SameIndexSameKey(j: string, k: string)
    requires IndexOf(j).Some? && IndexOf(j) == IndexOf(k)
    ensures j == k
  {
  }

  // ---------------------------------------------------------------- one step

  /** `t[k]` in JavaScript, own properties only. */
  function Prop(t: Json, k: string): Json {
    match t
    case Obj(m) => if k in m then m[k] else Undefined
    case Arr(items, props) =>
      (match IndexOf(k)
       case Some(n) => if n < |items| then items[n] else Undefined
       case None => if k in props then props[k] else Undefined)
    case Str(s) =>
      (match IndexOf(k)
       case Some(n) => if n < |s| then Str([s[n]]) else Undefined
       case None => Undefined)
    case _ => Undefined
  }

  /** `t[k] = v`, an array growing as far as the index. */
  function WithProp(t: Json, k: string, v: Json): Json
    requires Container(t)
  {
    match t
    case Obj(m) => Obj(m[k := v])
    case Arr(items, props) =>
      match IndexOf(k)
      case Some(n) =>
        if n < |items| then Arr(items[n := v], props)
        else Arr(items + seq(n - |items|, _ => Undefined) + [v], props)
      case None => Arr(items, props[k := v])
  }

  /** `[...t]` for an array, `{...t}` for anything else: a string gives an object of its characters. */
  function Spread(t: Json): (c: Json)
    ensures Container(c)
  {
    match t
    case Arr(items, _) => Arr(items, map[])
    case Obj(m) => t
    case Str(s) => Obj(map k | k in Keys(|s|) :: Prop(t, k))
    case _ => Obj(map[])
  }

  function Keys(n: nat): set<string> {
    if n == 0 then {} else Keys(n - 1) + {Decimal(n - 1)}
  }

  lemma {:induction false} KeysAre(n: nat, k: string)
    ensures k in Keys(n) <==> IndexOf(k).Some? && IndexOf(k).value < n
  {
    hide IndexOf, Decimal;
    if n > 0 {
      KeysAre(n - 1, k);
      IndexOfDecimal(n - 1);
      if IndexOf(k) == Some(n - 1) {
        SameIndexSameKey(k, Decimal(n - 1));
      }
    }
  }

  // ---------------------------------------------------------------- paths

  function DigitRun(s: string): (n: nat)
    ensures n <= |s| && forall i :: 0 <= i < n ==> IsDigit(s[i])
  {
    if s == "" || !IsDigit(s[0]) then 0 else 1 + DigitRun(s[1..])
  }

  /** The string begins with digits in brackets. */
  predicate IndexFirst(s: string) {
    s != "" && s[0] == '[' && var n := DigitRun(s[1..]); n > 0 && n + 1 < |s| && s[n + 1] == ']'
  }

  /** Every `[digits]` replaced by `.digits`. */
  function Dotted(s: string): string {
    if s == "" then ""
    else if IndexFirst(s) then var n := DigitRun(s[1..]); "." + s[1..n + 1] + Dotted(s[n + 2..])
    else [s[0]] + Dotted(s[1..])
  }

  function ParsePath(path: string): seq<string> {
    NonEmpty(SplitOn(Dotted(path), '.'))
  }

  lemma NoSegments()
    ensures ParsePath("") == []
  {
    assert SplitOn("", '.') == [""];
    assert NonEmpty([""]) == [] + NonEmpty([]);
  }

  function Get(t: Json, segs: seq<string>): Json
    decreases |segs|
  {
    if segs == [] then t else if Nullish(t) then Undefined else Get(Prop(t, segs[0]), segs[1..])
  }

  /** What stands in for a missing child: an array if the next key is all digits. */
  function Base(child: Json, next: string): (c: Json)
    ensures Container(c)
  {
    if !Nullish(child) then Spread(child) else if IsDigits(next) then Arr([], map[]) else Obj(map[])
  }

  /** A fresh container with the value put in at the path below it. */
  function PutIn(c: Json, segs: seq<string>, v: Json): (r: Json)
    requires Container(c) && segs != []
    ensures Container(r)
    decreases |segs|
  {
    if |segs| == 1 then WithProp(c, segs[0], v)
    else WithProp(c, segs[0], PutIn(Base(Prop(c, segs[0]), segs[1]), segs[1..], v))
  }

  /** A path of separators only has no segment; JavaScript then writes to the property "undefined". */
  function Set(t: Json, path: string, v: Json): Json {
    var segs := ParsePath(path);
    if path == "" then v
    else if segs == [] then WithProp(Spread(t), "undefined", v)
    else PutIn(Spread(t), segs, v)
  }

  method GetByPath(obj: Json, path: string) returns (r: Json)
    ensures r == Get(obj, ParsePath(path))
  {
    if path == "" {
      NoSegments();
      return obj;
    }
    var segs := ParsePath(path);
    var cur := obj;
    for i := 0 to |segs|
      invariant Get(cur, segs[i..]) == Get(obj, segs)
    {
      if Nullish(cur) {
        return Undefined;
      }
      assert segs[i..][0] == segs[i] && segs[i..][1..] == segs[i + 1..];
      cur := Prop(cur, segs[i]);
    }
    return cur;
  }

  /** The containers on the way down, each a fresh copy or a new one where there was none. */
  predicate OnTheWay(copies: seq<Json>, root: Json, segs: seq<string>) {
    && |copies| <= |segs| && (|copies| > 0 ==> copies[0] == root)
    && (forall j :: 0 <= j < |copies| ==> Container(copies[j]))
    && forall j :: 0 <= j < |copies| - 1 ==> copies[j + 1] == Base(Prop(copies[j], segs[j]), segs[j + 1])
  }

  method CopyDown(root: Json, segs: seq<string>) returns (copies: seq<Json>)
    requires Container(root) && segs != []
    ensures OnTheWay(copies, root, segs) && |copies| == |segs|
  {
    copies := [root];
    var cur := root;
    for i := 0 to |segs| - 1
      invariant OnTheWay(copies, root, segs) && |copies| == i + 1 && copies[i] == cur
    {
      var existing := Prop(cur, segs[i]);
      if Nullish(existing) {
        cur := if IsDigits(segs[i + 1]) then Arr([], map[]) else Obj(map[]);
      } else {
        cur := Spread(existing);
      }
      copies := copies + [cur];
    }
  }

  lemma PutInStep(copies: seq<Json>, root: Json, segs: seq<string>, i: nat, v: Json)
    requires OnTheWay(copies, root, segs) && |copies| == |segs| && i < |segs|
    ensures segs[i..] != []
    ensures PutIn(copies[i], segs[i..], v)
         == WithProp(copies[i], segs[i], if i == |segs| - 1 then v else PutIn(copies[i + 1], segs[i + 1..], v))
  {
    assert segs[i..][1..] == segs[i + 1..];
  }

  /** Copies every container on the way down, then writes them back into each other. */
  method SetByPath(obj: Json, path: string, v: Json) returns (r: Json)
    ensures r == Set(obj, path, v)
  {
    if path == "" {
      return v;
    }
    var segs := ParsePath(path);
    var root := Spread(obj);
    if segs == [] {
      return WithProp(root, "undefined", v);
    }
    var copies := CopyDown(root, segs);
    hide PutIn, WithProp, Spread, Base, ParsePath;
    var i := |segs| - 1;
    r := WithProp(copies[i], segs[i], v);
    PutInStep(copies, root, segs, i, v);
    while i > 0
      invariant 0 <= i < |segs|
      invariant r == PutIn(copies[i], segs[i..], v)
    {
      i := i - 1;
      r := WithProp(copies[i], segs[i], r);
      PutInStep(copies, root, segs, i, v);
    }
    assert segs[0..] == segs;
  }

  // ---------------------------------------------------------------- how paths parse

  /** A digit run ends before anything that is no digit. */
  lemma {:induction false} DigitRunStays(s: string, rest: string)
    requires rest != "" && !IsDigit(rest[0])
    ensures DigitRun(s + rest) == DigitRun(s)
  {
    if s == "" {
      assert s + rest == rest;
    } else {
      assert (s + rest)[0] == s[0] && (s + rest)[1..] == s[1..] + rest;
      DigitRunStays(s[1..], rest);
    }
  }

  lemma {:induction false} DigitRunOf(d: string)
    requires AllDigits(d)
    ensures DigitRun(d) == |d|
  {
    if d != "" {
      DigitRunOf(d[1..]);
    }
  }

  lemma IndexFirstStays(s: string, rest: string)
    requires s != "" && rest != "" && !IsDigit(rest[0]) && rest[0] != ']'
    ensures IndexFirst(s + rest) == IndexFirst(s)
    ensures DigitRun((s + rest)[1..]) == DigitRun(s[1..])
  {
    hide DigitRun;
    assert (s + rest)[1..] == s[1..] + rest;
    DigitRunStays(s[1..], rest);
  }

  lemma DottedStep(s: string)
    requires s != ""
    ensures IndexFirst(s) ==>
      var n := DigitRun(s[1..]);
      n + 2 <= |s| && Dotted(s) == "." + s[1..n + 1] + Dotted(s[n + 2..])
    ensures !IndexFirst(s) ==> Dotted(s) == [s[0]] + Dotted(s[1..])
  {
  }

  /** What comes later cannot complete an index, unless it starts with a digit or the bracket. */
  lemma {:induction false} DottedAppend(s: string, rest: string)
    requires rest != "" && !IsDigit(rest[0]) && rest[0] != ']'
    ensures Dotted(s + rest) == Dotted(s) + Dotted(rest)
    decreases |s|
  {
    if s == "" {
      assert s + rest == rest && Dotted(s) + Dotted(rest) == Dotted(rest);
    } else {
      hide Dotted, DigitRun, IndexFirst;
      DottedStep(s);
      DottedStep(s + rest);
      IndexFirstStays(s, rest);
      if IndexFirst(s) {
        var n := DigitRun(s[1..]);
        DottedAppend(s[n + 2..], rest);
        Longer(s, rest, 1, n + 1, n + 2);
        Assoc("." + s[1..n + 1], Dotted(s[n + 2..]), Dotted(rest));
      } else {
        DottedAppend(s[1..], rest);
        Longer(s, rest, 0, 1, 1);
        Assoc([s[0]], Dotted(s[1..]), Dotted(rest));
      }
    }
  }

  lemma Longer(s: string, rest: string, i: nat, j: nat, k: nat)
    requires i <= j <= k <= |s| && i < |s|
    ensures (s + rest)[i..j] == s[i..j] && (s + rest)[k..] == s[k..] + rest && (s + rest)[i] == s[i]
  {
  }

  lemma Assoc(a: string, b: string, c: string)
    ensures a + (b + c) == a + b + c
  {
  }

  lemma DottedDot(b: string)
    ensures Dotted("." + b) == ['.'] + Dotted(b)
  {
    assert ("." + b)[1..] == b;
  }

  lemma DottedIndex(d: string)
    requires IsDigits(d)
    ensures Dotted("[" + d + "]") == ['.'] + d
  {
    var s := "[" + d + "]";
    assert s[1..] == d + "]";
    DigitRunStays(d, "]");
    DigitRunOf(d);
    assert s[|d| + 1] == ']' && s[1..|d| + 1] == d && s[|d| + 2..] == "";
    assert Dotted("") == "" && ['.'] + d + "" == ['.'] + d;
  }

  /** A dot joins two paths. */
  lemma DotJoins(a: string, b: string)
    ensures ParsePath(a + "." + b) == ParsePath(a) + ParsePath(b)
  {
    hide Dotted, SplitOn, NonEmpty;
    assert a + "." + b == a + ("." + b);
    DottedAppend(a, "." + b);
    DottedDot(b);
    assert Dotted(a) + (['.'] + Dotted(b)) == Dotted(a) + ['.'] + Dotted(b);
    SplitAppend(Dotted(a), Dotted(b), '.');
    NonEmptyAppend(SplitOn(Dotted(a), '.'), SplitOn(Dotted(b), '.'));
  }

  /** Digits in brackets are one more key. */
  lemma IndexJoins(a: string, d: string)
    requires IsDigits(d)
    ensures ParsePath(a + "[" + d + "]") == ParsePath(a) + [d]
  {
    hide Dotted, SplitOn, NonEmpty;
    assert a + "[" + d + "]" == a + ("[" + d + "]");
    DottedAppend(a, "[" + d + "]");
    DottedIndex(d);
    assert Dotted(a) + (['.'] + d) == Dotted(a) + ['.'] + d;
    SplitAppend(Dotted(a), d, '.');
    NonEmptyAppend(SplitOn(Dotted(a), '.'), SplitOn(d, '.'));
    SplitNone(d, '.');
    OnePart(d);
  }

  lemma OnePart(d: string)
    requires d != ""
    ensures NonEmpty([d]) == [d]
  {
    assert [d][1..] == [] && NonEmpty([]) == [];
  }

  lemma {:induction false} DottedPlain(s: string)
    requires '[' !in s
    ensures Dotted(s) == s
  {
    if s != "" {
      DottedPlain(s[1..]);
      assert s == [s[0]] + s[1..];
    }
  }

  /** A name without dot or bracket is one key. */
  lemma NameParses(name: string)
    requires name != "" && '.' !in name && '[' !in name
    ensures ParsePath(name) == [name]
  {
    hide Dotted, SplitOn;
    DottedPlain(name);
    SplitNone(name, '.');
    OnePart(name);
  }

  lemma {:induction false} GetBelow(t: Json, a: seq<string>, b: seq<string>)
    ensures Get(t, a + b) == Get(Get(t, a), b)
    decreases |a|
  {
    if a == [] {
      assert a + b == b;
    } else {
      assert (a + b)[0] == a[0] && (a + b)[1..] == a[1..] + b;
      GetUndefined(b);
      GetBelow(Prop(t, a[0]), a[1..], b);
    }
  }

  /** Reading a path that goes on is reading the rest of it in what the first part gives. */
  lemma PathsCompose(t: Json, a: string, b: string, d: string)
    ensures Get(t, ParsePath(a + "." + b)) == Get(Get(t, ParsePath(a)), ParsePath(b))
    ensures IsDigits(d) ==> Get(t, ParsePath(a + "[" + d + "]")) == Get(Get(t, ParsePath(a)), [d])
  {
    DotJoins(a, b);
    GetBelow(t, ParsePath(a), ParsePath(b));
    if IsDigits(d) {
      IndexJoins(a, d);
      GetBelow(t, ParsePath(a), [d]);
    }
  }

  // ---------------------------------------------------------------- get after set

  lemma PropAfterWithProp(c: Json, k: string, v: Json)
    requires Container(c)
    ensures Prop(WithProp(c, k, v), k) == v
  {
  }

  lemma PropElsewhere(c: Json, k: string, v: Json, j: string)
    requires Container(c) && j != k
    ensures Prop(WithProp(c, k, v), j) == Prop(c, j)
  {
    if c.Arr? && IndexOf(k).Some? && IndexOf(k) == IndexOf(j) {
      SameIndexSameKey(j, k);
    }
  }

  lemma {:induction false} GetAfterPut(c: Json, segs: seq<string>, v: Json)
    requires Container(c) && segs != []
    ensures Get(PutIn(c, segs, v), segs) == v
    decreases |segs|
  {
    var x := if |segs| == 1 then v else PutIn(Base(Prop(c, segs[0]), segs[1]), segs[1..], v);
    PropAfterWithProp(c, segs[0], x);
    assert Prop(PutIn(c, segs, v), segs[0]) == x;
    if |segs| == 1 {
      assert segs[1..] == [];
    } else {
      GetAfterPut(Base(Prop(c, segs[0]), segs[1]), segs[1..], v);
    }
  }

  lemma Larger(c: Json, k: string, v: Json)
    requires Container(c)
    ensures WithProp(c, k, v) != v
  {
    PropAfterWithProp(c, k, v);
    NoLoop(WithProp(c, k, v), k);
  }

  lemma NoLoop(t: Json, k: string)
    requires Container(t)
    ensures Prop(t, k) != t
  {
  }

  /** Reading back what was set, for every tree and value: it works exactly for the paths that have
      a segment, and the empty one. */
  lemma GetAfterSetExactly(t: Json, path: string, v: Json)
    ensures Get(Set(t, path, v), ParsePath(path)) == v <==> path == "" || ParsePath(path) != []
  {
    NoSegments();
    if path == "" {
    } else if ParsePath(path) == [] {
      Larger(Spread(t), "undefined", v);
    } else {
      GetAfterPut(Spread(t), ParsePath(path), v);
    }
  }

  // ---------------------------------------------------------------- what is made on the way

  lemma PutKeepsKind(c: Json, p: seq<string>, v: Json)
    requires Container(c) && p != []
    ensures PutIn(c, p, v).Arr? == c.Arr?
  {
  }

  /** Setting below a key that is missing makes an array if the next key is all digits, and an object
      otherwise; below one that is there, an array stays an array and anything else becomes an object. */
  lemma MadeOnTheWay(c: Json, p: seq<string>, v: Json)
    requires Container(c) && |p| > 1
    ensures var was, now := Prop(c, p[0]), Prop(PutIn(c, p, v), p[0]);
      Container(now) && (now.Arr? <==> if Nullish(was) then IsDigits(p[1]) else was.Arr?)
  {
    var base := Base(Prop(c, p[0]), p[1]);
    PropAfterWithProp(c, p[0], PutIn(base, p[1..], v));
    PutKeepsKind(base, p[1..], v);
  }

  /** Setting an index makes an array just long enough, with nothing in between, and keeps the rest. */
  lemma ArrayGrows(items: seq<Json>, n: nat, v: Json)
    ensures var r := WithProp(Arr(items, map[]), Decimal(n), v);
      && r.Arr? && r.props == map[]
      && |r.items| == (if n < |items| then |items| else n + 1)
      && forall i :: 0 <= i < |r.items| ==>
           r.items[i] == if i == n then v else if i < |items| then items[i] else Undefined
  {
    IndexOfDecimal(n);
  }

  // ---------------------------------------------------------------- other paths

  /** Neither is at or below the other. */
  predicate Disjoint(p: seq<string>, q: seq<string>) {
    p != [] && q != [] && (p[0] != q[0] || Disjoint(p[1..], q[1..]))
  }

  lemma PropSpread(t: Json, k: string)
    requires Plain(t)
    ensures Prop(Spread(t), k) == Prop(t, k)
  {
    if t.Str? {
      KeysAre(|t.s|, k);
    }
  }

  lemma PlainProp(t: Json, k: string)
    requires Plain(t)
    ensures Plain(Prop(t, k))
  {
  }

  lemma GetUndefined(segs: seq<string>)
    ensures Get(Undefined, segs) == Undefined
  {
  }

  /** What a missing child is replaced by reads, below it, as the missing child did. */
  lemma StandIn(child: Json, next: string) returns (e: Json)
    requires Plain(child)
    ensures Plain(e) && Base(child, next) == Spread(e)
    ensures forall q :: q != [] ==> Get(e, q) == Get(child, q)
  {
    if Nullish(child) {
      e := if IsDigits(next) then Arr([], map[]) else Obj(map[]);
      forall q | q != [] ensures Get(e, q) == Get(child, q) {
        GetUndefined(q[1..]);
        assert Prop(e, q[0]) == Undefined;
      }
    } else {
      e := child;
    }
  }

  lemma {:induction false} GetBesidePut(t: Json, p: seq<string>, v: Json, q: seq<string>)
    requires Plain(t) && Disjoint(p, q)
    ensures Get(PutIn(Spread(t), p, v), q) == Get(t, q)
    decreases |p|
  {
    hide Prop, WithProp, Spread, Base, Plain;
    var c := Spread(t);
    PropSpread(t, p[0]);
    PropSpread(t, q[0]);
    var child := Prop(c, p[0]);
    var x := if |p| == 1 then v else PutIn(Base(child, p[1]), p[1..], v);
    assert PutIn(c, p, v) == WithProp(c, p[0], x);
    NullishHasNothing(t, q);
    if p[0] != q[0] {
      PropElsewhere(c, p[0], x, q[0]);
    } else {
      PropAfterWithProp(c, p[0], x);
      PlainProp(t, p[0]);
      var e := StandIn(child, p[1]);
      GetBesidePut(e, p[1..], v, q[1..]);
    }
  }

  lemma NullishHasNothing(t: Json, q: seq<string>)
    requires q != []
    ensures Get(t, q) == Get(Prop(t, q[0]), q[1..])
  {
    GetUndefined(q[1..]);
  }

  /** Setting one path changes nothing at any disjoint path, whatever is there. */
  lemma SetLeavesOthers(t: Json, path: string, v: Json, q: seq<string>)
    requires Plain(t) && Disjoint(ParsePath(path), q)
    ensures Get(Set(t, path, v), q) == Get(t, q)
  {
    NoSegments();
    GetBesidePut(t, ParsePath(path), v, q);
  }

  // ---------------------------------------------------------------- setting back

  predicate HasOwn(t: Json, k: string) {
    match t
    case Obj(m) => k in m
    case Arr(items, _) => IndexOf(k).Some? && IndexOf(k).value < |items|
    case _ => false
  }

  /** Every key on the way is there. */
  predicate Present(t: Json, p: seq<string>)
    decreases |p|
  {
    p == [] || (HasOwn(t, p[0]) && Present(Prop(t, p[0]), p[1..]))
  }

  /** The tree with one present value exchanged. */
  function Replace(t: Json, p: seq<string>, v: Json): Json
    requires Present(t, p)
    decreases |p|
  {
    if p == [] then v else WithProp(t, p[0], Replace(Prop(t, p[0]), p[1..], v))
  }

  lemma OwnProps(t: Json, k: string, v: Json)
    requires HasOwn(t, k)
    ensures Container(t) && WithProp(t, k, Prop(t, k)) == t
    ensures forall w :: WithProp(WithProp(t, k, v), k, w) == WithProp(t, k, w)
    ensures forall j :: HasOwn(WithProp(t, k, v), j) <==> HasOwn(t, j)
    ensures Plain(t) && Plain(v) ==> Plain(WithProp(t, k, v))
    ensures Plain(t) ==> Spread(t) == t
  {
  }

  lemma OwnPropsCommute(t: Json, k: string, v: Json, j: string, w: Json)
    requires HasOwn(t, k) && HasOwn(t, j) && j != k
    ensures WithProp(WithProp(t, k, v), j, w) == WithProp(WithProp(t, j, w), k, v)
  {
    if t.Arr? && IndexOf(k) == IndexOf(j) {
      SameIndexSameKey(j, k);
    }
  }

  lemma {:induction false} PutIsReplace(t: Json, p: seq<string>, v: Json)
    requires Plain(t) && Present(t, p) && p != []
    ensures PutIn(Spread(t), p, v) == Replace(t, p, v)
    decreases |p|
  {
    hide Prop, WithProp, Spread, HasOwn, Plain;
    OwnProps(t, p[0], v);
    if |p| > 1 {
      var child := Prop(t, p[0]);
      assert p[1..][0] == p[1];
      ChildIsContainer(child, p[1]);
      PlainProp(t, p[0]);
      PutIsReplace(child, p[1..], v);
    }
  }

  lemma ChildIsContainer(child: Json, next: string)
    requires HasOwn(child, next)
    ensures !Nullish(child)
  {
  }

  lemma {:induction false} ReplacePresent(t: Json, p: seq<string>, v: Json)
    requires Present(t, p)
    ensures Present(Replace(t, p, v), p) && Get(t, p) == Get(Replace(t, p, Get(t, p)), p)
    ensures Get(Replace(t, p, v), p) == v
    ensures Plain(t) && Plain(v) ==> Plain(Replace(t, p, v))
    ensures Replace(t, p, Get(t, p)) == t
    ensures forall w :: Replace(Replace(t, p, v), p, w) == Replace(t, p, w)
    decreases |p|
  {
    hide Prop, WithProp, Spread, HasOwn, Plain;
    if p != [] {
      var k, child := p[0], Prop(t, p[0]);
      ReplacePresent(child, p[1..], v);
      ReplacePresent(child, p[1..], Get(child, p[1..]));
      OwnProps(t, k, Replace(child, p[1..], v));
      OwnNotNullish(t, k);
      PropAfterWithProp(t, k, Replace(child, p[1..], v));
      OwnNotNullish(Replace(t, p, v), k);
      if Plain(t) {
        PlainProp(t, k);
      }
    }
  }

  lemma OwnNotNullish(t: Json, k: string)
    requires HasOwn(t, k)
    ensures !Nullish(t)
  {
  }

  lemma {:induction false} PlainPutIsPresent(c: Json, p: seq<string>, v: Json)
    requires Container(c) && p != [] && Plain(PutIn(c, p, v))
    ensures Present(PutIn(c, p, v), p)
    decreases |p|
  {
    hide Spread, Base;
    var r := PutIn(c, p, v);
    var x := if |p| == 1 then v else PutIn(Base(Prop(c, p[0]), p[1]), p[1..], v);
    assert r == WithProp(c, p[0], x);
    PropAfterWithProp(c, p[0], x);
    PlainProp(r, p[0]);
    assert HasOwn(r, p[0]) by {
      assert c.Arr? ==> p[0] in c.props[p[0] := x];
    }
    if |p| > 1 {
      PlainPutIsPresent(Base(Prop(c, p[0]), p[1]), p[1..], v);
    }
  }

  /** Overwriting a path and setting back what was read there restores the tree exactly when every
      key of the path was there: a missing one, or anything but a container on the way, is changed
      for good. */
  lemma SetBackExactly(t: Json, p: seq<string>, w: Json)
    requires Plain(t) && Plain(w) && p != []
    ensures PutIn(Spread(PutIn(Spread(t), p, w)), p, Get(t, p)) == t <==> Present(t, p)
  {
    if Present(t, p) {
      PutIsReplace(t, p, w);
      ReplacePresent(t, p, w);
      PutIsReplace(Replace(t, p, w), p, Get(t, p));
    } else if PutIn(Spread(PutIn(Spread(t), p, w)), p, Get(t, p)) == t {
      PlainPutIsPresent(Spread(PutIn(Spread(t), p, w)), p, Get(t, p));
    }
  }
}
