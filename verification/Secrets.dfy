/** Masking secrets in the config form, keeping the real values aside, and putting them back. */
module Secrets {
  import opened Words
  import opened Texts
  import opened JsonPath

  const PLACEHOLDER := "***"
  const MASK := Str(PLACEHOLDER)

  datatype Field = Field(path: string, secret: bool)

  type Schema = seq<seq<Field>>

  /** A string that is neither empty nor the placeholder. */
  predicate IsLive(v: Json) {
    v.Str? && v.s != "" && v.s != PLACEHOLDER
  }

  function ClientPath(i: nat): string {
    "clients[" + Decimal(i) + "].clientSecret"
  }

  function ClientSegs(i: nat): seq<string> {
    ["clients", Decimal(i), "clientSecret"]
  }

  function Clients(t: Json): seq<Json> {
    var c := Prop(t, "clients");
    if c.Arr? then c.items else []
  }

  // ---------------------------------------------------------------- what the programs compute

  function At(t: Json, path: string): Json {
    Get(t, ParsePath(path))
  }

  function MaskOne(t: Json, path: string): Json {
    if IsLive(At(t, path)) then Set(t, path, MASK) else t
  }

  function MaskAll(t: Json, paths: seq<string>): Json {
    if paths == [] then t else MaskOne(MaskAll(t, paths[..|paths| - 1]), paths[|paths| - 1])
  }

  function SecretsOf(fields: seq<Field>): seq<string> {
    if fields == [] then []
    else
      var f := fields[|fields| - 1];
      SecretsOf(fields[..|fields| - 1]) + if f.secret then [f.path] else []
  }

  /** The schema's secret paths, group by group. */
  function SchemaPaths(schema: Schema): seq<string> {
    if schema == [] then [] else SchemaPaths(schema[..|schema| - 1]) + SecretsOf(schema[|schema| - 1])
  }

  function ClientPaths(n: nat): seq<string> {
    if n == 0 then [] else ClientPaths(n - 1) + [ClientPath(n - 1)]
  }

  function CollectOne(out: map<string, string>, t: Json, path: string): map<string, string> {
    if IsLive(At(t, path)) then out[path := At(t, path).s] else out
  }

  function CollectAll(t: Json, paths: seq<string>): map<string, string> {
    if paths == [] then map[] else CollectOne(CollectAll(t, paths[..|paths| - 1]), t, paths[|paths| - 1])
  }

  function RestoreOne(t: Json, path: string, secret: string): Json {
    if At(t, path) == MASK || Nullish(At(t, path)) then Set(t, path, Str(secret)) else t
  }

  function RestoreAll(t: Json, secrets: map<string, string>, order: seq<string>): Json
    requires forall p :: p in order ==> p in secrets
  {
    if order == [] then t
    else
      var last := order[|order| - 1];
      RestoreOne(RestoreAll(t, secrets, order[..|order| - 1]), last, secrets[last])
  }

  // ---------------------------------------------------------------- the programs

  predicate Falsy(t: Json) {
    Nullish(t) || t == Bool(false) || t == Num(0) || t == Str("")
  }

  /** The properties that `{...t}` copies from an object or an array. */
  function OwnFields(t: Json): map<string, Json> {
    match t
    case Obj(m) => m
    case Arr(items, props) => (map k | k in Keys(|items|) :: Prop(t, k)) + props
    case _ => map[]
  }

  function MaskClient(c: Json): Json {
    if IsLive(Prop(c, "clientSecret")) then Obj(OwnFields(c)["clientSecret" := MASK]) else c
  }

  function MaskedList(cs: seq<Json>, n: nat): (r: seq<Json>)
    requires n <= |cs|
    ensures |r| == |cs|
  {
    seq(|cs|, i requires 0 <= i < |cs| => if i < n then MaskClient(cs[i]) else cs[i])
  }

  /** The clients up to `n` masked, all in one new object. */
  function MaskClients(t: Json, n: nat): Json
    requires n <= |Clients(t)|
  {
    if Prop(t, "clients").Arr? then Obj(OwnFields(t)["clients" := Arr(MaskedList(Clients(t), n), map[])]) else t
  }

  /** The form's values: masked if there is a schema and anything to mask. */
  function Masking(values: Json, schema: Option<Schema>): Json {
    if schema.None? || Falsy(values) then if Nullish(values) then Obj(map[]) else values
    else
      var next := MaskAll(values, SchemaPaths(schema.value));
      MaskClients(next, |Clients(next)|)
  }

  /** The real values kept aside, by path. */
  function Collecting(values: Json, schema: Option<Schema>): map<string, string> {
    if schema.None? || Falsy(values) then map[] else CollectAll(values, AllPaths(values, schema.value))
  }

  /** All the paths that are masked: the schema's and every client's. */
  function AllPaths(t: Json, schema: Schema): seq<string> {
    SchemaPaths(schema) + ClientPaths(|Clients(t)|)
  }

  // One more path, field, group or client.

  lemma MaskSnoc(t: Json, paths: seq<string>, path: string)
    ensures MaskAll(t, paths + [path]) == MaskOne(MaskAll(t, paths), path)
  {
    assert (paths + [path])[..|paths|] == paths;
  }

  lemma CollectSnoc(t: Json, paths: seq<string>, path: string)
    ensures CollectAll(t, paths + [path]) == CollectOne(CollectAll(t, paths), t, path)
  {
    assert (paths + [path])[..|paths|] == paths;
  }

  lemma SecretsSnoc(before: seq<string>, fields: seq<Field>, i: nat)
    requires i < |fields|
    ensures before + SecretsOf(fields[..i + 1])
         == if fields[i].secret then before + SecretsOf(fields[..i]) + [fields[i].path]
            else before + SecretsOf(fields[..i])
  {
    assert fields[..i + 1][..i] == fields[..i];
  }

  lemma SchemaSnoc(schema: Schema, g: nat)
    requires g < |schema|
    ensures SchemaPaths(schema[..g + 1]) == SchemaPaths(schema[..g]) + SecretsOf(schema[g][..|schema[g]|])
    ensures SchemaPaths(schema[..g]) + SecretsOf(schema[g][..0]) == SchemaPaths(schema[..g])
  {
    assert schema[..g + 1][..g] == schema[..g] && schema[g][..|schema[g]|] == schema[g];
  }

  lemma NoPathsYet(schema: Schema, t: Json)
    ensures SchemaPaths(schema[..0]) == [] && schema[..|schema|] == schema
    ensures MaskAll(t, []) == t && CollectAll(t, []) == map[]
    ensures SchemaPaths(schema) + ClientPaths(0) == SchemaPaths(schema)
  {
  }

  lemma ClientPathsSnoc(schema: Schema, i: nat)
    ensures SchemaPaths(schema) + ClientPaths(i + 1) == SchemaPaths(schema) + ClientPaths(i) + [ClientPath(i)]
  {
  }

  method MaskFields(values: Json, schema: Schema) returns (next: Json)
    ensures next == MaskAll(values, SchemaPaths(schema))
  {
    hide MaskAll, SchemaPaths, SecretsOf, Set, ParsePath;
    next := values;
    ghost var done: seq<string> := [];
    NoPathsYet(schema, values);
    for g := 0 to |schema|
      invariant done == SchemaPaths(schema[..g]) && next == MaskAll(values, done)
    {
      SchemaSnoc(schema, g);
      ghost var before := done;
      var fields := schema[g];
      for i := 0 to |fields|
        invariant done == before + SecretsOf(fields[..i]) && next == MaskAll(values, done)
      {
        SecretsSnoc(before, fields, i);
        var f := fields[i];
        if f.secret {
          MaskSnoc(values, done, f.path);
          var v := GetByPath(next, f.path);
          if v.Str? && v.s != "" && v.s != PLACEHOLDER {
            next := SetByPath(next, f.path, MASK);
          }
          done := done + [f.path];
        }
      }
    }
  }

  method CollectFields(values: Json, schema: Schema) returns (out: map<string, string>)
    ensures out == CollectAll(values, SchemaPaths(schema))
  {
    hide CollectAll, SchemaPaths, SecretsOf, ParsePath;
    out := map[];
    ghost var done: seq<string> := [];
    NoPathsYet(schema, values);
    for g := 0 to |schema|
      invariant done == SchemaPaths(schema[..g]) && out == CollectAll(values, done)
    {
      SchemaSnoc(schema, g);
      ghost var before := done;
      var fields := schema[g];
      for i := 0 to |fields|
        invariant done == before + SecretsOf(fields[..i]) && out == CollectAll(values, done)
      {
        SecretsSnoc(before, fields, i);
        var f := fields[i];
        if f.secret {
          CollectSnoc(values, done, f.path);
          var v := GetByPath(values, f.path);
          if v.Str? && v.s != "" && v.s != PLACEHOLDER {
            out := out[f.path := v.s];
          }
          done := done + [f.path];
        }
      }
    }
  }

  method CollectSecrets(values: Json, schema: Option<Schema>) returns (out: map<string, string>)
    ensures out == Collecting(values, schema)
  {
    if schema.None? || Falsy(values) {
      return map[];
    }
    out := CollectFields(values, schema.value);
    hide CollectAll, SchemaPaths, ClientPaths, ClientPath, ParsePath;
    var clients := Clients(values);
    NoPathsYet(schema.value, values);
    for i := 0 to |clients|
      invariant out == CollectAll(values, SchemaPaths(schema.value) + ClientPaths(i))
    {
      ClientPathsSnoc(schema.value, i);
      CollectSnoc(values, SchemaPaths(schema.value) + ClientPaths(i), ClientPath(i));
      ClientAt(values, i);
      var secret := Prop(clients[i], "clientSecret");
      if secret.Str? && secret.s != "" && secret.s != PLACEHOLDER {
        out := out[ClientPath(i) := secret.s];
      }
    }
  }

  method MaskClientList(clients: seq<Json>) returns (masked: seq<Json>)
    ensures masked == MaskedList(clients, |clients|)
  {
    masked := [];
    for i := 0 to |clients|
      invariant |masked| == i && forall j :: 0 <= j < i ==> masked[j] == MaskClient(clients[j])
    {
      var secret := Prop(clients[i], "clientSecret");
      if secret.Str? && secret.s != "" && secret.s != PLACEHOLDER {
        masked := masked + [Obj(OwnFields(clients[i])["clientSecret" := MASK])];
      } else {
        masked := masked + [clients[i]];
      }
    }
  }

  method MaskSecretsInValues(values: Json, schema: Option<Schema>) returns (next: Json)
    ensures next == Masking(values, schema)
  {
    if schema.None? || Falsy(values) {
      return if Nullish(values) then Obj(map[]) else values;
    }
    hide MaskAll, SchemaPaths, MaskedList, OwnFields;
    next := MaskFields(values, schema.value);
    if Prop(next, "clients").Arr? {
      var masked := MaskClientList(Clients(next));
      next := Obj(OwnFields(next)["clients" := Arr(masked, map[])]);
    }
  }

  /** Restores in the order in which the kept secrets are enumerated. */
  method RestoreSecrets(values: Json, secrets: map<string, string>, order: seq<string>) returns (merged: Json)
    requires forall p :: p in order ==> p in secrets
    ensures merged == RestoreAll(values, secrets, order)
  {
    hide Set, ParsePath, Get;
    merged := values;
    for i := 0 to |order|
      invariant merged == RestoreAll(values, secrets, order[..i])
    {
      assert order[..i + 1][..i] == order[..i];
      var current := GetByPath(merged, order[i]);
      if current == MASK || Nullish(current) {
        merged := SetByPath(merged, order[i], Str(secrets[order[i]]));
      }
    }
    assert order[..|order|] == order;
  }

  // ---------------------------------------------------------------- the clients' paths

  /** The path written for a client's secret parses back to it. */
  lemma ClientPathParses(i: nat)
    ensures ParsePath(ClientPath(i)) == ClientSegs(i)
  {
    hide ParsePath;
    var d := Decimal(i);
    assert ClientPath(i) == "clients" + "[" + d + "]" + "." + "clientSecret";
    DotJoins("clients" + "[" + d + "]", "clientSecret");
    IndexJoins("clients", d);
    NameParses("clients");
    NameParses("clientSecret");
  }

  lemma ClientAt(t: Json, i: nat)
    requires i < |Clients(t)|
    ensures At(t, ClientPath(i)) == Prop(Clients(t)[i], "clientSecret")
  {
    ClientPathParses(i);
    IndexOfDecimal(i);
    var segs := ClientSegs(i);
    assert segs[1..] == [Decimal(i), "clientSecret"] && segs[1..][1..] == ["clientSecret"];
    var a, c := Prop(t, "clients"), Clients(t)[i];
    assert Get(t, segs) == Get(a, segs[1..]);
    assert Get(a, segs[1..]) == Get(c, ["clientSecret"]);
    GetUndefined([]);
    assert ["clientSecret"][1..] == [];
  }

  // ---------------------------------------------------------------- paths that do not enter a string

  /** Walking the path in the tree never indexes into a string. */
  predicate Straight(t: Json, p: seq<string>)
    decreases |p|
  {
    p == [] || if t.Str? then IndexOf(p[0]) == None else Straight(Prop(t, p[0]), p[1..])
  }

  /** A string stands at the end of a path whose keys are all there. */
  predicate Spot(t: Json, p: seq<string>) {
    Present(t, p) && Get(t, p).Str?
  }

  lemma {:induction false} StraightString(t: Json, p: seq<string>)
    requires Plain(t) && Get(t, p).Str?
    ensures Straight(t, p) <==> Present(t, p)
    decreases |p|
  {
    if p != [] {
      PlainProp(t, p[0]);
      GetUndefined(p[1..]);
      StraightString(Prop(t, p[0]), p[1..]);
    }
  }

  /** What masking elsewhere may do to a value: nothing to a string or to nothing, and an array stays
      an array of its length. */
  predicate Alike(u: Json, v: Json) {
    && (u.Str? || v.Str? || Nullish(u) || Nullish(v) ==> u == v)
    && (u.Arr? <==> v.Arr?) && (u.Arr? ==> |u.items| == |v.items|)
  }

  lemma {:induction false} SameElsewhere(t: Json, p: seq<string>, x: string, q: seq<string>)
    requires Plain(t) && Spot(t, p) && Straight(t, q)
    ensures p != q ==> Alike(Get(t, q), Get(Replace(t, p, Str(x)), q))
    ensures Straight(Replace(t, p, Str(x)), q)
    ensures Present(t, q) ==> Present(Replace(t, p, Str(x)), q)
    decreases |p|
  {
    if p == [] {
      if q != [] {
        GetUndefined(q[1..]);
      }
    } else {
      var child := Replace(Prop(t, p[0]), p[1..], Str(x));
      OwnProps(t, p[0], child);
      OwnNotNullish(t, p[0]);
      PropAfterWithProp(t, p[0], child);
      PlainProp(t, p[0]);
      if q != [] {
        if p[0] == q[0] {
          SameElsewhere(Prop(t, p[0]), p[1..], x, q[1..]);
        } else {
          PropElsewhere(t, p[0], child, q[0]);
        }
      }
    }
  }

  lemma {:induction false} ReplaceCommute(t: Json, p: seq<string>, x: string, q: seq<string>, y: string)
    requires Plain(t) && Spot(t, p) && Spot(t, q) && p != q
    ensures Present(Replace(t, p, Str(x)), q) && Present(Replace(t, q, Str(y)), p)
    ensures Replace(Replace(t, p, Str(x)), q, Str(y)) == Replace(Replace(t, q, Str(y)), p, Str(x))
    decreases |p|
  {
    hide Prop, WithProp, HasOwn, Plain, Straight;
    StraightString(t, p);
    StraightString(t, q);
    SameElsewhere(t, p, x, q);
    SameElsewhere(t, q, y, p);
    StringHasNone(t, p, q);
    StringHasNone(t, q, p);
    var a, b := Replace(Prop(t, p[0]), p[1..], Str(x)), Replace(Prop(t, q[0]), q[1..], Str(y));
    OwnProps(t, p[0], a);
    OwnProps(t, q[0], b);
    PropAfterWithProp(t, p[0], a);
    PropAfterWithProp(t, q[0], b);
    PlainProp(t, p[0]);
    OwnNotNullish(t, p[0]);
    if p[0] == q[0] {
      ReplaceCommute(Prop(t, p[0]), p[1..], x, q[1..], y);
    } else {
      OwnPropsCommute(t, p[0], a, q[0], b);
      PropElsewhere(t, p[0], a, q[0]);
      PropElsewhere(t, q[0], b, p[0]);
    }
  }

  lemma StringHasNone(t: Json, p: seq<string>, q: seq<string>)
    requires Spot(t, p) && Present(t, q) && p != q
    ensures p != []
  {
  }

  // ---------------------------------------------------------------- a tree with some strings masked

  /** The tree with the placeholder at each of the places listed. */
  function Masked(t: Json, places: seq<seq<string>>): Json {
    if places == [] then t
    else
      var m, p := Masked(t, places[..|places| - 1]), places[|places| - 1];
      if Present(m, p) then Replace(m, p, MASK) else m
  }

  predicate Spots(t: Json, places: seq<seq<string>>) {
    && (forall i :: 0 <= i < |places| ==> Spot(t, places[i]))
    && forall i, j :: 0 <= i < j < |places| ==> places[i] != places[j]
  }

  lemma SpotsInit(t: Json, places: seq<seq<string>>)
    requires Spots(t, places) && places != []
    ensures Spots(t, places[..|places| - 1]) && Spot(t, places[|places| - 1])
    ensures places[|places| - 1] !in places[..|places| - 1]
    ensures forall q :: q in places <==> q in places[..|places| - 1] || q == places[|places| - 1]
  {
    var init, last := places[..|places| - 1], places[|places| - 1];
    assert places == init + [last];
  }

  /** A masked tree read along a straight path. */
  predicate Reads(t: Json, m: Json, places: seq<seq<string>>, q: seq<string>) {
    && Straight(m, q)
    && (if q in places then Spot(m, q) && Get(m, q) == MASK else Alike(Get(t, q), Get(m, q)))
    && (Spot(t, q) ==> Spot(m, q))
  }

  lemma {:induction false} MaskedReads(t: Json, places: seq<seq<string>>, q: seq<string>)
    requires Plain(t) && Spots(t, places) && Straight(t, q)
    ensures Plain(Masked(t, places)) && Reads(t, Masked(t, places), places, q)
  {
    if places != [] {
      var init, p := places[..|places| - 1], places[|places| - 1];
      SpotsInit(t, places);
      StraightString(t, p);
      MaskedReads(t, init, q);
      MaskedReads(t, init, p);
      ReplaceReads(t, Masked(t, init), init, p, q);
    }
  }

  lemma ReplaceReads(t: Json, m: Json, places: seq<seq<string>>, p: seq<string>, q: seq<string>)
    requires Plain(m) && Spot(m, p) && Reads(t, m, places, q)
    ensures Plain(Replace(m, p, MASK))
    ensures var r := Replace(m, p, MASK);
      && Straight(r, q)
      && (if q in places || q == p then Spot(m, q) ==> Spot(r, q) && Get(r, q) == MASK else Alike(Get(t, q), Get(r, q)))
      && (Spot(t, q) ==> Spot(r, q))
  {
    SameElsewhere(m, p, PLACEHOLDER, q);
    ReplacePresent(m, p, MASK);
  }

  // ---------------------------------------------------------------- masking gives such a tree

  /** A secret path that the schema may name for this tree: it enters no string, and names the whole
      tree only as the empty path. */
  predicate Sound(t: Json, path: string) {
    Straight(t, ParsePath(path)) && (ParsePath(path) == [] && path != "" ==> !t.Str?)
  }

  lemma SetIsReplace(t: Json, path: string, v: Json)
    requires Plain(t) && Present(t, ParsePath(path)) && (ParsePath(path) == [] ==> path == "")
    ensures Set(t, path, v) == Replace(t, ParsePath(path), v)
  {
    NoSegments();
    if path != "" {
      PutIsReplace(t, ParsePath(path), v);
    }
  }

  /** Masked strings were strings before, at places that were there before. */
  lemma {:induction false} SpotWasSpot(t: Json, p: seq<string>, x: string, q: seq<string>)
    requires Plain(t) && Spot(t, p) && Spot(Replace(t, p, Str(x)), q)
    ensures Spot(t, q)
    decreases |p|
  {
    if p != [] && q != [] {
      var child := Replace(Prop(t, p[0]), p[1..], Str(x));
      OwnProps(t, p[0], child);
      PropAfterWithProp(t, p[0], child);
      PlainProp(t, p[0]);
      OwnNotNullish(t, q[0]);
      if p[0] == q[0] {
        SpotWasSpot(Prop(t, p[0]), p[1..], x, q[1..]);
      } else {
        PropElsewhere(t, p[0], child, q[0]);
      }
    }
  }

  lemma {:induction false} MaskedSpot(t: Json, places: seq<seq<string>>, q: seq<string>)
    requires Plain(t) && Spots(t, places) && Spot(Masked(t, places), q)
    ensures Spot(t, q) && Straight(t, q)
  {
    hide Plain, Straight, Replace, Get, Present;
    if places != [] {
      var init, p := places[..|places| - 1], places[|places| - 1];
      SpotsInit(t, places);
      StraightString(t, p);
      MaskedReads(t, init, p);
      SpotWasSpot(Masked(t, init), p, PLACEHOLDER, q);
      MaskedSpot(t, init, q);
    } else {
      StraightString(t, q);
    }
  }

  /** A secret of the tree, under a path that names its place. */
  predicate Kept(t: Json, path: string) {
    IsLive(At(t, path)) && Sound(t, path)
  }

  /** Each path that finds something to mask when its turn comes is sound in what it finds. */
  predicate Timely(t: Json, paths: seq<string>) {
    paths == [] ||
      var init, last := paths[..|paths| - 1], paths[|paths| - 1];
      Timely(t, init) && (IsLive(At(MaskAll(t, init), last)) ==> Sound(MaskAll(t, init), last))
  }

  function Noted(t: Json, places: seq<seq<string>>, path: string): seq<seq<string>> {
    if Kept(t, path) && ParsePath(path) !in places then places + [ParsePath(path)] else places
  }

  /** What a path finds in the masked tree was there before masking. */
  lemma LiveWasLive(t: Json, places: seq<seq<string>>, path: string)
    requires Plain(t) && Spots(t, places) && Kept(Masked(t, places), path)
    ensures Kept(t, path) && ParsePath(path) !in places && Spot(Masked(t, places), ParsePath(path))
  {
    var m, q := Masked(t, places), ParsePath(path);
    MaskedPlain(t, places);
    StraightString(m, q);
    MaskedSpot(t, places, q);
    MaskedReads(t, places, q);
  }

  lemma MaskedPlain(t: Json, places: seq<seq<string>>)
    requires Plain(t) && Spots(t, places)
    ensures Plain(Masked(t, places))
  {
    MaskedReads(t, places, []);
  }

  lemma MaskOneMasks(t: Json, places: seq<seq<string>>, path: string)
    requires Plain(t) && Spots(t, places)
    requires IsLive(At(Masked(t, places), path)) ==> Sound(Masked(t, places), path)
    ensures Spots(t, Noted(t, places, path))
    ensures MaskOne(Masked(t, places), path) == Masked(t, Noted(t, places, path))
  {
    hide Prop, Set, Plain, ParsePath, Straight;
    var m, q := Masked(t, places), ParsePath(path);
    if Kept(m, path) {
      LiveWasLive(t, places, path);
      MaskedPlain(t, places);
      MaskedSpot(t, places, q);
      SetIsReplace(m, path, MASK);
      MaskedSnoc(t, places, q);
    } else if Kept(t, path) {
      MaskedReads(t, places, q);
    }
  }

  function KeptPlaces(t: Json, paths: seq<string>): set<seq<string>> {
    set path | path in paths && Kept(t, path) :: ParsePath(path)
  }

  lemma KeptPlacesSnoc(t: Json, paths: seq<string>, path: string)
    ensures KeptPlaces(t, paths + [path]) == KeptPlaces(t, paths) + if Kept(t, path) then {ParsePath(path)} else {}
  {
    hide Kept, ParsePath;
    forall q | q in KeptPlaces(t, paths) + (if Kept(t, path) then {ParsePath(path)} else {})
      ensures q in KeptPlaces(t, paths + [path])
    {
      if q in KeptPlaces(t, paths) {
        var p :| p in paths && Kept(t, p) && ParsePath(p) == q;
        assert p in paths + [path];
      } else {
        assert path in paths + [path];
      }
    }
  }

  /** Exactly the places of the kept secrets are listed. */
  ghost predicate Covers(t: Json, paths: seq<string>, places: seq<seq<string>>) {
    forall q :: q in places <==> q in KeptPlaces(t, paths)
  }

  lemma {:induction false} MaskAllMasks(t: Json, paths: seq<string>) returns (places: seq<seq<string>>)
    requires Plain(t) && Timely(t, paths)
    ensures Spots(t, places) && Covers(t, paths, places)
    ensures MaskAll(t, paths) == Masked(t, places)
  {
    hide At, Kept, Sound, MaskOne, KeptPlaces, Masked, Spots, Covers, Noted, Plain;
    places := [];
    if paths == [] {
      NothingNoted(t);
    } else {
      var init, last := paths[..|paths| - 1], paths[|paths| - 1];
      assert paths == init + [last];
      places := MaskAllMasks(t, init);
      MaskOneMasks(t, places, last);
      NotedCovers(t, init, places, last);
      places := Noted(t, places, last);
    }
  }

  lemma NothingNoted(t: Json)
    ensures Spots(t, []) && Covers(t, [], []) && Masked(t, []) == t
  {
    NoneKept(t);
  }

  lemma NotedCovers(t: Json, paths: seq<string>, places: seq<seq<string>>, path: string)
    requires Covers(t, paths, places)
    ensures Covers(t, paths + [path], Noted(t, places, path))
  {
    hide ParsePath, Kept, KeptPlaces;
    KeptPlacesSnoc(t, paths, path);
  }

  lemma NoneKept(t: Json)
    ensures KeptPlaces(t, []) == {}
  {
  }

  // ---------------------------------------------------------------- the clients, one after the other

  lemma NamesAreNoIndex()
    ensures IndexOf("clients") == None && IndexOf("clientSecret") == None
  {
    assert !IsDigit("clients"[0]) && !IsDigit("clientSecret"[0]);
  }

  lemma ClientsAre(t: Json)
    requires Plain(t) && Prop(t, "clients").Arr?
    ensures t.Obj? && "clients" in t.fields && t.fields["clients"] == Arr(Clients(t), map[])
  {
    NamesAreNoIndex();
    PlainProp(t, "clients");
  }

  lemma LiveClientIs(c: Json)
    requires Plain(c) && IsLive(Prop(c, "clientSecret"))
    ensures c.Obj? && HasOwn(c, "clientSecret") && MaskClient(c) == WithProp(c, "clientSecret", MASK)
  {
    NamesAreNoIndex();
  }

  /** The clients path is sound for every client, whatever stands in the list. */
  lemma ClientPathSound(t: Json, i: nat)
    requires Plain(t) && i < |Clients(t)|
    ensures Sound(t, ClientPath(i))
  {
    var segs := ClientSegs(i);
    ClientPathParses(i);
    ClientsAre(t);
    IndexOfDecimal(i);
    NamesAreNoIndex();
    assert segs[1..] == [Decimal(i), "clientSecret"] && segs[1..][1..] == ["clientSecret"];
    var c := Clients(t)[i];
    assert Straight(c, ["clientSecret"]) by {
      assert ["clientSecret"][1..] == [];
    }
    assert Prop(t.fields["clients"], Decimal(i)) == c;
    assert Straight(t.fields["clients"], segs[1..]);
  }

  lemma MaskedClientPlain(c: Json)
    requires Plain(c)
    ensures Plain(MaskClient(c))
  {
    if IsLive(Prop(c, "clientSecret")) {
      LiveClientIs(c);
      OwnProps(c, "clientSecret", MASK);
    }
  }

  lemma MaskedClientsPlain(t: Json, n: nat)
    requires Plain(t) && n <= |Clients(t)| && Prop(t, "clients").Arr?
    ensures Plain(MaskClients(t, n)) && Prop(MaskClients(t, n), "clients").Arr?
    ensures t.Obj? && MaskClients(t, n) == Obj(t.fields["clients" := Arr(MaskedList(Clients(t), n), map[])])
    ensures Clients(MaskClients(t, n)) == MaskedList(Clients(t), n)
    ensures n == 0 ==> MaskClients(t, n) == t
  {
    hide MaskClient;
    ClientsAre(t);
    var cs := Clients(t);
    forall i | 0 <= i < |cs| ensures Plain(MaskedList(cs, n)[i]) {
      MaskedClientPlain(cs[i]);
    }
    if n == 0 {
      assert MaskedList(cs, n) == cs;
      assert t.fields["clients" := Arr(cs, map[])] == t.fields;
    }
  }

  lemma SetClient(t: Json, i: nat, c: Json)
    requires Plain(t) && i < |Clients(t)| && Clients(t)[i] == c && IsLive(Prop(c, "clientSecret"))
    ensures Set(t, ClientPath(i), MASK)
         == Obj(t.fields["clients" := Arr(Clients(t)[i := MaskClient(c)], map[])])
  {
    var segs := ClientSegs(i);
    ClientPathParses(i);
    ClientsAre(t);
    IndexOfDecimal(i);
    LiveClientIs(c);
    assert Plain(c);
    var a := t.fields["clients"];
    assert segs[1..] == [Decimal(i), "clientSecret"] && segs[1..][1..] == segs[2..] == ["clientSecret"];
    OwnProps(c, "clientSecret", MASK);
    assert PutIn(c, ["clientSecret"], MASK) == MaskClient(c);
    assert Base(Prop(a, Decimal(i)), "clientSecret") == c;
    assert PutIn(a, segs[1..], MASK) == WithProp(a, Decimal(i), MaskClient(c));
    assert Base(Prop(t, "clients"), Decimal(i)) == a;
    assert PutIn(t, segs, MASK) == WithProp(t, "clients", PutIn(a, segs[1..], MASK));
    NoSegments();
    assert ClientPath(i) != "";
  }

  lemma MaskedListNext(cs: seq<Json>, i: nat)
    requires i < |cs|
    ensures MaskedList(cs, i)[i] == cs[i] && MaskedList(cs, i + 1) == MaskedList(cs, i)[i := MaskClient(cs[i])]
  {
  }

  lemma MaskNextClient(t: Json, i: nat)
    requires Plain(t) && i < |Clients(t)|
    ensures MaskClients(t, i + 1) == MaskOne(MaskClients(t, i), ClientPath(i))
  {
    hide MaskClients, MaskedList, Plain, Set, ParsePath, Get, ClientPath, Prop;
    ClientsAre(t);
    MaskedClientsPlain(t, i);
    MaskedClientsPlain(t, i + 1);
    var m, c := MaskClients(t, i), Clients(t)[i];
    MaskedListNext(Clients(t), i);
    ClientAt(m, i);
    if IsLive(Prop(c, "clientSecret")) {
      SetClient(m, i, c);
    } else {
      assert MaskedList(Clients(t), i)[i := MaskClient(c)] == MaskedList(Clients(t), i);
    }
  }

  /** Masking all clients at once is masking their paths in turn. */
  lemma {:induction false} MaskClientsInTurn(t: Json, n: nat)
    requires Plain(t) && n <= |Clients(t)|
    ensures MaskClients(t, n) == MaskAll(t, ClientPaths(n))
  {
    hide MaskClients, MaskOne, Plain;
    if n == 0 {
      NoClientsMasked(t);
    } else {
      MaskClientsInTurn(t, n - 1);
      MaskNextClient(t, n - 1);
      MaskSnoc(t, ClientPaths(n - 1), ClientPath(n - 1));
    }
  }

  lemma NoClientsMasked(t: Json)
    requires Plain(t)
    ensures MaskClients(t, 0) == t
  {
    if Prop(t, "clients").Arr? {
      MaskedClientsPlain(t, 0);
    }
  }

  lemma {:induction false} MaskAllMore(t: Json, a: seq<string>, b: seq<string>)
    ensures MaskAll(t, a + b) == MaskAll(MaskAll(t, a), b)
  {
    if b == [] {
      assert a + b == a;
    } else {
      var init, last := b[..|b| - 1], b[|b| - 1];
      assert a + b == a + init + [last] && b == init + [last];
      MaskAllMore(t, a, init);
      MaskSnoc(t, a + init, last);
      MaskSnoc(MaskAll(t, a), init, last);
    }
  }

  /** A field of the schema is secret and has this path. */
  predicate SecretField(schema: Schema, path: string) {
    exists g, i :: 0 <= g < |schema| && 0 <= i < |schema[g]| && schema[g][i] == Field(path, true)
  }

  lemma {:induction false} SecretsOfAre(fields: seq<Field>, path: string)
    ensures path in SecretsOf(fields) <==> exists i :: 0 <= i < |fields| && fields[i] == Field(path, true)
  {
    if fields != [] {
      var init, f := fields[..|fields| - 1], fields[|fields| - 1];
      assert fields == init + [f];
      SecretsOfAre(init, path);
      if path in SecretsOf(init) {
        var i :| 0 <= i < |init| && init[i] == Field(path, true);
        assert fields[i] == Field(path, true);
      }
    }
  }

  lemma {:induction false} SchemaPathsAre(schema: Schema, path: string)
    ensures path in SchemaPaths(schema) <==> SecretField(schema, path)
  {
    if schema != [] {
      var init, fields := schema[..|schema| - 1], schema[|schema| - 1];
      assert schema == init + [fields];
      SchemaPathsAre(init, path);
      SecretsOfAre(fields, path);
      if SecretField(init, path) {
        var g, i :| 0 <= g < |init| && 0 <= i < |init[g]| && init[g][i] == Field(path, true);
        assert schema[g][i] == Field(path, true);
      }
      if path in SecretsOf(fields) {
        var i :| 0 <= i < |fields| && fields[i] == Field(path, true);
        assert schema[|init|][i] == Field(path, true);
      }
    }
  }

  /** The paths that are masked and kept are those of the schema's secret fields and every client's. */
  lemma AllPathsAre(t: Json, schema: Schema, path: string)
    ensures path in AllPaths(t, schema) <==>
      SecretField(schema, path) || exists i: nat :: i < |Clients(t)| && path == ClientPath(i)
  {
    hide SecretField, Clients, ClientPath, SchemaPaths;
    SchemaPathsAre(schema, path);
    ClientPathsAre(|Clients(t)|, path);
    forall i: nat | i < |Clients(t)| ensures ClientPath(i) in ClientPaths(|Clients(t)|) {
      ClientPathIn(|Clients(t)|, i);
    }
  }

  lemma {:induction false} ClientPathIn(n: nat, i: nat)
    requires i < n
    ensures ClientPath(i) in ClientPaths(n)
  {
    if i < n - 1 {
      ClientPathIn(n - 1, i);
    }
  }

  lemma {:induction false} ClientPathsAre(n: nat, path: string)
    ensures path in ClientPaths(n) ==> exists i: nat :: i < n && path == ClientPath(i)
  {
    if n > 0 {
      ClientPathsAre(n - 1, path);
    }
  }

  lemma TimelySnoc(t: Json, paths: seq<string>, path: string)
    requires Timely(t, paths) && Sound(MaskAll(t, paths), path)
    ensures Timely(t, paths + [path])
  {
    assert (paths + [path])[..|paths|] == paths;
  }

  /** The clients' paths are always in time. */
  lemma {:induction false} ClientsTimely(t: Json, paths: seq<string>, n: nat)
    requires Plain(t) && Timely(t, paths) && n <= |Clients(t)|
    ensures Timely(t, paths + ClientPaths(n))
  {
    hide MaskAll, ClientPath, Sound, Masked, Spots, Covers, Plain, Clients, Timely, At;
    if n == 0 {
      assert paths + ClientPaths(0) == paths;
    } else {
      ClientsTimely(t, paths, n - 1);
      var some := paths + ClientPaths(n - 1);
      assert paths + ClientPaths(n) == some + [ClientPath(n - 1)];
      var places := MaskAllMasks(t, some);
      SameClients(t, places);
      ClientPathSound(MaskAll(t, some), n - 1);
      TimelySnoc(t, some, ClientPath(n - 1));
    }
  }

  /** The form's masking puts the placeholder at the places of all kept secrets, and nowhere else, if
      no path takes a string apart when its turn comes. */
  lemma MaskingMasks(t: Json, schema: Schema) returns (places: seq<seq<string>>)
    requires Plain(t) && Timely(t, SchemaPaths(schema)) && !Falsy(t)
    ensures Spots(t, places) && Covers(t, AllPaths(t, schema), places)
    ensures Masking(t, Some(schema)) == Masked(t, places)
  {
    hide MaskClients, Timely, Masked, Spots, Covers, MaskAll, Prop, SchemaPaths, ClientPaths;
    ClientsTimely(t, SchemaPaths(schema), |Clients(t)|);
    places := MaskAllMasks(t, AllPaths(t, schema));
    var some := MaskAllMasks(t, SchemaPaths(schema));
    var m := MaskAll(t, SchemaPaths(schema));
    SameClients(t, some);
    MaskClientsInTurn(m, |Clients(m)|);
    MaskAllMore(t, SchemaPaths(schema), ClientPaths(|Clients(t)|));
  }

  lemma SameClients(t: Json, places: seq<seq<string>>)
    requires Plain(t) && Spots(t, places)
    ensures Plain(Masked(t, places)) && |Clients(Masked(t, places))| == |Clients(t)|
  {
    var q := ["clients"];
    NamesAreNoIndex();
    assert q[1..] == [];
    assert Straight(t, q);
    MaskedReads(t, places, q);
    var m := Masked(t, places);
    assert Get(Prop(t, "clients"), []) == Prop(t, "clients") && Get(Prop(m, "clients"), []) == Prop(m, "clients");
    assert Get(t, q) == Prop(t, "clients") && Get(m, q) == Prop(m, "clients");
  }

  // ---------------------------------------------------------------- restoring

  function Minus(places: seq<seq<string>>, q: seq<string>): seq<seq<string>> {
    if places == [] then []
    else
      var rest, last := Minus(places[..|places| - 1], q), places[|places| - 1];
      if last == q then rest else rest + [last]
  }

  lemma {:induction false} MinusIs(places: seq<seq<string>>, q: seq<string>, p: seq<string>)
    ensures p in Minus(places, q) <==> p in places && p != q
  {
    if places != [] {
      MinusIs(places[..|places| - 1], q, p);
      assert places == places[..|places| - 1] + [places[|places| - 1]];
    }
  }

  lemma {:induction false} MinusSpots(t: Json, places: seq<seq<string>>, q: seq<string>)
    requires Spots(t, places)
    ensures Spots(t, Minus(places, q))
    ensures q !in places ==> Minus(places, q) == places
  {
    if places != [] {
      var init, last := places[..|places| - 1], places[|places| - 1];
      SpotsInit(t, places);
      MinusSpots(t, init, q);
      MinusIs(init, q, last);
      assert places == init + [last];
      forall i | 0 <= i < |Minus(init, q)| ensures Minus(init, q)[i] != last {
        MinusIs(init, q, Minus(init, q)[i]);
      }
    }
  }

  lemma MaskedSnoc(t: Json, places: seq<seq<string>>, p: seq<string>)
    ensures Masked(t, places + [p]) ==
      if Present(Masked(t, places), p) then Replace(Masked(t, places), p, MASK) else Masked(t, places)
  {
    assert (places + [p])[..|places|] == places;
  }

  /** Putting the real value back at one place unmasks that place and no other. */
  lemma {:induction false} Unmask(t: Json, places: seq<seq<string>>, q: seq<string>)
    requires Plain(t) && Spots(t, places) && q in places
    ensures Present(Masked(t, places), q)
    ensures Replace(Masked(t, places), q, Get(t, q)) == Masked(t, Minus(places, q))
  {
    hide Masked, Replace, Present, Get, Plain, Straight;
    var init, last := places[..|places| - 1], places[|places| - 1];
    SpotsInit(t, places);
    assert places == init + [last] && Spot(t, q);
    MaskedSnoc(t, init, last);
    StraightString(t, last);
    StraightString(t, q);
    MaskedReads(t, init, last);
    MaskedReads(t, init, q);
    MaskedReads(t, places, q);
    var m, v := Masked(t, init), Get(t, q);
    if last == q {
      MinusSpots(t, init, q);
      ReplacePresent(m, q, MASK);
    } else {
      Unmask(t, init, q);
      ReplaceCommute(m, last, PLACEHOLDER, q, v.s);
      MinusSpots(t, init, q);
      MinusIs(init, q, last);
      MaskedReads(t, Minus(init, q), last);
      MaskedSnoc(t, Minus(init, q), last);
    }
  }

  /** The kept secrets are the live values by their paths. */
  lemma {:induction false} CollectedAre(t: Json, paths: seq<string>, path: string)
    ensures path in CollectAll(t, paths) <==> path in paths && IsLive(At(t, path))
    ensures path in CollectAll(t, paths) ==> CollectAll(t, paths)[path] == At(t, path).s
  {
    if paths != [] {
      CollectedAre(t, paths[..|paths| - 1], path);
      assert paths == paths[..|paths| - 1] + [paths[|paths| - 1]];
    }
  }

  /** One secret, no clients: its round trip works exactly when its path enters no string. */
  lemma OneSecretExactly(t: Json, path: string)
    requires Plain(t) && !Falsy(t) && IsLive(At(t, path)) && ParsePath(path) != []
    ensures RestoreOne(MaskOne(t, path), path, At(t, path).s) == t <==> Straight(t, ParsePath(path))
  {
    var p := ParsePath(path);
    NoSegments();
    StraightString(t, p);
    GetAfterPut(Spread(t), p, MASK);
    SetBackExactly(t, p, MASK);
  }

  /** A path into a string does occur: masking it takes the string apart for good. */
  lemma StringTakenApart()
    ensures var t, path := Obj(map["name" := Str("xy")]), "name.0";
      IsLive(At(t, path)) && RestoreOne(MaskOne(t, path), path, At(t, path).s) != t
  {
    var t, path := Obj(map["name" := Str("xy")]), "name.0";
    NameZeroParses();
    NameReads(t);
    hide ParsePath, Get, Straight, MaskOne, RestoreOne;
    OneSecretExactly(t, path);
  }

  lemma NameReads(t: Json)
    requires t == Obj(map["name" := Str("xy")])
    ensures Get(t, ["name", "0"]) == Str("x") && !Straight(t, ["name", "0"])
  {
    IndexOfDecimal(0);
    assert Decimal(0) == "0";
    var p := ["name", "0"];
    assert p[1..] == ["0"] && ["0"][1..] == [];
    assert Get(t, p) == Get(Str("xy"), ["0"]);
    assert Get(Str("xy"), ["0"]) == Get(Str("x"), []);
    assert !Straight(Str("xy"), ["0"]);
  }

  lemma NameZeroParses()
    ensures ParsePath("name.0") == ["name", "0"]
  {
    hide ParsePath;
    assert "name.0" == "name" + "." + "0";
    DotJoins("name", "0");
    NameParses("name");
    NameParses("0");
  }
}
