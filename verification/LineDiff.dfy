/** The line diff, in the server's and in the admin page's form: table, backtrack, reversal. */
module LineDiff {
  datatype Kind = Keep | Add | Del

  datatype Edit<T> = Edit(kind: Kind, text: T)

  // ---------------------------------------------------------------- what a script means

  /** The lines of the old text that a script goes through. */
  function Old<T>(s: seq<Edit<T>>): seq<T> {
    if s == [] then []
    else
      var e := s[|s| - 1];
      Old(s[..|s| - 1]) + if e.kind == Add then [] else [e.text]
  }

  /** The lines of the new text that a script goes through. */
  function New<T>(s: seq<Edit<T>>): seq<T> {
    if s == [] then []
    else
      var e := s[|s| - 1];
      New(s[..|s| - 1]) + if e.kind == Del then [] else [e.text]
  }

  function Kept<T>(s: seq<Edit<T>>): seq<T> {
    if s == [] then []
    else
      var e := s[|s| - 1];
      Kept(s[..|s| - 1]) + if e.kind == Keep then [e.text] else []
  }

  /** Additions and removals. */
  function Changes<T>(s: seq<Edit<T>>): nat {
    if s == [] then 0
    else Changes(s[..|s| - 1]) + if s[|s| - 1].kind == Keep then 0 else 1
  }

  lemma PrefixSnoc<T>(s: seq<T>, i: nat)
    requires i <= |s|
    ensures s[..i] == if i == 0 then [] else s[..i - 1] + [s[i - 1]]
  {
  }

  lemma EmptyFacts<T>()
    ensures Old<T>([]) == [] && New<T>([]) == [] && Kept<T>([]) == []
  {
  }

  lemma SnocFacts<T>(s: seq<Edit<T>>, e: Edit<T>)
    ensures Old(s + [e]) == if e.kind == Add then Old(s) else Old(s) + [e.text]
    ensures New(s + [e]) == if e.kind == Del then New(s) else New(s) + [e.text]
    ensures Kept(s + [e]) == if e.kind == Keep then Kept(s) + [e.text] else Kept(s)
    ensures Changes(s + [e]) == Changes(s) + if e.kind == Keep then 0 else 1
  {
    assert (s + [e])[..|s|] == s;
  }

  /** `c[..k]` is what remains of `s[..i]` after leaving some elements out. */
  predicate Subsequence<T(==)>(c: seq<T>, k: nat, s: seq<T>, i: nat)
    requires k <= |c| && i <= |s|
  {
    k == 0 || (i > 0 && (Subsequence(c, k, s, i - 1) || (c[k - 1] == s[i - 1] && Subsequence(c, k - 1, s, i - 1))))
  }

  predicate CommonSubsequence<T(==)>(c: seq<T>, a: seq<T>, b: seq<T>) {
    Subsequence(c, |c|, a, |a|) && Subsequence(c, |c|, b, |b|)
  }

  // ---------------------------------------------------------------- what the programs compute

  function Max(x: int, y: int): int {
    if x >= y then x else y
  }

  /** The table's entry for the prefixes of length `i` and `j`. */
  function Lcs<T(==)>(a: seq<T>, b: seq<T>, i: int, j: int): nat
    requires 0 <= i <= |a| && 0 <= j <= |b|
    decreases i + j
  {
    if i == 0 || j == 0 then 0
    else if a[i - 1] == b[j - 1] then Lcs(a, b, i - 1, j - 1) + 1
    else Max(Lcs(a, b, i - 1, j), Lcs(a, b, i, j - 1))
  }

  /** The script for the prefixes of length `i` and `j`: of two equally good last edits, the addition. */
  function Script<T(==)>(a: seq<T>, b: seq<T>, i: nat, j: nat): seq<Edit<T>>
    requires i <= |a| && j <= |b|
    decreases i + j
  {
    if i == 0 && j == 0 then []
    else if i > 0 && j > 0 && a[i - 1] == b[j - 1] then Script(a, b, i - 1, j - 1) + [Edit(Keep, a[i - 1])]
    else if j > 0 && (i == 0 || Lcs(a, b, i, j - 1) >= Lcs(a, b, i - 1, j)) then
      Script(a, b, i, j - 1) + [Edit(Add, b[j - 1])]
    else Script(a, b, i - 1, j) + [Edit(Del, a[i - 1])]
  }

  function Diff<T(==)>(a: seq<T>, b: seq<T>): seq<Edit<T>> {
    Script(a, b, |a|, |b|)
  }

  lemma LcsAt<T>(a: seq<T>, b: seq<T>, i: int, j: int)
    requires 0 <= i <= |a| && 0 <= j <= |b|
    ensures Lcs(a, b, i, j) ==
      if i == 0 || j == 0 then 0
      else if a[i - 1] == b[j - 1] then Lcs(a, b, i - 1, j - 1) + 1
      else Max(Lcs(a, b, i - 1, j), Lcs(a, b, i, j - 1))
  {
  }

  lemma ScriptAt<T>(a: seq<T>, b: seq<T>, i: nat, j: nat)
    requires i <= |a| && j <= |b|
    ensures Script(a, b, i, j) ==
      if i == 0 && j == 0 then []
      else if i > 0 && j > 0 && a[i - 1] == b[j - 1] then Script(a, b, i - 1, j - 1) + [Edit(Keep, a[i - 1])]
      else if j > 0 && (i == 0 || Lcs(a, b, i, j - 1) >= Lcs(a, b, i - 1, j)) then
        Script(a, b, i, j - 1) + [Edit(Add, b[j - 1])]
      else Script(a, b, i - 1, j) + [Edit(Del, a[i - 1])]
  {
  }

  ghost predicate Table<T>(dp: array2<int>, a: seq<T>, b: seq<T>)
    reads dp
  {
    && dp.Length0 == |a| + 1 && dp.Length1 == |b| + 1
    && forall p, q :: 0 <= p <= |a| && 0 <= q <= |b| ==> dp[p, q] == Lcs(a, b, p, q)
  }

  // ---------------------------------------------------------------- the programs

  /** The server's table loop. */
  method FillTable<T(==)>(a: seq<T>, b: seq<T>) returns (dp: array2<int>)
    ensures fresh(dp) && Table(dp, a, b)
  {
    hide Lcs;
    var n, m := |a|, |b|;
    dp := new int[n + 1, m + 1]((_, _) => 0);
    forall q | 0 <= q <= m ensures Lcs(a, b, 0, q) == 0 {
      LcsAt(a, b, 0, q);
    }
    var i := 1;
    while i <= n
      invariant 1 <= i <= n + 1
      invariant forall p, q :: 0 <= p < i && 0 <= q <= m ==> dp[p, q] == Lcs(a, b, p, q)
      invariant forall p :: i <= p <= n ==> dp[p, 0] == 0
    {
      LcsAt(a, b, i, 0);
      var j := 1;
      while j <= m
        invariant 1 <= j <= m + 1
        invariant forall p, q :: 0 <= p < i && 0 <= q <= m ==> dp[p, q] == Lcs(a, b, p, q)
        invariant forall q :: 0 <= q < j ==> dp[i, q] == Lcs(a, b, i, q)
        invariant forall p :: i <= p <= n ==> dp[p, 0] == 0
      {
        LcsAt(a, b, i, j);
        if a[i - 1] == b[j - 1] {
          dp[i, j] := dp[i - 1, j - 1] + 1;
        } else if dp[i - 1, j] >= dp[i, j - 1] {
          dp[i, j] := dp[i - 1, j];
        } else {
          dp[i, j] := dp[i, j - 1];
        }
        j := j + 1;
      }
      i := i + 1;
    }
  }

  /** The admin page's table loop. */
  method FillTableByMax<T(==)>(a: seq<T>, b: seq<T>) returns (dp: array2<int>)
    ensures fresh(dp) && Table(dp, a, b)
  {
    hide Lcs;
    var n, m := |a|, |b|;
    dp := new int[n + 1, m + 1]((_, _) => 0);
    forall q | 0 <= q <= m ensures Lcs(a, b, 0, q) == 0 {
      LcsAt(a, b, 0, q);
    }
    var i := 1;
    while i <= n
      invariant 1 <= i <= n + 1
      invariant forall p, q :: 0 <= p < i && 0 <= q <= m ==> dp[p, q] == Lcs(a, b, p, q)
      invariant forall p :: i <= p <= n ==> dp[p, 0] == 0
    {
      LcsAt(a, b, i, 0);
      var j := 1;
      while j <= m
        invariant 1 <= j <= m + 1
        invariant forall p, q :: 0 <= p < i && 0 <= q <= m ==> dp[p, q] == Lcs(a, b, p, q)
        invariant forall q :: 0 <= q < j ==> dp[i, q] == Lcs(a, b, i, q)
        invariant forall p :: i <= p <= n ==> dp[p, 0] == 0
      {
        LcsAt(a, b, i, j);
        if a[i - 1] == b[j - 1] {
          dp[i, j] := dp[i - 1, j - 1] + 1;
        } else {
          dp[i, j] := Max(dp[i - 1, j], dp[i, j - 1]);
        }
        j := j + 1;
      }
      i := i + 1;
    }
  }

  function Reversed<T>(s: seq<T>): (r: seq<T>)
    ensures |r| == |s|
    ensures forall k :: 0 <= k < |s| ==> r[k] == s[|s| - 1 - k]
  {
    if s == [] then [] else [s[|s| - 1]] + Reversed(s[..|s| - 1])
  }

  /** Walking back through the table: the script from its last edit to its first. The buffer that
      the server allocates for it is large enough. */
  method Backtrack<T(==)>(a: seq<T>, b: seq<T>, dp: array2<int>) returns (out: seq<Edit<T>>)
    requires Table(dp, a, b)
    ensures out == Reversed(Diff(a, b))
    ensures |out| <= |a| + |b|
  {
    hide Lcs, Script, Reversed;
    out := [];
    var i: nat, j: nat := |a|, |b|;
    while i > 0 || j > 0
      invariant i <= |a| && j <= |b|
      invariant |out| + i + j <= |a| + |b|
      invariant out + Reversed(Script(a, b, i, j)) == Reversed(Diff(a, b))
      decreases i + j
    {
      ScriptAt(a, b, i, j);
      if i > 0 && j > 0 && a[i - 1] == b[j - 1] {
        ReversedSnoc(out, Script(a, b, i - 1, j - 1), Edit(Keep, a[i - 1]));
        out := out + [Edit(Keep, a[i - 1])];
        i := i - 1;
        j := j - 1;
      } else if j > 0 && (i == 0 || dp[i, j - 1] >= dp[i - 1, j]) {
        ReversedSnoc(out, Script(a, b, i, j - 1), Edit(Add, b[j - 1]));
        out := out + [Edit(Add, b[j - 1])];
        j := j - 1;
      } else {
        ReversedSnoc(out, Script(a, b, i - 1, j), Edit(Del, a[i - 1]));
        out := out + [Edit(Del, a[i - 1])];
        i := i - 1;
      }
    }
    ScriptAt(a, b, 0, 0);
    ReversedEmpty<Edit<T>>();
  }

  lemma ReversedEmpty<T>()
    ensures Reversed<T>([]) == []
  {
  }

  lemma ReversedSnoc<T>(out: seq<T>, s: seq<T>, x: T)
    ensures out + Reversed(s + [x]) == out + [x] + Reversed(s)
  {
    assert (s + [x])[..|s|] == s;
  }

  lemma ReversedTwice<T>(s: seq<T>)
    ensures Reversed(Reversed(s)) == s
  {
  }

  method ReverseInPlace<T>(a: array<T>)
    modifies a
    ensures a[..] == Reversed(old(a[..]))
  {
    var l, r := 0, a.Length - 1;
    while l < r
      invariant 0 <= l <= a.Length && r == a.Length - 1 - l && l <= r + 2
      invariant forall k :: 0 <= k < l ==> a[k] == old(a[a.Length - 1 - k]) && a[a.Length - 1 - k] == old(a[k])
      invariant forall k :: l <= k <= r ==> a[k] == old(a[k])
    {
      a[l], a[r] := a[r], a[l];
      l, r := l + 1, r - 1;
    }
    ghost var was := old(a[..]);
    forall k | 0 <= k < a.Length ensures a[k] == Reversed(was)[k] {
    }
  }

  /** The server's diff. */
  method LcsDiff<T(==)>(a: seq<T>, b: seq<T>) returns (edits: seq<Edit<T>>)
    ensures edits == Diff(a, b)
  {
    var dp := FillTable(a, b);
    var list := Backtrack(a, b, dp);
    var out := new Edit<T>[|list|](i requires 0 <= i < |list| => list[i]);
    assert out[..] == list;
    ReverseInPlace(out);
    ReversedTwice(Diff(a, b));
    return out[..];
  }

  /** The admin page's diff: the same edits, whatever the lines. */
  method LcsDiffByMax<T(==)>(a: seq<T>, b: seq<T>) returns (edits: seq<Edit<T>>)
    ensures edits == Diff(a, b)
  {
    var dp := FillTableByMax(a, b);
    var out := Backtrack(a, b, dp);
    ReversedTwice(Diff(a, b));
    return Reversed(out);
  }

  // ---------------------------------------------------------------- a patch from old to new

  /** The script goes from the first `i` old lines to the first `j` new ones. */
  predicate Spells<T(==)>(s: seq<Edit<T>>, a: seq<T>, b: seq<T>, i: nat, j: nat)
    requires i <= |a| && j <= |b|
  {
    Old(s) == a[..i] && New(s) == b[..j]
  }

  lemma SpellsMore<T>(s: seq<Edit<T>>, kind: Kind, a: seq<T>, b: seq<T>, i: nat, j: nat)
    requires i <= |a| && j <= |b|
    requires kind != Add ==> i > 0
    requires kind != Del ==> j > 0
    requires kind == Keep ==> a[i - 1] == b[j - 1]
    requires Spells(s, a, b, if kind == Add then i else i - 1, if kind == Del then j else j - 1)
    ensures Spells(s + [Edit(kind, if kind == Add then b[j - 1] else a[i - 1])], a, b, i, j)
  {
    SnocFacts(s, Edit(kind, if kind == Add then b[j - 1] else a[i - 1]));
    PrefixSnoc(a, i);
    PrefixSnoc(b, j);
  }

  lemma {:induction false} ScriptSpells<T>(a: seq<T>, b: seq<T>, i: nat, j: nat)
    requires i <= |a| && j <= |b|
    ensures Spells(Script(a, b, i, j), a, b, i, j)
    decreases i + j
  {
    hide Lcs, Script, Spells;
    ScriptAt(a, b, i, j);
    if i == 0 && j == 0 {
      SpellsNothing(a, b);
    } else if i > 0 && j > 0 && a[i - 1] == b[j - 1] {
      ScriptSpells(a, b, i - 1, j - 1);
      SpellsMore(Script(a, b, i - 1, j - 1), Keep, a, b, i, j);
    } else if j > 0 && (i == 0 || Lcs(a, b, i, j - 1) >= Lcs(a, b, i - 1, j)) {
      ScriptSpells(a, b, i, j - 1);
      SpellsMore(Script(a, b, i, j - 1), Add, a, b, i, j);
    } else {
      ScriptSpells(a, b, i - 1, j);
      SpellsMore(Script(a, b, i - 1, j), Del, a, b, i, j);
    }
  }

  lemma SpellsNothing<T>(a: seq<T>, b: seq<T>)
    ensures Spells<T>([], a, b, 0, 0)
  {
  }

  lemma KeptSnoc<T>(s: seq<Edit<T>>, e: Edit<T>)
    ensures |Kept(s + [e])| == |Kept(s)| + if e.kind == Keep then 1 else 0
  {
    SnocFacts(s, e);
  }

  lemma {:induction false} ScriptKeeps<T>(a: seq<T>, b: seq<T>, i: nat, j: nat)
    requires i <= |a| && j <= |b|
    ensures |Kept(Script(a, b, i, j))| == Lcs(a, b, i, j)
    decreases i + j
  {
    hide Lcs, Script, Kept, Old, New;
    ScriptAt(a, b, i, j);
    LcsAt(a, b, i, j);
    if i == 0 && j == 0 {
      EmptyFacts<T>();
    } else if i > 0 && j > 0 && a[i - 1] == b[j - 1] {
      ScriptKeeps(a, b, i - 1, j - 1);
      KeptSnoc(Script(a, b, i - 1, j - 1), Edit(Keep, a[i - 1]));
    } else if j > 0 && (i == 0 || Lcs(a, b, i, j - 1) >= Lcs(a, b, i - 1, j)) {
      ScriptKeeps(a, b, i, j - 1);
      KeptSnoc(Script(a, b, i, j - 1), Edit(Add, b[j - 1]));
      LcsAt(a, b, i, j - 1);
    } else {
      ScriptKeeps(a, b, i - 1, j);
      KeptSnoc(Script(a, b, i - 1, j), Edit(Del, a[i - 1]));
      LcsAt(a, b, i - 1, j);
    }
  }

  /** Kept and removed lines spell the old text, kept and added lines the new one. */
  lemma DiffIsPatch<T>(a: seq<T>, b: seq<T>)
    ensures Old(Diff(a, b)) == a && New(Diff(a, b)) == b
  {
    ScriptSpells(a, b, |a|, |b|);
    assert a[..|a|] == a && b[..|b|] == b;
  }

  // ---------------------------------------------------------------- optimality

  lemma {:induction false} SubsequenceShorter<T>(c: seq<T>, k: nat, s: seq<T>, i: nat)
    requires 0 < k <= |c| && i <= |s| && Subsequence(c, k, s, i)
    ensures Subsequence(c, k - 1, s, i)
    decreases i
  {
    if Subsequence(c, k, s, i - 1) {
      SubsequenceShorter(c, k, s, i - 1);
    }
  }

  lemma {:induction false} NoLongerCommonSubsequence<T>(a: seq<T>, b: seq<T>, i: nat, j: nat, c: seq<T>, k: nat)
    requires i <= |a| && j <= |b| && k <= |c|
    requires Subsequence(c, k, a, i) && Subsequence(c, k, b, j)
    ensures k <= Lcs(a, b, i, j)
    decreases i + j
  {
    if k > 0 {
      if a[i - 1] == b[j - 1] {
        if Subsequence(c, k, a, i - 1) {
          SubsequenceShorter(c, k, a, i - 1);
        }
        if Subsequence(c, k, b, j - 1) {
          SubsequenceShorter(c, k, b, j - 1);
        }
        NoLongerCommonSubsequence(a, b, i - 1, j - 1, c, k - 1);
      } else if Subsequence(c, k, a, i - 1) {
        NoLongerCommonSubsequence(a, b, i - 1, j, c, k);
      } else {
        NoLongerCommonSubsequence(a, b, i, j - 1, c, k);
      }
    }
  }

  /** Subsequences depend on the prefixes only. */
  lemma {:induction false} SubsequenceOfPrefix<T>(c: seq<T>, c': seq<T>, k: nat, s: seq<T>, s': seq<T>, i: nat)
    requires k <= |c| && k <= |c'| && i <= |s| && i <= |s'|
    requires Subsequence(c, k, s, i) && c[..k] == c'[..k] && s[..i] == s'[..i]
    ensures Subsequence(c', k, s', i)
    decreases i
  {
    if k > 0 {
      assert c[k - 1] == c[..k][k - 1] && s[i - 1] == s[..i][i - 1];
      assert s[..i - 1] == s[..i][..i - 1] && s'[..i - 1] == s'[..i][..i - 1];
      if Subsequence(c, k, s, i - 1) {
        SubsequenceOfPrefix(c, c', k, s, s', i - 1);
      } else {
        assert c[..k - 1] == c[..k][..k - 1] && c'[..k - 1] == c'[..k][..k - 1];
        SubsequenceOfPrefix(c, c', k - 1, s, s', i - 1);
      }
    }
  }

  lemma SubsequenceSnoc<T>(c: seq<T>, s: seq<T>, x: T)
    requires Subsequence(c, |c|, s, |s|)
    ensures Subsequence(c, |c|, s + [x], |s| + 1)
    ensures Subsequence(c + [x], |c| + 1, s + [x], |s| + 1)
  {
    SubsequenceOfPrefix(c, c, |c|, s, s + [x], |s|);
    SubsequenceOfPrefix(c, c + [x], |c|, s, s + [x], |s|);
  }

  /** The kept lines of any script are common to the two texts that it goes through, and its
      additions and removals are the lines that are not kept. */
  lemma {:induction false} KeptIsCommon<T>(s: seq<Edit<T>>)
    ensures CommonSubsequence(Kept(s), Old(s), New(s))
    ensures Changes(s) + 2 * |Kept(s)| == |Old(s)| + |New(s)|
  {
    if s != [] {
      var init, e := s[..|s| - 1], s[|s| - 1];
      KeptIsCommon(init);
      assert s == init + [e];
      SnocFacts(init, e);
      SubsequenceSnoc(Kept(init), Old(init), e.text);
      SubsequenceSnoc(Kept(init), New(init), e.text);
    }
  }

  /** The kept lines are a longest common subsequence. */
  lemma KeptIsLongest<T>(a: seq<T>, b: seq<T>)
    ensures CommonSubsequence(Kept(Diff(a, b)), a, b)
    ensures |Kept(Diff(a, b))| == Lcs(a, b, |a|, |b|)
    ensures forall c | CommonSubsequence(c, a, b) :: |c| <= |Kept(Diff(a, b))|
  {
    DiffIsPatch(a, b);
    KeptIsCommon(Diff(a, b));
    ScriptKeeps(a, b, |a|, |b|);
    forall c | CommonSubsequence(c, a, b) ensures |c| <= |Kept(Diff(a, b))| {
      NoLongerCommonSubsequence(a, b, |a|, |b|, c, |c|);
    }
  }

  /** No script from the old text to the new one has fewer additions and removals. */
  lemma NoShorterScript<T>(a: seq<T>, b: seq<T>, s: seq<Edit<T>>)
    requires Old(s) == a && New(s) == b
    ensures Changes(Diff(a, b)) <= Changes(s)
  {
    DiffIsPatch(a, b);
    KeptIsCommon(Diff(a, b));
    KeptIsCommon(s);
    KeptIsLongest(a, b);
  }

  function AllKept<T>(a: seq<T>): seq<Edit<T>> {
    seq(|a|, i requires 0 <= i < |a| => Edit(Keep, a[i]))
  }

  lemma {:induction false} AllKeptSpells<T>(a: seq<T>)
    ensures Old(AllKept(a)) == a && New(AllKept(a)) == a && Changes(AllKept(a)) == 0
  {
    if a != [] {
      var init := a[..|a| - 1];
      AllKeptSpells(init);
      assert AllKept(a)[..|a| - 1] == AllKept(init);
    }
  }

  lemma {:induction false} NoChangesAllKept<T>(s: seq<Edit<T>>)
    requires Changes(s) == 0
    ensures Old(s) == New(s)
  {
    if s != [] {
      NoChangesAllKept(s[..|s| - 1]);
    }
  }

  /** The diff shows no change exactly when the two texts have the same lines. */
  lemma UnchangedExactly<T>(a: seq<T>, b: seq<T>)
    ensures Changes(Diff(a, b)) == 0 <==> a == b
  {
    DiffIsPatch(a, b);
    if a == b {
      AllKeptSpells(a);
      NoShorterScript(a, b, AllKept(a));
    } else if Changes(Diff(a, b)) == 0 {
      NoChangesAllKept(Diff(a, b));
    }
  }

  // ---------------------------------------------------------------- the order of changes

  /** Neighbouring entries of the table differ by at most one, and never the wrong way. */
  lemma {:induction false} LcsNeighbours<T>(a: seq<T>, b: seq<T>, i: nat, j: nat)
    requires i <= |a| && j <= |b|
    ensures i > 0 ==> Lcs(a, b, i - 1, j) <= Lcs(a, b, i, j) <= Lcs(a, b, i - 1, j) + 1
    ensures j > 0 ==> Lcs(a, b, i, j - 1) <= Lcs(a, b, i, j) <= Lcs(a, b, i, j - 1) + 1
    decreases i + j
  {
    hide Lcs;
    LcsAt(a, b, i, j);
    if i > 0 {
      LcsNeighbours(a, b, i - 1, j);
      LcsAt(a, b, i - 1, j);
    }
    if j > 0 {
      LcsNeighbours(a, b, i, j - 1);
      LcsAt(a, b, i, j - 1);
    }
  }

  predicate RemovalsFirst<T>(s: seq<Edit<T>>) {
    forall k :: 0 < k < |s| && s[k].kind == Del ==> s[k - 1].kind != Add
  }

  lemma RemovalsFirstSnoc<T>(s: seq<Edit<T>>, e: Edit<T>)
    requires RemovalsFirst(s) && (e.kind == Del && s != [] ==> s[|s| - 1].kind != Add)
    ensures RemovalsFirst(s + [e])
  {
  }

  /** A removal is only chosen where the table says that no addition could come before it. */
  lemma NoAddBefore<T>(a: seq<T>, b: seq<T>, i: nat, j: nat)
    requires 0 < i <= |a| && j <= |b| && !(j > 0 && a[i - 1] == b[j - 1])
    requires j > 0 ==> Lcs(a, b, i, j - 1) < Lcs(a, b, i - 1, j)
    ensures var s := Script(a, b, i - 1, j); s != [] ==> s[|s| - 1].kind != Add
  {
    hide Lcs;
    ScriptAt(a, b, i - 1, j);
    LcsAt(a, b, i - 1, j);
    LcsAt(a, b, 0, j);
    if j > 0 && i > 1 {
      LcsNeighbours(a, b, i, j - 1);
    }
    hide Script;
  }

  lemma {:induction false} ScriptOrder<T>(a: seq<T>, b: seq<T>, i: nat, j: nat)
    requires i <= |a| && j <= |b|
    ensures RemovalsFirst(Script(a, b, i, j))
    decreases i + j
  {
    hide Lcs, Script, RemovalsFirst;
    ScriptAt(a, b, i, j);
    if i == 0 && j == 0 {
      assert RemovalsFirst<T>([]) by {
        NothingOutOfOrder<T>();
      }
    } else if i > 0 && j > 0 && a[i - 1] == b[j - 1] {
      ScriptOrder(a, b, i - 1, j - 1);
      RemovalsFirstSnoc(Script(a, b, i - 1, j - 1), Edit(Keep, a[i - 1]));
    } else if j > 0 && (i == 0 || Lcs(a, b, i, j - 1) >= Lcs(a, b, i - 1, j)) {
      ScriptOrder(a, b, i, j - 1);
      RemovalsFirstSnoc(Script(a, b, i, j - 1), Edit(Add, b[j - 1]));
    } else {
      ScriptOrder(a, b, i - 1, j);
      NoAddBefore(a, b, i, j);
      RemovalsFirstSnoc(Script(a, b, i - 1, j), Edit(Del, a[i - 1]));
    }
  }

  lemma NothingOutOfOrder<T>()
    ensures RemovalsFirst<T>([])
  {
  }

  /** In every change the removed lines come before the added ones. */
  lemma ChangesInOrder<T>(a: seq<T>, b: seq<T>)
    ensures RemovalsFirst(Diff(a, b))
  {
    ScriptOrder(a, b, |a|, |b|);
  }
}
