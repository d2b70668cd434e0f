/** Splitting text at a separator, and reading decimal digits. */
module Texts {
  /** One more part than there are separators. */
  function SplitOn(s: string, sep: char): (parts: seq<string>)
    ensures |parts| >= 1
  {
    if s == "" then [""]
    else
      var parts := SplitOn(s[1..], sep);
      if s[0] == sep then [""] + parts else [[s[0]] + parts[0]] + parts[1..]
  }

  function NonEmpty(ls: seq<string>): seq<string> {
    if ls == [] then [] else (if ls[0] == "" then [] else [ls[0]]) + NonEmpty(ls[1..])
  }

  lemma {:induction false} NonEmptyOnly(ls: seq<string>)
    ensures forall i :: 0 <= i < |NonEmpty(ls)| ==> NonEmpty(ls)[i] != ""
  {
    if ls != [] {
      NonEmptyOnly(ls[1..]);
    }
  }

  lemma {:induction false} NonEmptyAppend(a: seq<string>, b: seq<string>)
    ensures NonEmpty(a + b) == NonEmpty(a) + NonEmpty(b)
  {
    if a == [] {
      assert a + b == b;
    } else {
      assert (a + b)[0] == a[0] && (a + b)[1..] == a[1..] + b;
      NonEmptyAppend(a[1..], b);
    }
  }

  lemma {:induction false} SplitAppend(a: string, b: string, sep: char)
    ensures SplitOn(a + [sep] + b, sep) == SplitOn(a, sep) + SplitOn(b, sep)
  {
    var s := a + [sep] + b;
    if a == "" {
      assert s == [sep] + b && s[1..] == b;
    } else {
      assert s[1..] == a[1..] + [sep] + b && s[0] == a[0];
      SplitAppend(a[1..], b, sep);
    }
  }

  lemma {:induction false} SplitNone(l: string, sep: char)
    requires sep !in l
    ensures SplitOn(l, sep) == [l]
  {
    if l != "" {
      SplitNone(l[1..], sep);
      assert l == [l[0]] + l[1..];
    }
  }

  lemma {:induction false} SplitCons(l: string, rest: string, sep: char)
    requires sep !in l
    ensures SplitOn(l + [sep] + rest, sep) == [l] + SplitOn(rest, sep)
  {
    var s := l + [sep] + rest;
    if l == "" {
      assert s == [sep] + rest && s[1..] == rest;
    } else {
      assert s[1..] == l[1..] + [sep] + rest && s[0] == l[0];
      SplitCons(l[1..], rest, sep);
      assert l == [l[0]] + l[1..];
    }
  }

  // ---------------------------------------------------------------- digits

  predicate IsDigit(c: char) {
    '0' <= c <= '9'
  }

  predicate AllDigits(s: string) {
    forall i :: 0 <= i < |s| ==> IsDigit(s[i])
  }

  function DigitValue(c: char): nat
    requires IsDigit(c)
  {
    (c as int) - ('0' as int)
  }

  function Value(s: string): nat
    requires AllDigits(s)
  {
    if s == "" then 0 else Value(s[..|s| - 1]) * 10 + DigitValue(s[|s| - 1])
  }

  predicate IsDigits(s: string) {
    s != "" && AllDigits(s)
  }

  function Decimal(n: nat): (s: string)
    ensures IsDigits(s)
  {
    var last := [(n % 10 + '0' as int) as char];
    if n < 10 then last else Decimal(n / 10) + last
  }

  lemma {:induction false} DecimalValue(n: nat)
    ensures Value(Decimal(n)) == n
  {
    var s := Decimal(n);
    if n < 10 {
      assert s[..|s| - 1] == "";
    } else {
      DecimalValue(n / 10);
      assert s[..|s| - 1] == Decimal(n / 10);
    }
  }
}
