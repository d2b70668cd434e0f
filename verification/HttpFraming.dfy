/** Framing of an empty response: a head without a length gets "Content-Length: 0". Heads are byte
    strings, one character a byte, in ASCII as far as letters and blanks go. */
module HttpFraming {
  import opened Texts

  const CRLF := "\r\n"
  const BLANK := "\r\n\r\n"
  const ADDED := "\r\nContent-Length: 0"

  // ---------------------------------------------------------------- byte strings

  predicate OccursAt(s: string, pattern: string, i: int) {
    0 <= i && i + |pattern| <= |s| && s[i..i + |pattern|] == pattern
  }

  predicate Contains(s: string, pattern: string) {
    exists i :: 0 <= i <= |s| && OccursAt(s, pattern, i)
  }

  /** The first occurrence from `from` on, or -1. */
  function IndexFrom(s: string, pattern: string, from: nat): (r: int)
    requires from <= |s|
    ensures r == -1 ==> forall i :: from <= i ==> !OccursAt(s, pattern, i)
    ensures r != -1 ==> from <= r && r + |pattern| <= |s| && OccursAt(s, pattern, r)
    ensures r != -1 ==> forall i :: from <= i < r ==> !OccursAt(s, pattern, i)
    decreases |s| - from
  {
    if OccursAt(s, pattern, from) then from
    else if from == |s| then -1
    else IndexFrom(s, pattern, from + 1)
  }

  function Index(s: string, pattern: string): int {
    IndexFrom(s, pattern, 0)
  }

  function LowerChar(c: char): char {
    if 'A' <= c <= 'Z' then (c as int + 32) as char else c
  }

  function Lower(s: string): (r: string)
    ensures |r| == |s|
  {
    seq(|s|, i requires 0 <= i < |s| => LowerChar(s[i]))
  }

  predicate IsBlank(c: char) {
    c == ' ' || c == '\t' || c == '\n' || c == '\r' || c == (11 as char) || c == (12 as char)
  }

  function SkipBlanks(s: string): string {
    if s != "" && IsBlank(s[0]) then SkipBlanks(s[1..]) else s
  }

  function DropBlanks(s: string): string {
    if s != "" && IsBlank(s[|s| - 1]) then DropBlanks(s[..|s| - 1]) else s
  }

  function TrimSpace(s: string): string {
    DropBlanks(SkipBlanks(s))
  }

  function UpToBlank(s: string): string {
    if s == "" || IsBlank(s[0]) then "" else [s[0]] + UpToBlank(s[1..])
  }

  const MAX_INT: int := 0x7fff_ffff_ffff_ffff

  /** Go's Atoi with its error ignored: 0 for what is no number, the nearest integer when out of range. */
  function Atoi(s: string): int {
    var negative := s != "" && s[0] == '-';
    var digits := if s != "" && (s[0] == '-' || s[0] == '+') then s[1..] else s;
    if digits == "" || !AllDigits(digits) then 0
    else if negative then if Value(digits) > MAX_INT + 1 then -MAX_INT - 1 else 0 - Value(digits)
    else if Value(digits) > MAX_INT then MAX_INT else Value(digits)
  }

  // ---------------------------------------------------------------- the program

  /** Everything before the first line break. */
  function FirstLine(s: string): string {
    var i := Index(s, CRLF);
    if i < 0 then s else s[..i]
  }

  function StatusCodeFromResponseHead(head: string): int {
    var parts := SplitOn(TrimSpace(FirstLine(head)), ' ');
    if |parts| < 2 then 0 else Atoi(parts[1])
  }

  /** The first word of the status line is HTTP/1.0, in any case. */
  predicate IsHttp10(block: string) {
    var token := UpToBlank(SkipBlanks(FirstLine(block)));
    token != "" && Lower(token) == "http/1.0"
  }

  predicate MustHaveNoBody(code: int) {
    code == 0 || code == 100 || code == 101 || code == 102 || code == 103 || code == 204 || code == 304
  }

  method InsertContentLength0IfUnframedEmpty(head: string) returns (r: string)
    ensures r == Inserted(head)
  {
    hide Contains, Lower, IsHttp10, StatusCodeFromResponseHead, OccursAt, With;
    var idx := Index(head, BLANK);
    if idx < 0 {
      return head;
    }
    var block := head[..idx];
    var lower := Lower(block);
    if Contains(lower, "\r\ncontent-length:") {
      return head;
    }
    if Contains(lower, "\r\ntransfer-encoding:") {
      return head;
    }
    if IsHttp10(block) {
      return head;
    }
    var code := StatusCodeFromResponseHead(head);
    if code == 0 {
      return head;
    }
    if code == 100 || code == 101 || code == 102 || code == 103 {
      return head;
    }
    if code == 204 || code == 304 {
      return head;
    }
    WithIs(head, idx);
    r := head[..idx];
    r := r + CRLF;
    r := r + "Content-Length: 0";
    r := r + head[idx..];
  }

  /** A head whose header block says nothing of its length and whose response has a body by default. */
  predicate Unframed(head: string) {
    var idx := Index(head, BLANK);
    && idx >= 0
    && !Contains(Lower(head[..idx]), "\r\ncontent-length:")
    && !Contains(Lower(head[..idx]), "\r\ntransfer-encoding:")
    && !IsHttp10(head[..idx])
    && !MustHaveNoBody(StatusCodeFromResponseHead(head))
  }

  function Inserted(head: string): string {
    var idx := Index(head, BLANK);
    if Unframed(head) then With(head, idx) else head
  }

  // ---------------------------------------------------------------- the blank line and what follows

  lemma FirstIs(s: string, pattern: string, i: nat)
    requires OccursAt(s, pattern, i) && forall j :: 0 <= j < i ==> !OccursAt(s, pattern, j)
    ensures Index(s, pattern) == i
  {
  }

  predicate BlankAt(s: string, i: int) {
    0 <= i && i + 4 <= |s| && s[i] == '\r' && s[i + 1] == '\n' && s[i + 2] == '\r' && s[i + 3] == '\n'
  }

  lemma OccursBlank(s: string, i: int)
    ensures OccursAt(s, BLANK, i) <==> BlankAt(s, i)
  {
    if 0 <= i && i + 4 <= |s| {
      var t := s[i..i + 4];
      assert t == [s[i], s[i + 1], s[i + 2], s[i + 3]];
      assert BLANK == ['\r', '\n', '\r', '\n'];
    }
  }

  function With(head: string, idx: nat): string
    requires idx <= |head|
  {
    head[..idx] + ADDED + head[idx..]
  }

  lemma WithIs(head: string, idx: nat)
    requires idx <= |head|
    ensures head[..idx] + CRLF + "Content-Length: 0" + head[idx..] == With(head, idx)
  {
    assert CRLF + "Content-Length: 0" == ADDED;
    assert head[..idx] + CRLF + "Content-Length: 0" == head[..idx] + (CRLF + "Content-Length: 0");
  }

  lemma WithChars(head: string, idx: nat, k: nat)
    requires idx <= |head| && k < |head| + 19
    ensures |With(head, idx)| == |head| + 19
    ensures k < idx ==> With(head, idx)[k] == head[k]
    ensures k == idx ==> With(head, idx)[k] == '\r'
    ensures k == idx + 1 ==> With(head, idx)[k] == '\n'
    ensures idx + 2 <= k < idx + 19 ==> With(head, idx)[k] != '\r' && With(head, idx)[k] != '\n'
    ensures idx + 19 <= k ==> With(head, idx)[k] == head[k - 19]
  {
    assert ADDED[0] == '\r' && ADDED[1] == '\n';
    assert forall j :: 2 <= j < 19 ==> ADDED[j] != '\r' && ADDED[j] != '\n';
    if idx <= k < idx + 19 {
      assert With(head, idx)[k] == ADDED[k - idx];
    }
  }

  /** A blank line that starts before the old one's new place was there before. */
  lemma NoEarlierBlank(head: string, idx: nat, j: nat)
    requires BlankAt(head, idx) && j < idx + 19
    ensures BlankAt(With(head, idx), j) ==> j < idx && BlankAt(head, j)
  {
    hide With;
    WithChars(head, idx, j);
    WithChars(head, idx, j + 1);
    WithChars(head, idx, j + 2);
    WithChars(head, idx, j + 3);
  }

  /** The new line is put before the first blank line, which moves by its nineteen bytes and no more;
      what follows is as it was. */
  lemma BlankLineMoves(head: string, idx: nat)
    requires Index(head, BLANK) == idx
    ensures idx <= |head| && Index(With(head, idx), BLANK) == idx + 19
    ensures With(head, idx)[..idx] == head[..idx] && With(head, idx)[idx + 19..] == head[idx..]
  {
    var r := With(head, idx);
    OccursBlank(head, idx);
    forall j | 0 <= j < idx + 19 ensures !OccursAt(r, BLANK, j) {
      NoEarlierBlank(head, idx, j);
      OccursBlank(r, j);
      OccursBlank(head, j);
    }
    OccursBlank(r, idx + 19);
    BlankStays(head, idx);
    FirstIs(r, BLANK, idx + 19);
  }

  lemma BlankStays(head: string, idx: nat)
    requires BlankAt(head, idx)
    ensures BlankAt(With(head, idx), idx + 19)
  {
    hide With;
    WithChars(head, idx, idx + 19);
    WithChars(head, idx, idx + 20);
    WithChars(head, idx, idx + 21);
    WithChars(head, idx, idx + 22);
  }

  // ---------------------------------------------------------------- the lines of a head

  predicate BreakAt(s: string, i: int) {
    0 <= i && i + 2 <= |s| && s[i] == '\r' && s[i + 1] == '\n'
  }

  lemma OccursBreak(s: string, i: int)
    ensures OccursAt(s, CRLF, i) <==> BreakAt(s, i)
  {
    if 0 <= i && i + 2 <= |s| {
      assert s[i..i + 2] == [s[i], s[i + 1]];
      assert CRLF == ['\r', '\n'];
    }
  }

  function Lines(s: string): (ls: seq<string>)
    ensures |ls| >= 1
    decreases |s|
  {
    var i := Index(s, CRLF);
    if i < 0 then [s] else [s[..i]] + Lines(s[i + 2..])
  }

  /** More text after a line break does not move the first one. */
  lemma FirstBreakStays(s: string, last: string)
    ensures Index(s + CRLF + last, CRLF) == if Index(s, CRLF) < 0 then |s| else Index(s, CRLF)
  {
    hide OccursAt;
    var all := s + CRLF + last;
    var i := if Index(s, CRLF) < 0 then |s| else Index(s, CRLF);
    forall j | 0 <= j < i ensures !OccursAt(all, CRLF, j) {
      OccursBreak(all, j);
      OccursBreak(s, j);
    }
    OccursBreak(s, i);
    OccursBreak(all, i);
    FirstIs(all, CRLF, i);
  }

  lemma LinesAre(s: string)
    ensures Lines(s) == if Index(s, CRLF) < 0 then [s] else [s[..Index(s, CRLF)]] + Lines(s[Index(s, CRLF) + 2..])
  {
  }

  lemma {:induction false} LinesMore(s: string, last: string)
    requires forall j :: 0 <= j < |last| ==> last[j] != '\r'
    ensures Lines(s + CRLF + last) == Lines(s) + [last]
    decreases |s|
  {
    hide Lines, OccursAt;
    var all := s + CRLF + last;
    var i := Index(s, CRLF);
    FirstBreakStays(s, last);
    LinesAre(s);
    LinesAre(all);
    if i < 0 {
      assert all[..|s|] == s && all[|s| + 2..] == last;
      NoBreakOneLine(last);
    } else {
      assert all[..i] == s[..i] && all[i + 2..] == s[i + 2..] + CRLF + last;
      LinesMore(s[i + 2..], last);
    }
  }

  lemma NoBreakOneLine(s: string)
    requires forall j :: 0 <= j < |s| ==> s[j] != '\r'
    ensures Lines(s) == [s]
  {
    var i := Index(s, CRLF);
    if i >= 0 {
      OccursBreak(s, i);
    }
  }

  /** The lines after the first that start with a name. */
  predicate HasHeader(s: string, name: string) {
    exists k :: 1 <= k < |Lines(s)| && name <= Lines(s)[k]
  }

  lemma ShorterThanLine(s: string, name: string, i: nat)
    requires BreakAt(s, i) && name <= s && forall j :: 0 <= j < |name| ==> name[j] != '\r'
    ensures |name| <= i
  {
  }

  lemma {:induction false} StartsFirstLine(s: string, name: string)
    requires forall j :: 0 <= j < |name| ==> name[j] != '\r'
    ensures name <= Lines(s)[0] <==> name <= s
  {
    var i := Index(s, CRLF);
    if i >= 0 {
      OccursBreak(s, i);
      if name <= s {
        ShorterThanLine(s, name, i);
        assert name <= s[..i];
      }
      if name <= s[..i] {
        assert s == s[..i] + s[i..];
      }
    }
  }

  lemma OccursAfterBreak(s: string, name: string, i: nat)
    ensures OccursAt(s, CRLF + name, i) <==> BreakAt(s, i) && name <= s[i + 2..]
  {
    if i + 2 + |name| <= |s| {
      assert s[i..i + 2 + |name|] == s[i..i + 2] + s[i + 2..i + 2 + |name|];
      OccursBreak(s, i);
      assert s[i + 2..][..|name|] == s[i + 2..i + 2 + |name|];
      if s[i..i + 2 + |name|] == CRLF + name {
        assert s[i..i + 2 + |name|][..2] == CRLF && s[i..i + 2 + |name|][2..] == name;
      }
    }
  }

  /** Searching the block for a line break and a name finds exactly the header lines of that name. */
  lemma {:induction false} ContainsIsHeader(s: string, name: string)
    requires name != "" && forall j :: 0 <= j < |name| ==> name[j] != '\r' && name[j] != '\n'
    ensures Contains(s, CRLF + name) <==> HasHeader(s, name)
    decreases |s|
  {
    var i := Index(s, CRLF);
    if i < 0 {
      if Contains(s, CRLF + name) {
        var j :| 0 <= j <= |s| && OccursAt(s, CRLF + name, j);
        OccursAfterBreak(s, name, j);
        OccursBreak(s, j);
      }
    } else {
      var rest := s[i + 2..];
      OccursBreak(s, i);
      ContainsIsHeader(rest, name);
      StartsFirstLine(rest, name);
      OccursAfterBreak(s, name, i);
      SplitsAtBreak(s, name, i);
      assert HasHeader(s, name) <==> name <= Lines(rest)[0] || HasHeader(rest, name) by {
        HeaderOfRest(s, name, i);
      }
    }
  }

  lemma HeaderOfRest(s: string, name: string, i: nat)
    requires Index(s, CRLF) == i && i + 2 <= |s|
    ensures HasHeader(s, name) <==> name <= Lines(s[i + 2..])[0] || HasHeader(s[i + 2..], name)
  {
    var ls, rs := Lines(s), Lines(s[i + 2..]);
    assert ls == [s[..i]] + rs;
    if HasHeader(s, name) {
      var k :| 1 <= k < |ls| && name <= ls[k];
      assert name <= rs[k - 1];
    }
    if name <= rs[0] {
      assert name <= ls[1];
    }
    if HasHeader(s[i + 2..], name) {
      var k :| 1 <= k < |rs| && name <= rs[k];
      assert name <= ls[k + 1];
    }
  }

  lemma SplitsAtBreak(s: string, name: string, i: nat)
    requires Index(s, CRLF) == i && BreakAt(s, i)
    ensures Contains(s, CRLF + name) <==> name <= s[i + 2..] || Contains(s[i + 2..], CRLF + name)
  {
    var rest := s[i + 2..];
    OccursAfterBreak(s, name, i);
    if Contains(s, CRLF + name) {
      var j :| 0 <= j <= |s| && OccursAt(s, CRLF + name, j);
      OccursAfterBreak(s, name, j);
      OccursBreak(s, j);
      if j > i {
        assert j != i + 1;
        OccursAfterBreak(rest, name, j - i - 2);
        assert rest[j - i - 2 + 2..] == s[j + 2..];
      }
    }
    if Contains(rest, CRLF + name) {
      var j :| 0 <= j <= |rest| && OccursAt(rest, CRLF + name, j);
      OccursAfterBreak(rest, name, j);
      OccursAfterBreak(s, name, j + i + 2);
      assert rest[j + 2..] == s[j + i + 2 + 2..];
    }
  }

  // ---------------------------------------------------------------- the results

  lemma ChangedIs(head: string)
    requires Inserted(head) != head
    ensures 0 <= Index(head, BLANK) <= |head| && Inserted(head) == With(head, Index(head, BLANK))
  {
  }

  /** Neither header names the length: their lines, in any case, are missing. */
  predicate NoLength(block: string) {
    !HasHeader(Lower(block), "content-length:") && !HasHeader(Lower(block), "transfer-encoding:")
  }

  lemma NoLengthIs(block: string)
    ensures NoLength(block)
       <==> !Contains(Lower(block), "\r\ncontent-length:") && !Contains(Lower(block), "\r\ntransfer-encoding:")
  {
    assert CRLF + "content-length:" == "\r\ncontent-length:";
    assert CRLF + "transfer-encoding:" == "\r\ntransfer-encoding:";
    ContainsIsHeader(Lower(block), "content-length:");
    ContainsIsHeader(Lower(block), "transfer-encoding:");
  }

  /** When the head is changed: it has a blank line, no header line before that names the length, it
      is not HTTP/1.0, and its status code allows a body. */
  lemma ChangedExactly(head: string)
    ensures Inserted(head) != head <==>
      && Index(head, BLANK) >= 0 && NoLength(head[..Index(head, BLANK)])
      && !IsHttp10(head[..Index(head, BLANK)]) && !MustHaveNoBody(StatusCodeFromResponseHead(head))
  {
    hide HasHeader, Contains, IsHttp10, StatusCodeFromResponseHead, MustHaveNoBody, With;
    var idx := Index(head, BLANK);
    if idx >= 0 {
      NoLengthIs(head[..idx]);
      WithLonger(head, idx);
    }
  }

  lemma WithLonger(head: string, idx: nat)
    requires idx <= |head|
    ensures With(head, idx) != head
  {
    assert |With(head, idx)| == |head| + 19;
  }

  // ---------------------------------------------------------------- the status line

  /** The same character but for the case of a letter. */
  predicate SameLetter(c: char, d: char) {
    c == d || ('A' <= c <= 'Z' && d as int == c as int + 32) || ('A' <= d <= 'Z' && c as int == d as int + 32)
  }

  predicate SameButCase(s: string, t: string) {
    |s| == |t| && forall i :: 0 <= i < |s| ==> SameLetter(s[i], t[i])
  }

  /** Two texts have the same lower-case form exactly when they are the same but for the case of letters. */
  lemma LowerExactly(s: string, t: string)
    ensures Lower(s) == Lower(t) <==> SameButCase(s, t)
  {
    if Lower(s) == Lower(t) {
      forall i | 0 <= i < |s| ensures SameLetter(s[i], t[i]) {
        assert Lower(s)[i] == Lower(t)[i];
      }
    }
  }

  /** Atoi reads back what is written in decimal. */
  lemma AtoiDecimal(n: nat)
    requires n <= MAX_INT
    ensures Atoi(Decimal(n)) == n
  {
    DecimalValue(n);
    assert IsDigit(Decimal(n)[0]);
  }

  predicate NoBlanks(s: string) {
    forall i :: 0 <= i < |s| ==> !IsBlank(s[i])
  }

  /** Trailing blanks are dropped from what follows, and from nothing before it that ends in no blank. */
  lemma {:induction false} DropAfter(a: string, b: string)
    requires a != "" && !IsBlank(a[|a| - 1])
    ensures exists y :: y <= b && DropBlanks(a + b) == a + y
  {
    if b == "" || !IsBlank(b[|b| - 1]) {
      assert b == "" ==> a + b == a;
      assert (a + b)[|a + b| - 1] == if b == "" then a[|a| - 1] else b[|b| - 1];
      assert DropBlanks(a + b) == a + b;
    } else {
      var init := b[..|b| - 1];
      assert (a + b)[..|a + b| - 1] == a + init && (a + b)[|a + b| - 1] == b[|b| - 1];
      DropAfter(a, init);
      var y :| y <= init && DropBlanks(a + init) == a + y;
      assert y <= b;
    }
  }

  lemma {:induction false} WordFirst(word: string, rest: string)
    requires word != "" && NoBlanks(word) && rest != "" && IsBlank(rest[0])
    ensures UpToBlank(word + rest) == word && SkipBlanks(word + rest) == word + rest
  {
    var s := word + rest;
    assert s[0] == word[0];
    if |word| == 1 {
      assert s[1..] == rest && UpToBlank(rest) == "";
    } else {
      assert s[1..] == word[1..] + rest;
      WordFirst(word[1..], rest);
    }
    assert word == [word[0]] + word[1..];
  }

  /** Version, code and reason of a status line. */
  function StatusLine(version: string, code: nat, reason: string): string {
    version + " " + Decimal(code) + " " + reason
  }

  lemma DigitsNoBlanks(code: nat)
    ensures NoBlanks(Decimal(code)) && ' ' !in Decimal(code) && '\r' !in Decimal(code)
  {
    assert forall i :: 0 <= i < |Decimal(code)| ==> IsDigit(Decimal(code)[i]);
  }

  lemma CodeIsSecond(version: string, code: nat, y: string)
    requires version != "" && NoBlanks(version) && (y == "" || y[0] == ' ')
    ensures var parts := SplitOn(version + " " + Decimal(code) + y, ' '); |parts| >= 2 && parts[1] == Decimal(code)
  {
    hide SplitOn, Decimal;
    var d := Decimal(code);
    DigitsNoBlanks(code);
    assert ' ' !in version;
    SplitAppend(version, d + y, ' ');
    SplitNone(version, ' ');
    assert version + " " + d + y == version + [' '] + (d + y);
    if y == "" {
      assert d + y == d;
      SplitNone(d, ' ');
    } else {
      assert d + y == d + [' '] + y[1..];
      SplitCons(d, y[1..], ' ');
    }
  }

  /** The code read from a status line is the one written there. */
  lemma TrimmedCode(version: string, code: nat, reason: string)
    requires version != "" && NoBlanks(version)
    ensures var parts := SplitOn(TrimSpace(StatusLine(version, code, reason)), ' ');
      |parts| >= 2 && parts[1] == Decimal(code)
  {
    hide SplitOn, DropBlanks, Decimal;
    var base, tail := version + " " + Decimal(code), " " + reason;
    var line := StatusLine(version, code, reason);
    assert line == base + tail && line == version + (" " + Decimal(code) + " " + reason);
    WordFirst(version, " " + Decimal(code) + " " + reason);
    DigitsNoBlanks(code);
    assert base[|base| - 1] == Decimal(code)[|Decimal(code)| - 1];
    DropAfter(base, tail);
    var y :| y <= tail && DropBlanks(base + tail) == base + y;
    assert y != "" ==> y[0] == tail[0] == ' ';
    CodeIsSecond(version, code, y);
  }

  lemma FirstLineIs(line: string, rest: string)
    requires '\r' !in line
    ensures FirstLine(line + CRLF + rest) == line && FirstLine(line) == line
  {
    var all := line + CRLF + rest;
    forall j | 0 <= j < |line| ensures !OccursAt(all, CRLF, j) && !OccursAt(line, CRLF, j) {
      OccursBreak(all, j);
      OccursBreak(line, j);
      assert all[j] == line[j];
    }
    OccursBreak(all, |line|);
    OccursBreak(line, |line|);
    FirstIs(all, CRLF, |line|);
    if Index(line, CRLF) >= 0 {
      OccursBreak(line, Index(line, CRLF));
    }
  }

  /** Reading the status code of a head that begins with a status line gives its code. */
  lemma StatusIs(version: string, code: nat, reason: string, rest: string)
    requires version != "" && NoBlanks(version) && '\r' !in reason && code <= MAX_INT
    ensures StatusCodeFromResponseHead(StatusLine(version, code, reason) + CRLF + rest) == code
  {
    hide SplitOn, TrimSpace, Decimal, FirstLine, Atoi;
    LineHasNoBreak(version, code, reason);
    FirstLineIs(StatusLine(version, code, reason), rest);
    TrimmedCode(version, code, reason);
    AtoiDecimal(code);
  }

  lemma LineHasNoBreak(version: string, code: nat, reason: string)
    requires NoBlanks(version) && '\r' !in reason
    ensures '\r' !in StatusLine(version, code, reason)
  {
    DigitsNoBlanks(code);
    assert forall i :: 0 <= i < |version| ==> version[i] != '\r';
  }

  /** The header block of such a head begins with the whole status line. */
  lemma BlockBegins(line: string, rest: string)
    requires '\r' !in line && Index(line + CRLF + rest, BLANK) >= 0
    ensures FirstLine((line + CRLF + rest)[..Index(line + CRLF + rest, BLANK)]) == line
  {
    var head := line + CRLF + rest;
    var idx := Index(head, BLANK);
    OccursBlank(head, idx);
    assert (forall j :: 0 <= j < |line| ==> head[j] == line[j]) && head[|line| + 1] == '\n';
    var block := head[..idx];
    if idx == |line| {
      assert block == line;
      FirstLineIs(line, "");
    } else {
      assert block == line + CRLF + block[|line| + 2..];
      FirstLineIs(line, block[|line| + 2..]);
    }
  }

  lemma Http10Is(block: string, version: string, code: nat, reason: string)
    requires version != "" && NoBlanks(version) && FirstLine(block) == StatusLine(version, code, reason)
    ensures IsHttp10(block) <==> SameButCase(version, "HTTP/1.0")
  {
    hide FirstLine, Decimal, Lower;
    var more := " " + Decimal(code) + " " + reason;
    assert StatusLine(version, code, reason) == version + more;
    WordFirst(version, more);
    LowerExactly(version, "HTTP/1.0");
    LowerHttp10();
  }

  lemma LowerHttp10()
    ensures Lower("HTTP/1.0") == "http/1.0"
  {
  }

  /** For any version, code and reason: the head is changed exactly when it ends, no header line before
      that names the length, the version is not HTTP/1.0, and the code is none of the seven that
      exclude a body or are no code. */
  lemma StatusLineChangedExactly(version: string, code: nat, reason: string, rest: string)
    requires version != "" && NoBlanks(version) && '\r' !in reason && code <= MAX_INT
    ensures var head := StatusLine(version, code, reason) + CRLF + rest;
      Inserted(head) != head <==>
        && Index(head, BLANK) >= 0 && NoLength(head[..Index(head, BLANK)])
        && !SameButCase(version, "HTTP/1.0")
        && code != 0 && !(100 <= code <= 103) && code != 204 && code != 304
  {
    hide IsHttp10, StatusCodeFromResponseHead, NoLength, Inserted, StatusLine, SameButCase;
    var line := StatusLine(version, code, reason);
    var head := line + CRLF + rest;
    ChangedExactly(head);
    StatusIs(version, code, reason, rest);
    if Index(head, BLANK) >= 0 {
      LineHasNoBreak(version, code, reason);
      BlockBegins(line, rest);
      Http10Is(head[..Index(head, BLANK)], version, code, reason);
    }
  }

  /** A changed head has one line more in its header block, the last, and is otherwise as it was. */
  lemma OneLineMore(head: string)
    requires Inserted(head) != head
    ensures var idx, r := Index(head, BLANK), Inserted(head);
      && 0 <= idx && idx + 19 <= |r| && Index(r, BLANK) == idx + 19
      && Lines(r[..idx + 19]) == Lines(head[..idx]) + ["Content-Length: 0"]
      && r[idx + 19..] == head[idx..]
  {
    hide Lines, Unframed, Inserted, OccursAt;
    var idx := Index(head, BLANK);
    ChangedIs(head);
    BlankLineMoves(head, idx);
    var r := With(head, idx);
    assert ADDED == CRLF + "Content-Length: 0";
    assert r[..idx + 19] == head[..idx] + CRLF + "Content-Length: 0";
    LinesMore(head[..idx], "Content-Length: 0");
  }

  lemma AddedIsLength()
    ensures Lower(ADDED) == "\r\ncontent-length: 0" && "\r\ncontent-length:" <= Lower(ADDED)
  {
    var want := "\r\ncontent-length: 0";
    assert |ADDED| == |want| == 19;
    assert forall i :: 0 <= i < 19 ==> LowerChar(ADDED[i]) == want[i];
    assert Lower(ADDED) == want;
    assert want[..17] == "\r\ncontent-length:";
  }

  lemma NowFramed(head: string, idx: nat)
    requires Index(head, BLANK) == idx
    ensures !Unframed(With(head, idx))
  {
    hide IsHttp10, StatusCodeFromResponseHead, MustHaveNoBody;
    var r := With(head, idx);
    BlankLineMoves(head, idx);
    FindsAdded(r, idx);
  }

  lemma FindsAdded(r: string, idx: nat)
    requires idx + 19 <= |r| && r[idx..idx + 19] == ADDED
    ensures Contains(Lower(r[..idx + 19]), "\r\ncontent-length:")
  {
    AddedIsLength();
    var lower := Lower(r[..idx + 19]);
    assert lower[idx..] == Lower(ADDED);
    assert lower[idx..idx + 17] == lower[idx..][..17];
    assert OccursAt(lower, "\r\ncontent-length:", idx);
  }

  /** Doing it again changes nothing, whatever the bytes. */
  lemma Idempotent(head: string)
    ensures Inserted(Inserted(head)) == Inserted(head)
  {
    hide Unframed;
    if Inserted(head) != head {
      ChangedIs(head);
      NowFramed(head, Index(head, BLANK));
    }
  }

  /** The status line, and so the status code, is untouched. */
  lemma SameStatus(head: string)
    ensures FirstLine(Inserted(head)) == FirstLine(head)
    ensures StatusCodeFromResponseHead(Inserted(head)) == StatusCodeFromResponseHead(head)
  {
    hide Inserted, OccursAt;
    if Inserted(head) != head {
      ChangedIs(head);
      var idx := Index(head, BLANK);
      OccursBlank(head, idx);
      FirstBreakOf(head, idx);
    }
  }

  lemma FirstBreakOf(head: string, idx: nat)
    requires BlankAt(head, idx)
    ensures 0 <= Index(head, CRLF) <= idx && Index(With(head, idx), CRLF) == Index(head, CRLF)
    ensures With(head, idx)[..Index(head, CRLF)] == head[..Index(head, CRLF)]
  {
    hide OccursAt;
    OccursBreak(head, idx);
    var i := Index(head, CRLF);
    var r := With(head, idx);
    OccursBreak(head, i);
    forall j | 0 <= j < i ensures !OccursAt(r, CRLF, j) {
      OccursBreak(r, j);
      OccursBreak(head, j);
      WithChars(head, idx, j);
      WithChars(head, idx, j + 1);
    }
    OccursBreak(r, i);
    WithChars(head, idx, i);
    WithChars(head, idx, i + 1);
    FirstIs(r, CRLF, i);
  }
}
