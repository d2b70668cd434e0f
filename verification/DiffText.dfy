/** The diff as text: printed by the server or by the admin page, parsed by the admin page. */
module DiffText {
  import opened LineDiff
  import opened Texts

  // ---------------------------------------------------------------- lines

  function Split(s: string): (parts: seq<string>)
    ensures |parts| >= 1
  {
    SplitOn(s, '\n')
  }

  function Join(parts: seq<string>): string {
    if parts == [] then "" else if |parts| == 1 then parts[0] else parts[0] + "\n" + Join(parts[1..])
  }

  /** The server's split: an empty last part, or an empty text, is no line. */
  function SplitLines(s: string): seq<string> {
    if s == "" then []
    else
      var parts := Split(s);
      if parts[|parts| - 1] == "" then parts[..|parts| - 1] else parts
  }

  predicate OneLine(l: string) {
    '\n' !in l
  }

  predicate AllOneLine(ls: seq<string>) {
    forall i :: 0 <= i < |ls| ==> OneLine(ls[i])
  }

  // ---------------------------------------------------------------- printing

  function Marker(k: Kind): char {
    match k
    case Keep => ' '
    case Add => '+'
    case Del => '-'
  }

  function Shown(e: Edit<string>): string {
    [Marker(e.kind)] + e.text
  }

  function ShownAll(es: seq<Edit<string>>): (r: seq<string>)
    ensures |r| == |es|
  {
    if es == [] then [] else [Shown(es[0])] + ShownAll(es[1..])
  }

  /** Every line ended by a newline. */
  function Terminated(ls: seq<string>): string {
    if ls == [] then "" else ls[0] + "\n" + Terminated(ls[1..])
  }

  method UnifiedDiff(oldText: string, newText: string) returns (text: string)
    ensures text == Terminated(ShownAll(Diff(SplitLines(oldText), SplitLines(newText))))
  {
    hide *;
    var edits := LcsDiff(SplitLines(oldText), SplitLines(newText));
    text := "";
    assert edits[0..] == edits;
    for i := 0 to |edits|
      invariant text + Terminated(ShownAll(edits[i..])) == Terminated(ShownAll(edits))
    {
      var e := edits[i];
      ghost var was := text;
      match e.kind {
        case Keep => text := text + " " + e.text;
        case Del => text := text + "-" + e.text;
        case Add => text := text + "+" + e.text;
      }
      text := text + "\n";
      TerminatedStep(edits, i, was);
    }
    TerminatedNothing();
    assert edits[|edits|..] == [];
  }

  lemma TerminatedStep(es: seq<Edit<string>>, i: nat, before: string)
    requires i < |es|
    ensures before + Terminated(ShownAll(es[i..]))
         == before + (match es[i].kind case Keep => " " case Del => "-" case Add => "+") + es[i].text + "\n"
            + Terminated(ShownAll(es[i + 1..]))
  {
    assert es[i..][1..] == es[i + 1..];
    var ls := ShownAll(es[i..]);
    assert ls[1..] == ShownAll(es[i + 1..]);
  }

  lemma TerminatedNothing()
    ensures Terminated(ShownAll([])) == ""
  {
  }

  /** The admin page's own diff, of its full split and without a last newline. */
  method ComputeDiff(oldText: string, newText: string) returns (text: string)
    ensures text == Join(ShownAll(Diff(Split(oldText), Split(newText))))
  {
    var edits := LcsDiffByMax(Split(oldText), Split(newText));
    return Join(ShownAll(edits));
  }

  // ---------------------------------------------------------------- parsing

  function ParseLine(l: string): Edit<string>
    requires l != ""
  {
    if l[0] == '+' then Edit(Add, l[1..])
    else if l[0] == '-' then Edit(Del, l[1..])
    else if l[0] == ' ' then Edit(Keep, l[1..])
    else Edit(Keep, l)
  }

  function ParseAll(ls: seq<string>): seq<Edit<string>>
    requires forall i :: 0 <= i < |ls| ==> ls[i] != ""
  {
    if ls == [] then [] else [ParseLine(ls[0])] + ParseAll(ls[1..])
  }

  function ParseDiff(raw: string): seq<Edit<string>> {
    if raw == "" then []
    else
      NonEmptyOnly(Split(raw));
      ParseAll(NonEmpty(Split(raw)))
  }

  // ---------------------------------------------------------------- splitting and joining

  lemma {:induction false} SplitJoined(ls: seq<string>)
    requires AllOneLine(ls) && ls != []
    ensures Split(Join(ls)) == ls
  {
    assert OneLine(ls[0]);
    if |ls| == 1 {
      SplitNone(ls[0], '\n');
    } else {
      SplitJoined(ls[1..]);
      SplitCons(ls[0], Join(ls[1..]), '\n');
    }
  }

  lemma {:induction false} SplitTerminated(ls: seq<string>)
    requires AllOneLine(ls)
    ensures Split(Terminated(ls)) == ls + [""]
  {
    if ls != [] {
      assert OneLine(ls[0]);
      SplitTerminated(ls[1..]);
      SplitCons(ls[0], Terminated(ls[1..]), '\n');
    }
  }

  lemma {:induction false} SplitGivesLines(s: string)
    ensures AllOneLine(Split(s)) && Join(Split(s)) == s
  {
    if s != "" {
      var parts := Split(s[1..]);
      SplitGivesLines(s[1..]);
      assert OneLine(parts[0]);
      if s[0] == '\n' {
        assert ([""] + parts)[1..] == parts;
      } else {
        var more := [[s[0]] + parts[0]] + parts[1..];
        assert more[1..] == parts[1..];
        assert s == [s[0]] + s[1..];
      }
    }
  }

  lemma SplitLinesGivesLines(s: string)
    ensures AllOneLine(SplitLines(s))
  {
    SplitGivesLines(s);
  }

  // ---------------------------------------------------------------- the parser undoes both printers

  lemma ParseOneShown(e: Edit<string>)
    ensures Shown(e) != "" && ParseLine(Shown(e)) == e
  {
    assert Shown(e)[0] == Marker(e.kind);
    assert Shown(e)[1..] == e.text;
  }

  lemma {:induction false} ParseShown(es: seq<Edit<string>>)
    ensures NonEmpty(ShownAll(es)) == NonEmpty(ShownAll(es) + [""]) == ShownAll(es)
    ensures forall i :: 0 <= i < |es| ==> ShownAll(es)[i] != ""
    ensures ParseAll(ShownAll(es)) == es
  {
    if es != [] {
      ParseShown(es[1..]);
      var ls := ShownAll(es);
      assert ls[1..] == ShownAll(es[1..]);
      assert (ls + [""])[1..] == ShownAll(es[1..]) + [""];
      ParseOneShown(es[0]);
    } else {
      assert NonEmpty([""]) == [] + NonEmpty([]);
      assert ShownAll(es) + [""] == [""];
    }
  }

  lemma {:induction false} ShownOneLine(es: seq<Edit<string>>)
    requires AllOneLine(Old(es)) && AllOneLine(New(es))
    ensures AllOneLine(ShownAll(es))
  {
    forall i | 0 <= i < |es| ensures OneLine(es[i].text) {
      TextIsOldOrNew(es, i);
    }
    ShownAllAt(es);
  }

  lemma {:induction false} ShownAllAt(es: seq<Edit<string>>)
    ensures forall i :: 0 <= i < |es| ==> ShownAll(es)[i] == Shown(es[i])
  {
    if es != [] {
      ShownAllAt(es[1..]);
    }
  }

  lemma {:induction false} TextIsOldOrNew(es: seq<Edit<string>>, i: nat)
    requires i < |es|
    ensures es[i].text in Old(es) || es[i].text in New(es)
  {
    var init, e := es[..|es| - 1], es[|es| - 1];
    assert es == init + [e];
    SnocFacts(init, e);
    if i < |init| {
      TextIsOldOrNew(init, i);
    } else if e.kind == Add {
      assert New(es)[|New(init)|] == e.text;
    } else {
      assert Old(es)[|Old(init)|] == e.text;
    }
  }

  lemma DiffOneLine(a: seq<string>, b: seq<string>)
    requires AllOneLine(a) && AllOneLine(b)
    ensures AllOneLine(ShownAll(Diff(a, b)))
  {
    DiffIsPatch(a, b);
    ShownOneLine(Diff(a, b));
  }

  /** What a line of any text is read as: an edit of the kind its first character marks, or a kept line. */
  predicate ReadAs(l: string, e: Edit<string>) {
    if l != "" && l[0] == '+' then l == "+" + e.text && e.kind == Add
    else if l != "" && l[0] == '-' then l == "-" + e.text && e.kind == Del
    else if l != "" && l[0] == ' ' then l == " " + e.text && e.kind == Keep
    else e == Edit(Keep, l)
  }

  lemma {:induction false} ParseAllReads(ls: seq<string>)
    requires forall i :: 0 <= i < |ls| ==> ls[i] != ""
    ensures |ParseAll(ls)| == |ls| && forall i :: 0 <= i < |ls| ==> ReadAs(ls[i], ParseAll(ls)[i])
  {
    if ls != [] {
      ParseAllReads(ls[1..]);
      assert ls[0] == [ls[0][0]] + ls[0][1..];
    }
  }

  /** Every text, printed by anyone, is read line by line, empty lines left out. */
  lemma ParsesAnyText(raw: string)
    ensures var ls, es := NonEmpty(Split(raw)), ParseDiff(raw);
      |es| == |ls| && forall i :: 0 <= i < |ls| ==> ReadAs(ls[i], es[i])
  {
    NonEmptyOnly(Split(raw));
    ParseAllReads(NonEmpty(Split(raw)));
    assert raw == "" ==> Split(raw) == [""] && NonEmpty([""]) == [] + NonEmpty([]);
  }

  /** Parsing the server's text gives the edit list of the split lines, from which both line lists
      can be rebuilt. */
  lemma ParsesServerDiff(oldText: string, newText: string)
    ensures var a, b := SplitLines(oldText), SplitLines(newText);
      var es := ParseDiff(Terminated(ShownAll(Diff(a, b))));
      es == Diff(a, b) && Old(es) == a && New(es) == b
  {
    var a, b := SplitLines(oldText), SplitLines(newText);
    SplitLinesGivesLines(oldText);
    SplitLinesGivesLines(newText);
    DiffOneLine(a, b);
    var ls := ShownAll(Diff(a, b));
    SplitTerminated(ls);
    ParseShown(Diff(a, b));
    DiffIsPatch(a, b);
    if Terminated(ls) == "" {
      assert ls == [];
    }
  }

  /** Parsing the page's own text gives its edit list, from which both texts can be rebuilt in full. */
  lemma ParsesPageDiff(oldText: string, newText: string)
    ensures var es := ParseDiff(Join(ShownAll(Diff(Split(oldText), Split(newText)))));
      es == Diff(Split(oldText), Split(newText)) && Join(Old(es)) == oldText && Join(New(es)) == newText
  {
    var a, b := Split(oldText), Split(newText);
    SplitGivesLines(oldText);
    SplitGivesLines(newText);
    DiffOneLine(a, b);
    DiffIsPatch(a, b);
    var ls := ShownAll(Diff(a, b));
    ParseShown(Diff(a, b));
    assert Diff(a, b) != [] by {
      assert Old(Diff(a, b)) != [];
    }
    SplitJoined(ls);
    assert Join(ls) != "" by {
      assert ls[0] != "";
    }
  }

  // ---------------------------------------------------------------- how the two printers differ

  /** No final newline, and not empty: the server's split is then the page's. */
  predicate Unterminated(s: string) {
    s != "" && s[|s| - 1] != '\n'
  }

  lemma {:induction false} SplitLast(s: string)
    ensures Split(s)[|Split(s)| - 1] == "" <==> !Unterminated(s)
  {
    if |s| > 1 {
      SplitLast(s[1..]);
      var parts := Split(s[1..]);
      if s[0] != '\n' && |parts| == 1 {
        assert s[1..][|s[1..]| - 1] == s[|s| - 1];
        SplitGivesLines(s[1..]);
        assert parts[0] == s[1..];
      }
    } else if |s| == 1 {
      assert s[1..] == "" && Split(s[1..]) == [""];
    }
  }

  /** The lines of a text give it back, with a final newline if it had none. */
  lemma LinesGiveText(s: string)
    ensures Terminated(SplitLines(s)) == if Unterminated(s) then s + "\n" else s
  {
    if s != "" {
      var parts := Split(s);
      SplitLast(s);
      SplitGivesLines(s);
      TerminatedIsJoined(parts);
      if !Unterminated(s) {
        var init := parts[..|parts| - 1];
        assert parts == init + [""];
        assert init != [] by {
          assert Join([""]) == "";
        }
        JoinSnocEmpty(init);
        TerminatedIsJoined(init);
      }
    }
  }

  lemma {:induction false} TerminatedIsJoined(ls: seq<string>)
    requires ls != []
    ensures Terminated(ls) == Join(ls) + "\n"
  {
    if |ls| > 1 {
      TerminatedIsJoined(ls[1..]);
    } else {
      assert Terminated(ls[1..]) == "";
    }
  }

  lemma {:induction false} JoinSnocEmpty(ls: seq<string>)
    requires ls != []
    ensures Join(ls + [""]) == Join(ls) + "\n"
  {
    if |ls| > 1 {
      JoinSnocEmpty(ls[1..]);
      assert (ls + [""])[1..] == ls[1..] + [""];
    } else {
      assert (ls + [""])[1..] == [""];
    }
  }

  /** The page shows the same edits for both printers exactly when neither text is empty or ends
      with a newline; otherwise the page's own diff has an empty line more. */
  lemma SameFormatExactly(oldText: string, newText: string)
    ensures ParseDiff(Terminated(ShownAll(Diff(SplitLines(oldText), SplitLines(newText)))))
         == ParseDiff(Join(ShownAll(Diff(Split(oldText), Split(newText)))))
       <==> Unterminated(oldText) && Unterminated(newText)
  {
    ParsesServerDiff(oldText, newText);
    ParsesPageDiff(oldText, newText);
    DiffIsPatch(Split(oldText), Split(newText));
    SplitLinesSameExactly(oldText);
    SplitLinesSameExactly(newText);
  }

  lemma SplitLinesSameExactly(s: string)
    ensures SplitLines(s) == Split(s) <==> Unterminated(s)
  {
    SplitLast(s);
    if s != "" && !Unterminated(s) {
      assert |SplitLines(s)| == |Split(s)| - 1;
    }
  }
}
