/** Requests and responses streamed as a head frame and body frames, the last one flagged FIN. */
module SemanticStream {
  import opened Words
  import opened Scripts

  datatype Kind = Head | Body

  datatype Frame = Frame(kind: Kind, data: Payload, fin: bool)

  const CHUNK := 32 * 1024

  // ---------------------------------------------------------------- a message as frames

  function BodyFrames(parts: seq<Payload>): (fs: seq<Frame>)
    ensures |fs| == |parts|
  {
    if parts == [] then [] else [Frame(Body, parts[0], |parts| == 1)] + BodyFrames(parts[1..])
  }

  /** The head, then the parts of the body; the last of these frames carries FIN. */
  function Framed(head: Payload, parts: seq<Payload>): seq<Frame> {
    [Frame(Head, head, parts == [])] + BodyFrames(parts)
  }

  function Carried(fs: seq<Frame>): Payload {
    if fs == [] then [] else fs[0].data + Carried(fs[1..])
  }

  lemma {:induction false} BodyFramesAt(parts: seq<Payload>, i: nat)
    requires i < |parts|
    ensures BodyFrames(parts)[i] == Frame(Body, parts[i], i == |parts| - 1)
  {
    if i > 0 {
      BodyFramesAt(parts[1..], i - 1);
    }
  }

  lemma {:induction false} BodyFramesCarry(parts: seq<Payload>)
    ensures Carried(BodyFrames(parts)) == Concat(parts)
  {
    if parts != [] {
      BodyFramesCarry(parts[1..]);
      assert BodyFrames(parts)[1..] == BodyFrames(parts[1..]);
    }
  }

  /** FIN is on exactly one frame, the last, and the frames carry the head and the body in order. */
  lemma FinOnLastOnly(head: Payload, parts: seq<Payload>)
    ensures var fs := Framed(head, parts);
      && (forall i :: 0 <= i < |fs| ==> (fs[i].fin <==> i == |fs| - 1))
      && Carried(fs) == head + Concat(parts)
  {
    var fs := Framed(head, parts);
    forall i | 1 <= i < |fs| ensures fs[i].fin <==> i == |fs| - 1 {
      BodyFramesAt(parts, i - 1);
    }
    BodyFramesCarry(parts);
    assert fs[1..] == BodyFrames(parts);
  }

  /** Body frames sent so far, more to come: none has FIN. */
  function Pending(parts: seq<Payload>): (fs: seq<Frame>)
    ensures |fs| == |parts|
  {
    seq(|parts|, i requires 0 <= i < |parts| => Frame(Body, parts[i], false))
  }

  // ---------------------------------------------------------------- sending a request

  datatype ReadError = NoError | Eof | Broken

  /** What a read is willing to give, and the error that comes with it. */
  datatype Read = Read(size: nat, err: ReadError)

  /** The answer of one read: some bytes, and an error possibly with them. The end is reported only
      where it is; without instructions a read gives all it is asked for. */
  function Given(rest: Payload, script: seq<Read>, max: nat): (r: (Payload, ReadError))
    ensures r.0 <= rest && |r.0| <= max
    ensures r.1 == Eof ==> r.0 == rest
    ensures max > 0 && script == [] && r.1 == NoError ==> r.0 != []
  {
    var size := if script == [] then max else script[0].size;
    var n := if size < max then size else max;
    var chunk := if n < |rest| then rest[..n] else rest;
    var err := if script == [] then NoError else script[0].err;
    (chunk, if err == Broken then Broken else if rest == [] || (err == Eof && chunk == rest) then Eof else NoError)
  }

  /** What a connection has still to give before its end, and how its reads turn out. */
  class BodyReader {
    var rest: Payload
    var script: seq<Read>

    constructor (rest: Payload, script: seq<Read>)
      ensures this.rest == rest && this.script == script
    {
      this.rest, this.script := rest, script;
    }

    method Read(max: nat) returns (chunk: Payload, err: ReadError)
      modifies this
      ensures (chunk, err) == Given(old(rest), old(script), max)
      ensures rest == old(rest)[|chunk|..] && script == Tail(old(script))
    {
      var given := Given(rest, script, max);
      chunk, err := given.0, given.1;
      rest := rest[|chunk|..];
      script := Tail(script);
    }
  }

  /** The frames that went out on the monitor channel, and how the sends to come turn out. */
  class Wire {
    var sent: seq<Frame>
    var sends: seq<bool>

    constructor (sends: seq<bool>)
      ensures sent == [] && this.sends == sends
    {
      sent, this.sends := [], sends;
    }

    method Send(f: Frame) returns (ok: bool)
      modifies this
      ensures ok == Succeeds(old(sends))
      ensures sends == Tail(old(sends)) && sent == if ok then old(sent) + [f] else old(sent)
    {
      ok := Succeeds(sends);
      sends := Tail(sends);
      if ok {
        sent := sent + [f];
      }
    }
  }

  datatype Outcome = Complete | SendFailed | ShortBody | ReadFailed

  /** One turn of the body loop: what was read, with which error, and whether a frame of it went out. */
  datatype Turn = Turn(chunk: Payload, err: ReadError, sent: bool)

  /** The connections at a moment of the loop. */
  datatype Flight = Flight(rest: Payload, script: seq<Read>, sent: seq<Frame>, sends: seq<bool>)

  datatype Report = Report(outcome: Outcome, flight: Flight, turns: seq<Turn>)

  function Min(a: nat, b: nat): nat {
    if a < b then a else b
  }

  /** One turn with `todo` bytes to go. */
  function TurnOf(x: Flight, todo: nat): (Turn, Flight) {
    var (chunk, err) := Given(x.rest, x.script, Min(todo, CHUNK));
    var sent := chunk != [] && Succeeds(x.sends);
    (Turn(chunk, err, sent),
     Flight(x.rest[|chunk|..], Tail(x.script),
            if sent then x.sent + [Frame(Body, chunk, |chunk| == todo)] else x.sent,
            if chunk == [] then x.sends else Tail(x.sends)))
  }

  /** The body loop with `todo` bytes to go. */
  function Loop(x: Flight, todo: nat): Report
    decreases |x.script| + todo
  {
    if todo == 0 then Report(Complete, x, [])
    else
      var (t, y) := TurnOf(x, todo);
      if t.chunk != [] && !t.sent then Report(SendFailed, y, [t])
      else if t.err == Eof then Report(if |t.chunk| < todo then ShortBody else Complete, y, [t])
      else if t.err == Broken then Report(ReadFailed, y, [t])
      else
        var r := Loop(y, todo - |t.chunk|);
        r.(turns := [t] + r.turns)
  }

  /** Sending a request: its head, then its body. */
  function Streamed(x: Flight, head: Payload, total: nat): Report {
    var y := x.(sends := Tail(x.sends));
    if !Succeeds(x.sends) then Report(SendFailed, y, [])
    else Loop(y.(sent := x.sent + [Frame(Head, head, total == 0)]), total)
  }

  function Look(reader: BodyReader, wire: Wire): Flight
    reads reader, wire
  {
    Flight(reader.rest, reader.script, wire.sent, wire.sends)
  }

  lemma LoopStep(x: Flight, todo: nat)
    requires todo > 0
    ensures var (t, y) := TurnOf(x, todo);
      Loop(x, todo) ==
        if t.chunk != [] && !t.sent then Report(SendFailed, y, [t])
        else if t.err == Eof then Report(if |t.chunk| < todo then ShortBody else Complete, y, [t])
        else if t.err == Broken then Report(ReadFailed, y, [t])
        else Loop(y, todo - |t.chunk|).(turns := [t] + Loop(y, todo - |t.chunk|).turns)
  {
    hide TurnOf, Given;
  }

  /** The body loop, after the head. */
  method SendBody(contentLength: nat, reader: BodyReader, wire: Wire) returns (outcome: Outcome)
    modifies reader, wire
    ensures outcome == Loop(old(Look(reader, wire)), contentLength).outcome
    ensures Look(reader, wire) == Loop(old(Look(reader, wire)), contentLength).flight
  {
    hide Loop, Given;
    ghost var x := Look(reader, wire);
    LoopDone(x);
    var written: nat := 0;
    while written < contentLength
      invariant written <= contentLength
      invariant Loop(Look(reader, wire), contentLength - written).outcome == Loop(x, contentLength).outcome
      invariant Loop(Look(reader, wire), contentLength - written).flight == Loop(x, contentLength).flight
      decreases |reader.script| + contentLength - written
    {
      LoopStep(Look(reader, wire), contentLength - written);
      GivesOrShrinks(Look(reader, wire), contentLength - written);
      var toRead := CHUNK;
      var rem := contentLength - written;
      if rem < toRead {
        toRead := rem;
      }
      var chunk, err := reader.Read(toRead);
      if |chunk| > 0 {
        written := written + |chunk|;
        var fin := written >= contentLength;
        var ok := wire.Send(Frame(Body, chunk, fin));
        if !ok {
          return SendFailed;
        }
      }
      if err != NoError {
        if err == Eof {
          if written < contentLength {
            return ShortBody;
          }
          LoopDone(Look(reader, wire));
          break;
        }
        return ReadFailed;
      }
    }
    LoopDone(Look(reader, wire));
    return Complete;
  }

  lemma LoopDone(x: Flight)
    ensures Loop(x, 0) == Report(Complete, x, [])
  {
  }

  lemma GivesOrShrinks(x: Flight, todo: nat)
    requires todo > 0
    ensures var (chunk, err) := Given(x.rest, x.script, Min(todo, CHUNK));
      |chunk| <= |x.rest| && |chunk| <= todo && (err == NoError && chunk == [] ==> |Tail(x.script)| < |x.script|)
  {
  }

  /** Sending a request computes `Streamed`, whatever the reads and the sends do. */
  method ProcessRequestStream(head: Payload, contentLength: nat, reader: BodyReader, wire: Wire)
    returns (outcome: Outcome)
    modifies reader, wire
    ensures outcome == Streamed(old(Look(reader, wire)), head, contentLength).outcome
    ensures Look(reader, wire) == Streamed(old(Look(reader, wire)), head, contentLength).flight
  {
    hide Loop;
    ghost var x := Look(reader, wire);
    var ok := wire.Send(Frame(Head, head, contentLength == 0));
    if !ok {
      return SendFailed;
    }
    LoopDone(Look(reader, wire));
    if contentLength > 0 {
      outcome := SendBody(contentLength, reader, wire);
      return;
    }
    return Complete;
  }

  // ---------------------------------------------------------------- the turns, told from the scripts

  /** The bytes read in these turns, and the sends attempted. */
  function ReadIn(turns: seq<Turn>): nat {
    if turns == [] then 0 else |turns[0].chunk| + ReadIn(turns[1..])
  }

  function SendsIn(turns: seq<Turn>): nat {
    if turns == [] then 0 else (if turns[0].chunk == [] then 0 else 1) + SendsIn(turns[1..])
  }

  /** Turn `i` is what the next read gives of the bytes not yet read, at most a chunk and at most what
      is missing, and what the next send makes of it. */
  predicate TurnFollows(x: Flight, todo: nat, turns: seq<Turn>, i: nat)
    requires i < |turns|
  {
    var t, before := turns[i], turns[..i];
    && ReadIn(before) < todo && ReadIn(before) <= |x.rest|
    && (t.chunk, t.err) == Given(x.rest[ReadIn(before)..], From(x.script, i), Min(todo - ReadIn(before), CHUNK))
    && t.sent == (t.chunk != [] && SucceedsAt(x.sends, SendsIn(before)))
  }

  predicate AllFollow(x: Flight, todo: nat, turns: seq<Turn>) {
    forall i :: 0 <= i < |turns| ==> TurnFollows(x, todo, turns, i)
  }

  predicate GoesOnAfter(t: Turn) {
    t.err == NoError && (t.chunk == [] || t.sent)
  }

  /** Where the last turn leaves the request. */
  predicate EndsAs(turns: seq<Turn>, todo: nat, outcome: Outcome) {
    if ReadIn(turns) == todo && (turns == [] || GoesOnAfter(turns[|turns| - 1])) then outcome == Complete
    else
      turns != [] && var t := turns[|turns| - 1];
      if t.chunk != [] && !t.sent then outcome == SendFailed
      else if t.err == Eof then outcome == if ReadIn(turns) < todo then ShortBody else Complete
      else t.err == Broken && outcome == ReadFailed
  }

  lemma ReadFirst(t: Turn, more: seq<Turn>)
    ensures ReadIn([t] + more) == |t.chunk| + ReadIn(more) && ReadIn([]) == 0
    ensures SendsIn([t] + more) == (if t.chunk == [] then 0 else 1) + SendsIn(more) && SendsIn([]) == 0
  {
    assert ([t] + more)[1..] == more;
  }

  lemma OneTurnFollows(x: Flight, todo: nat, t: Turn)
    requires todo > 0 && t == TurnOf(x, todo).0
    ensures TurnFollows(x, todo, [t], 0)
  {
    FromNext(x.script, 0);
    assert [t][..0] == [] && x.rest[0..] == x.rest;
    hide Given;
  }

  /** The turns of the loop after its first, seen from before it. */
  lemma LaterTurnFollows(x: Flight, todo: nat, t: Turn, y: Flight, more: seq<Turn>, i: nat)
    requires todo > 0 && (t, y) == TurnOf(x, todo) && |t.chunk| <= todo && i < |more|
    requires TurnFollows(y, todo - |t.chunk|, more, i)
    ensures TurnFollows(x, todo, [t] + more, i + 1)
  {
    hide TurnOf, Given, ReadIn, SendsIn, From, SucceedsAt;
    TurnLeaves(x, todo);
    var before := more[..i];
    assert ([t] + more)[..i + 1] == [t] + before && ([t] + more)[i + 1] == more[i];
    ReadFirst(t, before);
    LaterRest(x.rest, |t.chunk|, ReadIn(before));
    FromNext(x.script, 0);
    FromFrom(x.script, 1, i);
    LaterSend(x.sends, SendsIn(before));
  }

  /** What a turn leaves of the body and the scripts. */
  lemma TurnLeaves(x: Flight, todo: nat)
    requires todo > 0
    ensures var (t, y) := TurnOf(x, todo);
      && |t.chunk| <= |x.rest| && y.rest == x.rest[|t.chunk|..] && y.script == Tail(x.script)
      && y.sends == if t.chunk == [] then x.sends else Tail(x.sends)
  {
    hide Given;
  }

  lemma LaterRest(rest: Payload, a: nat, b: nat)
    requires a <= |rest| && b <= |rest| - a
    ensures rest[a..][b..] == rest[a + b..]
  {
  }

  lemma LaterSend(sends: seq<bool>, i: nat)
    ensures SucceedsAt(Tail(sends), i) == SucceedsAt(sends, i + 1)
  {
  }

  /** The loop is told by the scripts of reads and sends alone: each turn follows them, it goes on only
      after a turn without error or failed send that leaves something missing, and its outcome is the
      last turn's. */
  lemma {:induction false} LoopExactly(x: Flight, todo: nat)
    ensures var r := Loop(x, todo);
      && AllFollow(x, todo, r.turns)
      && (forall i :: 0 <= i < |r.turns| - 1 ==> GoesOnAfter(r.turns[i]))
      && EndsAs(r.turns, todo, r.outcome)
    decreases |x.script| + todo
  {
    hide Loop, TurnFollows, TurnOf, Given;
    if todo == 0 {
      LoopDone(x);
    } else {
      var (t, y) := TurnOf(x, todo);
      LoopStep(x, todo);
      TurnFits(x, todo);
      OneTurnFollows(x, todo, t);
      ReadFirst(t, []);
      assert [t] + [] == [t];
      if GoesOnAfter(t) {
        LoopExactly(y, todo - |t.chunk|);
        TurnsFollow(x, todo, t, y, Loop(y, todo - |t.chunk|).turns);
      }
    }
  }

  lemma TurnsFollow(x: Flight, todo: nat, t: Turn, y: Flight, more: seq<Turn>)
    requires todo > 0 && (t, y) == TurnOf(x, todo) && |t.chunk| <= todo && GoesOnAfter(t)
    requires TurnFollows(x, todo, [t], 0)
    requires AllFollow(y, todo - |t.chunk|, more)
    requires forall i :: 0 <= i < |more| - 1 ==> GoesOnAfter(more[i])
    ensures AllFollow(x, todo, [t] + more)
    ensures forall i :: 0 <= i < |[t] + more| - 1 ==> GoesOnAfter(([t] + more)[i])
    ensures forall outcome :: EndsAs(more, todo - |t.chunk|, outcome) ==> EndsAs([t] + more, todo, outcome)
  {
    hide TurnFollows, TurnOf;
    ReadFirst(t, more);
    forall i | 0 <= i < |[t] + more| ensures TurnFollows(x, todo, [t] + more, i) {
      if i == 0 {
        FirstFollows(x, todo, t, more);
      } else {
        LaterTurnFollows(x, todo, t, y, more, i - 1);
      }
    }
  }

  lemma FirstFollows(x: Flight, todo: nat, t: Turn, more: seq<Turn>)
    requires TurnFollows(x, todo, [t], 0)
    ensures TurnFollows(x, todo, [t] + more, 0)
  {
    assert ([t] + more)[..0] == [t][..0];
  }

  predicate NothingBreaks(script: seq<Read>) {
    forall i :: 0 <= i < |script| ==> script[i].err != Broken
  }

  /** When no send fails and no read breaks, a request goes out whole exactly when its body is all there. */
  lemma {:induction false} CompletesExactly(x: Flight, todo: nat)
    requires (forall i :: 0 <= i < |x.sends| ==> x.sends[i]) && NothingBreaks(x.script)
    ensures Loop(x, todo).outcome == if todo <= |x.rest| then Complete else ShortBody
    decreases |x.script| + todo
  {
    hide Loop;
    if todo == 0 {
      LoopDone(x);
    } else {
      var (t, y) := TurnOf(x, todo);
      LoopStep(x, todo);
      TurnFits(x, todo);
      hide Given;
      if t.err == NoError {
        CompletesExactly(y, todo - |t.chunk|);
      }
    }
  }

  // ---------------------------------------------------------------- what has gone out

  /** The parts that went out, turn by turn. */
  function Parts(turns: seq<Turn>): seq<Payload> {
    if turns == [] then [] else (if turns[0].sent then [turns[0].chunk] else []) + Parts(turns[1..])
  }

  predicate Small(parts: seq<Payload>) {
    forall i :: 0 <= i < |parts| ==> 0 < |parts[i]| <= CHUNK
  }

  /** What the frames of a finished or broken-off loop are: the whole body with FIN on the last frame
      when every byte went out, otherwise what went out so far without any FIN. */
  predicate Out(x: Flight, todo: nat, r: Report) {
    var parts := Parts(r.turns);
    && Small(parts) && Concat(parts) <= x.rest && |Concat(parts)| <= todo
    && r.flight.sent == x.sent + (if |Concat(parts)| == todo then BodyFrames(parts) else Pending(parts))
    && (r.outcome == Complete ==> |Concat(parts)| == todo)
    && (r.outcome == ShortBody ==> |x.rest| < todo)
    && (r.outcome == SendFailed || r.outcome == ShortBody ==> |Concat(parts)| < todo)
  }

  lemma {:induction false} LoopOut(x: Flight, todo: nat)
    ensures Out(x, todo, Loop(x, todo))
    decreases |x.script| + todo
  {
    hide Loop, Out;
    if todo == 0 {
      LoopDone(x);
      NothingOut(x);
    } else {
      var (t, y) := TurnOf(x, todo);
      LoopStep(x, todo);
      GivesOrShrinks(x, todo);
      if (t.chunk != [] && !t.sent) || t.err != NoError {
        OneTurnOut(x, todo, t, y, Loop(x, todo));
      } else {
        LoopOut(y, todo - |t.chunk|);
        MoreTurnsOut(x, todo, t, y, Loop(y, todo - |t.chunk|));
      }
    }
  }

  lemma NothingOut(x: Flight)
    ensures Out(x, 0, Report(Complete, x, []))
  {
  }

  lemma OneTurnOut(x: Flight, todo: nat, t: Turn, y: Flight, r: Report)
    requires todo > 0 && (t, y) == TurnOf(x, todo) && r.turns == [t] && r.flight == y
    requires r.outcome == if t.chunk != [] && !t.sent then SendFailed
                          else if t.err == Eof then if |t.chunk| < todo then ShortBody else Complete
                          else ReadFailed
    ensures Out(x, todo, r)
  {
    assert Parts(r.turns) == if t.sent then [t.chunk] else [];
    assert Concat([t.chunk]) == t.chunk + Concat([]);
    assert BodyFrames([t.chunk]) == [Frame(Body, t.chunk, true)] + BodyFrames([]);
    assert Pending([t.chunk]) == [Frame(Body, t.chunk, false)];
    assert x.sent + Pending([]) == x.sent;
  }

  lemma MoreTurnsOut(x: Flight, todo: nat, t: Turn, y: Flight, r: Report)
    requires todo > 0 && (t, y) == TurnOf(x, todo) && t.err == NoError && (t.chunk == [] || t.sent)
    requires |t.chunk| <= todo && Out(y, todo - |t.chunk|, r)
    ensures Out(x, todo, r.(turns := [t] + r.turns))
  {
    var parts, more := Parts(r.turns), Parts([t] + r.turns);
    assert ([t] + r.turns)[1..] == r.turns;
    if t.chunk == [] {
      assert more == parts && x.rest[0..] == x.rest;
    } else {
      assert more == [t.chunk] + parts;
      assert more[1..] == parts;
      assert Concat(more) == t.chunk + Concat(parts);
      assert x.rest == t.chunk + y.rest;
      FirstPart(x.sent, t.chunk, parts);
    }
  }

  lemma FirstPart(sent: seq<Frame>, chunk: Payload, parts: seq<Payload>)
    ensures sent + [Frame(Body, chunk, false)] + Pending(parts) == sent + Pending([chunk] + parts)
    ensures sent + [Frame(Body, chunk, parts == [])] + BodyFrames(parts) == sent + BodyFrames([chunk] + parts)
  {
    FirstPending(chunk, parts);
    FirstBody(chunk, parts);
    hide Pending, BodyFrames;
  }

  lemma FirstPending(chunk: Payload, parts: seq<Payload>)
    ensures Pending([chunk] + parts) == [Frame(Body, chunk, false)] + Pending(parts)
  {
  }

  lemma FirstBody(chunk: Payload, parts: seq<Payload>)
    ensures BodyFrames([chunk] + parts) == [Frame(Body, chunk, parts == [])] + BodyFrames(parts)
  {
    assert ([chunk] + parts)[1..] == parts;
  }

  /** The head and some of the body are out, none of these frames with FIN. */
  predicate Unfinished(before: seq<Frame>, head: Payload, parts: seq<Payload>, now: seq<Frame>) {
    now == before + [Frame(Head, head, false)] + Pending(parts)
  }

  /** What a request has sent: all of it framed when every byte went out; else its beginning, without
      any FIN. A request succeeds only if it is all out, and a failed send or a short body means it is not. */
  lemma StreamedSends(x: Flight, head: Payload, total: nat)
    ensures var r := Streamed(x, head, total); var parts := Parts(r.turns);
      if !Succeeds(x.sends) then r.outcome == SendFailed && r.flight.sent == x.sent && r.turns == []
      else
        && Small(parts) && Concat(parts) <= x.rest && |Concat(parts)| <= total
        && (|Concat(parts)| == total ==> r.flight.sent == x.sent + Framed(head, parts))
        && (|Concat(parts)| < total ==> Unfinished(x.sent, head, parts, r.flight.sent))
        && (r.outcome == Complete ==> |Concat(parts)| == total && Concat(parts) == x.rest[..total])
        && (r.outcome == ShortBody ==> |x.rest| < total)
        && (r.outcome == SendFailed || r.outcome == ShortBody ==> |Concat(parts)| < total)
  {
    hide Loop, BodyFrames, Pending, Given;
    if Succeeds(x.sends) {
      var y := x.(sends := Tail(x.sends), sent := x.sent + [Frame(Head, head, total == 0)]);
      LoopOut(y, total);
      var parts := Parts(Loop(y, total).turns);
      if total == 0 {
        LoopDone(y);
        FramedEmpty(head);
      } else {
        assert parts == [] ==> |Concat(parts)| == 0;
        HeadThenBody(x.sent, head, parts);
      }
    }
  }

  lemma FramedEmpty(head: Payload)
    ensures Framed(head, []) == [Frame(Head, head, true)]
    ensures Parts([]) == [] && Concat<bv8>([]) == [] && BodyFrames([]) == []
    ensures forall f: seq<Frame> :: f + [] == f
  {
  }

  lemma HeadThenBody(before: seq<Frame>, head: Payload, parts: seq<Payload>)
    ensures parts != [] ==>
      before + [Frame(Head, head, false)] + BodyFrames(parts) == before + Framed(head, parts)
  {
  }

  /** Some frame sent by the request carries FIN. */
  predicate FinOut(x: Flight, r: Report) {
    exists i :: |x.sent| <= i < |r.flight.sent| && r.flight.sent[i].fin
  }

  lemma FinOutExactly(x: Flight, head: Payload, total: nat)
    ensures var r := Streamed(x, head, total);
      FinOut(x, r) <==> Succeeds(x.sends) && |Concat(Parts(r.turns))| == total
  {
    hide Streamed, Concat, Pending, Framed;
    var r := Streamed(x, head, total);
    var parts := Parts(r.turns);
    StreamedSends(x, head, total);
    if Succeeds(x.sends) {
      if |Concat(parts)| == total {
        FinOnLastOnly(head, parts);
        var fs := Framed(head, parts);
        FramedNotEmpty(head, parts);
        assert r.flight.sent[|x.sent| + |fs| - 1] == fs[|fs| - 1];
      } else {
        PendingHasNoFin(x.sent, head, parts);
      }
    }
  }

  lemma FramedNotEmpty(head: Payload, parts: seq<Payload>)
    ensures Framed(head, parts) != []
  {
  }

  lemma PendingHasNoFin(before: seq<Frame>, head: Payload, parts: seq<Payload>)
    ensures var now := before + [Frame(Head, head, false)] + Pending(parts);
      forall i :: |before| <= i < |now| ==> !now[i].fin
  {
  }

  /** The turn that ends the loop, and that none before it had completed the body. */
  lemma {:induction false} LastTurn(x: Flight, todo: nat)
    requires todo > 0
    ensures var r := Loop(x, todo);
      && r.turns != []
      && var init, t := r.turns[..|r.turns| - 1], r.turns[|r.turns| - 1];
      && (r.outcome == ReadFailed <==> t.err == Broken && (t.chunk == [] || t.sent))
      && |Concat(Parts(init))| < todo
      && |Concat(Parts(r.turns))| == |Concat(Parts(init))| + if t.sent then |t.chunk| else 0
    decreases |x.script| + todo
  {
    hide Loop, TurnOf, Given, Concat, Parts;
    var (t, y) := TurnOf(x, todo);
    LoopStep(x, todo);
    TurnFits(x, todo);
    ConcatFirst([]);
    if (t.chunk != [] && !t.sent) || t.err != NoError {
      PartsFirst(t, []);
    } else if |t.chunk| == todo {
      LoopDone(y);
      PartsFirst(t, []);
    } else {
      LastTurn(y, todo - |t.chunk|);
      var more := Loop(y, todo - |t.chunk|).turns;
      PartsFirst(t, more);
      PartsFirst(t, more[..|more| - 1]);
      assert ([t] + more)[..|more|] == [t] + more[..|more| - 1];
    }
  }

  lemma TurnFits(x: Flight, todo: nat)
    requires todo > 0
    ensures var (t, y) := TurnOf(x, todo);
      && |t.chunk| <= todo && (t.chunk == [] ==> !t.sent)
      && (t.err == NoError ==> |y.script| + todo - |t.chunk| < |x.script| + todo)
  {
  }

  lemma PartsFirst(t: Turn, more: seq<Turn>)
    ensures |Concat(Parts([t] + more))| == |Concat(Parts(more))| + if t.sent then |t.chunk| else 0
    ensures |Concat(Parts([]))| == 0 && [t] + [] == [t] && [t][..0] == []
  {
    assert ([t] + more)[1..] == more;
    if t.sent {
      ConcatFirst([t.chunk] + Parts(more));
      assert ([t.chunk] + Parts(more))[1..] == Parts(more);
    } else {
      assert Parts([t] + more) == Parts(more);
    }
  }

  lemma ConcatFirst(parts: seq<Payload>)
    ensures Concat(parts) == if parts == [] then [] else parts[0] + Concat(parts[1..])
  {
  }

  /** The read that completed the body also reported an error, not the end, and its frame went out. */
  predicate LastReadBroke(turns: seq<Turn>, total: nat) {
    turns != []
    && var t := turns[|turns| - 1];
       t.err == Broken && t.sent && t.chunk != [] && |Concat(Parts(turns))| == total
  }

  /** A request fails with its FIN out in exactly that case. */
  lemma FailsAfterFinExactly(x: Flight, head: Payload, total: nat)
    ensures var r := Streamed(x, head, total);
      FinOut(x, r) && r.outcome != Complete <==> LastReadBroke(r.turns, total)
  {
    hide Loop, Parts, Concat, FinOut;
    var r := Streamed(x, head, total);
    FinOutExactly(x, head, total);
    StreamedSends(x, head, total);
    if Succeeds(x.sends) {
      var y := x.(sends := Tail(x.sends), sent := x.sent + [Frame(Head, head, total == 0)]);
      if total == 0 {
        LoopDone(y);
      } else {
        LastTurn(y, total);
        NothingSent(y, total);
      }
    }
  }

  lemma NothingSent(x: Flight, todo: nat)
    requires todo > 0
    ensures var r := Loop(x, todo);
      r.turns != [] ==> (r.turns[|r.turns| - 1].chunk == [] ==> !r.turns[|r.turns| - 1].sent)
    decreases |x.script| + todo
  {
    hide Loop, TurnOf;
    var (t, y) := TurnOf(x, todo);
    LoopStep(x, todo);
    TurnFits(x, todo);
    if !((t.chunk != [] && !t.sent) || t.err != NoError) {
      if |t.chunk| == todo {
        LoopDone(y);
      } else {
        NothingSent(y, todo - |t.chunk|);
      }
    }
  }

  /** It does occur: a one-byte body whose read comes with an error. */
  lemma FailsAfterFinHappens(head: Payload, b: bv8)
    ensures var x := Flight([b], [Read(1, Broken)], [], []); var r := Streamed(x, head, 1);
      r.outcome == ReadFailed && FinOut(x, r)
  {
    var x := Flight([b], [Read(1, Broken)], [], []);
    var y := x.(sent := [Frame(Head, head, false)]);
    LoopStep(y, 1);
    assert Given([b], x.script, 1) == ([b], Broken);
    var r := Streamed(x, head, 1);
    assert r.turns == [Turn([b], Broken, true)];
    PartsFirst(r.turns[0], []);
    FinOutExactly(x, head, 1);
  }

  // ---------------------------------------------------------------- the client's handlers

  /** Whether the dial to the upstream and the write to it succeed. */
  datatype Net = Net(dials: bool, writes: bool)

  /** One stream on the client: its open session, seen as the bytes its upstream connection has
      received, and the complete requests whose response is being read. */
  datatype Slot = Slot(session: Option<Payload>, handed: seq<Payload>)

  datatype Reply = Accepted | Duplicate | Unreachable | WriteFailed | UnknownStream

  function HeadReply(slot: Slot, net: Net): Reply {
    if slot.session.Some? then Duplicate
    else if !net.dials then Unreachable
    else if !net.writes then WriteFailed
    else Accepted
  }

  function BodyReply(slot: Slot, f: Frame, net: Net): Reply {
    if slot.session.None? then UnknownStream else if f.data != [] && !net.writes then WriteFailed else Accepted
  }

  function Handled(slot: Slot, f: Frame, net: Net): (Slot, Reply) {
    match f.kind
    case Head =>
      var reply := HeadReply(slot, net);
      (if reply != Accepted then slot
       else if f.fin then slot.(handed := slot.handed + [f.data])
       else slot.(session := Some(f.data)), reply)
    case Body =>
      var reply := BodyReply(slot, f, net);
      (if reply == UnknownStream then slot
       else if reply == WriteFailed then slot.(session := None)
       else if f.fin then Slot(None, slot.handed + [slot.session.value + f.data])
       else slot.(session := Some(slot.session.value + f.data)), reply)
  }

  /** The client's table of open sessions, and what was handed to response readers by stream. */
  datatype ClientState = ClientState(sessions: map<Id, Payload>, handed: map<Id, seq<Payload>>)

  function SlotOf(c: ClientState, id: Id): Slot {
    Slot(if id in c.sessions then Some(c.sessions[id]) else None, if id in c.handed then c.handed[id] else [])
  }

  /** One frame's effect on the whole table. */
  function Served(c: ClientState, id: Id, f: Frame, net: Net): (ClientState, Reply) {
    var (slot, reply) := Handled(SlotOf(c, id), f, net);
    (ClientState(if slot.session.Some? then c.sessions[id := slot.session.value] else c.sessions - {id},
                 if slot.handed == SlotOf(c, id).handed then c.handed else c.handed[id := slot.handed]), reply)
  }

  class StreamClient {
    var sessions: map<Id, Payload>
    var handed: map<Id, seq<Payload>>

    function Table(): ClientState
      reads this
    {
      ClientState(sessions, handed)
    }

    constructor ()
      ensures Table() == ClientState(map[], map[])
    {
      sessions, handed := map[], map[];
    }

    /** The goroutine that will read the response now owns the connection. */
    method Hand(id: Id, received: Payload)
      modifies this`handed
      ensures handed == old(handed)[id := SlotOf(old(Table()), id).handed + [received]]
    {
      handed := handed[id := (if id in handed then handed[id] else []) + [received]];
    }

    method HandleHead(id: Id, f: Frame, net: Net) returns (reply: Reply)
      requires f.kind == Head
      modifies this
      ensures (Table(), reply) == Served(old(Table()), id, f, net)
    {
      if id in sessions {
        assert sessions == sessions[id := sessions[id]];
        return Duplicate;
      }
      assert sessions == sessions - {id};
      if !net.dials {
        return Unreachable;
      }
      if !net.writes {
        return WriteFailed;
      }
      var conn := f.data;
      if !f.fin {
        sessions := sessions[id := conn];
        return Accepted;
      }
      Hand(id, conn);
      return Accepted;
    }

    method HandleBody(id: Id, f: Frame, net: Net) returns (reply: Reply)
      requires f.kind == Body
      modifies this
      ensures (Table(), reply) == Served(old(Table()), id, f, net)
    {
      if id !in sessions {
        assert sessions == sessions - {id};
        return UnknownStream;
      }
      var conn := sessions[id];
      sessions := sessions - {id};
      if |f.data| > 0 {
        if !net.writes {
          return WriteFailed;
        }
        conn := conn + f.data;
      }
      assert conn == old(sessions[id]) + f.data;
      if !f.fin {
        sessions := sessions[id := conn];
        assert sessions == old(sessions)[id := conn];
        return Accepted;
      }
      Hand(id, conn);
      return Accepted;
    }
  }

  datatype Arrival = Arrival(f: Frame, net: Net)

  function RunSlot(slot: Slot, arrivals: seq<Arrival>): Slot {
    if arrivals == [] then slot
    else
      var before := RunSlot(slot, arrivals[..|arrivals| - 1]);
      var last := arrivals[|arrivals| - 1];
      Handled(before, last.f, last.net).0
  }

  /** Some call on the way failed: the dial for the head, or a write. */
  predicate Fails(a: Arrival) {
    if a.f.kind == Head then !a.net.dials || !a.net.writes else a.f.data != [] && !a.net.writes
  }

  predicate AnyFails(arrivals: seq<Arrival>) {
    exists i :: 0 <= i < |arrivals| && Fails(arrivals[i])
  }

  predicate Delivers(arrivals: seq<Arrival>, fs: seq<Frame>) {
    |arrivals| == |fs| && forall i :: 0 <= i < |fs| ==> arrivals[i].f == fs[i]
  }

  lemma {:induction false} CarriedSnoc(fs: seq<Frame>, f: Frame)
    ensures Carried(fs + [f]) == Carried(fs) + f.data
  {
    if fs == [] {
      assert Carried([f]) == f.data + Carried([]);
    } else {
      CarriedSnoc(fs[1..], f);
      assert (fs + [f])[1..] == fs[1..] + [f];
    }
  }

  lemma RunSnoc(slot: Slot, arrivals: seq<Arrival>, a: Arrival)
    ensures RunSlot(slot, arrivals + [a]) == Handled(RunSlot(slot, arrivals), a.f, a.net).0
    ensures AnyFails(arrivals + [a]) <==> AnyFails(arrivals) || Fails(a)
  {
    var more := arrivals + [a];
    assert more[..|more| - 1] == arrivals && more[|arrivals|] == a;
    assert forall i :: 0 <= i < |arrivals| ==> more[i] == arrivals[i];
  }

  /** A request so far: its session has received exactly its bytes, or a call failed and there is none. */
  function SoFar(slot: Slot, failed: bool, received: Payload, fin: bool): Slot {
    if failed then slot
    else if fin then slot.(handed := slot.handed + [received])
    else slot.(session := Some(received))
  }

  lemma HeadHandled(slot: Slot, a: Arrival)
    requires slot.session.None? && a.f.kind == Head
    ensures Handled(slot, a.f, a.net).0 == SoFar(slot, Fails(a), a.f.data, a.f.fin)
  {
  }

  lemma BodyHandled(slot: Slot, failed: bool, received: Payload, a: Arrival)
    requires slot.session.None? && a.f.kind == Body
    ensures Handled(SoFar(slot, failed, received, false), a.f, a.net).0
         == SoFar(slot, failed || Fails(a), received + a.f.data, a.f.fin)
  {
  }

  /** A head frame, body frames, and FIN on the last. */
  predicate IsMessage(fs: seq<Frame>) {
    && fs != [] && fs[0].kind == Head && (forall i :: 0 < i < |fs| ==> fs[i].kind == Body)
    && forall i :: 0 <= i < |fs| ==> (fs[i].fin <==> i == |fs| - 1)
  }

  lemma {:induction false} Underway(slot: Slot, arrivals: seq<Arrival>, fs: seq<Frame>, n: nat)
    requires slot.session.None? && 0 < n <= |fs| && Delivers(arrivals, fs) && IsMessage(fs)
    ensures RunSlot(slot, arrivals[..n]) == SoFar(slot, AnyFails(arrivals[..n]), Carried(fs[..n]), n == |fs|)
  {
    hide RunSlot, Handled, SoFar, Fails, AnyFails, Carried;
    var init, a := arrivals[..n - 1], arrivals[n - 1];
    assert arrivals[..n] == init + [a] && a.f == fs[n - 1];
    assert fs[..n] == fs[..n - 1] + [a.f];
    RunSnoc(slot, init, a);
    CarriedSnoc(fs[..n - 1], a.f);
    if n == 1 {
      assert init == [] && fs[..0] == [];
      NothingRun(slot);
      HeadHandled(slot, a);
    } else {
      Underway(slot, arrivals, fs, n - 1);
      BodyHandled(slot, AnyFails(init), Carried(fs[..n - 1]), a);
    }
  }

  lemma NothingRun(slot: Slot)
    ensures RunSlot(slot, []) == slot && !AnyFails([]) && Carried([]) == []
    ensures forall p: Payload :: [] + p == p
  {
  }

  /** A streamed request reaches the upstream whole or not at all: the connection handed on has
      received exactly the head and the body unless a dial or write failed, and in either case the
      client keeps no session for it. */
  lemma RequestWholeOrNothing(slot: Slot, arrivals: seq<Arrival>, head: Payload, parts: seq<Payload>)
    requires slot.session.None? && Delivers(arrivals, Framed(head, parts))
    ensures RunSlot(slot, arrivals) ==
      if AnyFails(arrivals) then slot else slot.(handed := slot.handed + [head + Concat(parts)])
  {
    var fs := Framed(head, parts);
    FinOnLastOnly(head, parts);
    IsFramed(head, parts);
    assert fs[..|fs|] == fs && arrivals[..|fs|] == arrivals;
    Underway(slot, arrivals, fs, |fs|);
  }

  datatype Call = Call(id: Id, arrival: Arrival)

  function Only(calls: seq<Call>, id: Id): seq<Arrival> {
    if calls == [] then []
    else
      var rest, c := Only(calls[..|calls| - 1], id), calls[|calls| - 1];
      if c.id == id then rest + [c.arrival] else rest
  }

  /** The client's table after interleaved frames of many requests. */
  function RunAll(calls: seq<Call>): ClientState {
    if calls == [] then ClientState(map[], map[])
    else
      var c := calls[|calls| - 1];
      Served(RunAll(calls[..|calls| - 1]), c.id, c.arrival.f, c.arrival.net).0
  }

  lemma TableStep(c: ClientState, id: Id, f: Frame, net: Net, other: Id)
    ensures SlotOf(Served(c, id, f, net).0, id) == Handled(SlotOf(c, id), f, net).0
    ensures other != id ==> SlotOf(Served(c, id, f, net).0, other) == SlotOf(c, other)
  {
  }

  /** However the frames of many requests interleave on the shared table, each stream's session and
      what was handed on for it are what its own frames alone would have made them. */
  lemma {:induction false} StreamsDoNotInterfere(calls: seq<Call>, id: Id)
    ensures SlotOf(RunAll(calls), id) == RunSlot(Slot(None, []), Only(calls, id))
  {
    if calls != [] {
      hide Served, Handled, SlotOf;
      var init, c := calls[..|calls| - 1], calls[|calls| - 1];
      StreamsDoNotInterfere(init, id);
      TableStep(RunAll(init), c.id, c.arrival.f, c.arrival.net, id);
      if c.id == id {
        assert Only(calls, id)[..|Only(init, id)|] == Only(init, id);
      }
    } else {
      assert SlotOf(RunAll(calls), id) == Slot(None, []);
    }
  }

  /** So a request reaches the upstream whole among any number of others. */
  lemma WholeAmongOthers(calls: seq<Call>, id: Id, head: Payload, parts: seq<Payload>)
    requires Delivers(Only(calls, id), Framed(head, parts)) && !AnyFails(Only(calls, id))
    ensures SlotOf(RunAll(calls), id) == Slot(None, [head + Concat(parts)])
  {
    StreamsDoNotInterfere(calls, id);
    RequestWholeOrNothing(Slot(None, []), Only(calls, id), head, parts);
  }

  // ---------------------------------------------------------------- strays and duplicates

  /** The bytes of the body frames among these; heads are duplicates here. */
  function BodyBytes(arrivals: seq<Arrival>): Payload {
    if arrivals == [] then []
    else
      var a := arrivals[|arrivals| - 1];
      BodyBytes(arrivals[..|arrivals| - 1]) + if a.f.kind == Body then a.f.data else []
  }

  /** Body frames that neither end the request nor fail to be written. */
  predicate GoesOn(arrivals: seq<Arrival>) {
    forall i :: 0 <= i < |arrivals| && arrivals[i].f.kind == Body ==> !arrivals[i].f.fin && !Fails(arrivals[i])
  }

  lemma {:induction false} SessionGoesOn(slot: Slot, arrivals: seq<Arrival>)
    requires slot.session.Some? && GoesOn(arrivals)
    ensures RunSlot(slot, arrivals) == slot.(session := Some(slot.session.value + BodyBytes(arrivals)))
  {
    if arrivals == [] {
      assert slot.session.value + [] == slot.session.value;
    } else {
      var init, a := arrivals[..|arrivals| - 1], arrivals[|arrivals| - 1];
      assert arrivals == init + [a];
      SessionGoesOn(slot, init);
      var p := slot.session.value;
      assert p + BodyBytes(init) + a.f.data == p + (BodyBytes(init) + a.f.data);
      assert BodyBytes(init) + [] == BodyBytes(init);
    }
  }

  /** An open session, whatever frames come: duplicate heads change nothing, body frames are written in
      order, and the first that ends the request or fails to be written ends the session: with the
      connection handed on in the one case and dropped in the other. */
  lemma SessionExactly(slot: Slot, arrivals: seq<Arrival>, last: Arrival)
    requires slot.session.Some? && GoesOn(arrivals) && last.f.kind == Body && (last.f.fin || Fails(last))
    ensures var received := slot.session.value + BodyBytes(arrivals) + last.f.data;
      RunSlot(slot, arrivals + [last]) ==
        Slot(None, if Fails(last) then slot.handed else slot.handed + [received])
  {
    assert (arrivals + [last])[..|arrivals|] == arrivals;
    SessionGoesOn(slot, arrivals);
  }

  /** Without a session, body frames and heads that get nowhere change nothing. */
  lemma {:induction false} StraysIgnored(slot: Slot, arrivals: seq<Arrival>)
    requires slot.session.None?
    requires forall i :: 0 <= i < |arrivals| ==> arrivals[i].f.kind == Body || Fails(arrivals[i])
    ensures RunSlot(slot, arrivals) == slot
  {
    if arrivals != [] {
      StraysIgnored(slot, arrivals[..|arrivals| - 1]);
    }
  }

  // ---------------------------------------------------------------- sending a response

  /** The body in chunks of `CHUNK` bytes, from an offset on. */
  function Pieces(body: Payload, off: nat): seq<Payload>
    requires off <= |body|
    decreases |body| - off
  {
    if off == |body| then []
    else
      var end := if off + CHUNK > |body| then |body| else off + CHUNK;
      [body[off..end]] + Pieces(body, end)
  }

  lemma {:induction false} PiecesJoin(body: Payload, off: nat)
    requires off <= |body|
    ensures Concat(Pieces(body, off)) == body[off..]
    decreases |body| - off
  {
    if off < |body| {
      var end := if off + CHUNK > |body| then |body| else off + CHUNK;
      PiecesJoin(body, end);
      assert body[off..] == body[off..end] + body[end..];
    }
  }

  /** No piece is empty or longer than a chunk, and all but the last are whole chunks. */
  lemma {:induction false} PiecesSmall(body: Payload, off: nat)
    requires off <= |body|
    ensures var ps := Pieces(body, off);
      && Small(ps) && forall i :: 0 <= i < |ps| - 1 ==> |ps[i]| == CHUNK
    decreases |body| - off
  {
    if off < |body| {
      PiecesSmall(body, if off + CHUNK > |body| then |body| else off + CHUNK);
    }
  }

  /** Of `fs`, the frames before the first failing send went out, and `ok` tells whether that is all. */
  ghost predicate SentUntilFailure(x: (seq<Frame>, seq<bool>), fs: seq<Frame>, y: (seq<Frame>, seq<bool>), ok: bool) {
    exists n :: 0 <= n <= |fs| && CutAt(x, fs, y, ok, n)
  }

  predicate CutAt(x: (seq<Frame>, seq<bool>), fs: seq<Frame>, y: (seq<Frame>, seq<bool>), ok: bool, n: nat)
    requires n <= |fs|
  {
    && y.0 == x.0 + fs[..n] && (ok <==> n == |fs|)
    && (forall i :: 0 <= i < n ==> SucceedsAt(x.1, i))
    && (n < |fs| ==> !SucceedsAt(x.1, n))
    && y.1 == From(x.1, if ok then n else n + 1)
  }

  /** One more send. */
  lemma SentMore(x: (seq<Frame>, seq<bool>), fs: seq<Frame>, n: nat)
    requires n < |fs| && (forall i :: 0 <= i < n ==> SucceedsAt(x.1, i))
    ensures Tail(From(x.1, n)) == From(x.1, n + 1)
    ensures if Succeeds(From(x.1, n)) then
        && (forall i :: 0 <= i < n + 1 ==> SucceedsAt(x.1, i))
        && x.0 + fs[..n] + [fs[n]] == x.0 + fs[..n + 1]
      else
        CutAt(x, fs, (x.0 + fs[..n], From(x.1, n + 1)), false, n)
  {
    SucceedsFrom(x.1, n);
    FromNext(x.1, n);
  }

  /** Told from the script of sends alone. */
  lemma SentUntilFailureExactly(x: (seq<Frame>, seq<bool>), fs: seq<Frame>, y: (seq<Frame>, seq<bool>), ok: bool)
    requires SentUntilFailure(x, fs, y, ok)
    ensures ok <==> forall i :: 0 <= i < |fs| ==> SucceedsAt(x.1, i)
    ensures ok ==> y.0 == x.0 + fs
  {
    var n :| 0 <= n <= |fs| && CutAt(x, fs, y, ok, n);
    assert n == |fs| ==> fs[..n] == fs;
  }

  lemma NextPiece(fs: seq<Frame>, n: nat, body: Payload, off: nat)
    requires off < |body| && n <= |fs| && fs[n..] == BodyFrames(Pieces(body, off))
    ensures var end := if off + CHUNK > |body| then |body| else off + CHUNK;
      n < |fs| && fs[n] == Frame(Body, body[off..end], end == |body|) && fs[n + 1..] == BodyFrames(Pieces(body, end))
  {
    var end := if off + CHUNK > |body| then |body| else off + CHUNK;
    var more := Pieces(body, off);
    assert more[1..] == Pieces(body, end) && (Pieces(body, end) == [] <==> end == |body|);
    BodyFramesAt(more, 0);
    assert fs[n] == fs[n..][0] && fs[n + 1..] == fs[n..][1..];
  }

  lemma FirstPiece(head: Payload, body: Payload, before: seq<Frame>)
    ensures var fs := Framed(head, Pieces(body, 0));
      && before + fs[..0] == before && |fs| > 0 && fs[..1] == [Frame(Head, head, |body| == 0)]
      && fs[1..] == BodyFrames(Pieces(body, 0)) && (|body| == 0 ==> fs == fs[..1])
  {
  }

  lemma AllPieces(fs: seq<Frame>, n: nat, body: Payload)
    requires n <= |fs| && fs[n..] == BodyFrames(Pieces(body, |body|))
    ensures n == |fs|
  {
  }

  /** The response loop: the head alone when there is no body. It succeeds exactly when every send
      does; the frames before the first that fails are out. */
  method SendResponse(head: Payload, body: Payload, wire: Wire) returns (ok: bool)
    modifies wire
    ensures SentUntilFailure((old(wire.sent), old(wire.sends)), Framed(head, Pieces(body, 0)),
                             (wire.sent, wire.sends), ok)
    ensures ok <==> forall i :: 0 <= i < |Framed(head, Pieces(body, 0))| ==> SucceedsAt(old(wire.sends), i)
    ensures ok ==> wire.sent == old(wire.sent) + Framed(head, Pieces(body, 0))
  {
    hide Framed, BodyFrames, Pieces, Succeeds, Tail, From, SucceedsAt, CutAt;
    ghost var x, fs := (wire.sent, wire.sends), Framed(head, Pieces(body, 0));
    FirstPiece(head, body, wire.sent);
    FromNext(wire.sends, 0);
    SentMore(x, fs, 0);
    if |body| == 0 {
      ok := wire.Send(Frame(Head, head, true));
      if ok {
        AllSent(x, fs);
      }
      SentUntilFailureExactly(x, fs, (wire.sent, wire.sends), ok);
      return;
    }
    ok := wire.Send(Frame(Head, head, false));
    if !ok {
      SentUntilFailureExactly(x, fs, (wire.sent, wire.sends), ok);
      return;
    }
    var off: nat := 0;
    ghost var n: nat := 1;
    while off < |body|
      invariant off <= |body| && 1 <= n <= |fs|
      invariant wire.sent == x.0 + fs[..n] && wire.sends == From(x.1, n)
      invariant forall i :: 0 <= i < n ==> SucceedsAt(x.1, i)
      invariant fs[n..] == BodyFrames(Pieces(body, off))
    {
      NextPiece(fs, n, body, off);
      SentMore(x, fs, n);
      var end := off + CHUNK;
      if end > |body| {
        end := |body|;
      }
      var piece := body[off..end];
      off := end;
      var fin := off >= |body|;
      ok := wire.Send(Frame(Body, piece, fin));
      if !ok {
        SentUntilFailureExactly(x, fs, (wire.sent, wire.sends), ok);
        return;
      }
      n := n + 1;
    }
    AllPieces(fs, n, body);
    AllSent(x, fs);
    SentUntilFailureExactly(x, fs, (wire.sent, wire.sends), true);
    return true;
  }

  lemma AllSent(x: (seq<Frame>, seq<bool>), fs: seq<Frame>)
    requires forall i :: 0 <= i < |fs| ==> SucceedsAt(x.1, i)
    ensures CutAt(x, fs, (x.0 + fs[..|fs|], From(x.1, |fs|)), true, |fs|)
  {
  }

  lemma IsFramed(head: Payload, parts: seq<Payload>)
    ensures IsMessage(Framed(head, parts))
  {
    var fs := Framed(head, parts);
    FinOnLastOnly(head, parts);
    forall i | 0 < i < |fs| ensures fs[i].kind == Body {
      BodyFramesAt(parts, i - 1);
    }
  }
}
