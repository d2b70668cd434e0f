/** What a relayed stream owes to the steps of its run: which chunks it was offered and what became of
    them, and that nothing is lost without a cause. */
module RelayProgress {
  import opened Words
  import opened FrameFates
  import opened TcpRelay

  predicate Relays(step: Step, sid: Id) {
    step.RelayChunk? && step.sid == sid
  }

  /** The chunks the server read from the user. */
  function Chunks(steps: seq<Step>, sid: Id): seq<Payload> {
    if steps == [] then []
    else
      var last := steps[|steps| - 1];
      Chunks(steps[..|steps| - 1], sid) + if Relays(last, sid) then [last.chunk] else []
  }

  /** What the bandwidth limit and the channel made of them. */
  function Verdicts(steps: seq<Step>, sid: Id): seq<Fate> {
    if steps == [] then []
    else
      var last := steps[|steps| - 1];
      Verdicts(steps[..|steps| - 1], sid) +
      if !Relays(last, sid) then [] else if !last.admitted then [GivenUp] else if last.sent then [Done] else [Lost]
  }

  /** How often the wait for a connection ran out on a frame. */
  function Skips(steps: seq<Step>, sid: Id): nat {
    if steps == [] then 0
    else Skips(steps[..|steps| - 1], sid) + if steps[|steps| - 1] == ReaderSkips(sid) then 1 else 0
  }

  /** The stream's dial fails, its relay ends, or a write to the upstream fails. */
  predicate Closing(step: Step, sid: Id) {
    step == UpstreamDial(sid, false) || step == RelayEnds(sid) || (step.ReaderWrites? && step.sid == sid && !step.ok)
  }

  function GivenUps(fates: seq<Fate>): nat {
    if fates == [] then 0
    else GivenUps(fates[..|fates| - 1]) + if fates[|fates| - 1] == GivenUp then 1 else 0
  }

  lemma GivenUpsSnoc(fates: seq<Fate>, f: Fate)
    ensures GivenUps(fates + [f]) == GivenUps(fates) + if f == GivenUp then 1 else 0
  {
    assert (fates + [f])[..|fates|] == fates;
  }

  /** What one step adds to the account of a stream. */
  predicate Adds(r: Stream, q: Stream, step: Step, sid: Id) {
    && q.offered == r.offered + Chunks([step], sid)
    && q.verdicts == r.verdicts + Verdicts([step], sid)
    && q.closed == (r.closed || Closing(step, sid))
    && GivenUps(q.fates) == GivenUps(r.fates) + Skips([step], sid)
  }

  lemma One(step: Step, sid: Id)
    ensures Chunks([step], sid) == if Relays(step, sid) then [step.chunk] else []
    ensures Verdicts([step], sid) ==
      if !Relays(step, sid) then [] else if !step.admitted then [GivenUp] else if step.sent then [Done] else [Lost]
    ensures Skips([step], sid) == if step == ReaderSkips(sid) then 1 else 0
  {
    assert [step][..0] == [];
  }

  lemma OwnStepAdds(r: Stream, step: Step)
    requires OfStream(step)
    requires step.ReaderWrites? ==> r.reader.Writing? && (r.connOpen || r.closed)
    requires step.ReaderSkips? || step.ReaderLooks? ==> r.reader.Looking?
    ensures Adds(r, Stepped(r, step), step, step.sid)
  {
    hide GivenUps, Chunks, Verdicts, Skips, Settle;
    One(step, step.sid);
    assert r.offered + [] == r.offered && r.verdicts + [] == r.verdicts;
    if step.ReaderWrites? {
      SettleIs(r, Done);
      SettleIs(r, Lost);
      SettleIs(r, Part(step.part));
    } else if step.ReaderSkips? {
      SettleIs(r, GivenUp);
    } else if step.ReaderLooks? {
      SettleIs(r, Lost);
    }
  }

  lemma SettleIs(r: Stream, fate: Fate)
    requires Hand(r.reader) != []
    ensures var q := Settle(r, fate);
      && q.offered == r.offered && q.verdicts == r.verdicts && q.closed == r.closed
      && GivenUps(q.fates) == GivenUps(r.fates) + if fate == GivenUp then 1 else 0
  {
    GivenUpsSnoc(r.fates, fate);
  }

  lemma StepAdds(s: State, step: Step, sid: Id)
    requires Inv(s) && Enabled(s, step) && sid in s.streams
    ensures sid in Apply(s, step).streams && Adds(s.streams[sid], Apply(s, step).streams[sid], step, sid)
  {
    hide Adds, Stepped, Told, BytesOk;
    assert StreamOk(s, sid);
    One(step, sid);
    if OfStream(step) && step.sid == sid {
      OwnStepAdds(s.streams[sid], step);
    } else {
      NothingAdded(s, step, sid);
    }
  }

  lemma NothingAdded(s: State, step: Step, sid: Id)
    requires Enabled(s, step) && sid in s.streams && !(OfStream(step) && step.sid == sid)
    ensures sid in Apply(s, step).streams && Adds(s.streams[sid], Apply(s, step).streams[sid], step, sid)
  {
    hide Stepped, GivenUps;
    One(step, sid);
    var r := s.streams[sid];
    assert r.offered + [] == r.offered && r.verdicts + [] == r.verdicts;
  }

  lemma StartsEmpty(s: State, step: Step, sid: Id)
    requires Enabled(s, step) && sid !in s.streams
    ensures Chunks([step], sid) == [] && Verdicts([step], sid) == [] && Skips([step], sid) == 0 && !Closing(step, sid)
    ensures sid in Apply(s, step).streams ==> Apply(s, step).streams[sid] == NEW
  {
    One(step, sid);
  }

  lemma Snoc(steps: seq<Step>, step: Step, sid: Id)
    ensures Chunks(steps + [step], sid) == Chunks(steps, sid) + Chunks([step], sid)
    ensures Verdicts(steps + [step], sid) == Verdicts(steps, sid) + Verdicts([step], sid)
    ensures Skips(steps + [step], sid) == Skips(steps, sid) + Skips([step], sid)
  {
    One(step, sid);
    assert (steps + [step])[..|steps|] == steps;
  }

  /** Told from the steps: the chunks offered and what became of each, how many frames were given up on,
      and whether the stream is closed. */
  lemma {:induction false} AccountExactly(steps: seq<Step>, sid: Id)
    requires Exec(steps).Some?
    ensures sid in Exec(steps).value.streams ==>
      var r := Exec(steps).value.streams[sid];
      && r.offered == Chunks(steps, sid) && r.verdicts == Verdicts(steps, sid)
      && GivenUps(r.fates) == Skips(steps, sid)
      && (r.closed <==> exists i :: 0 <= i < |steps| && Closing(steps[i], sid))
    ensures sid !in Exec(steps).value.streams ==>
      && Chunks(steps, sid) == [] && Verdicts(steps, sid) == [] && Skips(steps, sid) == 0
      && forall i :: 0 <= i < |steps| ==> !Closing(steps[i], sid)
  {
    hide Inv, Apply, Enabled, Closing, Chunks, Verdicts, Skips, GivenUps;
    if steps == [] {
      NothingYet(sid);
    } else {
      var init, step := steps[..|steps| - 1], steps[|steps| - 1];
      assert steps == init + [step];
      var s := Exec(init).value;
      AccountExactly(init, sid);
      ExecKeeps(init);
      Snoc(init, step, sid);
      if sid in s.streams {
        StepAdds(s, step, sid);
      } else {
        StartsEmpty(s, step, sid);
        NothingYet(sid);
      }
    }
  }

  lemma NothingYet(sid: Id)
    ensures Chunks([], sid) == [] && Verdicts([], sid) == [] && Skips([], sid) == 0 && GivenUps([]) == 0
  {
  }

  lemma {:induction false} NoGiveUps(fates: seq<Fate>)
    requires GivenUps(fates) == 0
    ensures forall i :: 0 <= i < |fates| ==> fates[i] != GivenUp
  {
    if fates != [] {
      NoGiveUps(fates[..|fates| - 1]);
    }
  }

  /** Nothing is lost without a cause: as long as no wait ran out, no dial or write failed and the relay
      did not end, every frame the reader has finished with is written, and the bytes written, in hand
      and in the channel are the bytes relayed. */
  lemma NothingLostWithoutCause(steps: seq<Step>, sid: Id)
    requires Exec(steps).Some? && sid in Exec(steps).value.streams
    requires forall i :: 0 <= i < |steps| ==> steps[i] != ReaderSkips(sid) && !Closing(steps[i], sid)
    ensures var r := Exec(steps).value.streams[sid];
      r.written + Concat(Hand(r.reader) + r.channel) == Concat(r.relayed)
  {
    hide Told, EntryOk, Closing, Portions, Exec, Whole;
    AccountExactly(steps, sid);
    NeverSkipped(steps, sid);
    ExecKeeps(steps);
    assert StreamOk(Exec(steps).value, sid);
    var r := Exec(steps).value.streams[sid];
    NoGiveUps(r.fates);
    forall i | 0 <= i < |r.fates| ensures r.fates[i] == Done {
      assert !IsCut(r.fates[i]);
    }
    var done := r.relayed[..|r.fates|];
    AllDone(done, r.fates);
    ConcatSplit(done, r.relayed[|r.fates|..]);
    assert r.relayed == done + r.relayed[|r.fates|..];
  }

  lemma {:induction false} NeverSkipped(steps: seq<Step>, sid: Id)
    requires forall i :: 0 <= i < |steps| ==> steps[i] != ReaderSkips(sid)
    ensures Skips(steps, sid) == 0
  {
    if steps != [] {
      NeverSkipped(steps[..|steps| - 1], sid);
    }
  }

  // ---------------------------------------------------------------- what is under way can arrive

  /** The upstream is connected and the reader reads. */
  predicate Flowing(r: Stream) {
    r.slot == Conn && r.connOpen && (r.reader == Waiting || Hand(r.reader) != [])
  }

  /** The frame in hand, whatever it is, can be written. */
  lemma HandArrives(steps: seq<Step>, s: State, sid: Id) returns (more: seq<Step>, t: State)
    requires Exec(steps) == Some(s) && sid in s.streams && Flowing(s.streams[sid])
    ensures Exec(more) == Some(t) && sid in t.streams
    ensures var r := s.streams[sid];
      t.streams[sid] == r.(reader := Waiting, written := r.written + Concat(Hand(r.reader)),
                           fates := r.fates + if Hand(r.reader) == [] then [] else [Done])
  {
    hide Exec, Apply;
    var r := s.streams[sid];
    if r.reader == Waiting {
      more, t := steps, s;
      assert r.written + Concat(Hand(r.reader)) == r.written && r.fates + [] == r.fates;
    } else {
      var f := r.reader.frame;
      assert Concat([f]) == f + Concat([]);
      more, t := steps, s;
      if r.reader.Looking? {
        more, t := StreamNext(more, t, ReaderLooks(sid));
      }
      assert t.streams[sid] == r.(reader := Writing(f));
      more, t := StreamNext(more, t, ReaderWrites(sid, true, 0));
    }
  }

  lemma FirstFrame(channel: seq<Payload>)
    ensures Concat(channel) == if channel == [] then [] else Concat([channel[0]]) + Concat(channel[1..])
  {
    if channel != [] {
      assert Concat([channel[0]]) == channel[0] + Concat([channel[0]][1..]);
    }
  }

  /** From any moment of any run at which the upstream is connected, everything in hand and in the channel
      can be written, in order. */
  lemma {:induction false} ChannelArrives(steps: seq<Step>, s: State, sid: Id) returns (more: seq<Step>, t: State)
    requires Exec(steps) == Some(s) && sid in s.streams && Flowing(s.streams[sid])
    ensures Exec(more) == Some(t) && sid in t.streams
    ensures var r := s.streams[sid];
      t.streams[sid].written == r.written + Concat(Hand(r.reader) + r.channel) && t.streams[sid].channel == []
    decreases |s.streams[sid].channel|
  {
    hide Exec, Apply, Concat;
    var r := s.streams[sid];
    more, t := HandArrives(steps, s, sid);
    ConcatSplit(Hand(r.reader), r.channel);
    FirstFrame(r.channel);
    if r.channel != [] {
      var q, f := t.streams[sid], r.channel[0];
      more, t := StreamNext(more, t, ReaderTakes(sid));
      assert t.streams[sid] == q.(reader := Looking(f), channel := r.channel[1..]);
      assert r.channel == [f] + r.channel[1..];
      more, t := ChannelArrives(more, t, sid);
    }
  }
}
