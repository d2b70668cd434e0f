/** A sequence of frames of which some are passed on, some only in part and some not at all: when what
    is passed on is in order, whatever the bytes. */
module FrameFates {
  import opened Words

  /** Passed on whole; in part, at most so many bytes; given up on; or lost with the stream. */
  datatype Fate = Done | Part(n: nat) | GivenUp | Lost

  predicate Passes(f: Fate) {
    f == Done || (f.Part? && f.n > 0)
  }

  function Portion(frame: Payload, fate: Fate): Payload {
    match fate
    case Done => frame
    case Part(n) => if n < |frame| then frame[..n] else frame
    case GivenUp => []
    case Lost => []
  }

  /** The bytes passed on. */
  function Portions(frames: seq<Payload>, fates: seq<Fate>): Payload
    requires |frames| == |fates|
  {
    if frames == [] then []
    else
      var n := |frames| - 1;
      Portions(frames[..n], fates[..n]) + Portion(frames[n], fates[n])
  }

  lemma PortionsSnoc(frames: seq<Payload>, fates: seq<Fate>, frame: Payload, fate: Fate)
    requires |frames| == |fates|
    ensures Portions(frames + [frame], fates + [fate]) == Portions(frames, fates) + Portion(frame, fate)
  {
    assert (frames + [frame])[..|frames|] == frames && (fates + [fate])[..|fates|] == fates;
  }

  /** Nothing is passed on after a frame that was not passed on whole. */
  predicate NothingAfterGap(fates: seq<Fate>) {
    forall i, j :: 0 <= i < j < |fates| && Passes(fates[j]) ==> fates[i] == Done
  }

  /** The bytes passed on begin the frames' bytes, whatever these are. */
  ghost predicate AlwaysPrefix(fates: seq<Fate>) {
    forall frames: seq<Payload> :: |frames| == |fates| ==> Portions(frames, fates) <= Concat(frames)
  }

  lemma {:induction false} AllDone(frames: seq<Payload>, fates: seq<Fate>)
    requires |frames| == |fates| && forall i :: 0 <= i < |fates| ==> fates[i] == Done
    ensures Portions(frames, fates) == Concat(frames)
  {
    if frames != [] {
      var n := |frames| - 1;
      AllDone(frames[..n], fates[..n]);
      ConcatSnoc(frames[..n], frames[n]);
      assert frames[..n] + [frames[n]] == frames;
    }
  }

  lemma {:induction false} PrefixWithoutGap(frames: seq<Payload>, fates: seq<Fate>)
    requires |frames| == |fates| && NothingAfterGap(fates)
    ensures Portions(frames, fates) <= Concat(frames)
  {
    if frames != [] {
      var n := |frames| - 1;
      var init, last := fates[..n], fates[n];
      PrefixWithoutGap(frames[..n], init);
      ConcatSnoc(frames[..n], frames[n]);
      assert frames[..n] + [frames[n]] == frames;
      if Passes(last) {
        AllDone(frames[..n], init);
      } else {
        assert Portion(frames[n], last) == [];
      }
    }
  }

  function Zeros(n: nat): Payload {
    if n == 0 then [] else Zeros(n - 1) + [0]
  }

  lemma {:induction false} ZerosAre(n: nat)
    ensures |Zeros(n)| == n && forall k :: 0 <= k < n ==> Zeros(n)[k] == 0
  {
    if n > 0 {
      ZerosAre(n - 1);
    }
  }

  /** Frames that tell a gap at `i` from what is passed on at `j`: empty but for these two. */
  function Telling(n: nat, i: nat, zeros: nat, j: nat): (frames: seq<Payload>)
    ensures |frames| == n
  {
    seq(n, k requires 0 <= k < n => if k == i then Zeros(zeros) else if k == j then [1] else [])
  }

  lemma {:induction false} UpToConcat(m: nat, i: nat, zeros: nat, j: nat)
    requires i < j
    ensures Concat(Telling(m, i, zeros, j))
         == (if i < m then Zeros(zeros) else []) + (if j < m then [1] else [])
  {
    if m > 0 {
      UpToConcat(m - 1, i, zeros, j);
      var frames := Telling(m, i, zeros, j);
      assert frames == Telling(m - 1, i, zeros, j) + [frames[m - 1]];
      ConcatSnoc(Telling(m - 1, i, zeros, j), frames[m - 1]);
    }
  }

  predicate Gap(fate: Fate, zeros: nat) {
    fate != Done && zeros == (if fate.Part? then fate.n else 0) + 1
  }

  lemma TellingPortion(k: nat, fate: Fate, i: nat, zeros: nat, j: nat)
    requires i < j && (k == i ==> Gap(fate, zeros)) && (k == j ==> Passes(fate))
    ensures Portion(Telling(k + 1, i, zeros, j)[k], fate)
         == if k == i then Zeros(zeros - 1) else if k == j then [1] else []
  {
    if k == i {
      ZerosAre(zeros);
      ZerosAre(zeros - 1);
      assert Zeros(zeros)[..zeros - 1] == Zeros(zeros - 1);
    }
  }

  lemma {:induction false} UpToPortions(m: nat, fates: seq<Fate>, i: nat, zeros: nat, j: nat)
    requires i < j < |fates| && m <= |fates| && Passes(fates[j]) && Gap(fates[i], zeros)
    ensures Portions(Telling(m, i, zeros, j), fates[..m])
         == (if i < m then Zeros(zeros - 1) else []) + (if j < m then [1] else [])
  {
    hide Portions, Portion, Telling, Zeros;
    if m == 0 {
      NoPortions(Telling(0, i, zeros, j), fates[..0]);
    } else {
      UpToPortions(m - 1, fates, i, zeros, j);
      TellingSnoc(m - 1, i, zeros, j);
      assert fates[..m] == fates[..m - 1] + [fates[m - 1]];
      TellingPortion(m - 1, fates[m - 1], i, zeros, j);
      PortionsSnoc(Telling(m - 1, i, zeros, j), fates[..m - 1], Telling(m, i, zeros, j)[m - 1], fates[m - 1]);
    }
  }

  lemma NoPortions(frames: seq<Payload>, fates: seq<Fate>)
    requires frames == [] && fates == []
    ensures Portions(frames, fates) == []
  {
  }

  lemma TellingSnoc(m: nat, i: nat, zeros: nat, j: nat)
    ensures Telling(m + 1, i, zeros, j) == Telling(m, i, zeros, j) + [Telling(m + 1, i, zeros, j)[m]]
  {
  }

  /** Order is kept for all bytes exactly when nothing is passed on after a gap. */
  lemma PrefixExactly(fates: seq<Fate>)
    ensures AlwaysPrefix(fates) <==> NothingAfterGap(fates)
  {
    if NothingAfterGap(fates) {
      forall frames: seq<Payload> | |frames| == |fates| ensures Portions(frames, fates) <= Concat(frames) {
        PrefixWithoutGap(frames, fates);
      }
    } else {
      var i, j :| 0 <= i < j < |fates| && Passes(fates[j]) && fates[i] != Done;
      var zeros := (if fates[i].Part? then fates[i].n else 0) + 1;
      var frames := Telling(|fates|, i, zeros, j);
      UpToConcat(|fates|, i, zeros, j);
      UpToPortions(|fates|, fates, i, zeros, j);
      assert fates[..|fates|] == fates;
      ZerosAre(zeros);
      ZerosAre(zeros - 1);
      assert Portions(frames, fates)[zeros - 1] == 1 && Concat(frames)[zeros - 1] == 0;
    }
  }

  /** The frames passed on whole. */
  function Whole(frames: seq<Payload>, fates: seq<Fate>): seq<Payload>
    requires |frames| == |fates|
  {
    if frames == [] then []
    else
      var n := |frames| - 1;
      Whole(frames[..n], fates[..n]) + if fates[n] == Done then [frames[n]] else []
  }

  lemma WholeSnoc(frames: seq<Payload>, fates: seq<Fate>, frame: Payload, fate: Fate)
    requires |frames| == |fates|
    ensures Whole(frames + [frame], fates + [fate]) == Whole(frames, fates) + if fate == Done then [frame] else []
  {
    assert (frames + [frame])[..|frames|] == frames && (fates + [fate])[..|fates|] == fates;
  }

  /** Where no frame is passed on in part, the bytes passed on are those of the whole frames. */
  lemma {:induction false} WholeIsAll(frames: seq<Payload>, fates: seq<Fate>)
    requires |frames| == |fates| && forall i :: 0 <= i < |fates| ==> !fates[i].Part?
    ensures Concat(Whole(frames, fates)) == Portions(frames, fates)
  {
    if frames != [] {
      var n := |frames| - 1;
      WholeIsAll(frames[..n], fates[..n]);
      ConcatSnoc(Whole(frames[..n], fates[..n]), frames[n]);
      assert Whole(frames[..n], fates[..n]) + [] == Whole(frames[..n], fates[..n]);
    }
  }
}
