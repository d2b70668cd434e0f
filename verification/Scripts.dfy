/** Outcomes written down in advance, one for each attempt; what the script leaves unsaid succeeds. */
module Scripts {
  function Tail<T>(s: seq<T>): seq<T> {
    if s == [] then [] else s[1..]
  }

  /** What is left of a script after `i` attempts. */
  function From<T>(s: seq<T>, i: nat): seq<T> {
    if i <= |s| then s[i..] else []
  }

  lemma FromNext<T>(s: seq<T>, i: nat)
    ensures Tail(From(s, i)) == From(s, i + 1) && From(s, 0) == s
  {
  }

  lemma FromFrom<T>(s: seq<T>, i: nat, j: nat)
    ensures From(From(s, i), j) == From(s, i + j)
  {
  }

  predicate Succeeds(outcomes: seq<bool>) {
    outcomes == [] || outcomes[0]
  }

  predicate SucceedsAt(outcomes: seq<bool>, i: nat) {
    i < |outcomes| ==> outcomes[i]
  }

  lemma SucceedsFrom(outcomes: seq<bool>, i: nat)
    ensures Succeeds(From(outcomes, i)) <==> SucceedsAt(outcomes, i)
  {
  }
}
