/** Python sets are modelled as duplicate-free sequences that keep the order
    in which elements were first inserted.  Python iterates a set in an
    unspecified order; the model fixes first-insertion order and states the
    properties of the pipeline by membership. */
module Collections {

  predicate NoDups(s: seq<string>)
  {
    forall i, j | 0 <= i < j < |s| :: s[i] != s[j]
  }

  /** `set(xs)`, iterated in first-occurrence order. */
  function Dedup(xs: seq<string>): (r: seq<string>)
    ensures NoDups(r)
    ensures forall x :: x in r <==> x in xs
    ensures |r| <= |xs|
  {
    if xs == [] then []
    else
      var d := Dedup(xs[..|xs| - 1]);
      var x := xs[|xs| - 1];
      assert xs == xs[..|xs| - 1] + [x];
      if x in d then d else d + [x]
  }

  /** `s.update(xs)` on a set `s`. */
  function Union(s: seq<string>, xs: seq<string>): (r: seq<string>)
    ensures NoDups(r)
    ensures forall x :: x in r <==> x in s || x in xs
  {
    Dedup(s + xs)
  }

  /** A duplicate-free sequence holds each of its elements exactly once. */
  lemma {:induction false} NoDupsCount(s: seq<string>, x: string)
    requires NoDups(s)
    ensures multiset(s)[x] == if x in s then 1 else 0
  {
    if s != [] {
      var t := s[..|s| - 1];
      assert s == t + [s[|s| - 1]];
      assert NoDups(t);
      NoDupsCount(t, x);
      if x == s[|s| - 1] {
        assert x !in t;
      }
    }
  }

  /** Inserting into a set that already holds every element changes nothing:
      Dedup of a duplicate-free sequence is the sequence itself. */
  lemma {:induction false} DedupOfNoDups(s: seq<string>)
    requires NoDups(s)
    ensures Dedup(s) == s
  {
    if s != [] {
      var t := s[..|s| - 1];
      assert NoDups(t);
      DedupOfNoDups(t);
      assert s[|s| - 1] !in t;
    }
  }
}
