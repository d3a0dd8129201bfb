/** Order-preserving selection from a sequence: what a `SELECT ... WHERE` over
    an insertion-ordered table and a loop that skips elements both compute. */
module Seqs {

  /** The elements of `s` that satisfy `keep`, in the order of `s`. */
  function Filter<T(==,!new)>(s: seq<T>, keep: T -> bool): (r: seq<T>)
    ensures |r| <= |s|
    ensures forall x :: x in r <==> x in s && keep(x)
    decreases |s|
  {
    if s == [] then []
    else
      var init, last := s[..|s| - 1], s[|s| - 1];
      assert s == init + [last];
      Filter(init, keep) + (if keep(last) then [last] else [])
  }

  /** Selection distributes over concatenation, so the relative order of the
      kept elements is the order they had in the input. */
  lemma {:induction false} FilterAppend<T(!new)>(a: seq<T>, b: seq<T>, keep: T -> bool)
    ensures Filter(a + b, keep) == Filter(a, keep) + Filter(b, keep)
    decreases |b|
  {
    if b != [] {
      var init, last := b[..|b| - 1], b[|b| - 1];
      assert (a + b)[..|a + b| - 1] == a + init;
      FilterAppend(a, init, keep);
    } else {
      assert a + b == a;
    }
  }

  /** When every element is kept, nothing is dropped and nothing moves. */
  lemma {:induction false} FilterKeepsAll<T(!new)>(s: seq<T>, keep: T -> bool)
    requires forall x :: x in s ==> keep(x)
    ensures Filter(s, keep) == s
    decreases |s|
  {
    if s != [] {
      var init := s[..|s| - 1];
      assert forall x :: x in init ==> x in s;
      FilterKeepsAll(init, keep);
      assert s == init + [s[|s| - 1]];
    }
  }

  /** Filtering with `keep2` after `keep1` is filtering once with any `both`
      that keeps exactly what both keep. */
  lemma {:induction false} FilterTwice<T(!new)>(s: seq<T>, keep1: T -> bool, keep2: T -> bool, both: T -> bool)
    requires forall x :: both(x) == (keep1(x) && keep2(x))
    ensures Filter(Filter(s, keep1), keep2) == Filter(s, both)
    decreases |s|
  {
    if s != [] {
      var init, last := s[..|s| - 1], s[|s| - 1];
      FilterTwice(init, keep1, keep2, both);
      var once := if keep1(last) then [last] else [];
      FilterAppend(Filter(init, keep1), once, keep2);
      if keep1(last) {
        assert Filter(once, keep2) == Filter([], keep2) + (if keep2(last) then [last] else []);
      }
    }
  }
}
