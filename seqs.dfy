/** Generic sequence operations that stand for JavaScript's
    `Array.prototype.filter` and `Array.prototype.slice(0, n)`. */
module Seqs {

  /** `s.filter(keep)`: the elements of `s` that `keep` accepts, in order. */
  function Filter<T(!new)>(s: seq<T>, keep: T -> bool): (r: seq<T>)
    ensures |r| <= |s|
    ensures forall x :: x in r <==> x in s && keep(x)
    ensures forall i :: 0 <= i < |r| ==> keep(r[i])
  {
    if s == [] then []
    else if keep(s[0]) then [s[0]] + Filter(s[1..], keep)
    else Filter(s[1..], keep)
  }

  /** Filtering keeps relative order: it distributes over concatenation. */
  lemma {:induction false} FilterAppend<T(!new)>(a: seq<T>, b: seq<T>, keep: T -> bool)
    ensures Filter(a + b, keep) == Filter(a, keep) + Filter(b, keep)
  {
    if a == [] {
      assert a + b == b;
    } else {
      assert (a + b)[1..] == a[1..] + b;
      FilterAppend(a[1..], b, keep);
    }
  }

  /** A filter that rejects nothing returns the sequence unchanged, and one
      that returns a sequence of the same length rejected nothing. */
  lemma FilterKeepsAll<T(!new)>(s: seq<T>, keep: T -> bool)
    ensures |Filter(s, keep)| == |s| <==> forall i :: 0 <= i < |s| ==> keep(s[i])
    ensures (forall i :: 0 <= i < |s| ==> keep(s[i])) ==> Filter(s, keep) == s
  {
    if forall i :: 0 <= i < |s| ==> keep(s[i]) {
      FilterAllKept(s, keep);
    } else {
      FilterDropsSome(s, keep);
    }
  }

  /** Keeping every element keeps the sequence. */
  lemma {:induction false} FilterAllKept<T(!new)>(s: seq<T>, keep: T -> bool)
    requires forall i :: 0 <= i < |s| ==> keep(s[i])
    ensures Filter(s, keep) == s
  {
    if s != [] {
      var rest := s[1..];
      assert forall i :: 0 <= i < |rest| ==> keep(rest[i]) by {
        forall i | 0 <= i < |rest| ensures keep(rest[i]) {
          assert rest[i] == s[i + 1];
        }
      }
      FilterAllKept(rest, keep);
      assert keep(s[0]);
      assert s == [s[0]] + rest;
    }
  }

  /** Rejecting some element shortens the sequence. */
  lemma {:induction false} FilterDropsSome<T(!new)>(s: seq<T>, keep: T -> bool)
    requires exists i :: 0 <= i < |s| && !keep(s[i])
    ensures |Filter(s, keep)| < |s|
  {
    var rest := s[1..];
    if keep(s[0]) {
      var i :| 0 <= i < |s| && !keep(s[i]);
      assert i != 0;
      assert rest[i - 1] == s[i];
      FilterDropsSome(rest, keep);
    }
  }

  /** `s.slice(0, n)`: at most the first `n` elements. */
  function Take<T>(s: seq<T>, n: nat): (r: seq<T>)
    ensures |r| == if |s| < n then |s| else n
    ensures r <= s
  {
    if |s| <= n then s else s[..n]
  }
}
