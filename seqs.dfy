/** Order-preserving selection over sequences: the meaning of a Python loop
    that walks a list once and appends what passes a test. */
module Seqs {

  predicate Increasing(idx: seq<nat>) {
    forall k, m :: 0 <= k < m < |idx| ==> idx[k] < idx[m]
  }

  /** The positions of s whose element keep accepts, in increasing order. */
  function Select<T>(s: seq<T>, keep: T -> bool): (idx: seq<nat>)
    ensures |idx| <= |s| && Increasing(idx)
    ensures forall k :: 0 <= k < |idx| ==> idx[k] < |s| && keep(s[idx[k]])
    ensures forall i :: 0 <= i < |s| && keep(s[i]) ==> i in idx
  {
    if s == [] then []
    else
      var n := |s| - 1;
      var init := s[..n];
      var idx := Select(init, keep);
      assert forall k :: 0 <= k < |idx| ==> s[idx[k]] == init[idx[k]];
      idx + (if keep(s[n]) then [n] else [])
  }

  /** What a loop produces that walks s and appends f(x) for each x accepted by keep. */
  function FilterMap<T, U>(s: seq<T>, keep: T -> bool, f: T -> U): (r: seq<U>)
    ensures |r| <= |s|
  {
    if s == [] then []
    else FilterMap(s[..|s| - 1], keep, f) + (if keep(s[|s| - 1]) then [f(s[|s| - 1])] else [])
  }

  /** One more step of the loop that FilterMap describes. */
  lemma FilterMapStep<T, U>(s: seq<T>, j: nat, keep: T -> bool, f: T -> U)
    requires j < |s|
    ensures FilterMap(s[..j + 1], keep, f) == FilterMap(s[..j], keep, f) + (if keep(s[j]) then [f(s[j])] else [])
  {
    assert s[..j + 1][..j] == s[..j];
  }

  /** FilterMap maps exactly the selected elements, in their original order. */
  lemma {:induction false} FilterMapSelects<T, U>(s: seq<T>, keep: T -> bool, f: T -> U)
    ensures |FilterMap(s, keep, f)| == |Select(s, keep)|
    ensures forall k :: 0 <= k < |Select(s, keep)| ==> FilterMap(s, keep, f)[k] == f(s[Select(s, keep)[k]])
  {
    if s != [] {
      var n := |s| - 1;
      var init := s[..n];
      FilterMapSelects(init, keep, f);
      var idx, r := Select(init, keep), FilterMap(init, keep, f);
      assert Select(s, keep) == idx + (if keep(s[n]) then [n] else []);
      assert FilterMap(s, keep, f) == r + (if keep(s[n]) then [f(s[n])] else []);
      forall k | 0 <= k < |idx|
        ensures FilterMap(s, keep, f)[k] == f(s[Select(s, keep)[k]])
      {
        assert s[idx[k]] == init[idx[k]];
      }
    }
  }

  /** When keep accepts every element, FilterMap is a plain map. */
  lemma {:induction false} FilterMapKeepsAll<T, U>(s: seq<T>, keep: T -> bool, f: T -> U)
    requires forall i :: 0 <= i < |s| ==> keep(s[i])
    ensures |FilterMap(s, keep, f)| == |s|
    ensures forall i :: 0 <= i < |s| ==> FilterMap(s, keep, f)[i] == f(s[i])
  {
    if s != [] {
      FilterMapKeepsAll(s[..|s| - 1], keep, f);
    }
  }

  /** The concatenation of a sequence of sequences. */
  function Flatten<T>(ss: seq<seq<T>>): seq<T> {
    if ss == [] then [] else Flatten(ss[..|ss| - 1]) + ss[|ss| - 1]
  }

  lemma {:induction false} FlattenAppend<T>(a: seq<seq<T>>, b: seq<seq<T>>)
    ensures Flatten(a + b) == Flatten(a) + Flatten(b)
  {
    if b == [] {
      assert a + b == a;
    } else {
      var init, last := b[..|b| - 1], b[|b| - 1];
      assert (a + b)[..|a + b| - 1] == a + init && (a + b)[|a + b| - 1] == last;
      calc {
        Flatten(a + b);
        Flatten(a + init) + last;
        { FlattenAppend(a, init); }
        (Flatten(a) + Flatten(init)) + last;
        Flatten(a) + (Flatten(init) + last);
        Flatten(a) + Flatten(b);
      }
    }
  }
}
