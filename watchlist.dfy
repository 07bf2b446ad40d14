/**
 * The entries of the watchlist that the background script stores under the
 * local-storage key `trustTagData`, and the "order-preserving selection"
 * relation that every filter over them satisfies.
 */
module Watchlist {

  /** One flagged address with its short remark, its long note and its citation. */
  datatype WatchEntry = WatchEntry(address: string, shortRemark: string, noteText: string, source: string)

  /** `a` is obtained from `b` by deleting elements, keeping the order of the rest. */
  ghost predicate IsSubsequence<T>(a: seq<T>, b: seq<T>)
    decreases |b|
  {
    a == [] || (|b| > 0 && ((a[0] == b[0] && IsSubsequence(a[1..], b[1..])) || IsSubsequence(a, b[1..])))
  }

  /** A selection is never longer than what it selects from. */
  lemma {:induction false} SubsequenceNoLonger<T>(a: seq<T>, b: seq<T>)
    requires IsSubsequence(a, b)
    ensures |a| <= |b|
    decreases |b|
  {
    if a != [] {
      if a[0] == b[0] && IsSubsequence(a[1..], b[1..]) {
        SubsequenceNoLonger(a[1..], b[1..]);
      } else {
        SubsequenceNoLonger(a, b[1..]);
      }
    }
  }

  /** The elements of `s` that `keep` accepts, in order. */
  function Filter<T>(s: seq<T>, keep: T -> bool): seq<T>
    decreases |s|
  {
    if s == [] then [] else (if keep(s[0]) then [s[0]] else []) + Filter(s[1..], keep)
  }

  lemma {:induction false} FilterAppend<T>(a: seq<T>, b: seq<T>, keep: T -> bool)
    ensures Filter(a + b, keep) == Filter(a, keep) + Filter(b, keep)
    decreases |a|
  {
    if a == [] {
      assert a + b == b;
    } else {
      assert (a + b)[1..] == a[1..] + b;
      FilterAppend(a[1..], b, keep);
    }
  }

  /** The positions of `s` whose element `keep` accepts. */
  function Positions<T>(s: seq<T>, keep: T -> bool): set<int>
  {
    set k | 0 <= k < |s| && keep(s[k])
  }

  /** A filter keeps one element per accepted position. */
  lemma {:induction false} FilterCount<T>(s: seq<T>, keep: T -> bool)
    ensures |Filter(s, keep)| == |Positions(s, keep)|
    decreases |s|
  {
    if s != [] {
      var n := |s|;
      var init, last := s[..n - 1], s[n - 1];
      assert s == init + [last];
      FilterCount(init, keep);
      FilterAppend(init, [last], keep);
      assert [last][1..] == [];
      var before := Positions(init, keep);
      var here := if keep(last) then {n - 1} else {};
      forall k | 0 <= k < n && keep(s[k]) ensures k in before + here {
        if k < n - 1 { assert init[k] == s[k]; }
      }
      forall k | k in before + here ensures 0 <= k < n && keep(s[k]) {
        if k < n - 1 { assert init[k] == s[k]; }
      }
      assert Positions(s, keep) == before + here;
      assert n - 1 !in before;
    }
  }
}
