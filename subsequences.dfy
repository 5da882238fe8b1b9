/** Selecting, in order, the positions of a sequence whose elements pass a test:
    the "in-order subsequence" that the flash drain, the trusted-origin list and
    the image-upload error list are built from. */
module Subsequences {
  import opened Wrappers

  /** The indices i of s with keep(s[i]), strictly increasing. */
  function Positions<T>(s: seq<T>, keep: T -> bool): (ps: seq<nat>)
    ensures forall k :: 0 <= k < |ps| ==> ps[k] < |s| && keep(s[ps[k]])
    ensures forall k, l :: 0 <= k < l < |ps| ==> ps[k] < ps[l]
    ensures forall i :: 0 <= i < |s| && keep(s[i]) ==> i in ps
    decreases |s|
  {
    if s == [] then []
    else
      var prev := Positions(s[..|s| - 1], keep);
      assert forall i :: 0 <= i < |s| - 1 ==> s[..|s| - 1][i] == s[i];
      if keep(s[|s| - 1]) then prev + [|s| - 1] else prev
  }

  /** Extending the input by one element extends the positions by at most that element's index. */
  lemma PositionsSnoc<T>(s: seq<T>, x: T, keep: T -> bool)
    ensures Positions(s + [x], keep) == Positions(s, keep) + (if keep(x) then [|s|] else [])
  {
    assert (s + [x])[..|s|] == s;
  }

  /** No position at all exactly when no element passes. */
  lemma NoPositions<T>(s: seq<T>, keep: T -> bool)
    ensures Positions(s, keep) == [] <==> forall i :: 0 <= i < |s| ==> !keep(s[i])
  {
  }

  /** The values `pick` gives for the elements of s, in order, skipping the elements
      it gives nothing for. */
  function Picked<T, U>(s: seq<T>, pick: T -> Option<U>): seq<U>
    decreases |s|
  {
    if s == [] then []
    else
      var n := |s| - 1;
      Picked(s[..n], pick) + (match pick(s[n]) case Some(u) => [u] case None => [])
  }

  /** Extending the input by one element adds at most that element's value. */
  lemma PickedSnoc<T, U>(s: seq<T>, x: T, pick: T -> Option<U>)
    ensures Picked(s + [x], pick) == Picked(s, pick) + (match pick(x) case Some(u) => [u] case None => [])
  {
    assert (s + [x])[..|s|] == s;
  }

  /** When `keep` holds exactly where `pick` gives a value, the picked values are
      those of the kept positions: the k-th value is the one the k-th kept element gives. */
  lemma {:induction false} PickedInOrder<T, U>(s: seq<T>, keep: T -> bool, pick: T -> Option<U>)
    requires forall x :: keep(x) <==> pick(x).Some?
    ensures var ps := Positions(s, keep);
      && |Picked(s, pick)| == |ps|
      && forall k :: 0 <= k < |ps| ==> pick(s[ps[k]]) == Some(Picked(s, pick)[k])
    decreases |s|
  {
    if s != [] {
      var n := |s| - 1;
      var prefix := s[..n];
      PickedInOrder(prefix, keep, pick);
      assert s == prefix + [s[n]];
      PositionsSnoc(prefix, s[n], keep);
      var before := Positions(prefix, keep);
      forall k | 0 <= k < |before|
        ensures prefix[before[k]] == s[before[k]]
      {
      }
    }
  }
}
