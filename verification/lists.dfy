/** The list operations the audio code performs on `List<T>`: removal of
    flagged elements (the backwards `RemoveAt` loops), `List.Remove` of one
    occurrence, and the minimum and maximum of a non-empty list. */
module Lists {

  /** The elements of xs whose drop flag is false, in their original order. */
  function Sift<T>(xs: seq<T>, drop: seq<bool>): (r: seq<T>)
    requires |drop| == |xs|
    ensures |r| <= |xs|
    decreases |xs|
  {
    if xs == [] then [] else (if drop[0] then [] else [xs[0]]) + Sift(xs[1..], drop[1..])
  }

  /** Sift keeps exactly the unflagged elements: each one is in the result,
      and each element of the result is an unflagged element. */
  lemma {:induction false} SiftMembers<T>(xs: seq<T>, drop: seq<bool>)
    requires |drop| == |xs|
    ensures forall i :: 0 <= i < |xs| && !drop[i] ==> xs[i] in Sift(xs, drop)
    ensures forall j :: 0 <= j < |Sift(xs, drop)| ==> exists i :: 0 <= i < |xs| && !drop[i] && xs[i] == Sift(xs, drop)[j]
    decreases |xs|
  {
    if xs != [] {
      var rest := Sift(xs[1..], drop[1..]);
      SiftMembers(xs[1..], drop[1..]);
      var h := if drop[0] then [] else [xs[0]];
      var r := Sift(xs, drop);
      assert r == h + rest;
      forall i | 0 <= i < |xs| && !drop[i]
        ensures xs[i] in r
      {
        if i > 0 {
          assert xs[i] == xs[1..][i - 1] && drop[i] == drop[1..][i - 1];
        }
      }
      forall j | 0 <= j < |r|
        ensures exists i :: 0 <= i < |xs| && !drop[i] && xs[i] == r[j]
      {
        if j >= |h| {
          assert r[j] == rest[j - |h|];
          var k :| 0 <= k < |xs[1..]| && !drop[1..][k] && xs[1..][k] == rest[j - |h|];
          assert xs[k + 1] == r[j] && !drop[k + 1];
        } else {
          assert xs[0] == r[j];
        }
      }
    } else {
      assert Sift(xs, drop) == [];
    }
  }

  /** With no element flagged Sift is the identity; with all flagged it is empty. */
  lemma {:induction false} SiftExtremes<T>(xs: seq<T>, drop: seq<bool>)
    requires |drop| == |xs|
    ensures (forall i :: 0 <= i < |xs| ==> !drop[i]) ==> Sift(xs, drop) == xs
    ensures (forall i :: 0 <= i < |xs| ==> drop[i]) ==> Sift(xs, drop) == []
    decreases |xs|
  {
    if xs != [] {
      SiftExtremes(xs[1..], drop[1..]);
      assert forall i :: 1 <= i < |xs| ==> drop[i] == drop[1..][i - 1];
      assert xs == [xs[0]] + xs[1..];
    }
  }

  /** `List<T>.Remove(v)`: deletes the first occurrence of v, if any. */
  function RemoveFirst<T(==)>(xs: seq<T>, v: T): (r: seq<T>)
    ensures v !in xs ==> r == xs
    ensures v in xs ==> |r| == |xs| - 1
    ensures multiset(r) == multiset(xs) - multiset{v}
  {
    if xs == [] then []
    else
      assert xs == [xs[0]] + xs[1..];
      if xs[0] == v then xs[1..] else [xs[0]] + RemoveFirst(xs[1..], v)
  }

  /** Smallest element of a non-empty list. */
  function SeqMin(xs: seq<real>): (m: real)
    requires |xs| > 0
    ensures m in xs
    ensures forall x :: x in xs ==> m <= x
  {
    if |xs| == 1 then xs[0]
    else
      var rest := SeqMin(xs[1..]);
      assert xs == [xs[0]] + xs[1..];
      if xs[0] <= rest then xs[0] else rest
  }

  /** Largest element of a non-empty list. */
  function SeqMax(xs: seq<real>): (m: real)
    requires |xs| > 0
    ensures m in xs
    ensures forall x :: x in xs ==> x <= m
  {
    if |xs| == 1 then xs[0]
    else
      var rest := SeqMax(xs[1..]);
      assert xs == [xs[0]] + xs[1..];
      if xs[0] >= rest then xs[0] else rest
  }
}
