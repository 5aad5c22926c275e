/**
 * Sprite groups as insertion-ordered sequences. Removing sprites that a
 * collision routine reports is removal by position.
 */
module Groups {

  /** The elements of `s` whose positions are not in `drop`, in their original order. */
  function Without<T>(s: seq<T>, drop: set<int>): (r: seq<T>)
    ensures |r| <= |s|
    ensures forall x :: x in r ==> x in s
    decreases |s|
  {
    if |s| == 0 then []
    else Without(s[..|s| - 1], drop) + (if |s| - 1 in drop then [] else [s[|s| - 1]])
  }

  /** The positions below `n` that are in `drop`. */
  function DroppedBelow(n: nat, drop: set<int>): set<int> {
    set i | 0 <= i < n && i in drop
  }

  /** Exactly one element leaves for every position of `s` that is in `drop`. */
  lemma {:induction false} WithoutCount<T>(s: seq<T>, drop: set<int>)
    ensures |Without(s, drop)| == |s| - |DroppedBelow(|s|, drop)|
    decreases |s|
  {
    if |s| > 0 {
      var n := |s| - 1;
      WithoutCount(s[..n], drop);
      if n in drop {
        assert DroppedBelow(n + 1, drop) == DroppedBelow(n, drop) + {n};
      } else {
        assert DroppedBelow(n + 1, drop) == DroppedBelow(n, drop);
      }
    }
  }

  /** An element whose position is not dropped survives. */
  lemma {:induction false} WithoutKeeps<T>(s: seq<T>, drop: set<int>, i: int)
    requires 0 <= i < |s| && i !in drop
    ensures s[i] in Without(s, drop)
    decreases |s|
  {
    if i < |s| - 1 {
      WithoutKeeps(s[..|s| - 1], drop, i);
      assert s[..|s| - 1][i] == s[i];
    }
  }

  /** Dropping no position of `s` leaves `s` as it was. */
  lemma {:induction false} WithoutNothing<T>(s: seq<T>, drop: set<int>)
    requires forall i :: 0 <= i < |s| ==> i !in drop
    ensures Without(s, drop) == s
    decreases |s|
  {
    if |s| > 0 {
      WithoutNothing(s[..|s| - 1], drop);
      assert s[..|s| - 1] + [s[|s| - 1]] == s;
    }
  }

  /** Nothing survives exactly when every position is dropped. */
  lemma {:induction false} WithoutEmptyIff<T>(s: seq<T>, drop: set<int>)
    ensures |Without(s, drop)| == 0 <==> forall i :: 0 <= i < |s| ==> i in drop
    decreases |s|
  {
    if |s| > 0 {
      WithoutEmptyIff(s[..|s| - 1], drop);
    }
  }
}
