/** Slices of slices and their joins, element by element. */
module Slices {

  lemma SliceOfSlice<T>(s: seq<T>, a: nat, b: nat, lo: nat, hi: nat)
    requires a <= b <= |s| && lo <= hi <= b - a
    ensures s[a..b][lo..hi] == s[a + lo..a + hi]
  {
    var whole, part := s[a..b], s[a + lo..a + hi];
    assert forall k | 0 <= k < hi - lo :: whole[lo..hi][k] == whole[lo + k] == s[a + lo + k] == part[k];
  }

  lemma Joined<T>(s: seq<T>, a: nat, b: nat, c: nat)
    requires a <= b <= c <= |s|
    ensures s[a..b] + s[b..c] == s[a..c]
  {
    var left, right, whole := s[a..b], s[b..c], s[a..c];
    assert |left + right| == |whole|;
    assert forall k | 0 <= k < |left| :: (left + right)[k] == left[k] == s[a + k] == whole[k];
    assert forall k | |left| <= k < |whole| :: (left + right)[k] == right[k - |left|] == s[a + k] == whole[k];
  }
}
