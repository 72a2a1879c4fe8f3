/**
 * Which positions of a sequence a filter keeps. The backend's projections
 * that drop rows (untimed laps, testing events) are specified through these
 * indices: output element k comes from input element KeptIndices(..)[k].
 */
module Selection {

  /** The indices, in ascending order, of the elements of `s` that `keep` accepts. */
  function KeptIndices<A>(s: seq<A>, keep: A -> bool): (idx: seq<nat>)
    ensures |idx| <= |s|
    ensures forall k :: 0 <= k < |idx| ==> idx[k] < |s| && keep(s[idx[k]])
    decreases |s|
  {
    if |s| == 0 then []
    else
      var init := s[..|s| - 1];
      KeptIndices(init, keep) + (if keep(s[|s| - 1]) then [|s| - 1] else [])
  }

  /**
   * KeptIndices lists every accepted position exactly once and in order:
   * it is strictly increasing, and it contains each index whose element is kept.
   */
  lemma {:induction false} KeptIndicesExact<A>(s: seq<A>, keep: A -> bool)
    ensures forall k, m :: 0 <= k < m < |KeptIndices(s, keep)| ==> KeptIndices(s, keep)[k] < KeptIndices(s, keep)[m]
    ensures forall i :: 0 <= i < |s| && keep(s[i]) ==> i in KeptIndices(s, keep)
    decreases |s|
  {
    if |s| > 0 {
      var init := s[..|s| - 1];
      KeptIndicesExact(init, keep);
      forall i | 0 <= i < |s| && keep(s[i])
        ensures i in KeptIndices(s, keep)
      {
        if i < |s| - 1 {
          assert init[i] == s[i];
        }
      }
    }
  }
}
