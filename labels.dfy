/** Argmax along the last axis: the labeller that turns per-class scores
    (probabilities or logits) into class indices, and the selection rule
    shared by both vote aggregators. */
module Labels {

  /** `k` is the first index of a maximal element of `s`: no element exceeds
      `s[k]`, and every element before `k` is strictly smaller (numpy's argmax
      tie-break). */
  ghost predicate IsFirstMax(s: seq<real>, k: int)
  {
    0 <= k < |s| &&
    (forall j :: 0 <= j < |s| ==> s[j] <= s[k]) &&
    (forall j :: 0 <= j < k ==> s[j] < s[k])
  }

  /** Index of the largest score, scanning left to right and replacing the
      best index only on a strictly larger score. */
  function ArgMax(s: seq<real>): (k: nat)
    requires |s| > 0
    ensures IsFirstMax(s, k)
  {
    if |s| == 1 then 0
    else
      var best := ArgMax(s[..|s| - 1]);
      if s[best] < s[|s| - 1] then |s| - 1 else best
  }

  /** The first-maximum property determines the index: any index that has it
      is the one ArgMax returns. */
  lemma FirstMaxIsArgMax(s: seq<real>, k: int)
    requires IsFirstMax(s, k)
    ensures k == ArgMax(s)
  {
  }

  /** labels_from_probs: one label per score vector, the first index of its
      largest score. */
  function LabelsFromProbs(probs: seq<seq<real>>): (labels: seq<nat>)
    requires forall n :: 0 <= n < |probs| ==> |probs[n]| > 0
    ensures |labels| == |probs|
    ensures forall n :: 0 <= n < |probs| ==> labels[n] < |probs[n]|
    ensures forall n :: 0 <= n < |probs| ==> IsFirstMax(probs[n], labels[n])
  {
    seq(|probs|, n requires 0 <= n < |probs| => ArgMax(probs[n]))
  }

  /** Counts [3, 3, 1, 1, 1] select index 0: a tie goes to the lower index. */
  lemma TieGoesToLowerIndex()
    ensures ArgMax([3.0, 3.0, 1.0, 1.0, 1.0]) == 0
  {
    var s := [3.0, 3.0, 1.0, 1.0, 1.0];
    assert IsFirstMax(s, 0);
    FirstMaxIsArgMax(s, 0);
  }
}
