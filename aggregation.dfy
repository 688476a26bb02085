/** The two aggregators over a `[T, N, S]` tensor of teacher votes: the
    deterministic plurality (`aggregation_most_frequent`) and the noisy
    plurality (`noisy_max`). The Laplace draws are not sampled here: they are
    supplied as a `[NumClasses, N, S]` array of reals, and the model states
    the selection rule for any such noise. */
module Aggregation {
  import opened Labels
  import opened Votes

  datatype Option<T> = None | Some(value: T)

  /** The votes of all teachers for sample `(i, j)`: `predictions[:, i, j]`. */
  function Column(predictions: array3<nat>, i: nat, j: nat): seq<nat>
    requires i < predictions.Length1 && j < predictions.Length2
    reads predictions
  {
    seq(predictions.Length0, t requires 0 <= t < predictions.Length0 reads predictions => predictions[t, i, j])
  }

  /** The noise values drawn for sample `(i, j)`: `noise[:, i, j]`. */
  function NoiseColumn(noise: array3<real>, i: nat, j: nat): seq<real>
    requires noise.Length0 == NumClasses && i < noise.Length1 && j < noise.Length2
    reads noise
  {
    seq(NumClasses, c requires 0 <= c < NumClasses reads noise => noise[c, i, j])
  }

  /** Integer counts lifted to reals, as the cast before the noise is added. */
  function Reals(counts: seq<nat>): seq<real>
  {
    seq(|counts|, c requires 0 <= c < |counts| => counts[c] as real)
  }

  /** Each class's count plus its own noise value. */
  function NoisyScores(counts: seq<nat>, noise: seq<real>): seq<real>
    requires |counts| == |noise|
  {
    seq(|counts|, c requires 0 <= c < |counts| => counts[c] as real + noise[c])
  }

  /** The plurality label of one sample: the class with the most votes, the
      lowest class among equally voted ones. */
  function MostFrequentLabel(votes: seq<nat>): (winner: nat)
    ensures IsClass(winner)
    ensures forall c :: IsClass(c) ==> CountOf(votes, c) <= CountOf(votes, winner)
    ensures forall c :: 1 <= c < winner ==> CountOf(votes, c) < CountOf(votes, winner)
  {
    var scores := Reals(Histogram(votes));
    var k := ArgMax(scores);
    assert forall c :: IsClass(c) ==> scores[c - 1] == CountOf(votes, c) as real;
    k + 1
  }

  /** The noisy plurality label of one sample: the class whose count plus
      noise is largest, the lowest such class on ties. */
  function NoisyLabel(votes: seq<nat>, noise: seq<real>): (winner: nat)
    requires |noise| == NumClasses
    ensures IsClass(winner)
    ensures forall c :: IsClass(c) ==>
      CountOf(votes, c) as real + noise[c - 1] <= CountOf(votes, winner) as real + noise[winner - 1]
    ensures forall c :: 1 <= c < winner ==>
      CountOf(votes, c) as real + noise[c - 1] < CountOf(votes, winner) as real + noise[winner - 1]
  {
    var scores := NoisyScores(Histogram(votes), noise);
    var k := ArgMax(scores);
    assert forall c :: IsClass(c) ==> scores[c - 1] == CountOf(votes, c) as real + noise[c - 1];
    k + 1
  }

  /** With no noise at all, the noisy rule selects the plurality label. */
  lemma ZeroNoiseIsMostFrequent(votes: seq<nat>, noise: seq<real>)
    requires |noise| == NumClasses
    requires forall c :: 0 <= c < NumClasses ==> noise[c] == 0.0
    ensures NoisyLabel(votes, noise) == MostFrequentLabel(votes)
  {
  }

  /** `np.bincount(predictions[:, i, j], minlength=6)[1:6]`: one pass over the
      teachers, counting each vote that names a class. */
  method BinCount(predictions: array3<nat>, i: nat, j: nat) returns (counts: seq<nat>)
    requires i < predictions.Length1 && j < predictions.Length2
    ensures counts == Histogram(Column(predictions, i, j))
  {
    ghost var votes := Column(predictions, i, j);
    counts := [0, 0, 0, 0, 0];
    assert counts == Histogram(votes[..0]);
    for t := 0 to predictions.Length0
      invariant counts == Histogram(votes[..t])
    {
      var vote := predictions[t, i, j];
      HistogramAppend(votes[..t], vote);
      assert votes[..t + 1] == votes[..t] + [vote];
      if IsClass(vote) {
        counts := counts[vote - 1 := counts[vote - 1] + 1];
      }
    }
    assert votes[..predictions.Length0] == votes;
  }

  /** aggregation_most_frequent: the plurality label of every sample. */
  method AggregationMostFrequent(predictions: array3<nat>) returns (result: array2<int>)
    ensures fresh(result)
    ensures result.Length0 == predictions.Length1 && result.Length1 == predictions.Length2
    ensures forall i, j :: 0 <= i < result.Length0 && 0 <= j < result.Length1 ==>
      result[i, j] == MostFrequentLabel(Column(predictions, i, j))
    ensures forall i, j :: 0 <= i < result.Length0 && 0 <= j < result.Length1 ==>
      1 <= result[i, j] <= NumClasses
  {
    result := new int[predictions.Length1, predictions.Length2];
    for i := 0 to predictions.Length1
      invariant forall i', j' :: 0 <= i' < i && 0 <= j' < predictions.Length2 ==>
        result[i', j'] == MostFrequentLabel(Column(predictions, i', j'))
    {
      for j := 0 to predictions.Length2
        invariant forall i', j' :: 0 <= i' < i && 0 <= j' < predictions.Length2 ==>
          result[i', j'] == MostFrequentLabel(Column(predictions, i', j'))
        invariant forall j' :: 0 <= j' < j ==>
          result[i, j'] == MostFrequentLabel(Column(predictions, i, j'))
      {
        var labelCounts := BinCount(predictions, i, j);
        result[i, j] := ArgMax(Reals(labelCounts)) + 1;
      }
    }
  }

  /** The per-sample body of noisy_max: cast the counts to reals, add each
      class's own noise value in place, and take the first maximum. */
  method NoisyArgMax(counts: seq<nat>, noise: array3<real>, i: nat, j: nat) returns (winner: int)
    requires |counts| == NumClasses
    requires noise.Length0 == NumClasses && i < noise.Length1 && j < noise.Length2
    ensures 1 <= winner <= NumClasses
    ensures IsFirstMax(NoisyScores(counts, NoiseColumn(noise, i, j)), winner - 1)
  {
    var labelCounts := new real[NumClasses](c requires 0 <= c < NumClasses => counts[c] as real);
    for item := 0 to NumClasses
      invariant forall c :: 0 <= c < item ==> labelCounts[c] == counts[c] as real + noise[c, i, j]
      invariant forall c :: item <= c < NumClasses ==> labelCounts[c] == counts[c] as real
    {
      labelCounts[item] := labelCounts[item] + noise[item, i, j];
    }
    assert labelCounts[..] == NoisyScores(counts, NoiseColumn(noise, i, j));
    winner := ArgMax(labelCounts[..]) + 1;
  }

  /** `clean_votes[:, i, j] = label_counts`: one column of the clean-vote
      array is overwritten, every other entry is kept. */
  method StoreCounts(clean: array3<nat>, i: nat, j: nat, counts: seq<nat>)
    requires clean.Length0 == |counts| && i < clean.Length1 && j < clean.Length2
    modifies clean
    ensures forall c, i', j' :: 0 <= c < clean.Length0 && 0 <= i' < clean.Length1 && 0 <= j' < clean.Length2 ==>
      clean[c, i', j'] == if i' == i && j' == j then counts[c] else old(clean[c, i', j'])
  {
    forall c | 0 <= c < clean.Length0 {
      clean[c, i, j] := counts[c];
    }
  }

  /** One iteration of noisy_max's sample loop: count the votes of sample
      `(i, j)`, keep them in `clean` when it is present, and store the noisy
      label in `result`; no other entry changes. */
  method NoisySample(predictions: array3<nat>, noise: array3<real>, i: nat, j: nat,
                     result: array2<int>, clean: array3?<nat>)
    requires i < predictions.Length1 && j < predictions.Length2
    requires noise.Length0 == NumClasses && noise.Length1 == predictions.Length1 && noise.Length2 == predictions.Length2
    requires result.Length0 == predictions.Length1 && result.Length1 == predictions.Length2
    requires clean != null ==>
      (clean != predictions && clean.Length0 == NumClasses &&
       clean.Length1 == predictions.Length1 && clean.Length2 == predictions.Length2)
    modifies result, clean
    ensures result[i, j] == NoisyLabel(Column(predictions, i, j), NoiseColumn(noise, i, j))
    ensures forall i', j' :: 0 <= i' < result.Length0 && 0 <= j' < result.Length1 && (i' != i || j' != j) ==>
      result[i', j'] == old(result[i', j'])
    ensures clean != null ==> forall c :: 0 <= c < NumClasses ==>
      clean[c, i, j] == Histogram(Column(predictions, i, j))[c]
    ensures clean != null ==> forall c, i', j' :: 0 <= c < NumClasses && 0 <= i' < clean.Length1 && 0 <= j' < clean.Length2 && (i' != i || j' != j) ==>
      clean[c, i', j'] == old(clean[c, i', j'])
  {
    var counts := BinCount(predictions, i, j);
    if clean != null {
      StoreCounts(clean, i, j, counts);
    }
    var winner := NoisyArgMax(counts, noise, i, j);
    FirstMaxIsArgMax(NoisyScores(counts, NoiseColumn(noise, i, j)), winner - 1);
    result[i, j] := winner;
  }

  /** noisy_max with the Laplace draws supplied as `noise`: every sample gets
      the noisy plurality of its votes under its own five noise values, and,
      when asked, the clean counts are returned beside the labels. */
  method NoisyMax(predictions: array3<nat>, noise: array3<real>, returnCleanVotes: bool)
    returns (result: array2<int>, cleanVotes: Option<array3<nat>>)
    requires noise.Length0 == NumClasses
    requires noise.Length1 == predictions.Length1 && noise.Length2 == predictions.Length2
    ensures fresh(result)
    ensures result.Length0 == predictions.Length1 && result.Length1 == predictions.Length2
    ensures forall i, j :: 0 <= i < result.Length0 && 0 <= j < result.Length1 ==>
      result[i, j] == NoisyLabel(Column(predictions, i, j), NoiseColumn(noise, i, j))
    ensures forall i, j :: 0 <= i < result.Length0 && 0 <= j < result.Length1 ==>
      1 <= result[i, j] <= NumClasses
    ensures cleanVotes.Some? <==> returnCleanVotes
    ensures cleanVotes.Some? ==>
      var clean := cleanVotes.value;
      fresh(clean) &&
      clean.Length0 == NumClasses && clean.Length1 == predictions.Length1 && clean.Length2 == predictions.Length2 &&
      forall c, i, j :: 0 <= c < NumClasses && 0 <= i < clean.Length1 && 0 <= j < clean.Length2 ==>
        clean[c, i, j] == CountOf(Column(predictions, i, j), c + 1)
  {
    var n, s := predictions.Length1, predictions.Length2;
    // The labels and clean counts every sample must end up with.
    ghost var labels := seq(n, i requires 0 <= i < n reads predictions, noise =>
      seq(s, j requires 0 <= j < s reads predictions, noise =>
        NoisyLabel(Column(predictions, i, j), NoiseColumn(noise, i, j))));
    ghost var histograms := seq(n, i requires 0 <= i < n reads predictions =>
      seq(s, j requires 0 <= j < s reads predictions => Histogram(Column(predictions, i, j))));
    result := new int[n, s];
    var clean: array3?<nat> := null;
    if returnCleanVotes {
      clean := new nat[NumClasses, n, s];
    }
    for i := 0 to n
      invariant returnCleanVotes <==> clean != null
      invariant clean != null ==> fresh(clean) && clean.Length0 == NumClasses && clean.Length1 == n && clean.Length2 == s
      invariant forall i', j' :: 0 <= i' < i && 0 <= j' < s ==> result[i', j'] == labels[i'][j']
      invariant clean != null ==> forall c, i', j' :: 0 <= c < NumClasses && 0 <= i' < i && 0 <= j' < s ==>
        clean[c, i', j'] == histograms[i'][j'][c]
    {
      for j := 0 to s
        invariant returnCleanVotes <==> clean != null
        invariant clean != null ==> fresh(clean) && clean.Length0 == NumClasses && clean.Length1 == n && clean.Length2 == s
        invariant forall i', j' :: 0 <= i' < n && 0 <= j' < s && (i' < i || (i' == i && j' < j)) ==>
          result[i', j'] == labels[i'][j']
        invariant clean != null ==> forall c, i', j' :: 0 <= c < NumClasses && 0 <= i' < n && 0 <= j' < s && (i' < i || (i' == i && j' < j)) ==>
          clean[c, i', j'] == histograms[i'][j'][c]
      {
        NoisySample(predictions, noise, i, j, result, clean);
      }
    }
    if clean != null {
      var counted: array3<nat> := clean;
      cleanVotes := Some(counted);
    } else {
      cleanVotes := None;
    }
  }

  /** With every noise value zero, noisy_max labels every sample exactly as
      aggregation_most_frequent does. */
  lemma ZeroNoiseAgreesEverywhere(predictions: array3<nat>, noise: array3<real>)
    requires noise.Length0 == NumClasses
    requires noise.Length1 == predictions.Length1 && noise.Length2 == predictions.Length2
    requires forall c, i, j :: 0 <= c < NumClasses && 0 <= i < noise.Length1 && 0 <= j < noise.Length2 ==>
      noise[c, i, j] == 0.0
    ensures forall i, j :: 0 <= i < predictions.Length1 && 0 <= j < predictions.Length2 ==>
      NoisyLabel(Column(predictions, i, j), NoiseColumn(noise, i, j)) == MostFrequentLabel(Column(predictions, i, j))
  {
  }

  /** With every noise value zero, the two aggregators return arrays of the
      same shape and the same entries. */
  method ZeroNoiseAgreement(predictions: array3<nat>, noise: array3<real>)
    returns (noisy: array2<int>, plain: array2<int>)
    requires noise.Length0 == NumClasses
    requires noise.Length1 == predictions.Length1 && noise.Length2 == predictions.Length2
    requires forall c, i, j :: 0 <= c < NumClasses && 0 <= i < noise.Length1 && 0 <= j < noise.Length2 ==>
      noise[c, i, j] == 0.0
    ensures noisy.Length0 == plain.Length0 == predictions.Length1
    ensures noisy.Length1 == plain.Length1 == predictions.Length2
    ensures forall i, j :: 0 <= i < noisy.Length0 && 0 <= j < noisy.Length1 ==> noisy[i, j] == plain[i, j]
  {
    var clean;
    noisy, clean := NoisyMax(predictions, noise, false);
    plain := AggregationMostFrequent(predictions);
    ZeroNoiseAgreesEverywhere(predictions, noise);
  }

  /** The counts of one sample sum to at most the number of teachers T, and to
      exactly T when every teacher's label is a class. */
  lemma SampleCountsConserved(predictions: array3<nat>, i: nat, j: nat)
    requires i < predictions.Length1 && j < predictions.Length2
    ensures Sum(Histogram(Column(predictions, i, j))) <= predictions.Length0
    ensures (forall t :: 0 <= t < predictions.Length0 ==> IsClass(predictions[t, i, j])) ==>
      Sum(Histogram(Column(predictions, i, j))) == predictions.Length0
  {
    CountsSumToTeachers(Column(predictions, i, j));
  }

  /** Three teachers voting 1, 2, 1 give the plurality label 1. */
  lemma TwoToOneExample()
    ensures MostFrequentLabel([1, 2, 1]) == 1
  {
    var votes: seq<nat> := [1, 2, 1];
    CountIsMultiplicity(votes, 1);
    CountIsMultiplicity(votes, MostFrequentLabel(votes));
  }

  /** Votes giving counts [3, 3, 1, 1, 1] select label 1: the tie between
      classes 1 and 2 goes to the lower class. */
  lemma TieExample()
    ensures MostFrequentLabel([1, 1, 1, 2, 2, 2, 3, 4, 5]) == 1
  {
    var votes: seq<nat> := [1, 1, 1, 2, 2, 2, 3, 4, 5];
    CountIsMultiplicity(votes, 1);
    CountIsMultiplicity(votes, MostFrequentLabel(votes));
  }
}
