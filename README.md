# Teacher-ensemble vote aggregation

A Dafny model of the aggregation step of PATE (Private Aggregation of Teacher
Ensembles), as implemented in
`research/differential_privacy/multiple_teachers/netflix_aggregation.py`.
Each of T teachers has labelled N × S samples with a class in 1..5.
The step turns these votes into one label per sample.

- `labels_from_probs` turns score vectors into class indices by argmax
  (module `Labels`, file `labels.dfy`).
- The per-sample histogram `np.bincount(votes, minlength=6)[1:6]` counts the
  votes for classes 1..5. Label 0 and labels above 5 are dropped (module
  `Votes`, file `votes.dfy`).
- `aggregation_most_frequent` picks the class with the most votes for each
  sample. `noisy_max` adds one noise value to each class's count and then
  picks the class with the largest score. It can also return the noise-free
  counts (module `Aggregation`, file `aggregation.dfy`).

The prediction tensor is an `array3<nat>` of shape `[T, N, S]`. The label
tensors are fresh `array2<int>` arrays of shape `[N, S]`. The clean-vote
tensor is a fresh `array3<nat>` of shape `[5, N, S]`. Both aggregators are
methods with nested loops that fill these arrays in place, as the source
does. Each method is proved against a per-sample specification function.
`MostFrequentLabel` gives the plurality label of one sample. `NoisyLabel`
gives its noisy label. Each function states its selection rule in its own
contract, in terms of the vote counts.

The Laplace draws are not sampled. They are an input: a `[5, N, S]` array of
reals, one independent value per class and sample. The model states the
selection rule for any such noise. It also proves that zero noise gives the
deterministic aggregator's labels.

Where the code and the documented design of the mechanism differ, the model
follows the code:
- The code does not reject T = 0. A sample with no votes gets all-zero counts
  and label 1.
- The code does not validate `lap_scale`.
- The code silently drops labels above 5 instead of reporting them.

## Model

| member | source | states |
|---|---|---|
| `Labels.ArgMax` | research/differential_privacy/multiple_teachers/netflix_aggregation.py:37 | the index returned is in range, no score exceeds the score at that index, and every earlier score is strictly smaller (argmax with ties going to the lowest index) |
| `Labels.FirstMaxIsArgMax` | research/differential_privacy/multiple_teachers/netflix_aggregation.py:37 | the first-maximum property determines the index: any index with it equals ArgMax |
| `Labels.LabelsFromProbs` | research/differential_privacy/multiple_teachers/netflix_aggregation.py:25-40 | one label per score vector; each label lies in [0, K-1] for a vector of length K and is the first index of that vector's maximum |
| `Labels.TieGoesToLowerIndex` | research/differential_privacy/multiple_teachers/netflix_aggregation.py:125 | scores [3, 3, 1, 1, 1] select index 0 |
| `Votes.CountIsMultiplicity` | research/differential_privacy/multiple_teachers/netflix_aggregation.py:75 | the count of class c is the multiplicity of c among the votes, as bincount computes it |
| `Votes.CountIsTeachers` | research/differential_privacy/multiple_teachers/netflix_aggregation.py:120 | the count of class c is the number of teachers t whose vote is c |
| `Votes.HistogramAppend` | research/differential_privacy/multiple_teachers/netflix_aggregation.py:75 | one more vote for a class in 1..5 raises that class's count by one; a vote of 0 or above 5 leaves all five counts unchanged |
| `Votes.VoteConservation` | research/differential_privacy/multiple_teachers/netflix_aggregation.py:120 | the five counts sum to the number of votes that lie in 1..5 |
| `Votes.CountsSumToTeachers` | research/differential_privacy/multiple_teachers/netflix_aggregation.py:75 | the five counts sum to at most the number of teachers, and to exactly that number when every vote lies in 1..5 |
| `Aggregation.MostFrequentLabel` | research/differential_privacy/multiple_teachers/netflix_aggregation.py:120-125 | the label lies in 1..5, has a vote count at least that of every class, and has a count strictly greater than that of every lower class |
| `Aggregation.NoisyLabel` | research/differential_privacy/multiple_teachers/netflix_aggregation.py:81-88 | the label lies in 1..5 and maximises count plus noise over the five classes; every lower class has a strictly smaller noisy score |
| `Aggregation.ZeroNoiseIsMostFrequent` | research/differential_privacy/multiple_teachers/netflix_aggregation.py:84-88 | with all five noise values zero, the noisy label of a sample equals its plurality label |
| `Aggregation.BinCount` | research/differential_privacy/multiple_teachers/netflix_aggregation.py:75 | one pass over the teachers yields exactly the histogram of the sample's votes |
| `Aggregation.AggregationMostFrequent` | research/differential_privacy/multiple_teachers/netflix_aggregation.py:103-127 | returns a fresh N × S array whose entry (i, j) is the plurality label of sample (i, j), so every entry lies in 1..5 |
| `Aggregation.NoisyArgMax` | research/differential_privacy/multiple_teachers/netflix_aggregation.py:80-88 | after each count is cast to a real and its own noise value is added in place, the result is 1 + the first index of the maximal noisy score, so it lies in 1..5 |
| `Aggregation.StoreCounts` | research/differential_privacy/multiple_teachers/netflix_aggregation.py:77-78 | column (i, j) of the clean-vote array receives the counts; every other entry is kept |
| `Aggregation.NoisySample` | research/differential_privacy/multiple_teachers/netflix_aggregation.py:74-88 | one sample step writes the noisy label at (i, j) and, when clean votes are kept, that sample's counts; nothing else changes |
| `Aggregation.NoisyMax` | research/differential_privacy/multiple_teachers/netflix_aggregation.py:43-100 | returns a fresh N × S array whose entry (i, j) is the noisy label of sample (i, j) under its own five noise values, so every entry lies in 1..5; clean votes are returned exactly when requested, as a fresh 5 × N × S array holding the noise-free counts |
| `Aggregation.ZeroNoiseAgreesEverywhere` | research/differential_privacy/multiple_teachers/netflix_aggregation.py:81-88 | when every supplied noise value is zero, every sample's noisy label equals its plurality label, so noisy_max and aggregation_most_frequent return the same array |
| `Aggregation.ZeroNoiseAgreement` | research/differential_privacy/multiple_teachers/netflix_aggregation.py:43-127 | with every supplied noise value zero, the arrays returned by noisy_max and aggregation_most_frequent have the same shape and equal entries |
| `Aggregation.SampleCountsConserved` | research/differential_privacy/multiple_teachers/netflix_aggregation.py:120 | for every sample, the five counts sum to at most T, and to exactly T when every teacher's label lies in 1..5 |
| `Aggregation.TwoToOneExample` | research/differential_privacy/multiple_teachers/netflix_aggregation.py:120-125 | votes 1, 2, 1 give the plurality label 1 |
| `Aggregation.TieExample` | research/differential_privacy/multiple_teachers/netflix_aggregation.py:120-125 | votes giving counts [3, 3, 1, 1, 1] give label 1: the tie goes to the lower class |

## Left out

- Sampling the noise with `np.random.laplace` (line 85) is not modelled. The noise is an input array, so `lap_scale` plays no part, and no privacy (epsilon, delta) guarantee is stated.
- The float32 cast of the counts (line 81) is modelled as exact `real` arithmetic. Rounding of the noisy scores, NaN and infinities are not modelled.
- The float buffers that hold `result` and `clean_votes`, and the final `int32` casts, are not modelled. Labels are `int` and clean votes are `nat`.
- The progress message printed every 100 rows (lines 72-73) is I/O and is not modelled.
- Negative labels, which make `np.bincount` raise, are excluded by the element type `nat` of the prediction array.
- `noisy_max` returns a bare array when clean votes are not requested. The model always returns a pair and signals the missing clean votes with `None`.
- LabelsFromProbs: models only score tensors of rank 2, as a sequence of score vectors, not tensors of any rank. An empty last axis, on which `np.argmax` raises, is excluded by its precondition.
