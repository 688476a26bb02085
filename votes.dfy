/** The vote histogram of one sample: `np.bincount(votes, minlength=6)[1:6]`.
    Class labels are 1..NumClasses; label 0 (no vote) and any label above
    NumClasses fall outside the kept slice and are dropped. */
module Votes {

  /** The fixed size of the label space. */
  const NumClasses: nat := 5

  /** Labels that the histogram keeps. */
  predicate IsClass(vote: nat)
  {
    1 <= vote <= NumClasses
  }

  /** Number of votes in `votes` equal to `c`. */
  function CountOf(votes: seq<nat>, c: nat): nat
  {
    if |votes| == 0 then 0
    else CountOf(votes[..|votes| - 1], c) + (if votes[|votes| - 1] == c then 1 else 0)
  }

  /** Entry `k` counts the votes for class `k + 1`. */
  function Histogram(votes: seq<nat>): seq<nat>
  {
    seq(NumClasses, k requires 0 <= k < NumClasses => CountOf(votes, k + 1))
  }

  /** Number of votes that name a class, i.e. that the histogram keeps. */
  function ClassVotes(votes: seq<nat>): nat
  {
    if |votes| == 0 then 0
    else ClassVotes(votes[..|votes| - 1]) + (if IsClass(votes[|votes| - 1]) then 1 else 0)
  }

  function Sum(s: seq<nat>): nat
  {
    if |s| == 0 then 0 else s[0] + Sum(s[1..])
  }

  /** The count of `c` is its multiplicity in the multiset of votes. */
  lemma {:induction false} CountIsMultiplicity(votes: seq<nat>, c: nat)
    ensures CountOf(votes, c) == multiset(votes)[c]
  {
    if |votes| > 0 {
      var n := |votes| - 1;
      CountIsMultiplicity(votes[..n], c);
      assert votes == votes[..n] + [votes[n]];
    }
  }

  /** The count of `c` is the number of teachers whose vote is `c`. */
  lemma {:induction false} CountIsTeachers(votes: seq<nat>, c: nat)
    ensures CountOf(votes, c) == |set t | 0 <= t < |votes| && votes[t] == c|
  {
    if |votes| > 0 {
      var n := |votes| - 1;
      CountIsTeachers(votes[..n], c);
      var before := set t | 0 <= t < n && votes[..n][t] == c;
      var after := set t | 0 <= t < |votes| && votes[t] == c;
      assert n !in before;
      if votes[n] == c {
        assert after == before + {n};
      } else {
        assert after == before;
      }
    }
  }

  /** Appending one vote raises the count of its class by one when the vote
      names a class, and leaves the histogram unchanged otherwise. */
  lemma HistogramAppend(votes: seq<nat>, vote: nat)
    ensures IsClass(vote) ==>
      Histogram(votes + [vote]) == Histogram(votes)[vote - 1 := Histogram(votes)[vote - 1] + 1]
    ensures !IsClass(vote) ==> Histogram(votes + [vote]) == Histogram(votes)
  {
  }

  lemma {:induction false} SumIncrement(s: seq<nat>, k: nat)
    requires k < |s|
    ensures Sum(s[k := s[k] + 1]) == Sum(s) + 1
  {
    if k > 0 {
      SumIncrement(s[1..], k - 1);
      assert s[k := s[k] + 1][1..] == s[1..][k - 1 := s[k] + 1];
    }
  }

  /** Vote conservation: the histogram holds exactly the votes that name a
      class. */
  lemma {:induction false} VoteConservation(votes: seq<nat>)
    ensures Sum(Histogram(votes)) == ClassVotes(votes)
  {
    if |votes| == 0 {
      assert Histogram(votes) == [0, 0, 0, 0, 0];
      assert Sum([0, 0, 0]) == 0;
      assert Sum([0, 0, 0, 0, 0]) == Sum([0, 0, 0]);
    } else {
      var n := |votes| - 1;
      VoteConservation(votes[..n]);
      HistogramAppend(votes[..n], votes[n]);
      assert votes[..n] + [votes[n]] == votes;
      if IsClass(votes[n]) {
        SumIncrement(Histogram(votes[..n]), votes[n] - 1);
      }
    }
  }

  lemma {:induction false} ClassVotesBounds(votes: seq<nat>)
    ensures ClassVotes(votes) <= |votes|
    ensures (forall t :: 0 <= t < |votes| ==> IsClass(votes[t])) ==> ClassVotes(votes) == |votes|
  {
    if |votes| > 0 {
      ClassVotesBounds(votes[..|votes| - 1]);
    }
  }

  /** The five counts of a sample sum to at most the number of teachers, and
      to exactly that number when every vote names a class. */
  lemma CountsSumToTeachers(votes: seq<nat>)
    ensures Sum(Histogram(votes)) <= |votes|
    ensures (forall t :: 0 <= t < |votes| ==> IsClass(votes[t])) ==> Sum(Histogram(votes)) == |votes|
  {
    VoteConservation(votes);
    ClassVotesBounds(votes);
  }
}
