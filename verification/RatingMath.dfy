/** The rounded running mean kept on users and drivers (services/rating.py:14-20).

    Averages are hundredths. The code computes with floats and rounds their shortest
    decimal text; here the quotient is the exact rational. */
module RatingMath {
  import opened Models
  import opened Rounding

  datatype Tally = Tally(avg: Option<nat>, count: nat)

  const NoRatings := Tally(None, 0)

  /** _round_to_2(_incremental_avg(avg, count, score)) together with the count bump. */
  function AddScore(t: Tally, score: nat): Tally {
    var avg := if t.avg.Some? then t.avg.value else 0;
    Tally(Some(HalfUp(avg * t.count + 100 * score, t.count + 1)), t.count + 1)
  }

  /** The tally after a sequence of scores, oldest first. */
  function RunningMean(scores: seq<nat>): Tally {
    if scores == [] then NoRatings
    else AddScore(RunningMean(scores[..|scores| - 1]), scores[|scores| - 1])
  }

  function Sum(scores: seq<nat>): nat {
    if scores == [] then 0 else Sum(scores[..|scores| - 1]) + scores[|scores| - 1]
  }

  predicate ValidScores(scores: seq<nat>) {
    forall i :: 0 <= i < |scores| ==> 1 <= scores[i] <= 5
  }

  /** Count and presence: the average is missing exactly when nothing was rated. */
  lemma {:induction false} CountIsLength(scores: seq<nat>)
    ensures RunningMean(scores).count == |scores|
    ensures RunningMean(scores).avg.None? <==> scores == []
  {
    if scores != [] {
      CountIsLength(scores[..|scores| - 1]);
    }
  }

  /** |x| <= bound. */
  predicate Within(x: int, bound: int) {
    -bound <= x <= bound
  }

  /** Four times the error of avg as the mean of n scores with the given sum, times n. */
  function Drift(avg: int, n: int, sum: int): int {
    4 * (n * avg - 100 * sum)
  }

  /** Drift of one update: it adds at most (n + 1)/2 hundredths to n times the error. */
  lemma StepDrift(avg: nat, n: nat, score: nat, sum: nat, bound: int)
    requires Within(Drift(avg, n, sum), bound)
    ensures Within(Drift(HalfUp(avg * n + 100 * score, n + 1), n + 1, sum + score), bound + 2 * (n + 1))
  {
    var next := HalfUp(avg * n + 100 * score, n + 1);
    assert (2 * next) * (n + 1) == 2 * ((n + 1) * next);
    assert (2 * next + 2) * (n + 1) == 2 * ((n + 1) * next) + 2 * (n + 1);
    assert avg * n == n * avg;
  }

  /** The stored average of n scores is within (n + 1)/4 hundredths of the true mean:
      4 * |n * avg - 100 * sum| <= n * (n + 1). */
  lemma {:induction false} DriftBound(scores: seq<nat>)
    requires scores != []
    ensures RunningMean(scores).avg.Some?
    ensures Within(Drift(RunningMean(scores).avg.value, |scores|, Sum(scores)), |scores| * (|scores| + 1))
  {
    var init, last := scores[..|scores| - 1], scores[|scores| - 1];
    var n := |init|;
    CountIsLength(init);
    if init == [] {
      StepDrift(0, 0, last, 0, 0);
    } else {
      DriftBound(init);
      StepDrift(RunningMean(init).avg.value, n, last, Sum(init), n * (n + 1));
      Triangle(n);
    }
  }

  lemma Triangle(n: nat)
    ensures n * (n + 1) + 2 * (n + 1) == (n + 1) * (n + 2)
  {
  }

  /** One update keeps an average of scores between lo and hi (in hundredths) between them. */
  lemma StepRange(avg: nat, n: nat, score: nat, lo: nat, hi: nat)
    requires n == 0 || lo <= avg <= hi
    requires lo <= 100 * score <= hi
    ensures lo <= HalfUp(avg * n + 100 * score, n + 1) <= hi
  {
    var total := avg * n + 100 * score;
    assert lo * (n + 1) <= total <= hi * (n + 1) by {
      if n > 0 {
        MulLe(lo, avg, n);
        MulLe(avg, hi, n);
      }
    }
    HalfUpExact(lo, n + 1);
    HalfUpExact(hi, n + 1);
    assert (lo * (n + 1)) * (n + 1) <= total * (n + 1) by { MulLe(lo * (n + 1), total, n + 1); }
    assert total * (n + 1) <= (hi * (n + 1)) * (n + 1) by { MulLe(total, hi * (n + 1), n + 1); }
    HalfUpMonotone(lo * (n + 1), n + 1, total, n + 1);
    HalfUpMonotone(total, n + 1, hi * (n + 1), n + 1);
  }

  lemma HalfUpExact(k: nat, d: nat)
    requires d > 0
    ensures HalfUp(k * d, d) == k
  {
    assert (2 * k) * d == 2 * (k * d);
    assert (2 * k + 2) * d == 2 * (k * d) + 2 * d;
    HalfUpUnique(k * d, d, k);
  }

  /** Averages of scores 1..5 stay within [1.00, 5.00]. */
  lemma {:induction false} MeanInRange(scores: seq<nat>)
    requires scores != [] && ValidScores(scores)
    ensures RunningMean(scores).avg.Some? && 100 <= RunningMean(scores).avg.value <= 500
  {
    var init, last := scores[..|scores| - 1], scores[|scores| - 1];
    CountIsLength(init);
    if init != [] {
      MeanInRange(init);
    }
    StepRange(if init == [] then 0 else RunningMean(init).avg.value, |init|, last, 100, 500);
  }

  /** Exactly when a new score moves a stored average: the score must differ from it by at
      least half a hundredth times the new count (strictly, when the score is lower). */
  lemma MovesExactlyWhen(avg: nat, n: nat, score: nat)
    ensures AddScore(Tally(Some(avg), n), score).avg == Some(avg)
            <==> !(2 * (100 * score - avg) >= n + 1 || 2 * (avg - 100 * score) > n + 1)
  {
    var total := avg * n + 100 * score;
    var gap := 100 * score - avg;
    assert total == avg * (n + 1) + gap;
    assert (2 * avg) * (n + 1) == 2 * (avg * (n + 1));
    assert (2 * avg + 2) * (n + 1) == 2 * (avg * (n + 1)) + 2 * (n + 1);
    if !(2 * gap >= n + 1 || -2 * gap > n + 1) {
      HalfUpUnique(total, n + 1, avg);
    }
  }

  /** Resolution limit: from 800 ratings on, no single score moves an average in [1.00, 5.00]. */
  lemma FrozenFrom800(avg: nat, n: nat, score: nat)
    requires 100 <= avg <= 500 && 1 <= score <= 5 && n >= 800
    ensures AddScore(Tally(Some(avg), n), score) == Tally(Some(avg), n + 1)
  {
    MovesExactlyWhen(avg, n, score);
  }

  function Ones(n: nat): seq<nat> {
    seq(n, i => 1)
  }

  lemma {:induction false} OnesMean(n: nat)
    requires n > 0
    ensures RunningMean(Ones(n)) == Tally(Some(100), n)
  {
    assert Ones(n)[..n - 1] == Ones(n - 1);
    if n > 1 {
      OnesMean(n - 1);
    }
    HalfUpExact(100, n);
  }

  /** ... and 800 is tight: after 799 ones a five still moves 1.00 to 1.01. */
  lemma StillMovesAt799()
    ensures RunningMean(Ones(799)) == Tally(Some(100), 799)
    ensures RunningMean(Ones(799) + [5]) == Tally(Some(101), 800)
  {
    OnesMean(799);
    assert (Ones(799) + [5])[..799] == Ones(799);
  }

  /** Appending one score is one update. */
  lemma Append(scores: seq<nat>, score: nat)
    ensures RunningMean(scores + [score]) == AddScore(RunningMean(scores), score)
  {
    assert (scores + [score])[..|scores|] == scores;
  }
}
