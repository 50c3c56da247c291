/**
 * `Scoreboard.calculateScore`: maps a reaction time in milliseconds to a
 * percentile label through fifteen half-open intervals and a default.
 */
module Scoreboard {

  /** The sixteen labels, best first; the last one is the default. */
  const Labels: seq<string> := [
    "Top 0.94%", "Top 2.12%", "Top 3.62%", "Top 5.92%",
    "Top 9.47%", "Top 14.80%", "Top 22.05%", "Top 30.70%",
    "평균 이상", "평균", "평균 이하", "하위 22.13%",
    "하위 15.75%", "하위 10.36%", "하위 6.18%", "하위 3.69%"]

  /** Interval `i < 15` is `[Bounds[i], Bounds[i + 1])`. */
  const Bounds: seq<real> := [
    0.0, 110.0, 120.0, 130.0, 140.0, 150.0, 160.0, 190.0,
    250.0, 270.0, 300.0, 330.0, 350.0, 370.0, 400.0, 450.0]

  /** Index of the default label. */
  const DefaultIndex: nat := 15

  /** The switch as written, case by case. */
  function CalculateScore(time: real): (score: string)
    ensures score in Labels
  {
    if 0.0 <= time < 110.0 then "Top 0.94%"
    else if 110.0 <= time < 120.0 then "Top 2.12%"
    else if 120.0 <= time < 130.0 then "Top 3.62%"
    else if 130.0 <= time < 140.0 then "Top 5.92%"
    else if 140.0 <= time < 150.0 then "Top 9.47%"
    else if 150.0 <= time < 160.0 then "Top 14.80%"
    else if 160.0 <= time < 190.0 then "Top 22.05%"
    else if 190.0 <= time < 250.0 then "Top 30.70%"
    else if 250.0 <= time < 270.0 then "평균 이상"
    else if 270.0 <= time < 300.0 then "평균"
    else if 300.0 <= time < 330.0 then "평균 이하"
    else if 330.0 <= time < 350.0 then "하위 22.13%"
    else if 350.0 <= time < 370.0 then "하위 15.75%"
    else if 370.0 <= time < 400.0 then "하위 10.36%"
    else if 400.0 <= time < 450.0 then "하위 6.18%"
    else "하위 3.69%"
  }

  predicate InInterval(time: real, i: nat)
    requires i < DefaultIndex
  {
    Bounds[i] <= time < Bounds[i + 1]
  }

  /** The bounds strictly increase. */
  lemma BoundsIncrease(i: nat, j: nat)
    requires i < j < |Bounds|
    ensures Bounds[i] < Bounds[j]
  {
  }

  /** Reference lookup: scan the table from interval `i` upwards. */
  function ScanFrom(time: real, i: nat): (k: nat)
    requires i <= DefaultIndex
    ensures i <= k <= DefaultIndex
    ensures k < DefaultIndex ==> InInterval(time, k)
    decreases DefaultIndex - i
  {
    if i == DefaultIndex then DefaultIndex
    else if InInterval(time, i) then i
    else ScanFrom(time, i + 1)
  }

  function BucketIndex(time: real): (k: nat)
    ensures k <= DefaultIndex
  {
    ScanFrom(time, 0)
  }

  /** The scan stops at the one interval that holds `time`. */
  lemma {:induction false} ScanFindsInterval(time: real, i: nat, j: nat)
    requires i <= j < DefaultIndex
    requires InInterval(time, j)
    ensures ScanFrom(time, i) == j
    decreases j - i
  {
    if i < j {
      if i + 1 < j {
        BoundsIncrease(i + 1, j);
      }
      ScanFindsInterval(time, i + 1, j);
    }
  }

  /** The scan reaches the default exactly for times outside `[0, 450)`. */
  lemma {:induction false} ScanDefault(time: real, i: nat)
    requires i <= DefaultIndex
    requires Bounds[i] <= time || i == 0
    ensures ScanFrom(time, i) == DefaultIndex <==> time < Bounds[i] || time >= Bounds[DefaultIndex]
    decreases DefaultIndex - i
  {
    if i < DefaultIndex && !InInterval(time, i) {
      if time >= Bounds[i] {
        ScanDefault(time, i + 1);
      } else {
        assert i == 0;
        assert ScanFrom(time, i + 1) == DefaultIndex by {
          if ScanFrom(time, i + 1) < DefaultIndex {
            BoundsIncrease(0, ScanFrom(time, i + 1));
          }
        }
      }
    }
  }

  /** The case-by-case switch agrees with the table lookup everywhere. */
  lemma ScoreIsTableLookup(time: real)
    ensures CalculateScore(time) == Labels[BucketIndex(time)]
  {
    var k := BucketIndex(time);
    ScanDefault(time, 0);
    if k < DefaultIndex {
      assert InInterval(time, k);
    }
  }

  /** Every label is distinct, so the label determines the interval. */
  lemma LabelsDistinct(i: nat, j: nat)
    requires i < j < |Labels|
    ensures Labels[i] != Labels[j]
  {
  }

  /** Each interval returns its label, lower end included, upper end excluded. */
  lemma IntervalLabel(time: real, i: nat)
    requires i < DefaultIndex
    requires Bounds[i] <= time < Bounds[i + 1]
    ensures CalculateScore(time) == Labels[i]
  {
    ScanFindsInterval(time, 0, i);
    ScoreIsTableLookup(time);
  }

  /** Boundary values belong to the upper interval. */
  lemma BoundariesGoUp()
    ensures CalculateScore(110.0) == "Top 2.12%"
    ensures CalculateScore(250.0) == "평균 이상"
    ensures CalculateScore(450.0) == "하위 3.69%"
  {
  }

  /** Every time at or above 450, and every negative time, gets the default label. */
  lemma OutsideTableIsDefault(time: real)
    requires time < 0.0 || time >= 450.0
    ensures CalculateScore(time) == Labels[DefaultIndex]
    ensures CalculateScore(time) == "하위 3.69%"
  {
  }

  /** A smaller bound sits at a smaller index. */
  lemma BoundsReflectOrder(i: nat, k: nat)
    requires i < |Bounds| && k < |Bounds|
    requires Bounds[i] < Bounds[k]
    ensures i < k
  {
  }

  /** On `[0, ∞)` a later time never gets a better bucket. */
  lemma BucketMonotonic(a: real, b: real)
    requires 0.0 <= a <= b
    ensures BucketIndex(a) <= BucketIndex(b)
  {
    var i, j := BucketIndex(a), BucketIndex(b);
    ScanDefault(a, 0);
    assert Bounds[i] <= a;
    if j < DefaultIndex {
      BoundsReflectOrder(i, j + 1);
    }
  }

  /** Two times in the same interval get the same label. */
  lemma SameIntervalSameLabel(a: real, b: real, i: nat)
    requires i < DefaultIndex
    requires InInterval(a, i) && InInterval(b, i)
    ensures CalculateScore(a) == CalculateScore(b)
  {
    IntervalLabel(a, i);
    IntervalLabel(b, i);
  }
}
