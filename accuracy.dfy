/** Scoring of predictions against ground-truth labels
    (menstrual_prediction_algorithm/accuracy.py). Each scorer returns the
    ratio, the number of correct predictions and the number considered, and
    raises ZeroDivisionError when nothing is considered. */
module Accuracy {
  import opened Common

  /** The default half-width of the ovulation forgiveness window. */
  const DEFAULT_OVULATION_FORGIVENESS_WINDOW_DAYS: int := 3

  /** (accuracy, total_correct, total_considered). */
  datatype Score = Score(ratio: real, correct: int, considered: int)

  /** The division the scorers end with. */
  function Ratio(correct: int, considered: int): (r: Result<Score>)
    ensures r.Err? <==> considered == 0
    ensures r.Err? ==> r.error == ZeroDivisionError
    ensures r.Ok? ==> r.value.correct == correct && r.value.considered == considered
                      && r.value.ratio * considered as real == correct as real
  {
    if considered == 0 then Err(ZeroDivisionError)
    else Ok(Score(correct as real / considered as real, correct, considered))
  }

  // ---------------------------------------------------------------------
  // compute_accuracy: exact day-by-day agreement from the warmup on.

  /** A non-missing day is scored correct when a luteal or ovulation day is
      predicted, or when any other day is not. */
  predicate DayCorrect(l: Label, predicted: bool)
  {
    if l == Luteal || l == Ovulation then predicted else !predicted
  }

  datatype Tally = Tally(correct: nat, missing: nat)

  /** Python's `labels[i]` for an index the loop is known to reach safely. */
  function At(labels: seq<Label>, i: int): Label
    requires -|labels| <= i < |labels|
  {
    if i < 0 then labels[|labels| + i] else labels[i]
  }

  /** Reference definition: the counters after the days lo .. k-1. */
  function AccuracyTally(labels: seq<Label>, preds: set<int>, lo: int, k: int): Tally
    requires -|labels| <= lo && k <= |labels|
    decreases k - lo
  {
    if k <= lo then Tally(0, 0)
    else
      var t := AccuracyTally(labels, preds, lo, k - 1);
      var l := At(labels, k - 1);
      if l == Missing then Tally(t.correct, t.missing + 1)
      else if DayCorrect(l, k - 1 in preds) then Tally(t.correct + 1, t.missing)
      else t
  }

  /** What compute_accuracy returns or raises. A warmup below -len(labels)
      makes the first `labels[i]` raise IndexError; a negative warmup
      otherwise reads the wrapped-around labels. */
  function AccuracyResult(labels: seq<Label>, preds: set<int>, warmup: int): Result<Score>
  {
    if warmup < -|labels| then Err(IndexError)
    else
      var t := if warmup < |labels| then AccuracyTally(labels, preds, warmup, |labels|) else Tally(0, 0);
      Ratio(t.correct, |labels| - t.missing - warmup)
  }

  /** compute_accuracy. */
  method ComputeAccuracy(labels: seq<Label>, lutealPreds: set<int>, warmup: int) returns (r: Result<Score>)
    ensures r == AccuracyResult(labels, lutealPreds, warmup)
  {
    var totalCorrect: nat := 0;
    var totalMissing: nat := 0;
    var i := warmup;
    while i < |labels|
      invariant warmup <= i
      invariant warmup < |labels| ==> i <= |labels|
      invariant warmup >= |labels| ==> i == warmup
      invariant i > warmup ==> -|labels| <= warmup
      invariant i == warmup ==> totalCorrect == 0 && totalMissing == 0
      invariant -|labels| <= warmup && warmup < |labels| ==>
                  Tally(totalCorrect, totalMissing) == AccuracyTally(labels, lutealPreds, warmup, i)
      decreases |labels| - i
    {
      var entry := PyIndex(labels, i);
      if entry.Err? {
        return Err(entry.error);
      }
      if entry.value == Missing {
        totalMissing := totalMissing + 1;
      } else if entry.value == Luteal || entry.value == Ovulation {
        if i in lutealPreds {
          totalCorrect := totalCorrect + 1;
        }
      } else if !(i in lutealPreds) {
        totalCorrect := totalCorrect + 1;
      }
      i := i + 1;
    }
    var considered := |labels| - totalMissing - warmup;
    if considered == 0 {
      return Err(ZeroDivisionError);
    }
    return Ok(Score(totalCorrect as real / considered as real, totalCorrect, considered));
  }

  /** Every day counted is either correct or missing, at most once. */
  lemma {:induction false} AccuracyTallyBound(labels: seq<Label>, preds: set<int>, lo: int, k: int)
    requires -|labels| <= lo <= k <= |labels|
    ensures AccuracyTally(labels, preds, lo, k).correct + AccuracyTally(labels, preds, lo, k).missing <= k - lo
    decreases k - lo
  {
    if k > lo {
      AccuracyTallyBound(labels, preds, lo, k - 1);
    }
  }

  /** From a non-negative start, the missing counter is the number of
      'missing' labels among the days read. */
  lemma {:induction false} AccuracyTallyMissing(labels: seq<Label>, preds: set<int>, lo: int, k: int)
    requires 0 <= lo <= k <= |labels|
    ensures AccuracyTally(labels, preds, lo, k).missing == Count(labels[lo..k], Missing)
    decreases k - lo
  {
    if k > lo {
      AccuracyTallyMissing(labels, preds, lo, k - 1);
      assert labels[lo..k][..k - 1 - lo] == labels[lo..k - 1];
    }
  }

  /** When the warmup lies inside the labels, the denominator is the number
      of non-missing days from the warmup on, and 0 <= correct <= considered. */
  lemma AccuracyCounts(labels: seq<Label>, preds: set<int>, warmup: int)
    requires 0 <= warmup < |labels|
    requires AccuracyResult(labels, preds, warmup).Ok?
    ensures var s := AccuracyResult(labels, preds, warmup).value;
            && s.considered == |labels| - warmup - Count(labels[warmup..], Missing)
            && 0 <= s.correct <= s.considered
            && 0.0 <= s.ratio <= 1.0
  {
    var t := AccuracyTally(labels, preds, warmup, |labels|);
    var considered := |labels| - t.missing - warmup;
    AccuracyTallyBound(labels, preds, warmup, |labels|);
    AccuracyTallyMissing(labels, preds, warmup, |labels|);
    assert labels[warmup..|labels|] == labels[warmup..];
    assert AccuracyResult(labels, preds, warmup) == Ratio(t.correct, considered);
    assert considered == |labels| - warmup - Count(labels[warmup..], Missing);
    assert 0 <= t.correct <= considered;
    RatioBounds(t.correct, considered);
  }

  /** A count over a positive number of cases is a ratio between 0 and 1. */
  lemma RatioBounds(correct: int, considered: int)
    requires 0 <= correct <= considered && considered != 0
    ensures 0.0 <= correct as real / considered as real <= 1.0
  {
    var c, d := correct as real, considered as real;
    assert c / d <= d / d;
  }

  /** Two prediction sets that agree on every day from the warmup up to the
      end of the labels leave the counters alike. */
  lemma {:induction false} AccuracyTallyAgrees(labels: seq<Label>, p: set<int>, q: set<int>, lo: int, k: int)
    requires -|labels| <= lo <= k <= |labels|
    requires forall i :: lo <= i < k ==> (i in p <==> i in q)
    ensures AccuracyTally(labels, p, lo, k) == AccuracyTally(labels, q, lo, k)
    decreases k - lo
  {
    if k > lo {
      AccuracyTallyAgrees(labels, p, q, lo, k - 1);
    }
  }

  /** Predictions before the warmup or past the last label do not change
      compute_accuracy's result. */
  lemma PredictionsOutsideIgnored(labels: seq<Label>, p: set<int>, q: set<int>, warmup: int)
    requires forall i :: warmup <= i < |labels| ==> (i in p <==> i in q)
    ensures AccuracyResult(labels, p, warmup) == AccuracyResult(labels, q, warmup)
  {
    if -|labels| <= warmup < |labels| {
      AccuracyTallyAgrees(labels, p, q, warmup, |labels|);
    }
  }

  /** Predicting exactly the luteal and ovulation days scores every
      considered day correct. */
  lemma {:induction false} PerfectTally(labels: seq<Label>, preds: set<int>, lo: int, k: int)
    requires 0 <= lo <= k <= |labels|
    requires forall i :: lo <= i < k ==> (i in preds <==> labels[i] == Luteal || labels[i] == Ovulation)
    ensures AccuracyTally(labels, preds, lo, k).correct + AccuracyTally(labels, preds, lo, k).missing == k - lo
    decreases k - lo
  {
    if k > lo {
      PerfectTally(labels, preds, lo, k - 1);
    }
  }

  lemma PerfectPredictionsScoreOne(labels: seq<Label>, preds: set<int>, warmup: int)
    requires 0 <= warmup < |labels|
    requires forall i :: warmup <= i < |labels| ==> (i in preds <==> labels[i] == Luteal || labels[i] == Ovulation)
    requires AccuracyResult(labels, preds, warmup).Ok?
    ensures AccuracyResult(labels, preds, warmup).value.ratio == 1.0
  {
    var t := AccuracyTally(labels, preds, warmup, |labels|);
    var considered := |labels| - t.missing - warmup;
    PerfectTally(labels, preds, warmup, |labels|);
    assert AccuracyResult(labels, preds, warmup) == Ratio(t.correct, considered);
    assert t.correct == considered;
    assert considered != 0;
    SelfRatio(considered);
  }

  /** A count divided by itself is 1. */
  lemma SelfRatio(c: int)
    requires c != 0
    ensures c as real / c as real == 1.0
  {
  }

  /** A tail of only 'missing' labels leaves nothing to divide by. */
  lemma {:induction false} AllMissingTally(labels: seq<Label>, preds: set<int>, lo: int, k: int)
    requires 0 <= lo <= k <= |labels|
    requires forall i :: lo <= i < k ==> labels[i] == Missing
    ensures AccuracyTally(labels, preds, lo, k) == Tally(0, k - lo)
    decreases k - lo
  {
    if k > lo {
      AllMissingTally(labels, preds, lo, k - 1);
    }
  }

  lemma AllMissingRaises(labels: seq<Label>, preds: set<int>, warmup: int)
    requires 0 <= warmup <= |labels|
    requires forall i :: warmup <= i < |labels| ==> labels[i] == Missing
    ensures AccuracyResult(labels, preds, warmup) == Err(ZeroDivisionError)
  {
    if warmup < |labels| {
      AllMissingTally(labels, preds, warmup, |labels|);
    }
  }

  /** Follicular, luteal, luteal, follicular with days 1 and 2 predicted:
      all four days are correct. */
  lemma AccuracyExample()
    ensures AccuracyResult([Follicular, Luteal, Luteal, Follicular], {1, 2}, 0) == Ok(Score(1.0, 4, 4))
  {
    var labels := [Follicular, Luteal, Luteal, Follicular];
    assert AccuracyTally(labels, {1, 2}, 0, 1) == Tally(1, 0);
    assert AccuracyTally(labels, {1, 2}, 0, 2) == Tally(2, 0);
    assert AccuracyTally(labels, {1, 2}, 0, 3) == Tally(3, 0);
    assert AccuracyTally(labels, {1, 2}, 0, 4) == Tally(4, 0);
  }

  // ---------------------------------------------------------------------
  // compute_ovulation_accuracy: a prediction is credited when an
  // 'ovulation' label lies within the forgiveness window around it.

  /** The inner loop `for j in range(j, hi): if labels[j] == 'ovulation': break`:
      Ok(true) when it breaks, Ok(false) when it runs out, and IndexError
      when `labels[j]` is out of Python's range before an ovulation is seen. */
  function ScanForOvulation(labels: seq<Label>, j: int, hi: int): Result<bool>
    decreases hi - j
  {
    if j >= hi then Ok(false)
    else
      match PyIndex(labels, j)
      case Err(e) => Err(e)
      case Ok(l) => if l == Ovulation then Ok(true) else ScanForOvulation(labels, j + 1, hi)
  }

  /** The scan of the window [i - w, i + w] around prediction i. */
  function WindowScan(labels: seq<Label>, i: int, w: int): Result<bool>
  {
    ScanForOvulation(labels, i - w, i + w + 1)
  }

  /** Index m of the window starting at j holds an ovulation, and every
      index before it is readable. */
  predicate FoundAt(labels: seq<Label>, j: int, m: int)
  {
    j <= m && PyIndex(labels, m) == Ok(Ovulation)
    && forall k :: j <= k < m ==> PyIndex(labels, k).Ok?
  }

  /** The scan finds an ovulation exactly when one lies in the window with
      every index before it readable. */
  lemma {:induction false} ScanFindsOvulation(labels: seq<Label>, j: int, hi: int)
    ensures ScanForOvulation(labels, j, hi) == Ok(true) <==> exists m :: m < hi && FoundAt(labels, j, m)
    decreases hi - j
  {
    if j < hi {
      ScanFindsOvulation(labels, j + 1, hi);
      var here := PyIndex(labels, j);
      if here == Ok(Ovulation) {
        assert FoundAt(labels, j, j);
      } else if here.Ok? {
        var next := j + 1;
        assert ScanForOvulation(labels, j, hi) == ScanForOvulation(labels, next, hi);
        if exists m :: m < hi && FoundAt(labels, next, m) {
          var m :| m < hi && FoundAt(labels, next, m);
          assert FoundAt(labels, j, m);
        }
        if exists m :: m < hi && FoundAt(labels, j, m) {
          var m :| m < hi && FoundAt(labels, j, m);
          assert FoundAt(labels, next, m);
        }
      }
    }
  }

  /** Index m of the window starting at j is unreadable, and every index
      before it is readable and not an ovulation. */
  predicate RaisesAt(labels: seq<Label>, j: int, m: int)
  {
    j <= m && PyIndex(labels, m).Err?
    && forall k :: j <= k < m ==> PyIndex(labels, k).Ok? && PyIndex(labels, k).value != Ovulation
  }

  /** The scan raises exactly when it reaches an unreadable index before any
      ovulation; what it raises is IndexError. */
  lemma {:induction false} ScanRaises(labels: seq<Label>, j: int, hi: int)
    ensures ScanForOvulation(labels, j, hi).Err? <==> exists m :: m < hi && RaisesAt(labels, j, m)
    ensures ScanForOvulation(labels, j, hi).Err? ==> ScanForOvulation(labels, j, hi).error == IndexError
    decreases hi - j
  {
    if j < hi {
      ScanRaises(labels, j + 1, hi);
      var here := PyIndex(labels, j);
      if here.Err? {
        assert RaisesAt(labels, j, j);
      } else if here.value != Ovulation {
        var next := j + 1;
        assert ScanForOvulation(labels, j, hi) == ScanForOvulation(labels, next, hi);
        if exists m :: m < hi && RaisesAt(labels, next, m) {
          var m :| m < hi && RaisesAt(labels, next, m);
          assert RaisesAt(labels, j, m);
        }
        if exists m :: m < hi && RaisesAt(labels, j, m) {
          var m :| m < hi && RaisesAt(labels, j, m);
          assert RaisesAt(labels, next, m);
        }
      }
    }
  }

  /** The predictions the loop credits. */
  function Credited(labels: seq<Label>, preds: set<int>, w: int): set<int>
  {
    set i | i in preds && WindowScan(labels, i, w) == Ok(true)
  }

  /** What compute_ovulation_accuracy returns or raises: an IndexError from
      any prediction's window aborts the loop, whatever the set's iteration
      order; the denominator counts the ovulation labels of labels[warmup:]. */
  ghost function OvulationResult(labels: seq<Label>, preds: set<int>, warmup: int, w: int): Result<Score>
  {
    if exists i :: i in preds && WindowScan(labels, i, w).Err? then Err(IndexError)
    else Ratio(|Credited(labels, preds, w)|, Count(PySlice(labels, warmup, |labels|), Ovulation))
  }

  /** The inner loop of compute_ovulation_accuracy: walks the window
      around prediction i and stops at the first ovulation or the first
      index that raises. */
  method ScanWindow(labels: seq<Label>, i: int, w: int) returns (r: Result<bool>)
    ensures r == WindowScan(labels, i, w)
    ensures r.Err? ==> r.error == IndexError
  {
    var j := i - w;
    while j < i + w + 1
      invariant WindowScan(labels, i, w) == ScanForOvulation(labels, j, i + w + 1)
      decreases i + w + 1 - j
    {
      var entry := PyIndex(labels, j);
      if entry.Err? {
        return Err(entry.error);
      }
      if entry.value == Ovulation {
        return Ok(true);
      }
      j := j + 1;
    }
    return Ok(false);
  }

  /** compute_ovulation_accuracy, visiting the predictions in an arbitrary order. */
  method ComputeOvulationAccuracy(labels: seq<Label>, ovulationPreds: set<int>, warmup: int, w: int)
    returns (r: Result<Score>)
    ensures r == OvulationResult(labels, ovulationPreds, warmup, w)
  {
    var totalCorrect := 0;
    var remaining := ovulationPreds;
    ghost var credited: set<int> := {};
    while |remaining| > 0
      invariant remaining <= ovulationPreds
      invariant forall i :: i in ovulationPreds && i !in remaining ==> WindowScan(labels, i, w).Ok?
      invariant credited == set i | i in ovulationPreds && i !in remaining && WindowScan(labels, i, w) == Ok(true)
      invariant totalCorrect == |credited|
      decreases |remaining|
    {
      ghost var someDay := Pick(remaining);
      var i :| i in remaining;
      var scan := ScanWindow(labels, i, w);
      if scan.Err? {
        assert i in ovulationPreds && WindowScan(labels, i, w).Err?;
        return Err(scan.error);
      }
      var found := scan.value;
      assert WindowScan(labels, i, w) == Ok(found);
      if found {
        assert i !in credited;
        credited := credited + {i};
        totalCorrect := totalCorrect + 1;
      }
      remaining := remaining - {i};
    }
    assert credited == Credited(labels, ovulationPreds, w);
    var totalConsidered := Count(PySlice(labels, warmup, |labels|), Ovulation);
    if totalConsidered == 0 {
      return Err(ZeroDivisionError);
    }
    return Ok(Score(totalCorrect as real / totalConsidered as real, totalCorrect, totalConsidered));
  }

  /** Each prediction is credited at most once, so total_correct <= |preds|. */
  lemma OvulationCorrectBounded(labels: seq<Label>, preds: set<int>, warmup: int, w: int)
    requires OvulationResult(labels, preds, warmup, w).Ok?
    ensures 0 <= OvulationResult(labels, preds, warmup, w).value.correct <= |preds|
  {
    SubsetCardinality(Credited(labels, preds, w), preds);
  }

  lemma {:induction false} SubsetCardinality(a: set<int>, b: set<int>)
    requires a <= b
    ensures |a| <= |b|
    decreases |b|
  {
    if |a| > 0 {
      var x := Pick(a);
      SubsetCardinality(a - {x}, b - {x});
    }
  }

  /** The warmup only moves the denominator: predictions are not filtered by it. */
  lemma OvulationWarmupOnlyInDenominator(labels: seq<Label>, preds: set<int>, w: int, warmup1: int, warmup2: int)
    requires OvulationResult(labels, preds, warmup1, w).Ok? && OvulationResult(labels, preds, warmup2, w).Ok?
    ensures OvulationResult(labels, preds, warmup1, w).value.correct
            == OvulationResult(labels, preds, warmup2, w).value.correct
  {
    var c := |Credited(labels, preds, w)|;
    assert OvulationResult(labels, preds, warmup1, w) == Ratio(c, Count(PySlice(labels, warmup1, |labels|), Ovulation));
    assert OvulationResult(labels, preds, warmup2, w) == Ratio(c, Count(PySlice(labels, warmup2, |labels|), Ovulation));
  }

  /** Two predictions one day apart, both within a day of the only
      ovulation: the ratio is 2. */
  lemma OvulationRatioAboveOne()
    ensures OvulationResult([Ovulation, Fertile, Fertile], {0, 1}, 0, 1) == Ok(Score(2.0, 2, 1))
  {
    var labels := [Ovulation, Fertile, Fertile];
    assert PyIndex(labels, -1) == Ok(Fertile);
    assert ScanForOvulation(labels, 0, 2) == Ok(true);
    assert WindowScan(labels, 0, 1) == Ok(true);
    assert WindowScan(labels, 1, 1) == Ok(true);
    assert Credited(labels, {0, 1}, 1) == {0, 1};
    assert PySlice(labels, 0, 3) == labels;
    assert labels[..2] == [Ovulation, Fertile];
    assert [Ovulation, Fertile][..1] == [Ovulation];
    assert Count(labels, Ovulation) == 1;
  }

  /** Day -1 of the window around day 0 is the last label: an ovulation at
      the end of the series credits a prediction at its start. */
  lemma OvulationWindowWraps()
    ensures WindowScan([Follicular, Follicular, Ovulation], 0, 1) == Ok(true)
  {
    assert PyIndex([Follicular, Follicular, Ovulation], -1) == Ok(Ovulation);
  }

  /** The window around the only day of a one-day series reaches index 1,
      which raises IndexError. */
  lemma OvulationWindowOverruns()
    ensures OvulationResult([Follicular], {0}, 0, 1) == Err(IndexError)
  {
    var labels := [Follicular];
    assert PyIndex(labels, -1) == Ok(Follicular);
    assert PyIndex(labels, 1) == Err(IndexError);
    assert ScanForOvulation(labels, 1, 2) == Err(IndexError);
    assert WindowScan(labels, 0, 1).Err?;
  }

  // ---------------------------------------------------------------------
  // compute_fertility_accuracy: a prediction is credited when its own day
  // is labelled ovulation or fertile.

  predicate FertileLabel(l: Label)
  {
    l == Ovulation || l == Fertile
  }

  function FertileCredited(labels: seq<Label>, preds: set<int>): set<int>
  {
    set i | i in preds && PyIndex(labels, i).Ok? && FertileLabel(PyIndex(labels, i).value)
  }

  /** What compute_fertility_accuracy returns or raises. */
  ghost function FertilityResult(labels: seq<Label>, preds: set<int>, warmup: int): Result<Score>
  {
    if exists i :: i in preds && PyIndex(labels, i).Err? then Err(IndexError)
    else
      var tail := PySlice(labels, warmup, |labels|);
      Ratio(|FertileCredited(labels, preds)|, Count(tail, Ovulation) + Count(tail, Fertile))
  }

  /** compute_fertility_accuracy, visiting the predictions in an arbitrary order. */
  method ComputeFertilityAccuracy(labels: seq<Label>, fertilityPreds: set<int>, warmup: int)
    returns (r: Result<Score>)
    ensures r == FertilityResult(labels, fertilityPreds, warmup)
  {
    var totalCorrect := 0;
    var remaining := fertilityPreds;
    ghost var credited: set<int> := {};
    while |remaining| > 0
      invariant remaining <= fertilityPreds
      invariant forall i :: i in fertilityPreds && i !in remaining ==> PyIndex(labels, i).Ok?
      invariant credited == set i | i in fertilityPreds && i !in remaining && PyIndex(labels, i).Ok?
                                    && FertileLabel(PyIndex(labels, i).value)
      invariant totalCorrect == |credited|
      decreases |remaining|
    {
      ghost var someDay := Pick(remaining);
      var i :| i in remaining;
      var entry := PyIndex(labels, i);
      if entry.Err? {
        return Err(entry.error);
      }
      if entry.value == Ovulation || entry.value == Fertile {
        assert i !in credited;
        credited := credited + {i};
        totalCorrect := totalCorrect + 1;
      }
      remaining := remaining - {i};
    }
    assert credited == FertileCredited(labels, fertilityPreds);
    var tail := PySlice(labels, warmup, |labels|);
    var totalConsidered := Count(tail, Ovulation) + Count(tail, Fertile);
    if totalConsidered == 0 {
      return Err(ZeroDivisionError);
    }
    return Ok(Score(totalCorrect as real / totalConsidered as real, totalCorrect, totalConsidered));
  }

  /** total_correct <= |fertility_preds|, and a prediction is credited
      exactly when its day carries an ovulation or fertile label. */
  lemma FertilityCorrectBounded(labels: seq<Label>, preds: set<int>, warmup: int)
    requires FertilityResult(labels, preds, warmup).Ok?
    ensures 0 <= FertilityResult(labels, preds, warmup).value.correct <= |preds|
    ensures forall i :: i in preds ==> (i in FertileCredited(labels, preds) <==> FertileLabel(PyIndex(labels, i).value))
  {
    SubsetCardinality(FertileCredited(labels, preds), preds);
    assert !exists i :: i in preds && PyIndex(labels, i).Err?;
  }
}
