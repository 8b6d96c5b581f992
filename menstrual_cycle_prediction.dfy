/** The period-adjusting predictor of menstrual_cycle_prediction.py: the
    weighted spike detector, extended with a fertile-window and ovulation
    projection, a period window after each spike, and a reset of the run
    clock whenever the ground-truth labels report the first day of a period. */
module MenstrualCyclePrediction {
  import opened Common
  import opened PredictionPrimitives

  // Module-level constants of the source.
  const FERTILE_DAYS_BEFORE_LUTEAL: int := 6  // the fertile days ending in the ovulation day
  const FERTILE_DAYS_DURING_LUTEAL: int := 3  // fertile days after the ovulation day
  const PERIOD_LENGTH_DAYS: int := 5
  const OVULATION_FORGIVENESS_WINDOW_DAYS: int := 3

  /** Python's `labels[:n]` for n >= 1. */
  function LabelPrefix(labels: seq<Label>, n: int): seq<Label>
    requires 1 <= n
  {
    labels[..if n <= |labels| then n else |labels|]
  }

  /** Python's `s.index(x)`: the first position holding x. */
  function FirstIndexOf(s: seq<Label>, x: Label): (r: nat)
    requires x in s
    ensures r < |s| && s[r] == x
    ensures forall k :: 0 <= k < r ==> s[k] != x
  {
    if s[0] == x then 0 else 1 + FirstIndexOf(s[1..], x)
  }

  /** The run size the predictor starts from (lines 96-100). */
  function InitialRunSize(labels: seq<Label>, n: int): (r: int)
    requires 1 <= n
    ensures 1 <= r <= n
  {
    if Period in LabelPrefix(labels, n) then n - FirstIndexOf(labels, Period) else n
  }

  /** The initial run size is n minus the first day labelled 'period' when
      one of the first n labels is 'period', and n otherwise. */
  lemma InitialRunSizeFromLabels(labels: seq<Label>, n: int)
    requires 1 <= n
    ensures var r := InitialRunSize(labels, n);
            && 1 <= r <= n
            && (r < n ==> labels[n - r] == Period && forall k :: 0 <= k < n - r ==> labels[k] != Period)
            && (r == n <==> (forall k :: 0 <= k < n && k < |labels| ==> labels[k] != Period)
                            || (|labels| > 0 && labels[0] == Period))
  {
    var prefix := LabelPrefix(labels, n);
    if Period in prefix {
      var first := FirstIndexOf(prefix, Period);
      assert prefix[first] == labels[first];
      assert forall k :: 0 <= k < first ==> prefix[k] == labels[k];
      assert FirstIndexOf(labels, Period) == first;
    } else {
      assert forall k :: 0 <= k < n && k < |labels| ==> labels[k] == prefix[k];
    }
  }

  /** The labels the loop can read: iteration i reads labels[i - 1], and
      labels[i] only when labels[i - 1] is not 'period' (the `and` of the
      recalibration test stops early). So the labels must be as long as the
      data, or one shorter and ending in 'period'. */
  predicate LabelsCover(data: seq<real>, labels: seq<Label>)
  {
    |data| <= |labels| || (|data| == |labels| + 1 && |labels| > 0 && labels[|labels| - 1] == Period)
  }

  /** The ground truth turns to 'period' on day i; labels[i] is read only
      when labels[i - 1] is not 'period'. */
  predicate Recalibrates(labels: seq<Label>, i: int)
    requires 1 <= i <= |labels|
    requires i < |labels| || labels[i - 1] == Period
  {
    labels[i - 1] != Period && labels[i] == Period
  }

  /** The fertile-window projection fires at the top of an iteration. */
  predicate Projects(st: RunState, n: int)
  {
    st.runSize == n - FERTILE_DAYS_BEFORE_LUTEAL && !st.spiked
  }

  /** The predictor after some prefix of days: run state and the four index lists. */
  datatype Predictor = Predictor(
    run: RunState,
    ovulation: seq<int>,
    fertility: seq<int>,
    spikes: seq<int>,
    period: seq<int>)

  /** One iteration of the loop, on day i. */
  function PeriodStep(data: seq<real>, labels: seq<Label>, n: int, i: int, p: Predictor): Predictor
    requires 1 <= n <= i < |data| && LabelsCover(data, labels)
  {
    var project := Projects(p.run, n);
    var exceeds := ExceedsWeighted(data, n, i, p.run);
    var spikeEnds := !exceeds && p.run.spiked;
    var next := Transition(p.run, data[i], WeightedThreshold(data, n, i, p.run));
    Predictor(
      if Recalibrates(labels, i) then RunState(1, false) else next,
      if project then p.ovulation + [i + FERTILE_DAYS_BEFORE_LUTEAL] else p.ovulation,
      if project then p.fertility + Consecutive(i, FERTILE_DAYS_BEFORE_LUTEAL + FERTILE_DAYS_DURING_LUTEAL)
      else p.fertility,
      if exceeds then p.spikes + [i] else p.spikes,
      if spikeEnds then p.period + Consecutive(i, PERIOD_LENGTH_DAYS) else p.period)
  }

  /** Reference definition: the predictor after the iterations for days n .. k-1. */
  function PeriodFold(data: seq<real>, labels: seq<Label>, n: int, k: int): Predictor
    requires 1 <= n <= k <= |data| && LabelsCover(data, labels)
    decreases k
  {
    if k == n then Predictor(RunState(InitialRunSize(labels, n), false), [], [], [], [])
    else PeriodStep(data, labels, n, k - 1, PeriodFold(data, labels, n, k - 1))
  }

  /** What period_adjusting_identify_weighted_windowed_spikes returns. */
  function PeriodAdjusting(data: seq<real>, labels: seq<Label>, n: int): Predictor
    requires 1 <= n
    requires |data| <= n || LabelsCover(data, labels)
  {
    if |data| <= n then Predictor(RunState(InitialRunSize(labels, n), false), [], [], [], [])
    else PeriodFold(data, labels, n, |data|)
  }

  /** The inner loops `for j in range(count): indices.append(i + j)`. */
  method AppendDays(indices: seq<int>, i: int, count: nat) returns (r: seq<int>)
    ensures r == indices + Consecutive(i, count)
  {
    r := indices;
    var j := 0;
    while j < count
      invariant 0 <= j <= count
      invariant r == indices + Consecutive(i, j)
    {
      assert Consecutive(i, j + 1) == Consecutive(i, j) + [i + j];
      r := r + [i + j];
      j := j + 1;
    }
  }

  /** period_adjusting_identify_weighted_windowed_spikes. Once the loop runs,
      the labels must cover it as LabelsCover says; shorter labels raise
      IndexError in the source. */
  method PeriodAdjustingIdentifyWeightedWindowedSpikes(data: seq<real>, labels: seq<Label>, n: int)
    returns (ovulationIndices: seq<int>, fertilityIndices: seq<int>, spikeIndices: seq<int>, periodIndices: seq<int>)
    requires 1 <= n
    requires |data| <= n || LabelsCover(data, labels)
    ensures var p := PeriodAdjusting(data, labels, n);
            ovulationIndices == p.ovulation && fertilityIndices == p.fertility
            && spikeIndices == p.spikes && periodIndices == p.period
    ensures |data| <= n ==> ovulationIndices == fertilityIndices == spikeIndices == periodIndices == []
  {
    var windowedSum := Sum(data[..if n <= |data| then n else |data|]);
    spikeIndices, ovulationIndices, fertilityIndices, periodIndices := [], [], [], [];
    var spikedRun := false;
    var currentRunSize;
    if Period in LabelPrefix(labels, n) {
      currentRunSize := n - FirstIndexOf(labels, Period);
    } else {
      currentRunSize := n;
    }
    if |data| <= n {
      return;
    }
    var i := n;
    while i < |data|
      invariant n <= i <= |data|
      invariant windowedSum == Sum(data[i - n..i])
      invariant PeriodFold(data, labels, n, i) ==
                Predictor(RunState(currentRunSize, spikedRun), ovulationIndices, fertilityIndices, spikeIndices, periodIndices)
    {
      PeriodFoldNext(data, labels, n, i, PeriodStep(data, labels, n, i, PeriodFold(data, labels, n, i)));
      windowedSum, currentRunSize, spikedRun, ovulationIndices, fertilityIndices, spikeIndices, periodIndices :=
        PeriodIteration(data, labels, n, i, windowedSum, currentRunSize, spikedRun,
                        ovulationIndices, fertilityIndices, spikeIndices, periodIndices);
      i := i + 1;
    }
  }

  /** The body of the loop for day i: the fertile-window projection, the
      weighted spike test with its period window, the slide of the windowed
      sum, the run clock, and the recalibration from the labels. */
  method PeriodIteration(data: seq<real>, labels: seq<Label>, n: int, i: int, windowedSum: real,
                         currentRunSize: int, spikedRun: bool, ovulationIndices: seq<int>,
                         fertilityIndices: seq<int>, spikeIndices: seq<int>, periodIndices: seq<int>)
    returns (windowedSum': real, currentRunSize': int, spikedRun': bool, ovulationIndices': seq<int>,
             fertilityIndices': seq<int>, spikeIndices': seq<int>, periodIndices': seq<int>)
    requires 1 <= n <= i < |data| && LabelsCover(data, labels)
    requires windowedSum == Sum(data[i - n..i])
    ensures windowedSum' == Sum(data[i + 1 - n..i + 1])
    ensures Predictor(RunState(currentRunSize', spikedRun'), ovulationIndices', fertilityIndices', spikeIndices', periodIndices')
            == PeriodStep(data, labels, n, i,
                 Predictor(RunState(currentRunSize, spikedRun), ovulationIndices, fertilityIndices, spikeIndices, periodIndices))
  {
    ghost var expected := PeriodStep(data, labels, n, i,
      Predictor(RunState(currentRunSize, spikedRun), ovulationIndices, fertilityIndices, spikeIndices, periodIndices));
    windowedSum', currentRunSize', spikedRun' := windowedSum, currentRunSize, spikedRun;
    ovulationIndices', fertilityIndices', spikeIndices', periodIndices' :=
      ovulationIndices, fertilityIndices, spikeIndices, periodIndices;
    if currentRunSize' == n - FERTILE_DAYS_BEFORE_LUTEAL && !spikedRun' {
      fertilityIndices' := AppendDays(fertilityIndices', i, FERTILE_DAYS_BEFORE_LUTEAL + FERTILE_DAYS_DURING_LUTEAL);
      ovulationIndices' := ovulationIndices' + [i + FERTILE_DAYS_BEFORE_LUTEAL];
    }
    assert ovulationIndices' == expected.ovulation && fertilityIndices' == expected.fertility;
    var exceeds := ExceedsThreshold(data, n, i, currentRunSize', spikedRun', windowedSum');
    if exceeds {
      if !spikedRun' {
        spikedRun' := true;
        currentRunSize' := 0;
      }
      spikeIndices' := spikeIndices' + [i];
    } else if spikedRun' {
      spikedRun' := false;
      periodIndices' := AppendDays(periodIndices', i, PERIOD_LENGTH_DAYS);
      currentRunSize' := 0;
    }
    assert spikeIndices' == expected.spikes && periodIndices' == expected.period;
    SumSlide(data, i - n, i);
    windowedSum' := windowedSum' + data[i] - data[i - n];
    assert windowedSum' == Sum(data[i + 1 - n..i + 1]);
    currentRunSize' := currentRunSize' + 1;
    if labels[i - 1] != Period && labels[i] == Period {
      currentRunSize' := 1;
      spikedRun' := false;
    }
  }

  // ---------------------------------------------------------------------
  // What one iteration does.

  /** One more day of the reference definition. */
  lemma PeriodFoldNext(data: seq<real>, labels: seq<Label>, n: int, i: int, next: Predictor)
    requires 1 <= n <= i < |data| && LabelsCover(data, labels)
    requires next == PeriodStep(data, labels, n, i, PeriodFold(data, labels, n, i))
    ensures PeriodFold(data, labels, n, i + 1) == next
  {
  }

  /** When the run clock stands at n - 6 outside a spike at the top of day i,
      the fertile window gains exactly the days i .. i+8 and the ovulation
      list gains day i+6; otherwise neither list changes. */
  lemma ProjectionOnDay(data: seq<real>, labels: seq<Label>, n: int, i: int)
    requires 1 <= n <= i < |data| && LabelsCover(data, labels)
    ensures var before := PeriodFold(data, labels, n, i);
            var after := PeriodFold(data, labels, n, i + 1);
            if before.run.runSize == n - 6 && !before.run.spiked then
              after.fertility == before.fertility + [i, i + 1, i + 2, i + 3, i + 4, i + 5, i + 6, i + 7, i + 8]
              && after.ovulation == before.ovulation + [i + 6]
            else
              after.fertility == before.fertility && after.ovulation == before.ovulation
  {
    var before := PeriodFold(data, labels, n, i);
    if Projects(before.run, n) {
      assert Consecutive(i, 9) == [i, i + 1, i + 2, i + 3, i + 4, i + 5, i + 6, i + 7, i + 8];
    }
  }

  /** A spike that ends on day i opens the period window i .. i+4 and the
      next day starts a new run of size 1. */
  lemma SpikeEndOnDay(data: seq<real>, labels: seq<Label>, n: int, i: int)
    requires 1 <= n <= i < |data| && LabelsCover(data, labels)
    requires PeriodFold(data, labels, n, i).run.spiked
    requires !ExceedsWeighted(data, n, i, PeriodFold(data, labels, n, i).run)
    ensures var after := PeriodFold(data, labels, n, i + 1);
            after.period == PeriodFold(data, labels, n, i).period + [i, i + 1, i + 2, i + 3, i + 4]
            && after.run == RunState(1, false)
  {
    assert Consecutive(i, 5) == [i, i + 1, i + 2, i + 3, i + 4];
  }

  /** A period reported on day i after a non-period day forces the run clock
      to 1 outside a spike, whatever the detector's own state was. */
  lemma RecalibrationOverrides(data: seq<real>, labels: seq<Label>, n: int, i: int)
    requires 1 <= n <= i < |data| && LabelsCover(data, labels)
    requires labels[i - 1] != Period && labels[i] == Period
    ensures PeriodFold(data, labels, n, i + 1).run == RunState(1, false)
  {
  }

  // ---------------------------------------------------------------------
  // What holds after any number of iterations.

  lemma ConsecutiveBounds(start: int, len: nat, x: int)
    requires x in Consecutive(start, len)
    ensures start <= x < start + len
  {
    var k :| 0 <= k < len && Consecutive(start, len)[k] == x;
  }

  /** The list facts kept after the days before k: nine fertile days per
      projected ovulation day, every ovulation day inside the fertile list,
      and the bounds of the three lists (a window projected on day k - 1
      may reach past it: ovulation to k + 5, fertility to k + 7, period to
      k + 3). */
  predicate ListsBounded(p: Predictor, n: int, k: int)
  {
    && |p.fertility| == 9 * |p.ovulation|
    && (forall x :: x in p.ovulation ==> x in p.fertility)
    && (forall x :: x in p.ovulation ==> n + 6 <= x <= k + 5)
    && (forall x :: x in p.fertility ==> n <= x <= k + 7)
    && (forall x :: x in p.period ==> n <= x <= k + 3)
  }

  /** The iteration on day k - 1 keeps the list facts, one day further on. */
  lemma ListsStep(data: seq<real>, labels: seq<Label>, n: int, k: int)
    requires 1 <= n < k <= |data| && LabelsCover(data, labels)
    requires ListsBounded(PeriodFold(data, labels, n, k - 1), n, k - 1)
    ensures ListsBounded(PeriodFold(data, labels, n, k), n, k)
  {
    var p := PeriodFold(data, labels, n, k - 1);
    var q := PeriodFold(data, labels, n, k);
    assert q.fertility == if Projects(p.run, n) then p.fertility + Consecutive(k - 1, 9) else p.fertility;
    assert q.ovulation == if Projects(p.run, n) then p.ovulation + [k + 5] else p.ovulation;
    assert q.period == p.period || q.period == p.period + Consecutive(k - 1, 5);
    if Projects(p.run, n) {
      assert k + 5 == Consecutive(k - 1, 9)[6];
      forall x | x in q.fertility ensures n <= x <= k + 7 {
        if x !in p.fertility { ConsecutiveBounds(k - 1, 9, x); }
      }
    }
    forall x | x in q.period ensures n <= x <= k + 3 {
      if x !in p.period { ConsecutiveBounds(k - 1, 5, x); }
    }
  }

  lemma {:induction false} PeriodFoldLists(data: seq<real>, labels: seq<Label>, n: int, k: int)
    requires 1 <= n <= k <= |data| && LabelsCover(data, labels)
    ensures ListsBounded(PeriodFold(data, labels, n, k), n, k)
    decreases k
  {
    if k > n {
      PeriodFoldLists(data, labels, n, k - 1);
      ListsStep(data, labels, n, k);
    }
  }

  /** Day i crosses the weighted threshold of the state the predictor is in
      at the top of that day. */
  predicate SpikesOn(data: seq<real>, labels: seq<Label>, n: int, i: int)
    requires 1 <= n <= i < |data| && LabelsCover(data, labels)
  {
    ExceedsWeighted(data, n, i, PeriodFold(data, labels, n, i).run)
  }

  lemma {:induction false} PeriodFoldSpikes(data: seq<real>, labels: seq<Label>, n: int, k: int)
    requires 1 <= n <= k <= |data| && LabelsCover(data, labels)
    ensures PeriodFold(data, labels, n, k).run.runSize >= 1
    ensures forall i :: i in PeriodFold(data, labels, n, k).spikes <==>
                          n <= i < k && SpikesOn(data, labels, n, i)
    decreases k
  {
    if k > n {
      PeriodFoldSpikes(data, labels, n, k - 1);
      SpikesStep(data, labels, n, k);
      var p := PeriodFold(data, labels, n, k - 1);
      var q := PeriodFold(data, labels, n, k);
      forall i
        ensures i in q.spikes <==> n <= i < k && SpikesOn(data, labels, n, i)
      {
        StepMembers(p.spikes, k - 1, ExceedsWeighted(data, n, k - 1, p.run), q.spikes, i);
      }
    }
  }

  /** The iteration on day k - 1 keeps the run clock positive and adds day
      k - 1 to the spikes exactly when it crosses the weighted threshold. */
  lemma SpikesStep(data: seq<real>, labels: seq<Label>, n: int, k: int)
    requires 1 <= n < k <= |data| && LabelsCover(data, labels)
    requires PeriodFold(data, labels, n, k - 1).run.runSize >= 1
    ensures PeriodFold(data, labels, n, k).run.runSize >= 1
    ensures var p := PeriodFold(data, labels, n, k - 1);
            PeriodFold(data, labels, n, k).spikes
              == if ExceedsWeighted(data, n, k - 1, p.run) then p.spikes + [k - 1] else p.spikes
  {
  }

  lemma {:induction false} PeriodFoldSpikesOrdered(data: seq<real>, labels: seq<Label>, n: int, k: int)
    requires 1 <= n <= k <= |data| && LabelsCover(data, labels)
    ensures StrictlyIncreasing(PeriodFold(data, labels, n, k).spikes)
    decreases k
  {
    if k > n {
      PeriodFoldSpikesOrdered(data, labels, n, k - 1);
      PeriodFoldSpikes(data, labels, n, k - 1);
      SpikesStep(data, labels, n, k);
      var p := PeriodFold(data, labels, n, k - 1);
      StepKeepsIncreasing(p.spikes, k - 1, ExceedsWeighted(data, n, k - 1, p.run), PeriodFold(data, labels, n, k).spikes);
    }
  }

  lemma {:induction false} PeriodFoldOvulationOrdered(data: seq<real>, labels: seq<Label>, n: int, k: int)
    requires 1 <= n <= k <= |data| && LabelsCover(data, labels)
    ensures StrictlyIncreasing(PeriodFold(data, labels, n, k).ovulation)
    decreases k
  {
    if k > n {
      PeriodFoldOvulationOrdered(data, labels, n, k - 1);
      var p := PeriodFold(data, labels, n, k - 1);
      if Projects(p.run, n) {
        PeriodFoldLists(data, labels, n, k - 1);
        AppendKeepsIncreasing(p.ovulation, k - 1 + 6);
      }
    }
  }

  /** Spike days and projected ovulation days are listed in increasing order. */
  lemma PeriodFoldOrdered(data: seq<real>, labels: seq<Label>, n: int, k: int)
    requires 1 <= n <= k <= |data| && LabelsCover(data, labels)
    ensures StrictlyIncreasing(PeriodFold(data, labels, n, k).spikes)
    ensures StrictlyIncreasing(PeriodFold(data, labels, n, k).ovulation)
  {
    PeriodFoldSpikesOrdered(data, labels, n, k);
    PeriodFoldOvulationOrdered(data, labels, n, k);
  }

  /** The fertile list holds nine days per projected ovulation and contains
      every projected ovulation day. */
  lemma FertilityCoversOvulation(data: seq<real>, labels: seq<Label>, n: int)
    requires 1 <= n
    requires |data| <= n || LabelsCover(data, labels)
    ensures var p := PeriodAdjusting(data, labels, n);
            |p.fertility| == 9 * |p.ovulation| && forall x :: x in p.ovulation ==> x in p.fertility
  {
    if |data| > n {
      PeriodFoldLists(data, labels, n, |data|);
    }
  }

  /** The projected indices are not checked against the length of the
      series: fertile days reach at most |data| + 7, ovulation days at most
      |data| + 5 and period days at most |data| + 3; none lies before day n. */
  lemma ProjectionBounds(data: seq<real>, labels: seq<Label>, n: int)
    requires 1 <= n
    requires |data| <= n || LabelsCover(data, labels)
    ensures var p := PeriodAdjusting(data, labels, n);
            && (forall x :: x in p.fertility ==> n <= x <= |data| + 7)
            && (forall x :: x in p.ovulation ==> n + 6 <= x <= |data| + 5)
            && (forall x :: x in p.period ==> n <= x <= |data| + 3)
  {
    if |data| > n {
      PeriodFoldLists(data, labels, n, |data|);
    }
  }

  /** The spike list is strictly increasing and holds exactly the days from n
      on that cross the weighted threshold of the state reached before them. */
  lemma PeriodSpikesCharacterized(data: seq<real>, labels: seq<Label>, n: int)
    requires 1 <= n
    requires |data| <= n || LabelsCover(data, labels)
    ensures StrictlyIncreasing(PeriodAdjusting(data, labels, n).spikes)
    ensures StrictlyIncreasing(PeriodAdjusting(data, labels, n).ovulation)
    ensures forall i :: i in PeriodAdjusting(data, labels, n).spikes <==>
                          n <= i < |data| && SpikesOn(data, labels, n, i)
  {
    if |data| > n {
      PeriodFoldSpikes(data, labels, n, |data|);
      PeriodFoldOrdered(data, labels, n, |data|);
    }
  }

  /** Labels one shorter than the data and ending in 'period' complete: the
      last day reads only labels[0], which is 'period', so the recalibration
      test never reads past the labels. Day 1 crosses the weighted threshold
      of the run clock started by that 'period' day. */
  lemma ShortLabelsEndingInPeriod()
    ensures PeriodAdjusting([1.0, 2.0], [Period], 1) == Predictor(RunState(1, true), [], [], [1], [])
  {
    var data, labels := [1.0, 2.0], [Period];
    assert InitialRunSize(labels, 1) == 1;
    assert data[0..1] == [1.0];
    assert WindowMean(data, 1, 1) == 1.0;
    assert WeightedThreshold(data, 1, 1, RunState(1, false)) == 1.0;
    assert !Recalibrates(labels, 1);
    var start := Predictor(RunState(1, false), [], [], [], []);
    assert PeriodFold(data, labels, 1, 1) == start;
    assert ExceedsWeighted(data, 1, 1, start.run);
    assert PeriodStep(data, labels, 1, 1, start) == Predictor(RunState(1, true), [], [], [1], []);
  }

  /** The match rule of the evaluation driver: equal labels agree, and a
      'period' day and a 'follicular' day are forgiven for each other. */
  function PhasesAgree(truth: Label, generated: Label): (r: bool)
    ensures r <==> truth == generated || {truth, generated} == {Period, Follicular}
  {
    (truth == generated) || (truth == Period && generated == Follicular) || (truth == Follicular && generated == Period)
  }

  /** Agreement does not depend on which side is the truth, every label
      agrees with itself, and two different labels agree only when both are
      'period'/'follicular'; in particular a generated label never agrees
      with a differing truth outside those two. */
  lemma PhasesAgreeIsForgivingEquality(a: Label, b: Label)
    ensures PhasesAgree(a, b) == PhasesAgree(b, a)
    ensures PhasesAgree(a, a)
    ensures PhasesAgree(a, b) && a != b ==> (a == Period || a == Follicular) && (b == Period || b == Follicular)
    ensures a != b && a != Period && a != Follicular ==> !PhasesAgree(a, b)
  {
  }
}
