/** The two rolling-window spike detectors of prediction_primitives.py.
    Both walk the series once from day n, keep the sum of the previous n
    values up to date by one addition and one subtraction per day, and
    report the days whose value exceeds a threshold built from that sum. */
module PredictionPrimitives {
  import opened Common

  /** Mean of the n values just before day i: the trailing window average. */
  function WindowMean(data: seq<real>, n: int, i: int): real
    requires 1 <= n <= i <= |data|
  {
    Sum(data[i - n..i]) / n as real
  }

  /** Day i is a spike for the unweighted detector. */
  predicate ExceedsWindowMean(data: seq<real>, n: int, i: int)
    requires 1 <= n <= i < |data|
  {
    data[i] > WindowMean(data, n, i)
  }

  /** Reference definition: the days in [n, k) that exceed their trailing mean, in order. */
  function WindowedSpikesUpTo(data: seq<real>, n: int, k: int): seq<int>
    requires 1 <= n && k <= |data|
    decreases k
  {
    if k <= n then []
    else WindowedSpikesUpTo(data, n, k - 1) + (if ExceedsWindowMean(data, n, k - 1) then [k - 1] else [])
  }

  function WindowedSpikes(data: seq<real>, n: int): seq<int>
    requires 1 <= n
  {
    WindowedSpikesUpTo(data, n, |data|)
  }

  /** identify_windowed_spikes. */
  method IdentifyWindowedSpikes(data: seq<real>, n: int) returns (spikeIndices: seq<int>)
    requires 1 <= n
    ensures spikeIndices == WindowedSpikes(data, n)
    ensures |data| <= n ==> spikeIndices == []
  {
    var windowedSum := Sum(data[..if n <= |data| then n else |data|]);
    spikeIndices := [];
    var i := n;
    while i < |data|
      invariant n <= i <= |data| || (|data| < n && i == n)
      invariant i <= |data| ==> windowedSum == Sum(data[i - n..i])
      invariant spikeIndices == WindowedSpikesUpTo(data, n, if i <= |data| then i else |data|)
    {
      if data[i] > windowedSum / n as real {
        spikeIndices := spikeIndices + [i];
      }
      assert spikeIndices == WindowedSpikesUpTo(data, n, i + 1);
      SumSlide(data, i - n, i);
      windowedSum := windowedSum + data[i] - data[i - n];
      assert windowedSum == Sum(data[i + 1 - n..i + 1]);
      i := i + 1;
    }
  }

  lemma {:induction false} WindowedSpikesUpToMembers(data: seq<real>, n: int, k: int)
    requires 1 <= n && k <= |data|
    ensures forall i :: i in WindowedSpikesUpTo(data, n, k) <==>
                          n <= i < k && ExceedsWindowMean(data, n, i)
    decreases k
  {
    if k > n {
      WindowedSpikesUpToMembers(data, n, k - 1);
    }
  }

  lemma {:induction false} WindowedSpikesUpToIncreasing(data: seq<real>, n: int, k: int)
    requires 1 <= n && k <= |data|
    ensures StrictlyIncreasing(WindowedSpikesUpTo(data, n, k))
    decreases k
  {
    if k > n {
      WindowedSpikesUpToIncreasing(data, n, k - 1);
      var prev := WindowedSpikesUpTo(data, n, k - 1);
      if ExceedsWindowMean(data, n, k - 1) {
        WindowedSpikesUpToMembers(data, n, k - 1);
        AppendKeepsIncreasing(prev, k - 1);
      }
    }
  }

  /** The unweighted detector reports exactly the days from n on whose value
      exceeds the mean of the n days before, in increasing order. */
  lemma WindowedSpikesCharacterized(data: seq<real>, n: int)
    requires 1 <= n
    ensures StrictlyIncreasing(WindowedSpikes(data, n))
    ensures forall i :: i in WindowedSpikes(data, n) <==> n <= i < |data| && ExceedsWindowMean(data, n, i)
  {
    WindowedSpikesUpToMembers(data, n, |data|);
    WindowedSpikesUpToIncreasing(data, n, |data|);
  }

  lemma AppendKeepsIncreasing(s: seq<int>, x: int)
    requires StrictlyIncreasing(s)
    requires forall y :: y in s ==> y < x
    ensures StrictlyIncreasing(s + [x])
  {
    var t := s + [x];
    forall a, b | 0 <= a < b < |t| ensures t[a] < t[b] {
      if b == |s| {
        assert t[a] == s[a] && s[a] in s;
      }
    }
  }

  // ---------------------------------------------------------------------
  // The weighted detector: an explicit two-state machine.

  /** current_run_size and spiked_run. */
  datatype RunState = RunState(runSize: int, spiked: bool)

  /** run_weight after the in-spike inversion: runSize/n inside a spike,
      2 - runSize/n outside one. */
  function RunWeight(st: RunState, n: int): real
    requires 1 <= n
  {
    var w := st.runSize as real / n as real;
    if st.spiked then w else 2.0 - w
  }

  /** The weighted threshold of day i. */
  function WeightedThreshold(data: seq<real>, n: int, i: int, st: RunState): real
    requires 1 <= n <= i <= |data|
  {
    RunWeight(st, n) * WindowMean(data, n, i)
  }

  /** One day of the state machine: the value crossing the threshold enters or
      stays in a spike, a value below it ends a spike; every path then counts
      the day into the run. */
  function Transition(st: RunState, value: real, threshold: real): (r: RunState)
    ensures r.spiked <==> value > threshold
    ensures r.spiked != st.spiked ==> r.runSize == 1
    ensures r.spiked == st.spiked ==> r.runSize == st.runSize + 1
  {
    if value > threshold then RunState(if st.spiked then st.runSize + 1 else 1, true)
    else if st.spiked then RunState(1, false)
    else RunState(st.runSize + 1, false)
  }

  /** Day i crosses the weighted threshold of state st. */
  predicate ExceedsWeighted(data: seq<real>, n: int, i: int, st: RunState)
    requires 1 <= n <= i < |data|
  {
    data[i] > WeightedThreshold(data, n, i, st)
  }

  /** The detector after some prefix of days: its run state and the days reported so far. */
  datatype Detector = Detector(run: RunState, spikes: seq<int>)

  /** Reference definition: the detector after the iterations for days n .. k-1. */
  function WeightedFold(data: seq<real>, n: int, k: int): Detector
    requires 1 <= n <= k <= |data|
    decreases k
  {
    if k == n then Detector(RunState(n, false), [])
    else
      var prev := WeightedFold(data, n, k - 1);
      var exceeds := ExceedsWeighted(data, n, k - 1, prev.run);
      Detector(Transition(prev.run, data[k - 1], WeightedThreshold(data, n, k - 1, prev.run)),
               if exceeds then prev.spikes + [k - 1] else prev.spikes)
  }

  function WeightedSpikes(data: seq<real>, n: int): seq<int>
    requires 1 <= n
  {
    if |data| <= n then [] else WeightedFold(data, n, |data|).spikes
  }

  /** identify_weighted_windowed_spikes. */
  method IdentifyWeightedWindowedSpikes(data: seq<real>, n: int) returns (spikeIndices: seq<int>)
    requires 1 <= n
    ensures spikeIndices == WeightedSpikes(data, n)
    ensures |data| <= n ==> spikeIndices == []
  {
    var windowedSum := Sum(data[..if n <= |data| then n else |data|]);
    spikeIndices := [];
    var currentRunSize := n;
    var spikedRun := false;
    if |data| <= n {
      return;
    }
    var i := n;
    while i < |data|
      invariant n <= i <= |data|
      invariant windowedSum == Sum(data[i - n..i])
      invariant WeightedFold(data, n, i) == Detector(RunState(currentRunSize, spikedRun), spikeIndices)
    {
      WeightedFoldNext(data, n, i, RunState(currentRunSize, spikedRun), spikeIndices);
      windowedSum, currentRunSize, spikedRun, spikeIndices :=
        WeightedIteration(data, n, i, windowedSum, currentRunSize, spikedRun, spikeIndices);
      i := i + 1;
    }
  }

  /** The body of the loop for day i: the weighted spike test, the update of
      spiked_run, current_run_size and the spike list, and the slide of the
      windowed sum. It moves the state as one step of WeightedFold does. */
  method WeightedIteration(data: seq<real>, n: int, i: int, windowedSum: real,
                           currentRunSize: int, spikedRun: bool, spikeIndices: seq<int>)
    returns (windowedSum': real, currentRunSize': int, spikedRun': bool, spikeIndices': seq<int>)
    requires 1 <= n <= i < |data|
    requires windowedSum == Sum(data[i - n..i])
    ensures windowedSum' == Sum(data[i + 1 - n..i + 1])
    ensures var st := RunState(currentRunSize, spikedRun);
            RunState(currentRunSize', spikedRun') == Transition(st, data[i], WeightedThreshold(data, n, i, st))
            && spikeIndices' == if ExceedsWeighted(data, n, i, st) then spikeIndices + [i] else spikeIndices
  {
    currentRunSize', spikedRun', spikeIndices' := currentRunSize, spikedRun, spikeIndices;
    var exceeds := ExceedsThreshold(data, n, i, currentRunSize, spikedRun, windowedSum);
    if exceeds {
      if !spikedRun' {
        spikedRun' := true;
        currentRunSize' := 0;
      }
      spikeIndices' := spikeIndices' + [i];
    } else if spikedRun' {
      spikedRun' := false;
      currentRunSize' := 0;
    }
    SumSlide(data, i - n, i);
    windowedSum' := windowedSum + data[i] - data[i - n];
    assert windowedSum' == Sum(data[i + 1 - n..i + 1]);
    currentRunSize' := currentRunSize' + 1;
  }

  /** One more day of the reference definition, stated on the state before it. */
  lemma WeightedFoldNext(data: seq<real>, n: int, i: int, st: RunState, spikes: seq<int>)
    requires 1 <= n <= i < |data|
    requires WeightedFold(data, n, i) == Detector(st, spikes)
    ensures WeightedFold(data, n, i + 1)
            == Detector(Transition(st, data[i], WeightedThreshold(data, n, i, st)),
                        if ExceedsWeighted(data, n, i, st) then spikes + [i] else spikes)
  {
  }

  /** The spike test of one iteration: run_weight is current_run_size / n,
      inverted to 2 - run_weight outside a spike, and the day spikes when its
      value exceeds run_weight times the running windowed_sum over n. Taken
      from the running sum, it decides exactly as the weighted threshold of
      the reference definition. */
  method ExceedsThreshold(data: seq<real>, n: int, i: int, currentRunSize: int, spikedRun: bool, windowedSum: real)
    returns (exceeds: bool)
    requires 1 <= n <= i < |data|
    requires windowedSum == Sum(data[i - n..i])
    ensures exceeds <==> ExceedsWeighted(data, n, i, RunState(currentRunSize, spikedRun))
  {
    var runWeight := currentRunSize as real / n as real;
    if !spikedRun {
      runWeight := 2.0 - runWeight;
    }
    exceeds := data[i] > runWeight * (windowedSum / n as real);
  }

  lemma {:induction false} WeightedFoldProperties(data: seq<real>, n: int, k: int)
    requires 1 <= n <= k <= |data|
    ensures WeightedFold(data, n, k).run.runSize >= 1
    ensures StrictlyIncreasing(WeightedFold(data, n, k).spikes)
    ensures forall i :: i in WeightedFold(data, n, k).spikes <==>
                          n <= i < k && ExceedsWeighted(data, n, i, WeightedFold(data, n, i).run)
    decreases k
  {
    if k > n {
      WeightedFoldProperties(data, n, k - 1);
      var prev := WeightedFold(data, n, k - 1);
      if ExceedsWeighted(data, n, k - 1, prev.run) {
        AppendKeepsIncreasing(prev.spikes, k - 1);
      }
    }
  }

  /** The weighted detector reports exactly the days from n on whose value
      exceeds run_weight times the trailing mean, where run_weight comes from
      the state reached before that day; the days come in increasing order. */
  lemma WeightedSpikesCharacterized(data: seq<real>, n: int)
    requires 1 <= n
    ensures StrictlyIncreasing(WeightedSpikes(data, n))
    ensures forall i :: i in WeightedSpikes(data, n) <==>
                          n <= i < |data| && ExceedsWeighted(data, n, i, WeightedFold(data, n, i).run)
  {
    if |data| > n {
      WeightedFoldProperties(data, n, |data|);
    }
  }

  /** current_run_size is at least 1 at the top of every iteration. */
  lemma RunSizePositive(data: seq<real>, n: int, i: int)
    requires 1 <= n <= i < |data|
    ensures WeightedFold(data, n, i).run.runSize >= 1
  {
    WeightedFoldProperties(data, n, i);
  }

  /** Entering or leaving a spike on day i leaves current_run_size == 1 for day i+1. */
  lemma TransitionResetsRun(data: seq<real>, n: int, i: int)
    requires 1 <= n <= i < |data|
    requires WeightedFold(data, n, i + 1).run.spiked != WeightedFold(data, n, i).run.spiked
    ensures WeightedFold(data, n, i + 1).run.runSize == 1
  {
  }

  /** On day n the run weight is exactly 1, so the first decision of the
      weighted detector coincides with that of the unweighted one. */
  lemma FirstDecisionAgrees(data: seq<real>, n: int)
    requires 1 <= n < |data|
    ensures n in WeightedSpikes(data, n) <==> n in WindowedSpikes(data, n)
  {
    WeightedSpikesCharacterized(data, n);
    WindowedSpikesCharacterized(data, n);
    FirstThresholdIsMean(data, n);
  }

  /** The threshold of the initial state is the trailing mean itself. */
  lemma FirstThresholdIsMean(data: seq<real>, n: int)
    requires 1 <= n < |data|
    ensures ExceedsWeighted(data, n, n, WeightedFold(data, n, n).run) <==> ExceedsWindowMean(data, n, n)
  {
    var st := WeightedFold(data, n, n).run;
    assert st == RunState(n, false);
    assert n as real / n as real == 1.0;
    assert RunWeight(st, n) == 1.0;
    assert WeightedThreshold(data, n, n, st) == WindowMean(data, n, n);
  }
}
