/** The stand-alone script data_processing.py. Its low_pass,
    weighted_past_average and identify_windowed_spikes are the same code as
    the package's (data_processing.py:6-36 against
    menstrual_prediction_algorithm/data_processing_utils.py:12-29 and
    prediction_primitives.py:4-15), so the model runs the package's members.
    What differs is the readiness loop of `main`: a falsy deviation (0.0
    included) is filled, and any exception is swallowed, appending nothing. */
module DataProcessing {
  import opened Common
  import opened DataProcessingUtils
  import opened PredictionPrimitives
  import opened DataLoading

  /** The smoothing window, the number of smoothed values kept and the
      detector's window in `main`. */
  const SMOOTHING_WINDOW: nat := 3
  const KEPT_VALUES: nat := 100
  const SPIKE_WINDOW: int := 14

  /** The weighted past average of the last three collected values, or
      nothing when it raises (the bare `except` swallows the IndexError). */
  function FillOrSkip(collected: seq<real>): Option<real>
  {
    match PastAverage(collected, FILL_WINDOW)
    case Ok(v) => Some(v)
    case Err(_) => None
  }

  /** What one iteration of `main`'s loop appends, if anything. A record
      without the key raises KeyError, a text that does not parse raises
      (ValueError, SyntaxError or TypeError), and a parsed value that cannot be indexed by a string raises
      TypeError: all swallowed. A falsy deviation (None, "", 0.0) and a
      non-string entry are filled. */
  function CollectEntry(e: ReadinessEntry, collected: seq<real>): Option<real>
  {
    match e
    case NotText => FillOrSkip(collected)
    case Unparseable => None
    case EvalTypeError => None
    case NotARecord => None
    case Record(Absent) => None
    case Record(Reading(x)) => if x != 0.0 then Some(x) else FillOrSkip(collected)
    case Record(_) => FillOrSkip(collected)
  }

  /** Reference definition: tempData after the given entries. */
  function CollectedTemps(entries: seq<ReadinessEntry>): seq<real>
    decreases |entries|
  {
    if |entries| == 0 then []
    else
      var collected := CollectedTemps(entries[..|entries| - 1]);
      match CollectEntry(entries[|entries| - 1], collected)
      case None => collected
      case Some(x) => collected + [x]
  }

  /** The readiness loop of `main`. */
  method CollectTemperatures(entries: seq<ReadinessEntry>) returns (tempData: seq<real>)
    ensures tempData == CollectedTemps(entries)
  {
    tempData := [];
    var i := 0;
    while i < |entries|
      invariant 0 <= i <= |entries|
      invariant tempData == CollectedTemps(entries[..i])
    {
      assert entries[..i + 1][..i] == entries[..i];
      var entry := entries[i];
      var fill := false;
      if entry.NotText? {
        fill := true;
      } else if entry.Record? && !entry.deviation.Absent? {
        if entry.deviation.Reading? && entry.deviation.value != 0.0 {
          tempData := tempData + [entry.deviation.value];
        } else {
          fill := true;
        }
      }
      if fill {
        var average := WeightedPastAverage(tempData, FILL_WINDOW);
        if average.Ok? {
          tempData := tempData + [average.value];
        }
      }
      i := i + 1;
    }
    assert entries[..i] == entries;
  }

  /** The loop never appends more than one value per entry. */
  lemma {:induction false} CollectedAtMostOnePerEntry(entries: seq<ReadinessEntry>)
    ensures |CollectedTemps(entries)| <= |entries|
    decreases |entries|
  {
    if |entries| > 0 {
      CollectedAtMostOnePerEntry(entries[..|entries| - 1]);
    }
  }

  /** Where neither script drops or distinguishes anything — no zero
      reading, no record without the key, no unparseable or non-record
      entry — and load_raw_data's loop succeeds, the two loops collect the
      same values. */
  lemma {:induction false} CollectedAgreesWithLoaded(entries: seq<ReadinessEntry>)
    requires forall k :: 0 <= k < |entries| ==>
               entries[k].NotText? || (entries[k].Record? && !entries[k].deviation.Absent?
                                       && entries[k].deviation != Reading(0.0))
    requires LoadedTemps(entries).Ok?
    ensures CollectedTemps(entries) == LoadedTemps(entries).value
    decreases |entries|
  {
    if |entries| > 0 {
      var front := entries[..|entries| - 1];
      assert forall k :: 0 <= k < |front| ==> front[k] == entries[k];
      assert LoadedTemps(front).Ok?;
      CollectedAgreesWithLoaded(front);
    }
  }

  /** A real 0.0 reading is falsy and is replaced by the weighted average of
      the last three values: (3*3 + 2*2 + 1*1) / 6. */
  lemma ZeroReadingFilled()
    ensures CollectedTemps([Record(Reading(1.0)), Record(Reading(2.0)), Record(Reading(3.0)), Record(Reading(0.0))])
            == [1.0, 2.0, 3.0, 14.0 / 6.0]
  {
    var e := [Record(Reading(1.0)), Record(Reading(2.0)), Record(Reading(3.0)), Record(Reading(0.0))];
    var e1, e2, e3 := e[..1], e[..2], e[..3];
    assert e1[..0] == [] && e2[..1] == e1 && e3[..2] == e2;
    assert CollectedTemps(e1) == [1.0];
    assert CollectedTemps(e2) == [1.0, 2.0];
    assert CollectedTemps(e3) == [1.0, 2.0, 3.0];
    assert e[..3] == e3;
    PastAverageExample();
  }

  /** A gap before three values exist appends nothing: the list comes out
      shorter than the column, where load_raw_data raises instead. */
  lemma EarlyGapDropped()
    ensures CollectedTemps([Record(NoneValue), Record(Reading(1.0))]) == [1.0]
  {
    var e := [Record(NoneValue), Record(Reading(1.0))];
    assert e[..1] == [Record(NoneValue)];
  }

  /** An entry on which `literal_eval` raises TypeError separates the two
      loops: load_raw_data does not catch it and aborts, `main` swallows it
      and goes on without a value for that entry. */
  lemma EvalTypeErrorSeparatesLoops()
    ensures LoadedTemps([Record(Reading(1.0)), EvalTypeError, Record(Reading(2.0))]) == Err(TypeError)
    ensures CollectedTemps([Record(Reading(1.0)), EvalTypeError, Record(Reading(2.0))]) == [1.0, 2.0]
  {
    var e := [Record(Reading(1.0)), EvalTypeError, Record(Reading(2.0))];
    var e1, e2 := e[..1], e[..2];
    assert e1 == [Record(Reading(1.0))] && e2 == e1 + [EvalTypeError];
    assert e1[..0] == [] && e2[..1] == e1 && e[..2] == e2;
    assert LoadedTemps(e1[..0]) == Ok([]);
    assert LoadEntry(e1[0], []) == Ok(1.0);
    assert [] + [1.0] == [1.0];
    assert LoadedTemps(e1) == Ok([1.0]);
    assert LoadedTemps(e2) == Err(TypeError);
    FailureKeepsFailing(e, 2, TypeError);
    assert CollectedTemps(e1) == [1.0];
    assert CollectedTemps(e2) == [1.0];
    assert e[..2] == e2;
  }

  /** The rest of `main`: smooth with a window of 3, keep the first 100
      smoothed values and detect spikes over a 14-day window. */
  method DetectSpikes(tempData: seq<real>) returns (smoothed: seq<real>, spikeIndices: seq<int>)
    ensures |smoothed| == if |tempData| <= SMOOTHING_WINDOW then 0
                          else if |tempData| - SMOOTHING_WINDOW <= KEPT_VALUES then |tempData| - SMOOTHING_WINDOW
                          else KEPT_VALUES
    ensures forall i :: 0 <= i < |smoothed| ==> smoothed[i] == Mean(tempData[i..i + SMOOTHING_WINDOW])
    ensures spikeIndices == WindowedSpikes(smoothed, SPIKE_WINDOW)
    ensures forall i :: i in spikeIndices <==>
              SPIKE_WINDOW <= i < |smoothed| && ExceedsWindowMean(smoothed, SPIKE_WINDOW, i)
  {
    var lowPassed := LowPass(tempData, SMOOTHING_WINDOW);
    smoothed := PySlice(lowPassed.value, 0, KEPT_VALUES);
    assert smoothed == lowPassed.value[..|smoothed|];
    spikeIndices := IdentifyWindowedSpikes(smoothed, SPIKE_WINDOW);
    WindowedSpikesCharacterized(smoothed, SPIKE_WINDOW);
  }
}
