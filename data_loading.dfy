/** The loaders of menstrual_prediction_algorithm/data_loading.py, with the
    CSV reads abstracted: the readiness column arrives as a sequence of
    already-classified entries, the truth file as its two columns, and the
    parsed dates as a sequence of Date values. */
module DataLoading {
  import opened Common
  import opened DataProcessingUtils

  // ---------------------------------------------------------------------
  // load_raw_data: one temperature per readiness entry, gaps filled with
  // the weighted average of the three values collected before them.

  /** The value found under "temperature_deviation" in a parsed readiness record. */
  datatype Deviation =
    | Absent          // the key is not in the record
    | NoneValue       // the key holds None
    | EmptyText       // the key holds ""
    | Reading(value: real)

  /** One cell of the readiness column, as the loaders see it. */
  datatype ReadinessEntry =
    | NotText                    // not a string (an empty CSV cell reads as a float NaN)
    | Unparseable                // ast.literal_eval raises ValueError or SyntaxError
    | EvalTypeError              // ast.literal_eval raises TypeError (an unhashable key, as in "{[1]: 2}")
    | NotARecord                 // parses to a value that is not a dictionary
    | Record(deviation: Deviation)

  /** The window of load_raw_data's weighted average. */
  const FILL_WINDOW: int := 3

  /** The entry is filled with the weighted past average rather than read. */
  predicate NeedsFill(e: ReadinessEntry)
  {
    e.NotText? || e.Unparseable? || (e.Record? && !e.deviation.Reading?)
  }

  /** What one iteration appends, given the values collected so far: a
      reading is kept as it is (0.0 included), a gap is filled, and a parsed
      value without `.get` raises AttributeError and a TypeError out of
      `literal_eval` propagates; neither is caught, since the handler
      names only ValueError and SyntaxError. */
  function LoadEntry(e: ReadinessEntry, collected: seq<real>): Result<real>
  {
    match e
    case NotARecord => Err(AttributeError)
    case EvalTypeError => Err(TypeError)
    case Record(Reading(x)) => Ok(x)
    case _ => PastAverage(collected, FILL_WINDOW)
  }

  /** Reference definition: temp_data after the given entries, or the
      exception that ended the loop. */
  function LoadedTemps(entries: seq<ReadinessEntry>): Result<seq<real>>
    decreases |entries|
  {
    if |entries| == 0 then Ok([])
    else
      match LoadedTemps(entries[..|entries| - 1])
      case Err(e) => Err(e)
      case Ok(collected) =>
        match LoadEntry(entries[|entries| - 1], collected)
        case Err(e) => Err(e)
        case Ok(x) => Ok(collected + [x])
  }

  /** The readiness loop of load_raw_data. */
  method LoadTemperatures(entries: seq<ReadinessEntry>) returns (r: Result<seq<real>>)
    ensures r == LoadedTemps(entries)
  {
    var tempData: seq<real> := [];
    var i := 0;
    while i < |entries|
      invariant 0 <= i <= |entries|
      invariant LoadedTemps(entries[..i]) == Ok(tempData)
    {
      assert entries[..i + 1][..i] == entries[..i];
      var entry := entries[i];
      var value: Result<real>;
      if entry.NotARecord? {
        value := Err(AttributeError);
      } else if entry.EvalTypeError? {
        value := Err(TypeError);
      } else if entry.Record? && entry.deviation.Reading? {
        value := Ok(entry.deviation.value);
      } else {
        value := WeightedPastAverage(tempData, FILL_WINDOW);
      }
      if value.Err? {
        assert LoadedTemps(entries[..i + 1]) == Err(value.error);
        FailureKeepsFailing(entries, i + 1, value.error);
        assert entries[..|entries|] == entries;
        return Err(value.error);
      }
      tempData := tempData + [value.value];
      i := i + 1;
    }
    assert entries[..i] == entries;
    return Ok(tempData);
  }

  /** Once the loop has raised, later entries do not matter. */
  lemma {:induction false} FailureKeepsFailing(entries: seq<ReadinessEntry>, k: nat, e: PyError)
    requires k <= |entries|
    requires LoadedTemps(entries[..k]) == Err(e)
    ensures LoadedTemps(entries) == Err(e)
    decreases |entries| - k
  {
    if k < |entries| {
      assert entries[..k + 1][..k] == entries[..k];
      FailureKeepsFailing(entries, k + 1, e);
    } else {
      assert entries[..k] == entries;
    }
  }

  /** The entry may be the k-th of a successful load: it is not a bare
      value, `literal_eval` does not raise TypeError on it, and when it is a
      gap there are at least three values before it. */
  predicate Loadable(e: ReadinessEntry, k: int)
  {
    !e.NotARecord? && !e.EvalTypeError? && (NeedsFill(e) ==> k >= FILL_WINDOW)
  }

  /** Loading succeeds exactly when no entry parses to a non-dictionary, no
      entry makes `literal_eval` raise TypeError and none of the first three
      entries needs filling. On success there is one
      value per entry, in order: readings unchanged, including 0.0, and every
      gap the weighted average of the values collected before it, earlier
      fills included. */
  lemma {:induction false} LoadedTempsMeaning(entries: seq<ReadinessEntry>)
    ensures LoadedTemps(entries).Ok? <==> forall k :: 0 <= k < |entries| ==> Loadable(entries[k], k)
    ensures LoadedTemps(entries).Ok? ==>
              var t := LoadedTemps(entries).value;
              && |t| == |entries|
              && (forall k :: 0 <= k < |entries| && entries[k].Record? && entries[k].deviation.Reading? ==>
                    t[k] == entries[k].deviation.value)
              && (forall k :: 0 <= k < |entries| && NeedsFill(entries[k]) ==> PastAverage(t[..k], FILL_WINDOW) == Ok(t[k]))
    decreases |entries|
  {
    if |entries| > 0 {
      var last := |entries| - 1;
      var front := entries[..last];
      LoadedTempsMeaning(front);
      assert forall k :: 0 <= k < last ==> front[k] == entries[k];
      match LoadedTemps(front)
      case Err(_) => {
        assert !Loadable(front[last - 1], last - 1) || exists k :: 0 <= k < last && !Loadable(front[k], k);
      }
      case Ok(collected) => {
        if LoadedTemps(entries).Ok? {
          var t := LoadedTemps(entries).value;
          assert t == collected + [t[last]];
          assert t[..last] == collected;
          forall k | 0 <= k < last && NeedsFill(entries[k])
            ensures PastAverage(t[..k], FILL_WINDOW) == Ok(t[k])
          {
            assert t[..k] == collected[..k];
          }
        }
      }
    }
  }

  /** A gap among the first three entries, after only readings, aborts the
      load with IndexError: there are not three values to average yet. */
  lemma EarlyGapAborts(entries: seq<ReadinessEntry>, k: int)
    requires 0 <= k < FILL_WINDOW && k < |entries| && NeedsFill(entries[k])
    requires forall j :: 0 <= j < k ==> entries[j].Record? && entries[j].deviation.Reading?
    ensures LoadedTemps(entries) == Err(IndexError)
  {
    LoadedTempsMeaning(entries[..k]);
    var t := LoadedTemps(entries[..k]).value;
    assert entries[..k + 1][..k] == entries[..k];
    assert LoadedTemps(entries[..k + 1]) == Err(IndexError);
    FailureKeepsFailing(entries, k + 1, IndexError);
  }

  /** A zero reading is a reading: it is kept, not filled. */
  lemma ZeroReadingKept()
    ensures LoadedTemps([Record(Reading(1.0)), Record(Reading(2.0)), Record(Reading(3.0)), Record(Reading(0.0))])
            == Ok([1.0, 2.0, 3.0, 0.0])
  {
    var e := [Record(Reading(1.0)), Record(Reading(2.0)), Record(Reading(3.0)), Record(Reading(0.0))];
    LoadedTempsMeaning(e);
    assert forall k :: 0 <= k < |e| ==> Loadable(e[k], k);
    var t := LoadedTemps(e).value;
    assert t[0] == 1.0 && t[1] == 2.0 && t[2] == 3.0 && t[3] == 0.0;
    assert t == [1.0, 2.0, 3.0, 0.0];
  }

  // ---------------------------------------------------------------------
  // load_truth_map: the truth file's day column parsed to dates, each
  // mapped to its phase; rows beyond the shorter column are not read.

  /** How a day cell becomes a date key; load_truth_map uses str_to_date. */
  type DateParser = string -> Result<Date>

  /** Reference definition: the mapping after the first k rows. */
  function TruthMapUpTo(days: seq<string>, phases: seq<Label>, k: nat, parse: DateParser): Result<map<Date, Label>>
    requires k <= |days| && k <= |phases|
  {
    if k == 0 then Ok(map[])
    else
      match TruthMapUpTo(days, phases, k - 1, parse)
      case Err(e) => Err(e)
      case Ok(m) =>
        match parse(days[k - 1])
        case Err(e) => Err(e)
        case Ok(d) => Ok(m[d := phases[k - 1]])
  }

  /** The number of rows `zip` pairs up. */
  function Rows(days: seq<string>, phases: seq<Label>): nat
  {
    if |days| <= |phases| then |days| else |phases|
  }

  /** str_to_date, as the key maker of load_truth_map. */
  function DayKey(): DateParser
  {
    s => StrToDate(s)
  }

  function TruthMap(days: seq<string>, phases: seq<Label>): Result<map<Date, Label>>
  {
    TruthMapUpTo(days, phases, Rows(days, phases), DayKey())
  }

  /** load_truth_map. */
  method LoadTruthMap(days: seq<string>, phases: seq<Label>) returns (r: Result<map<Date, Label>>)
    ensures r == TruthMap(days, phases)
  {
    r := BuildTruthMap(days, phases, DayKey());
  }

  /** The loop of load_truth_map, for any key maker. */
  method BuildTruthMap(days: seq<string>, phases: seq<Label>, parse: DateParser) returns (r: Result<map<Date, Label>>)
    ensures r == TruthMapUpTo(days, phases, Rows(days, phases), parse)
  {
    var n := Rows(days, phases);
    var truthMapping: map<Date, Label> := map[];
    var i := 0;
    while i < n
      invariant 0 <= i <= n
      invariant TruthMapUpTo(days, phases, i, parse) == Ok(truthMapping)
    {
      var date := parse(days[i]);
      TruthMapNext(days, phases, i, parse, truthMapping, date);
      if date.Err? {
        TruthMapFailureSticks(days, phases, i + 1, n, parse);
        return Err(date.error);
      }
      truthMapping := truthMapping[date.value := phases[i]];
      i := i + 1;
    }
    return Ok(truthMapping);
  }

  lemma TruthMapNext(days: seq<string>, phases: seq<Label>, i: nat, parse: DateParser, m: map<Date, Label>, date: Result<Date>)
    requires i < |days| && i < |phases|
    requires TruthMapUpTo(days, phases, i, parse) == Ok(m) && date == parse(days[i])
    ensures TruthMapUpTo(days, phases, i + 1, parse) == if date.Err? then Err(date.error) else Ok(m[date.value := phases[i]])
  {
  }

  lemma {:induction false} TruthMapFailureSticks(days: seq<string>, phases: seq<Label>, k: nat, n: nat, parse: DateParser)
    requires k <= n <= |days| && n <= |phases|
    requires TruthMapUpTo(days, phases, k, parse).Err?
    ensures TruthMapUpTo(days, phases, n, parse) == TruthMapUpTo(days, phases, k, parse)
    decreases n - k
  {
    if k < n {
      TruthMapFailureSticks(days, phases, k + 1, n, parse);
    }
  }

  /** The row k is the last of the first n rows whose day parses to d. */
  predicate LastRowFor(days: seq<string>, n: nat, d: Date, k: int, parse: DateParser)
    requires n <= |days|
  {
    0 <= k < n && parse(days[k]) == Ok(d)
    && forall j :: k < j < n ==> parse(days[j]) != Ok(d)
  }

  /** Reading n rows fails exactly when some day among them does not parse;
      otherwise the keys are the parsed days and each maps to the phase of
      the last row carrying it. */
  lemma {:induction false} TruthMapMeaning(days: seq<string>, phases: seq<Label>, n: nat, parse: DateParser)
    requires n <= |days| && n <= |phases|
    ensures TruthMapUpTo(days, phases, n, parse).Err? <==> exists k :: 0 <= k < n && parse(days[k]).Err?
    ensures TruthMapUpTo(days, phases, n, parse).Ok? ==>
              var m := TruthMapUpTo(days, phases, n, parse).value;
              && (forall d :: d in m <==> exists k :: 0 <= k < n && parse(days[k]) == Ok(d))
              && (forall d, k :: LastRowFor(days, n, d, k, parse) ==> d in m && m[d] == phases[k])
  {
    if n > 0 {
      TruthMapMeaning(days, phases, n - 1, parse);
      if TruthMapUpTo(days, phases, n, parse).Ok? {
        var m := TruthMapUpTo(days, phases, n, parse).value;
        forall d, k | LastRowFor(days, n, d, k, parse)
          ensures d in m && m[d] == phases[k]
        {
          if k < n - 1 {
            assert LastRowFor(days, n - 1, d, k, parse);
          }
        }
      }
    }
  }

  /** load_truth_map raises exactly when a day cell among the paired rows is
      not a valid date; otherwise every parsed day is a key, holding the
      phase of its last row. */
  lemma TruthMapKeepsLastLabel(days: seq<string>, phases: seq<Label>)
    ensures TruthMap(days, phases).Err? <==> exists k :: 0 <= k < Rows(days, phases) && StrToDate(days[k]).Err?
    ensures TruthMap(days, phases).Ok? ==>
              forall d, k :: LastRowFor(days, Rows(days, phases), d, k, DayKey()) ==>
                d in TruthMap(days, phases).value && TruthMap(days, phases).value[d] == phases[k]
  {
    TruthMapMeaning(days, phases, Rows(days, phases), DayKey());
  }

  /** A date given twice keeps the label of its later row. */
  lemma RepeatedDateKeepsLast(d: Date, first: Label, second: Label)
    requires ValidDate(d)
    ensures TruthMap([FormatDate(d), FormatDate(d)], [first, second]) == Ok(map[d := second])
  {
    StrToDateFormatDate(d);
    var days := [FormatDate(d), FormatDate(d)];
    var parse := DayKey();
    assert parse(days[0]) == Ok(d) && parse(days[1]) == Ok(d);
    assert TruthMapUpTo(days, [first, second], 1, parse) == Ok(map[d := first]);
    assert map[d := first][d := second] == map[d := second];
  }

  // ---------------------------------------------------------------------
  // load_processed_data: one label per loaded date.

  /** The alignment loop of load_processed_data: the truth label of each
      date, or Missing for a date the truth file does not mention. */
  method AlignLabels(dates: seq<Date>, truthMap: map<Date, Label>) returns (labels: seq<Label>)
    ensures |labels| == |dates|
    ensures forall k :: 0 <= k < |dates| && dates[k] in truthMap ==> labels[k] == truthMap[dates[k]]
    ensures forall k :: 0 <= k < |dates| && dates[k] !in truthMap ==> labels[k] == Missing
  {
    labels := [];
    var i := 0;
    while i < |dates|
      invariant 0 <= i <= |dates|
      invariant |labels| == i
      invariant forall k :: 0 <= k < i && dates[k] in truthMap ==> labels[k] == truthMap[dates[k]]
      invariant forall k :: 0 <= k < i && dates[k] !in truthMap ==> labels[k] == Missing
    {
      if dates[i] in truthMap {
        labels := labels + [truthMap[dates[i]]];
      } else {
        labels := labels + [Missing];
      }
      i := i + 1;
    }
  }
}
