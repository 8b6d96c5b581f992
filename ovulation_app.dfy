/** The detectors of the dashboard ovulation_hackathon_app.py, over a
    temperature signal given as a sequence of reals and dates given as day
    numbers. The dataframe plumbing around them (column sniffing, rolling
    medians, date masks) is not modelled. */
module OvulationApp {
  import opened Common

  // ---------------------------------------------------------------------
  // find_nadir_then_rise

  /** (ok, rise index, mean rise). */
  datatype NadirRise = NadirRise(ok: bool, riseIndex: Option<int>, score: real)

  /** The rises of the riseDays values after idx over the value at idx. */
  function Rises(sig: seq<real>, idx: int, riseDays: int): (r: seq<real>)
    requires 0 <= idx && 0 <= riseDays && idx + riseDays < |sig|
    ensures |r| == riseDays
    ensures forall k :: 0 <= k < riseDays ==> r[k] == sig[idx + 1 + k] - sig[idx]
  {
    if riseDays == 0 then []
    else Rises(sig, idx, riseDays - 1) + [sig[idx + riseDays] - sig[idx]]
  }

  /** pandas' `clip(lower=0)`. */
  function ClipBelowZero(xs: seq<real>): (r: seq<real>)
    ensures |r| == |xs|
    ensures forall k :: 0 <= k < |xs| ==> r[k] == if xs[k] < 0.0 then 0.0 else xs[k]
  {
    if |xs| == 0 then []
    else ClipBelowZero(xs[..|xs| - 1]) + [if xs[|xs| - 1] < 0.0 then 0.0 else xs[|xs| - 1]]
  }

  /** find_nadir_then_rise: too close to the end gives (False, None, 0.0);
      a rise of at least riseMin on every one of the next riseDays days gives
      (True, idx + 1, mean rise); anything else (False, None, mean of the
      rises clipped at 0). */
  function FindNadirThenRise(sig: seq<real>, idx: int, riseMin: real, riseDays: int): NadirRise
    requires 0 <= idx && 1 <= riseDays
  {
    if idx + riseDays >= |sig| then NadirRise(false, None, 0.0)
    else
      var rises := Rises(sig, idx, riseDays);
      if forall k :: 0 <= k < riseDays ==> rises[k] >= riseMin then NadirRise(true, Some(idx + 1), Mean(rises))
      else NadirRise(false, None, Mean(ClipBelowZero(rises)))
  }

  /** The detector succeeds exactly when the riseDays values after idx all
      exceed the value at idx by at least riseMin; it then names day idx + 1
      and scores at least riseMin, and otherwise names no day and scores at
      least 0. */
  lemma NadirThenRiseMeaning(sig: seq<real>, idx: int, riseMin: real, riseDays: int)
    requires 0 <= idx && 1 <= riseDays
    ensures idx + riseDays >= |sig| ==> FindNadirThenRise(sig, idx, riseMin, riseDays) == NadirRise(false, None, 0.0)
    ensures FindNadirThenRise(sig, idx, riseMin, riseDays).ok <==>
              idx + riseDays < |sig| && forall k :: idx < k <= idx + riseDays ==> sig[k] - sig[idx] >= riseMin
    ensures var r := FindNadirThenRise(sig, idx, riseMin, riseDays);
            r.ok ==> r.riseIndex == Some(idx + 1) && r.score >= riseMin
    ensures var r := FindNadirThenRise(sig, idx, riseMin, riseDays);
            !r.ok ==> r.riseIndex == None && r.score >= 0.0
  {
    if idx + riseDays < |sig| {
      var rises := Rises(sig, idx, riseDays);
      if forall k :: 0 <= k < riseDays ==> rises[k] >= riseMin {
        MeanLowerBound(rises, riseMin);
        forall k | idx < k <= idx + riseDays
          ensures sig[k] - sig[idx] >= riseMin
        {
          assert rises[k - idx - 1] == sig[k] - sig[idx];
        }
      } else {
        MeanLowerBound(ClipBelowZero(rises), 0.0);
        var k :| 0 <= k < riseDays && rises[k] < riseMin;
        assert sig[idx + 1 + k] - sig[idx] < riseMin;
      }
    }
  }

  // ---------------------------------------------------------------------
  // detect_ovulation_candidates

  /** The confidence thresholds: a mean rise of 0.30 over at least 3 days. */
  const HIGH_RISE: real := 0.30
  const HIGH_RISE_DAYS: int := 3

  datatype Confidence = High | Medium

  datatype Candidate = Candidate(ovulationDay: int, nadirDay: int, riseMean: real, confidence: Confidence)

  /** The keyword arguments of detect_ovulation_candidates. */
  datatype Search = Search(riseMin: real, riseDays: int, searchStart: Option<int>, searchEnd: Option<int>)

  predicate InSearchWindow(day: int, search: Search)
  {
    (search.searchStart.None? || day >= search.searchStart.value)
    && (search.searchEnd.None? || day <= search.searchEnd.value)
  }

  /** Day i is strictly below both neighbours. */
  predicate IsLocalMinimum(sig: seq<real>, i: int)
    requires 1 <= i < |sig| - 1
  {
    sig[i] < sig[i - 1] && sig[i] < sig[i + 1]
  }

  /** The candidate day i yields, if any. */
  function CandidateAt(sig: seq<real>, dates: seq<int>, i: int, search: Search): Option<Candidate>
    requires |dates| == |sig| && 1 <= i < |sig| - 1 && 1 <= search.riseDays
  {
    if !InSearchWindow(dates[i], search) || !IsLocalMinimum(sig, i) then None
    else
      var nr := FindNadirThenRise(sig, i, search.riseMin, search.riseDays);
      if !nr.ok then None
      else
        var confidence := if nr.score >= HIGH_RISE && search.riseDays >= HIGH_RISE_DAYS then High else Medium;
        Some(Candidate(dates[nr.riseIndex.value], dates[i], nr.score, confidence))
  }

  /** Reference definition: the candidates of days 1 .. k-1, in order. */
  function CandidatesUpTo(sig: seq<real>, dates: seq<int>, k: int, search: Search): seq<Candidate>
    requires |dates| == |sig| && (k <= 1 || k <= |sig| - 1) && 1 <= search.riseDays
    decreases k
  {
    if k <= 1 then []
    else
      var c := CandidateAt(sig, dates, k - 1, search);
      CandidatesUpTo(sig, dates, k - 1, search) + (if c.Some? then [c.value] else [])
  }

  /** detect_ovulation_candidates. */
  method DetectOvulationCandidates(sig: seq<real>, dates: seq<int>, search: Search) returns (candidates: seq<Candidate>)
    requires |dates| == |sig| && 1 <= search.riseDays
    ensures candidates == CandidatesUpTo(sig, dates, |sig| - 1, search)
  {
    candidates := [];
    var i := 1;
    while i < |sig| - 1
      invariant 1 <= i && (i <= |sig| - 1 || i == 1)
      invariant candidates == CandidatesUpTo(sig, dates, i, search)
    {
      CandidatesNext(sig, dates, i, search);
      var day := dates[i];
      if InSearchWindow(day, search) && IsLocalMinimum(sig, i) {
        var nr := FindNadirThenRise(sig, i, search.riseMin, search.riseDays);
        if nr.ok {
          var confidence := if nr.score >= HIGH_RISE && search.riseDays >= HIGH_RISE_DAYS then High else Medium;
          candidates := candidates + [Candidate(dates[nr.riseIndex.value], dates[i], nr.score, confidence)];
        }
      }
      i := i + 1;
    }
  }

  /** One more day of the reference definition. */
  lemma CandidatesNext(sig: seq<real>, dates: seq<int>, i: int, search: Search)
    requires |dates| == |sig| && 1 <= i < |sig| - 1 && 1 <= search.riseDays
    ensures CandidatesUpTo(sig, dates, i + 1, search)
            == CandidatesUpTo(sig, dates, i, search)
               + (if CandidateAt(sig, dates, i, search).Some? then [CandidateAt(sig, dates, i, search).value] else [])
  {
  }

  /** Day i of the signal passes every test of the detector. */
  predicate Detected(sig: seq<real>, dates: seq<int>, i: int, search: Search)
    requires |dates| == |sig| && 1 <= search.riseDays
  {
    1 <= i <= |sig| - 2 && InSearchWindow(dates[i], search) && IsLocalMinimum(sig, i)
    && FindNadirThenRise(sig, i, search.riseMin, search.riseDays).ok
  }

  /** Every candidate comes from a detected day i: a local minimum strictly
      inside the series, dated within the search window, followed by a
      sustained rise; its ovulation date is the next day's, its mean rise
      at least riseMin, and it is 'high' exactly when that mean is at least
      0.30 over at least 3 days. Every detected day gives a candidate. */
  lemma {:induction false} CandidatesMeaning(sig: seq<real>, dates: seq<int>, k: int, search: Search)
    requires |dates| == |sig| && k <= |sig| - 1 && 1 <= search.riseDays
    ensures forall c :: c in CandidatesUpTo(sig, dates, k, search) ==>
              exists i :: 1 <= i < k && Detected(sig, dates, i, search) && CandidateAt(sig, dates, i, search) == Some(c)
    ensures forall i :: 1 <= i < k && Detected(sig, dates, i, search) ==>
              CandidateAt(sig, dates, i, search).value in CandidatesUpTo(sig, dates, k, search)
    decreases k
  {
    if k > 1 {
      CandidatesMeaning(sig, dates, k - 1, search);
    }
  }

  /** What a candidate of day i holds. */
  lemma CandidateFields(sig: seq<real>, dates: seq<int>, i: int, search: Search)
    requires |dates| == |sig| && 1 <= search.riseDays && 1 <= i < |sig| - 1
    requires CandidateAt(sig, dates, i, search).Some?
    ensures var c := CandidateAt(sig, dates, i, search).value;
            && Detected(sig, dates, i, search)
            && c.nadirDay == dates[i] && c.ovulationDay == dates[i + 1]
            && c.riseMean >= search.riseMin
            && (c.confidence == High <==> c.riseMean >= HIGH_RISE && search.riseDays >= HIGH_RISE_DAYS)
  {
    NadirThenRiseMeaning(sig, i, search.riseMin, search.riseDays);
  }

  // ---------------------------------------------------------------------
  // pick_best_fallback

  /** The bonus for a strict local minimum. */
  const NADIR_BONUS: real := 0.05

  /** (ovulation date, score, nadir date). */
  datatype Fallback = Fallback(ovulationDay: int, score: real, nadirDay: int)

  /** The score of day i of the segment: its mean rise over the next
      riseDays values, plus the bonus when it is a strict local minimum. */
  function FallbackScore(seg: seq<real>, i: int, riseDays: int): real
    requires 1 <= i && 1 <= riseDays && i + riseDays < |seg|
  {
    var score := Mean(Rises(seg, i, riseDays));
    if i > 0 && i < |seg| - 1 && seg[i] < seg[i - 1] && seg[i] < seg[i + 1] then score + NADIR_BONUS else score
  }

  /** Day i, among days 1 .. end-1 of the segment, has the highest score
      and no earlier day scores as high; f is the triple it yields. */
  predicate EarliestBest(seg: seq<real>, days: seq<int>, riseDays: int, end: int, i: int, f: Fallback)
    requires |days| == |seg| && 1 <= riseDays && end <= |seg| - riseDays
  {
    && 1 <= i < end
    && f == Fallback(days[i + 1], FallbackScore(seg, i, riseDays), days[i])
    && (forall j :: 1 <= j < end ==> FallbackScore(seg, j, riseDays) <= f.score)
    && (forall j :: 1 <= j < i ==> FallbackScore(seg, j, riseDays) < f.score)
  }

  /** The same over every day pick_best_fallback considers. */
  predicate BestFallbackAt(seg: seq<real>, days: seq<int>, riseDays: int, i: int, f: Fallback)
    requires |days| == |seg| && 1 <= riseDays
  {
    EarliestBest(seg, days, riseDays, |seg| - riseDays, i, f)
  }

  /** pick_best_fallback over a segment already restricted to the window and
      sorted by date: None when the segment is shorter than riseDays + 2,
      otherwise the earliest day of maximal score among 1 .. |seg|-riseDays-1. */
  method PickBestFallback(seg: seq<real>, days: seq<int>, riseDays: int) returns (best: Option<Fallback>)
    requires |days| == |seg| && 1 <= riseDays
    ensures best.None? <==> |seg| < riseDays + 2
    ensures best.Some? ==> exists i :: BestFallbackAt(seg, days, riseDays, i, best.value)
  {
    if |seg| < riseDays + 2 {
      return None;
    }
    best := None;
    ghost var bestIndex := 0;
    var i := 1;
    while i < |seg| - riseDays
      invariant 1 <= i <= |seg| - riseDays
      invariant best.None? <==> i == 1
      invariant best.Some? ==> EarliestBest(seg, days, riseDays, i, bestIndex, best.value)
    {
      var score := FallbackScore(seg, i, riseDays);
      if best.None? || score > best.value.score {
        FallbackTakesHigher(seg, days, riseDays, i, bestIndex, best);
        best := Some(Fallback(days[i + 1], score, days[i]));
        bestIndex := i;
      } else {
        FallbackKeepsEarlier(seg, days, riseDays, i, bestIndex, best.value);
      }
      i := i + 1;
    }
    assert BestFallbackAt(seg, days, riseDays, bestIndex, best.value);
  }

  /** An iteration that finds a strictly higher score (or the first one)
      makes its day the earliest best of those seen. */
  lemma FallbackTakesHigher(seg: seq<real>, days: seq<int>, riseDays: int, end: int, bestIndex: int, best: Option<Fallback>)
    requires |days| == |seg| && 1 <= riseDays && 1 <= end < |seg| - riseDays
    requires best.None? <==> end == 1
    requires best.Some? ==> EarliestBest(seg, days, riseDays, end, bestIndex, best.value)
    requires best.None? || FallbackScore(seg, end, riseDays) > best.value.score
    ensures EarliestBest(seg, days, riseDays, end + 1, end, Fallback(days[end + 1], FallbackScore(seg, end, riseDays), days[end]))
  {
  }

  /** An iteration whose score is not higher keeps the earlier best. */
  lemma FallbackKeepsEarlier(seg: seq<real>, days: seq<int>, riseDays: int, end: int, bestIndex: int, f: Fallback)
    requires |days| == |seg| && 1 <= riseDays && 1 <= end < |seg| - riseDays
    requires EarliestBest(seg, days, riseDays, end, bestIndex, f)
    requires FallbackScore(seg, end, riseDays) <= f.score
    ensures EarliestBest(seg, days, riseDays, end + 1, bestIndex, f)
  {
  }

  // ---------------------------------------------------------------------
  // choose_best_candidate

  /** choose_best_candidate: Python's `max` by mean rise, which keeps the
      first of several maximal candidates. */
  function ChooseBestCandidate(cands: seq<Candidate>): (r: Option<Candidate>)
    ensures r.None? <==> |cands| == 0
    ensures r.Some? ==> forall c :: c in cands ==> c.riseMean <= r.value.riseMean
    ensures r.Some? ==> exists k :: 0 <= k < |cands| && cands[k] == r.value
                          && forall j :: 0 <= j < k ==> cands[j].riseMean < r.value.riseMean
    decreases |cands|
  {
    if |cands| == 0 then None
    else if |cands| == 1 then Some(cands[0])
    else
      var front := cands[..|cands| - 1];
      var b := ChooseBestCandidate(front).value;
      var last := cands[|cands| - 1];
      assert forall c :: c in cands ==> c in front || c == last;
      if last.riseMean > b.riseMean then Some(last) else Some(b)
  }

  // ---------------------------------------------------------------------
  // infer_menses_starts: the spacing filter over the dip days.

  /** The accepted start days, and the positions in the series they came from. */
  datatype Spacing = Spacing(starts: seq<int>, positions: seq<int>)

  /** Reference definition: the filter after the first k days. A dip is
      accepted unless an earlier start lies fewer than minCycleLen days
      before it. */
  function SpacedUpTo(dips: seq<bool>, days: seq<int>, minCycleLen: int, k: nat): (r: Spacing)
    requires |days| == |dips| && k <= |dips|
    ensures |r.starts| == |r.positions|
  {
    if k == 0 then Spacing([], [])
    else
      var prev := SpacedUpTo(dips, days, minCycleLen, k - 1);
      var i := k - 1;
      if !dips[i] then prev
      else if |prev.starts| > 0 && days[i] - prev.starts[|prev.starts| - 1] < minCycleLen then prev
      else Spacing(prev.starts + [days[i]], prev.positions + [i])
  }

  /** The loop of infer_menses_starts; maxCycleLen is accepted and unused,
      as in the dashboard. */
  method SpacedStarts(dips: seq<bool>, days: seq<int>, minCycleLen: int, maxCycleLen: int) returns (starts: seq<int>)
    requires |days| == |dips|
    ensures starts == SpacedUpTo(dips, days, minCycleLen, |dips|).starts
  {
    starts := [];
    var prev: Option<int> := None;
    var i := 0;
    while i < |dips|
      invariant 0 <= i <= |dips|
      invariant starts == SpacedUpTo(dips, days, minCycleLen, i).starts
      invariant prev.None? <==> |starts| == 0
      invariant prev.Some? ==> prev.value == starts[|starts| - 1]
    {
      if dips[i] {
        var d := days[i];
        if !(prev.Some? && d - prev.value < minCycleLen) {
          starts := starts + [d];
          prev := Some(d);
        }
      }
      i := i + 1;
    }
  }

  /** Every accepted start is the day of a dip at a position before k, taken
      in order of position. */
  predicate TakenInOrder(r: Spacing, dips: seq<bool>, days: seq<int>, k: int)
    requires |days| == |dips| && |r.starts| == |r.positions| && k <= |dips|
  {
    && (forall a :: 0 <= a < |r.positions| ==>
          0 <= r.positions[a] < k && dips[r.positions[a]] && r.starts[a] == days[r.positions[a]])
    && (forall a, b :: 0 <= a < b < |r.positions| ==> r.positions[a] < r.positions[b])
  }

  /** Each start lies at least minCycleLen days after the one before it. */
  predicate SpacedApart(starts: seq<int>, minCycleLen: int)
  {
    forall a :: 1 <= a < |starts| ==> starts[a] - starts[a - 1] >= minCycleLen
  }

  /** The accepted starts are dip days taken in order of position. */
  lemma {:induction false} SpacedStartsInOrder(dips: seq<bool>, days: seq<int>, minCycleLen: int, k: nat)
    requires |days| == |dips| && k <= |dips|
    ensures TakenInOrder(SpacedUpTo(dips, days, minCycleLen, k), dips, days, k)
  {
    if k > 0 {
      SpacedStartsInOrder(dips, days, minCycleLen, k - 1);
      var prev := SpacedUpTo(dips, days, minCycleLen, k - 1);
      var r := SpacedUpTo(dips, days, minCycleLen, k);
      if r != prev {
        assert r.starts == prev.starts + [days[k - 1]] && r.positions == prev.positions + [k - 1];
      }
    }
  }

  /** Consecutive accepted starts lie at least minCycleLen days apart. */
  lemma {:induction false} SpacedStartsApart(dips: seq<bool>, days: seq<int>, minCycleLen: int, k: nat)
    requires |days| == |dips| && k <= |dips|
    ensures SpacedApart(SpacedUpTo(dips, days, minCycleLen, k).starts, minCycleLen)
  {
    if k > 0 {
      SpacedStartsApart(dips, days, minCycleLen, k - 1);
      var prev := SpacedUpTo(dips, days, minCycleLen, k - 1).starts;
      var r := SpacedUpTo(dips, days, minCycleLen, k).starts;
      if r != prev {
        assert r == prev + [days[k - 1]];
        assert |prev| > 0 ==> days[k - 1] - prev[|prev| - 1] >= minCycleLen;
      }
    }
  }

  /** A dip is dropped exactly when the start accepted last lies fewer than
      minCycleLen days before it. */
  lemma SpacedDropsOnlyCloseDips(dips: seq<bool>, days: seq<int>, minCycleLen: int, i: nat)
    requires |days| == |dips| && i < |dips| && dips[i]
    ensures var before := SpacedUpTo(dips, days, minCycleLen, i);
            (SpacedUpTo(dips, days, minCycleLen, i + 1) == before)
            <==> (|before.starts| > 0 && days[i] - before.starts[|before.starts| - 1] < minCycleLen)
  {
  }
}
