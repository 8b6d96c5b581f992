/** The relabelling pass of calendar_data_annotate.py, with the CSV read and
    write abstracted: the phase column is an array rewritten in place. Every
    'fertile' day is first turned into 'no_phase', and every 'no_phase' day
    takes its phase from the day before it: luteal after ovulation or
    luteal, follicular after period or follicular. The day before the first
    counts as luteal; a gap after any other label raises. */
module CalendarDataAnnotate {
  import opened Common

  /** The label taken as the one before the first day. */
  const INITIAL_PREVIOUS: Label := Luteal

  /** The label a gap takes after `prev`, or None when the pass raises. */
  function GapLabel(prev: Label): Option<Label>
  {
    if prev == Ovulation || prev == Luteal then Some(Luteal)
    else if prev == Period || prev == Follicular then Some(Follicular)
    else None
  }

  predicate IsGap(l: Label)
  {
    l == Fertile || l == NoPhase
  }

  /** The column, the `prev` carried between iterations, and the index at
      which the pass raised, if it did. */
  datatype Pass = Pass(phases: seq<Label>, prev: Label, failedAt: Option<int>)

  /** One iteration on day i. A raising iteration leaves day i as 'no_phase'. */
  function RelabelStep(st: Pass, i: int): (r: Pass)
    requires 0 <= i < |st.phases|
    ensures |r.phases| == |st.phases|
  {
    if st.failedAt.Some? then st
    else
      var current := if st.phases[i] == Fertile then NoPhase else st.phases[i];
      if current == NoPhase then
        match GapLabel(st.prev)
        case None => Pass(st.phases[i := NoPhase], st.prev, Some(i))
        case Some(l) => Pass(st.phases[i := l], l, None)
      else Pass(st.phases[i := current], current, None)
  }

  /** Reference definition: the state after the first k iterations. */
  function RelabelUpTo(s: seq<Label>, k: nat): (r: Pass)
    requires k <= |s|
    ensures |r.phases| == |s|
  {
    if k == 0 then Pass(s, INITIAL_PREVIOUS, None)
    else RelabelStep(RelabelUpTo(s, k - 1), k - 1)
  }

  function Relabelled(s: seq<Label>): Pass
  {
    RelabelUpTo(s, |s|)
  }

  /** The loop of `main`; returns the index at which it raised, if it did. */
  method Relabel(phase: array<Label>) returns (failedAt: Option<int>)
    modifies phase
    ensures phase[..] == Relabelled(old(phase[..])).phases
    ensures failedAt == Relabelled(old(phase[..])).failedAt
  {
    ghost var original := phase[..];
    var prev := INITIAL_PREVIOUS;
    var i := 0;
    while i < phase.Length
      invariant 0 <= i <= phase.Length
      invariant RelabelUpTo(original, i) == Pass(phase[..], prev, None)
    {
      if phase[i] == Fertile {
        phase[i] := NoPhase;
      }
      if phase[i] == NoPhase {
        if prev == Ovulation || prev == Luteal {
          phase[i] := Luteal;
        } else if prev == Period || prev == Follicular {
          phase[i] := Follicular;
        } else {
          FailureSticks(original, i + 1, |original|);
          return Some(i);
        }
      }
      prev := phase[i];
      i := i + 1;
    }
    return None;
  }

  lemma {:induction false} FailureSticks(s: seq<Label>, k: nat, n: nat)
    requires k <= n <= |s|
    requires RelabelUpTo(s, k).failedAt.Some?
    ensures RelabelUpTo(s, n) == RelabelUpTo(s, k)
    decreases n - k
  {
    if k < n {
      FailureSticks(s, k + 1, n);
    }
  }

  /** The label before day j of column p, as the pass sees it. */
  function PreviousOf(p: seq<Label>, j: int): Label
    requires j <= |p|
  {
    if j <= 0 then INITIAL_PREVIOUS else p[j - 1]
  }

  /** Day j of p holds the label a gap takes after its predecessor. */
  predicate GapFilled(p: seq<Label>, j: int)
    requires 0 <= j < |p|
  {
    Some(p[j]) == GapLabel(PreviousOf(p, j))
  }

  /** After k iterations without raising: the first k days hold no gap,
      every non-gap among them is unchanged, every gap took the label its
      predecessor calls for, the rest of the column is untouched, and `prev`
      is the last day written. */
  lemma {:induction false} RelabelPrefix(s: seq<Label>, k: nat)
    requires k <= |s|
    requires RelabelUpTo(s, k).failedAt.None?
    ensures forall j :: 0 <= j < k ==> !IsGap(RelabelUpTo(s, k).phases[j])
    ensures forall j :: 0 <= j < k && !IsGap(s[j]) ==> RelabelUpTo(s, k).phases[j] == s[j]
    ensures forall j :: 0 <= j < k && IsGap(s[j]) ==> GapFilled(RelabelUpTo(s, k).phases, j)
    ensures forall j :: k <= j < |s| ==> RelabelUpTo(s, k).phases[j] == s[j]
    ensures RelabelUpTo(s, k).prev == PreviousOf(RelabelUpTo(s, k).phases, k)
  {
    if k > 0 {
      var before := RelabelUpTo(s, k - 1);
      assert before.failedAt.None?;
      RelabelPrefix(s, k - 1);
      var p := RelabelUpTo(s, k).phases;
      assert p == before.phases[k - 1 := p[k - 1]];
      assert before.phases[k - 1] == s[k - 1];
      assert before.prev == PreviousOf(p, k - 1);
      forall j | 0 <= j < k && IsGap(s[j])
        ensures GapFilled(p, j)
      {
        if j < k - 1 {
          assert GapFilled(before.phases, j);
          assert PreviousOf(p, j) == PreviousOf(before.phases, j);
        }
      }
    }
  }

  /** A completed pass leaves every day not 'fertile'/'no_phase' as it was,
      gives every gap the label its predecessor calls for, and leaves no
      gap at all. */
  lemma RelabelCompleted(s: seq<Label>)
    requires Relabelled(s).failedAt.None?
    ensures |Relabelled(s).phases| == |s|
    ensures forall j :: 0 <= j < |s| ==> !IsGap(Relabelled(s).phases[j])
    ensures forall j :: 0 <= j < |s| && !IsGap(s[j]) ==> Relabelled(s).phases[j] == s[j]
    ensures forall j :: 0 <= j < |s| && IsGap(s[j]) ==> GapFilled(Relabelled(s).phases, j)
  {
    RelabelPrefix(s, |s|);
  }

  /** The pass raises at day i exactly when day i is a gap and the label
      before it is neither ovulation, luteal, period nor follicular; the
      days before i are relabelled, day i is 'no_phase' and the days after
      it are untouched. */
  lemma {:induction false} RelabelFailure(s: seq<Label>, k: nat)
    requires k <= |s|
    ensures var r := RelabelUpTo(s, k);
            r.failedAt.Some? ==>
              var i := r.failedAt.value;
              && 0 < i < k
              && IsGap(s[i])
              && GapLabel(r.phases[i - 1]).None?
              && r.phases[i] == NoPhase
              && RelabelUpTo(s, i).failedAt.None?
              && r.phases[..i] == RelabelUpTo(s, i).phases[..i]
              && r.phases[i + 1..] == s[i + 1..]
  {
    if k > 0 {
      RelabelFailure(s, k - 1);
      var before := RelabelUpTo(s, k - 1);
      if before.failedAt.None? && RelabelUpTo(s, k).failedAt.Some? {
        RelabelPrefix(s, k - 1);
        assert RelabelUpTo(s, k).phases == before.phases[k - 1 := NoPhase];
        assert before.phases[k..] == s[k..];
      }
    }
  }

  /** Conversely, a gap the pass reaches while its predecessor is none of
      ovulation, luteal, period or follicular makes the pass raise at that
      gap's index. */
  lemma RaisesAtUnknownGap(s: seq<Label>, i: nat)
    requires i < |s|
    requires RelabelUpTo(s, i).failedAt.None?
    requires IsGap(s[i])
    requires GapLabel(PreviousOf(RelabelUpTo(s, i).phases, i)).None?
    ensures Relabelled(s).failedAt == Some(i)
  {
    RelabelPrefix(s, i);
    FailureSticks(s, i + 1, |s|);
  }

  /** Leading gaps become luteal. */
  lemma LeadingGapsLuteal()
    ensures Relabelled([Fertile, NoPhase, Period, NoPhase]) == Pass([Luteal, Luteal, Period, Follicular], Follicular, None)
  {
    var s := [Fertile, NoPhase, Period, NoPhase];
    assert RelabelUpTo(s, 1) == Pass([Luteal, NoPhase, Period, NoPhase], Luteal, None);
    assert RelabelUpTo(s, 2) == Pass([Luteal, Luteal, Period, NoPhase], Luteal, None);
    assert RelabelUpTo(s, 3) == Pass([Luteal, Luteal, Period, NoPhase], Period, None);
  }

  /** A gap after a label the pass does not know raises at its index. */
  lemma GapAfterUnknownRaises()
    ensures Relabelled([Missing, Fertile, Luteal]) == Pass([Missing, NoPhase, Luteal], Missing, Some(1))
  {
    var s := [Missing, Fertile, Luteal];
    assert RelabelUpTo(s, 2) == Pass([Missing, NoPhase, Luteal], Missing, Some(1));
  }
}
