/** The signal utilities and label helpers of data_processing_utils.py:
    calendar-date parsing, the trailing low-pass filter, the linearly
    weighted past average and the in-place gap filling built on it, the
    confusion-matrix split of day indices and the synthesis of one
    predicted label per day. */
module DataProcessingUtils {
  import opened Common

  // ---------------------------------------------------------------------
  // Calendar dates: str_to_date and phase_from_date.

  /** A Python `date`: the fields as given to its constructor. */
  datatype Date = Date(year: int, month: int, day: int)

  const MINYEAR: int := 1
  const MAXYEAR: int := 9999

  predicate IsLeapYear(year: int)
  {
    year % 4 == 0 && (year % 100 != 0 || year % 400 == 0)
  }

  function DaysInMonth(year: int, month: int): int
    requires 1 <= month <= 12
  {
    if month == 2 then (if IsLeapYear(year) then 29 else 28)
    else if month == 4 || month == 6 || month == 9 || month == 11 then 30
    else 31
  }

  /** The arguments the `date` constructor accepts without ValueError. */
  predicate ValidDate(d: Date)
  {
    && MINYEAR <= d.year <= MAXYEAR
    && 1 <= d.month <= 12
    && 1 <= d.day <= DaysInMonth(d.year, d.month)
  }

  /** The range of a C `int`, into which `date` converts each argument
      before it checks the calendar. */
  const C_INT_MIN: int := -0x8000_0000
  const C_INT_MAX: int := 0x7fff_ffff

  predicate FitsCInt(x: int)
  {
    C_INT_MIN <= x <= C_INT_MAX
  }

  /** `date(year, month, day)`: an argument outside the C `int` range raises
      OverflowError during argument conversion; fields that convert but do
      not form a valid date raise ValueError. */
  function MakeDate(year: int, month: int, day: int): (r: Result<Date>)
    ensures r.Ok? <==> ValidDate(Date(year, month, day))
    ensures r.Ok? ==> r.value == Date(year, month, day)
    ensures r.Err? && FitsCInt(year) && FitsCInt(month) && FitsCInt(day) ==> r.error == ValueError
    ensures !(FitsCInt(year) && FitsCInt(month) && FitsCInt(day)) ==> r == Err(OverflowError)
  {
    var d := Date(year, month, day);
    if !(FitsCInt(year) && FitsCInt(month) && FitsCInt(day)) then Err(OverflowError)
    else if ValidDate(d) then Ok(d) else Err(ValueError)
  }

  /** A year one past the C `int` range overflows rather than failing the
      calendar check. */
  lemma MakeDateOverflows()
    ensures MakeDate(2147483648, 1, 1) == Err(OverflowError)
    ensures MakeDate(2147483647, 1, 1) == Err(ValueError)
    ensures MakeDate(2024, 13, 2147483648) == Err(OverflowError)
  {
  }

  /** Python's `s.split(sep)`: the maximal separator-free pieces, in order. */
  function Split(s: string, sep: char): (r: seq<string>)
    ensures |r| >= 1
  {
    if |s| == 0 then [""]
    else
      var rest := Split(s[1..], sep);
      if s[0] == sep then [""] + rest else [[s[0]] + rest[0]] + rest[1..]
  }

  /** `sep.join(pieces)`. */
  function Join(pieces: seq<string>, sep: char): string
    requires |pieces| >= 1
  {
    if |pieces| == 1 then pieces[0] else pieces[0] + [sep] + Join(pieces[1..], sep)
  }

  /** Splitting and joining again gives the string back. */
  lemma {:induction false} JoinSplit(s: string, sep: char)
    ensures Join(Split(s, sep), sep) == s
  {
    if |s| > 0 {
      JoinSplit(s[1..], sep);
      var rest := Split(s[1..], sep);
      if s[0] != sep && |rest| > 1 {
        assert ([[s[0]] + rest[0]] + rest[1..])[1..] == rest[1..];
      }
    }
  }

  lemma {:induction false} SplitSeparatorFree(a: string, sep: char)
    requires sep !in a
    ensures Split(a, sep) == [a]
  {
    if |a| > 0 {
      assert a[0] in a;
      assert sep !in a[1..] by { assert forall c :: c in a[1..] ==> c in a; }
      SplitSeparatorFree(a[1..], sep);
      assert [a[0]] + a[1..] == a;
    }
  }

  lemma {:induction false} SplitAtSeparator(a: string, sep: char, t: string)
    requires sep !in a
    ensures Split(a + [sep] + t, sep) == [a] + Split(t, sep)
  {
    if |a| == 0 {
      assert a + [sep] + t == [sep] + t;
      assert ([sep] + t)[1..] == t;
    } else {
      assert (a + [sep] + t)[1..] == a[1..] + [sep] + t;
      SplitAtSeparator(a[1..], sep, t);
      assert [a[0]] + a[1..] == a;
    }
  }

  /** Joining separator-free pieces and splitting again gives the pieces back. */
  lemma {:induction false} SplitJoin(pieces: seq<string>, sep: char)
    requires |pieces| >= 1
    requires forall k :: 0 <= k < |pieces| ==> sep !in pieces[k]
    ensures Split(Join(pieces, sep), sep) == pieces
  {
    if |pieces| == 1 {
      SplitSeparatorFree(pieces[0], sep);
    } else {
      SplitJoin(pieces[1..], sep);
      SplitAtSeparator(pieces[0], sep, Join(pieces[1..], sep));
    }
  }

  predicate IsDigit(c: char)
  {
    '0' <= c <= '9'
  }

  predicate AllDigits(s: string)
  {
    forall k :: 0 <= k < |s| ==> IsDigit(s[k])
  }

  /** The value of a string of decimal digits. */
  function DigitsValue(s: string): nat
    requires AllDigits(s)
  {
    if |s| == 0 then 0 else DigitsValue(s[..|s| - 1]) * 10 + (s[|s| - 1] as int - '0' as int)
  }

  /** Python's default limit on the number of digits `int` converts from a
      decimal string (sys.int_info.default_max_str_digits). */
  const MAX_STR_DIGITS: int := 4300

  /** Python's `int(s)` on a string: an optional sign followed by decimal
      digits, at most MAX_STR_DIGITS of them. */
  function ParseInt(s: string): (r: Result<int>)
    ensures r.Err? ==> r.error == ValueError
    ensures r.Ok? && AllDigits(s) ==> r.value == DigitsValue(s)
    ensures AllDigits(s) ==> (r.Ok? <==> 0 < |s| <= MAX_STR_DIGITS)
  {
    if |s| > 0 && (s[0] == '+' || s[0] == '-') then
      var digits := s[1..];
      if 0 < |digits| <= MAX_STR_DIGITS && AllDigits(digits) then
        var magnitude: int := DigitsValue(digits);
        Ok(if s[0] == '-' then -magnitude else magnitude)
      else Err(ValueError)
    else if 0 < |s| <= MAX_STR_DIGITS && AllDigits(s) then Ok(DigitsValue(s))
    else Err(ValueError)
  }

  /** str_to_date: the first three '-'-separated fields, read as integers in
      order, given to `date`. A failing `int` raises before a missing field
      is looked up, in the order Python evaluates the arguments. */
  function StrToDate(s: string): (r: Result<Date>)
    ensures r.Ok? ==> ValidDate(r.value)
    ensures |Split(s, '-')| < 3 ==> r.Err?
  {
    var pieces := Split(s, '-');
    match ParseInt(pieces[0])
    case Err(e) => Err(e)
    case Ok(year) =>
      if |pieces| < 2 then Err(IndexError)
      else match ParseInt(pieces[1])
      case Err(e) => Err(e)
      case Ok(month) =>
        if |pieces| < 3 then Err(IndexError)
        else match ParseInt(pieces[2])
        case Err(e) => Err(e)
        case Ok(day) => MakeDate(year, month, day)
  }

  /** Strings whose first three fields agree parse to the same date. */
  lemma StrToDateReadsThreeFields(s: string, s': string)
    requires |Split(s, '-')| >= 3 && |Split(s', '-')| >= 3
    requires Split(s, '-')[..3] == Split(s', '-')[..3]
    ensures StrToDate(s) == StrToDate(s')
  {
    var p, p' := Split(s, '-'), Split(s', '-');
    assert p[0] == p'[0] && p[1] == p'[1] && p[2] == p'[2] by {
      assert p[0] == p[..3][0] && p[1] == p[..3][1] && p[2] == p[..3][2];
    }
  }

  /** The pieces of "year-month-day-rest". */
  lemma SplitFourFields(year: string, month: string, day: string, rest: string)
    requires '-' !in year && '-' !in month && '-' !in day
    ensures Split(year + "-" + month + "-" + day + "-" + rest, '-') == [year, month, day] + Split(rest, '-')
  {
    var t3 := day + "-" + rest;
    var t2 := month + "-" + t3;
    assert year + "-" + month + "-" + day + "-" + rest == year + "-" + t2;
    SplitAtSeparator(year, '-', t2);
    SplitAtSeparator(month, '-', t3);
    SplitAtSeparator(day, '-', rest);
  }

  /** The pieces of "year-month-day". */
  lemma SplitThreeFields(year: string, month: string, day: string)
    requires '-' !in year && '-' !in month && '-' !in day
    ensures Split(year + "-" + month + "-" + day, '-') == [year, month, day]
  {
    var t2 := month + "-" + day;
    assert year + "-" + month + "-" + day == year + "-" + t2;
    SplitAtSeparator(year, '-', t2);
    SplitAtSeparator(month, '-', day);
    SplitSeparatorFree(day, '-');
  }

  /** Only the first three fields are read: anything after a third '-' is ignored. */
  lemma ExtraFieldsIgnored(year: string, month: string, day: string, rest: string)
    requires '-' !in year && '-' !in month && '-' !in day
    ensures StrToDate(year + "-" + month + "-" + day + "-" + rest) == StrToDate(year + "-" + month + "-" + day)
  {
    SplitFourFields(year, month, day, rest);
    SplitThreeFields(year, month, day);
    StrToDateReadsThreeFields(year + "-" + month + "-" + day + "-" + rest, year + "-" + month + "-" + day);
  }

  /** The decimal digit character for d. */
  function DigitChar(d: nat): (c: char)
    requires d < 10
    ensures IsDigit(c) && c as int - '0' as int == d
  {
    ('0' as int + d) as char
  }

  /** The shortest decimal representation of x. */
  function NatToDigits(x: nat): (r: string)
    ensures |r| >= 1 && AllDigits(r)
  {
    if x < 10 then [DigitChar(x)] else NatToDigits(x / 10) + [DigitChar(x % 10)]
  }

  lemma {:induction false} NatToDigitsValue(x: nat)
    ensures DigitsValue(NatToDigits(x)) == x
  {
    var r := NatToDigits(x);
    if x >= 10 {
      NatToDigitsValue(x / 10);
      assert r[..|r| - 1] == NatToDigits(x / 10);
    } else {
      assert r[..0] == [];
    }
  }

  function Zeros(k: nat): (r: string)
    ensures |r| == k && AllDigits(r)
    ensures forall j :: 0 <= j < k ==> r[j] == '0'
  {
    if k == 0 then [] else Zeros(k - 1) + ['0']
  }

  function Pow10(k: nat): (r: nat)
    ensures r >= 1
  {
    if k == 0 then 1 else 10 * Pow10(k - 1)
  }

  /** A number below 10^k has at most k digits. */
  lemma {:induction false} NatToDigitsLength(x: nat, k: nat)
    requires 1 <= k && x < Pow10(k)
    ensures |NatToDigits(x)| <= k
  {
    if x >= 10 {
      assert k >= 2;
      NatToDigitsLength(x / 10, k - 1);
    }
  }

  /** The digits of x, left-padded with zeros to at least `width` characters. */
  function PadDigits(x: nat, width: nat): (r: string)
    ensures |r| >= width && AllDigits(r)
    ensures |NatToDigits(x)| <= width ==> |r| == width
  {
    var digits := NatToDigits(x);
    if |digits| >= width then digits else Zeros(width - |digits|) + digits
  }

  lemma {:induction false} LeadingZerosValue(z: string, s: string)
    requires AllDigits(s) && forall j :: 0 <= j < |z| ==> z[j] == '0'
    ensures AllDigits(z + s) && DigitsValue(z + s) == DigitsValue(s)
  {
    if |s| == 0 {
      assert z + s == z;
      ZerosValue(z);
    } else {
      assert (z + s)[..|z + s| - 1] == z + s[..|s| - 1];
      LeadingZerosValue(z, s[..|s| - 1]);
    }
  }

  lemma {:induction false} ZerosValue(z: string)
    requires forall j :: 0 <= j < |z| ==> z[j] == '0'
    ensures AllDigits(z) && DigitsValue(z) == 0
  {
    if |z| > 0 {
      ZerosValue(z[..|z| - 1]);
    }
  }

  lemma PadDigitsValue(x: nat, width: nat)
    ensures DigitsValue(PadDigits(x, width)) == x
  {
    var digits := NatToDigits(x);
    NatToDigitsValue(x);
    if |digits| < width {
      LeadingZerosValue(Zeros(width - |digits|), digits);
    }
  }

  /** `date.strftime('%Y-%m-%d')`, with the year padded to four digits. */
  function FormatDate(d: Date): string
    requires ValidDate(d)
  {
    PadDigits(d.year, 4) + "-" + PadDigits(d.month, 2) + "-" + PadDigits(d.day, 2)
  }

  lemma DigitsHaveNoDash(s: string)
    requires AllDigits(s)
    ensures '-' !in s
  {
    forall k | 0 <= k < |s|
      ensures s[k] != '-'
    {
      assert IsDigit(s[k]);
    }
  }

  /** Formatting a valid date and parsing the text again gives the date back. */
  lemma StrToDateFormatDate(d: Date)
    requires ValidDate(d)
    ensures StrToDate(FormatDate(d)) == Ok(d)
  {
    var y := PadDigits(d.year, 4);
    var m := PadDigits(d.month, 2);
    var dd := PadDigits(d.day, 2);
    DigitsHaveNoDash(y);
    DigitsHaveNoDash(m);
    DigitsHaveNoDash(dd);
    assert Join([m, dd], '-') == m + "-" + dd by { assert [m, dd][1..] == [dd]; }
    assert [y, m, dd][1..] == [m, dd];
    assert FormatDate(d) == Join([y, m, dd], '-');
    SplitJoin([y, m, dd], '-');
    PadDigitsValue(d.year, 4);
    PadDigitsValue(d.month, 2);
    PadDigitsValue(d.day, 2);
    NatToDigitsLength(d.year, 4);
    NatToDigitsLength(d.month, 2);
    NatToDigitsLength(d.day, 2);
    assert y[0] != '+' && y[0] != '-' by { assert IsDigit(y[0]); }
    assert m[0] != '+' && m[0] != '-' by { assert IsDigit(m[0]); }
    assert dd[0] != '+' && dd[0] != '-' by { assert IsDigit(dd[0]); }
  }

  /** A digit field longer than Python's conversion limit is a ValueError,
      even when it is the only field. */
  lemma OverlongFieldRejected(s: string)
    requires AllDigits(s) && |s| > MAX_STR_DIGITS
    ensures StrToDate(s) == Err(ValueError)
  {
    DigitsHaveNoDash(s);
    SplitSeparatorFree(s, '-');
  }

  /** Three digit fields that int() converts but whose year lies beyond the
      C `int` range make str_to_date raise OverflowError. */
  lemma StrToDateOverflows(year: string, month: string, day: string)
    requires AllDigits(year) && AllDigits(month) && AllDigits(day)
    requires 0 < |year| <= MAX_STR_DIGITS && 0 < |month| <= MAX_STR_DIGITS && 0 < |day| <= MAX_STR_DIGITS
    requires DigitsValue(year) > C_INT_MAX
    ensures StrToDate(year + "-" + month + "-" + day) == Err(OverflowError)
  {
    DigitsHaveNoDash(year);
    DigitsHaveNoDash(month);
    DigitsHaveNoDash(day);
    SplitThreeFields(year, month, day);
  }

  /** phase_from_date: look up the label stored under the date's
      'YYYY-MM-DD' text; a missing key raises KeyError. */
  function PhaseFromDate(phases: map<string, Label>, d: Date): (r: Result<Label>)
    requires ValidDate(d)
    ensures r.Ok? <==> FormatDate(d) in phases
    ensures r.Err? ==> r.error == KeyError
  {
    var key := FormatDate(d);
    if key in phases then Ok(phases[key]) else Err(KeyError)
  }

  /** A key written in the canonical form is found again from the date parsed out of it. */
  lemma PhaseOfParsedKey(phases: map<string, Label>, key: string)
    requires key in phases
    requires StrToDate(key).Ok? && key == FormatDate(StrToDate(key).value)
    ensures PhaseFromDate(phases, StrToDate(key).value) == Ok(phases[key])
  {
  }

  lemma SplitExample()
    ensures Split("2024-3-5", '-') == ["2024", "3", "5"]
  {
    SplitJoin(["2024", "3", "5"], '-');
    assert ["2024", "3", "5"][1..] == ["3", "5"] && ["3", "5"][1..] == ["5"];
    assert Join(["2024", "3", "5"], '-') == "2024-3-5";
  }

  lemma ParseExamples()
    ensures ParseInt("2024") == Ok(2024) && ParseInt("3") == Ok(3) && ParseInt("5") == Ok(5)
  {
    assert AllDigits("2024") && AllDigits("3") && AllDigits("5");
    assert "2024"[..3] == "202" && "202"[..2] == "20" && "20"[..1] == "2" && "2"[..0] == "";
    assert "3"[..0] == "" && "5"[..0] == "";
  }

  /** str_to_date accepts unpadded fields, but phase_from_date looks up the
      padded text, so a key such as "2024-3-5" is never found again. */
  lemma UnpaddedKeyIsLost()
    ensures StrToDate("2024-3-5") == Ok(Date(2024, 3, 5))
    ensures PhaseFromDate(map["2024-3-5" := Period], Date(2024, 3, 5)) == Err(KeyError)
  {
    SplitExample();
    ParseExamples();
    assert |FormatDate(Date(2024, 3, 5))| >= 10;
  }

  // ---------------------------------------------------------------------
  // low_pass.

  /** low_pass: the mean of every full window of `windowSize` values except
      the last one. A zero window over a non-empty series divides by zero. */
  method LowPass(data: seq<real>, windowSize: nat) returns (r: Result<seq<real>>)
    ensures r.Err? <==> windowSize == 0 && |data| > 0
    ensures r.Err? ==> r.error == ZeroDivisionError
    ensures r.Ok? ==> |r.value| == if |data| > windowSize then |data| - windowSize else 0
    ensures r.Ok? ==> forall i :: 0 <= i < |r.value| && 0 < windowSize ==> r.value[i] == Mean(data[i..i + windowSize])
    ensures r.Ok? && |data| > 0 && (forall k :: 0 <= k < |data| ==> data[k] == data[0]) ==>
              forall i :: 0 <= i < |r.value| ==> r.value[i] == data[0]
  {
    if windowSize == 0 {
      if |data| > 0 {
        return Err(ZeroDivisionError);
      }
      return Ok([]);
    }
    var newData := [];
    var i := 0;
    while i < |data| - windowSize
      invariant 0 <= i <= if |data| > windowSize then |data| - windowSize else 0
      invariant |newData| == i
      invariant forall k :: 0 <= k < i ==> newData[k] == Mean(data[k..k + windowSize])
    {
      newData := newData + [Sum(data[i..i + windowSize]) / windowSize as real];
      i := i + 1;
    }
    if |data| > 0 && forall k :: 0 <= k < |data| ==> data[k] == data[0] {
      forall j | 0 <= j < |newData|
        ensures newData[j] == data[0]
      {
        MeanConstant(data[j..j + windowSize], data[0]);
      }
    }
    return Ok(newData);
  }

  // ---------------------------------------------------------------------
  // weighted_past_average.

  /** The first m terms of the loop's accumulation: term i gives weight n - i
      to data[-1 - i], the i-th value counted back from the end. */
  function WeightedTail(data: seq<real>, n: int, m: nat): real
    requires m <= |data|
  {
    if m == 0 then 0.0 else WeightedTail(data, n, m - 1) + (n - (m - 1)) as real * data[|data| - m]
  }

  /** The sum of the weights n, n-1, ..., n-m+1. */
  function TotalWeight(n: int, m: nat): int
  {
    if m == 0 then 0 else TotalWeight(n, m - 1) + (n - (m - 1))
  }

  /** What weighted_past_average(data, n) returns or raises: fewer than n
      values raise IndexError, n of 0 or -1 make the normaliser zero, and a
      more negative n runs no iteration and returns 0. */
  function PastAverage(data: seq<real>, n: int): (r: Result<real>)
    ensures r.Err? <==> (1 <= n && |data| < n) || n == 0 || n == -1
    ensures r == Err(IndexError) <==> 1 <= n && |data| < n
    ensures r == Err(ZeroDivisionError) <==> n == 0 || n == -1
    ensures n <= -2 ==> r == Ok(0.0)
  {
    if 1 <= n && |data| < n then Err(IndexError)
    else if n == 0 || n == -1 then Err(ZeroDivisionError)
    else if n <= -2 then Ok(0.0)
    else Ok(2.0 * WeightedTail(data, n, n) / (n * (n + 1)) as real)
  }

  /** weighted_past_average. */
  method WeightedPastAverage(data: seq<real>, n: int) returns (r: Result<real>)
    ensures r == PastAverage(data, n)
  {
    var average := 0.0;
    var i := 0;
    while i < n
      invariant 0 <= i <= (if n > 0 then n else 0) && i <= |data|
      invariant average == WeightedTail(data, n, i)
    {
      var value := PyIndex(data, -1 - i);
      if value.Err? {
        return Err(IndexError);
      }
      average := average + (n - i) as real * value.value;
      i := i + 1;
    }
    if n * (n + 1) == 0 {
      return Err(ZeroDivisionError);
    }
    if n <= -2 {
      assert average == 0.0;
      assert 2.0 * average / (n * (n + 1)) as real == 0.0;
    } else {
      assert i == n;
    }
    return Ok(2.0 * average / (n * (n + 1)) as real);
  }

  lemma {:induction false} TotalWeightClosedForm(n: int, m: nat)
    ensures 2 * TotalWeight(n, m) == m * (2 * n - m + 1)
  {
    if m > 0 {
      TotalWeightClosedForm(n, m - 1);
    }
  }

  lemma {:induction false} WeightedTailBounds(data: seq<real>, n: int, m: nat, lo: real, hi: real)
    requires m <= n && m <= |data|
    requires forall k :: |data| - m <= k < |data| ==> lo <= data[k] <= hi
    ensures lo * TotalWeight(n, m) as real <= WeightedTail(data, n, m) <= hi * TotalWeight(n, m) as real
  {
    if m > 0 {
      WeightedTailBounds(data, n, m - 1, lo, hi);
      WeightedTailStep(data, n, m, lo, hi);
    }
  }

  /** One more value within [lo, hi] keeps the bounds of the weighted tail. */
  lemma WeightedTailStep(data: seq<real>, n: int, m: nat, lo: real, hi: real)
    requires 0 < m <= n && m <= |data|
    requires lo <= data[|data| - m] <= hi
    requires lo * TotalWeight(n, m - 1) as real <= WeightedTail(data, n, m - 1) <= hi * TotalWeight(n, m - 1) as real
    ensures lo * TotalWeight(n, m) as real <= WeightedTail(data, n, m) <= hi * TotalWeight(n, m) as real
  {
    var w := (n - (m - 1)) as real;
    var before := TotalWeight(n, m - 1) as real;
    var tail := WeightedTail(data, n, m - 1);
    AddWeightedTerm(w, data[|data| - m], lo, hi, before, tail, TotalWeight(n, m) as real, WeightedTail(data, n, m));
  }

  /** Adding a term of weight w >= 0 with lo <= x <= hi to a sum bounded by
      lo and hi times its weight keeps those bounds. */
  lemma AddWeightedTerm(w: real, x: real, lo: real, hi: real, before: real, tail: real, total: real, sum: real)
    requires w >= 0.0 && lo <= x <= hi
    requires lo * before <= tail <= hi * before
    requires total == before + w && sum == tail + w * x
    ensures lo * total <= sum <= hi * total
  {
    assert w * lo <= w * x <= w * hi;
    assert lo * (before + w) == lo * before + w * lo;
    assert hi * (before + w) == hi * before + w * hi;
  }

  /** With n >= 1 the result is the weighted tail over its total weight n(n+1)/2. */
  lemma PastAverageIsWeightedMean(data: seq<real>, n: int)
    requires 1 <= n <= |data|
    ensures TotalWeight(n, n) > 0
    ensures PastAverage(data, n) == Ok(WeightedTail(data, n, n) / TotalWeight(n, n) as real)
  {
    TotalWeightClosedForm(n, n);
    var t := WeightedTail(data, n, n);
    var w := TotalWeight(n, n) as real;
    assert (n * (n + 1)) as real == 2.0 * w;
    assert 2.0 * t / (2.0 * w) == t / w;
  }

  /** Any result lies between the least and the greatest of the last n values. */
  lemma PastAverageBetween(data: seq<real>, n: int, lo: real, hi: real)
    requires 1 <= n <= |data|
    requires forall k :: |data| - n <= k < |data| ==> lo <= data[k] <= hi
    ensures PastAverage(data, n).Ok?
    ensures lo <= PastAverage(data, n).value <= hi
  {
    PastAverageIsWeightedMean(data, n);
    WeightedTailBounds(data, n, n, lo, hi);
    var t := WeightedTail(data, n, n);
    var w := TotalWeight(n, n) as real;
    assert lo * w <= t <= hi * w;
    DivideBounds(t, w, lo, hi);
  }

  lemma DivideBounds(t: real, w: real, lo: real, hi: real)
    requires w > 0.0 && lo * w <= t <= hi * w
    ensures lo <= t / w <= hi
  {
    assert (lo * w) / w == lo && (hi * w) / w == hi;
  }

  /** n equal values average to that value. */
  lemma PastAverageOfEqualValues(data: seq<real>, n: int, c: real)
    requires 1 <= n <= |data|
    requires forall k :: |data| - n <= k < |data| ==> data[k] == c
    ensures PastAverage(data, n) == Ok(c)
  {
    PastAverageBetween(data, n, c, c);
  }

  /** The most recent value has weight n: [1, 2, 3] with n = 3 averages to
      (3*3 + 2*2 + 1*1) / 6 = 14/6. */
  lemma PastAverageExample()
    ensures PastAverage([1.0, 2.0, 3.0], 3) == Ok(14.0 / 6.0)
  {
    assert WeightedTail([1.0, 2.0, 3.0], 3, 3) == 14.0;
  }

  // ---------------------------------------------------------------------
  // remove_nan: gaps are None, and each is overwritten in place.

  /** The positions holding NaN, in increasing order, as `data[data.isna()].index`. */
  function NanPositions(s: seq<Option<real>>): (r: seq<int>)
    ensures forall k :: 0 <= k < |r| ==> 0 <= r[k] < |s|
  {
    if |s| == 0 then []
    else
      var prev := NanPositions(s[..|s| - 1]);
      if s[|s| - 1].None? then prev + [|s| - 1] else prev
  }

  /** Every listed position holds NaN, and the list is increasing. */
  lemma {:induction false} NanPositionsExact(s: seq<Option<real>>)
    ensures forall k :: 0 <= k < |NanPositions(s)| ==> s[NanPositions(s)[k]].None?
    ensures StrictlyIncreasing(NanPositions(s))
  {
    if |s| > 0 {
      var init := s[..|s| - 1];
      NanPositionsExact(init);
      var prev := NanPositions(init);
      assert forall k :: 0 <= k < |prev| ==> s[prev[k]] == init[prev[k]];
    }
  }

  /** Every NaN position is listed: q is its place in the list. */
  lemma {:induction false} GapIndex(s: seq<Option<real>>, p: int) returns (q: nat)
    requires 0 <= p < |s| && s[p].None?
    ensures q < |NanPositions(s)| && NanPositions(s)[q] == p
  {
    var init := s[..|s| - 1];
    if p == |s| - 1 {
      q := |NanPositions(init)|;
    } else {
      q := GapIndex(init, p);
    }
  }

  /** The value weighted_past_average(window) (n = 3) assigns to a gap:
      fewer than three values raise IndexError, and a NaN among the last
      three makes the average NaN. */
  function FillValue(window: seq<Option<real>>): (r: Result<Option<real>>)
    ensures r.Err? <==> |window| < 3
    ensures r.Err? ==> r.error == IndexError
  {
    if |window| < 3 then Err(IndexError)
    else
      var t := window[|window| - 3..];
      if t[0].Some? && t[1].Some? && t[2].Some? then
        Ok(Some(PastAverage([t[0].value, t[1].value, t[2].value], 3).value))
      else Ok(None)
  }

  /** Slices that end at i read only positions below i. */
  lemma SliceBelow(s: seq<Option<real>>, s': seq<Option<real>>, a: int, i: int)
    requires |s| == |s'| && 0 <= i <= |s|
    requires forall k :: 0 <= k < i ==> s[k] == s'[k]
    ensures PySlice(s, a, i) == PySlice(s', a, i)
  {
  }

  /** A slice ending at i holds numbers when the entries before i do. */
  lemma SliceOfNumbers(s: seq<Option<real>>, a: int, i: int)
    requires 0 <= i <= |s|
    requires forall k :: 0 <= k < i ==> s[k].Some?
    ensures forall k :: 0 <= k < |PySlice(s, a, i)| ==> PySlice(s, a, i)[k].Some?
  {
  }

  /** How the loop computes the value it writes at position i from the
      series as it stands. */
  type GapFill = (seq<Option<real>>, int) -> Result<Option<real>>

  /** remove_nan's fill: weighted_past_average of the slice `data[i - n:i]`. */
  function PastAverageFill(n: int): GapFill
  {
    (values: seq<Option<real>>, i: int) => FillValue(PySlice(values, i - n, i))
  }

  /** A fill that yields a number whenever every entry before the position is one. */
  ghost predicate ProducesNumbers(fill: GapFill)
  {
    forall values: seq<Option<real>>, i: int {:trigger fill(values, i)} ::
      0 <= i <= |values| && (forall k :: 0 <= k < i ==> values[k].Some?) && fill(values, i).Ok?
      ==> fill(values, i).value.Some?
  }

  /** A fill that depends only on the entries before the position. */
  ghost predicate ReadsOnlyBefore(fill: GapFill)
  {
    forall values: seq<Option<real>>, other: seq<Option<real>>, i: int
      {:trigger fill(values, i), fill(other, i)} ::
      |values| == |other| && 0 <= i <= |values| && (forall k :: 0 <= k < i ==> values[k] == other[k])
      ==> fill(values, i) == fill(other, i)
  }

  /** The weighted past average over the slice before a position reads only
      that slice, and is a number when the slice holds only numbers. */
  lemma PastAverageFillProperties(n: int)
    ensures ProducesNumbers(PastAverageFill(n))
    ensures ReadsOnlyBefore(PastAverageFill(n))
  {
    var fill := PastAverageFill(n);
    forall values: seq<Option<real>>, i: int |
      0 <= i <= |values| && (forall k :: 0 <= k < i ==> values[k].Some?) && fill(values, i).Ok?
      ensures fill(values, i).value.Some?
    {
      var w := PySlice(values, i - n, i);
      SliceOfNumbers(values, i - n, i);
      assert w[|w| - 3..][0] == w[|w| - 3];
      assert w[|w| - 3..][1] == w[|w| - 2];
      assert w[|w| - 3..][2] == w[|w| - 1];
    }
    forall values: seq<Option<real>>, other: seq<Option<real>>, i: int |
      |values| == |other| && 0 <= i <= |values| && (forall k :: 0 <= k < i ==> values[k] == other[k])
      ensures fill(values, i) == fill(other, i)
    {
      SliceBelow(values, other, i - n, i);
    }
  }

  /** The series after some of the fills, and the error that stopped them, if any. */
  datatype Filling = Filling(values: seq<Option<real>>, failure: Option<PyError>)

  /** One visit of the loop to the gap at position i: it changes at most
      that position, which then holds the fill computed from the series
      before the visit; a failure leaves the series alone, and once set it
      sticks. (The loop only visits positions inside the series; any other
      i changes nothing.) */
  function FillStep(prev: Filling, i: int, fill: GapFill): (r: Filling)
    ensures |r.values| == |prev.values|
    ensures prev.failure.Some? ==> r == prev
    ensures 0 <= i < |prev.values| ==> r.values == prev.values[i := r.values[i]]
    ensures 0 <= i < |prev.values| && prev.failure.None? && r.failure.None? ==>
              fill(prev.values, i) == Ok(r.values[i])
    ensures r.failure.Some? ==> r.values == prev.values
  {
    if prev.failure.Some? || !(0 <= i < |prev.values|) then prev
    else
      match fill(prev.values, i)
      case Err(e) => Filling(prev.values, Some(e))
      case Ok(v) => Filling(prev.values[i := v], None)
  }

  /** Reference definition: the state after the first t gaps of `gaps` were
      visited in order. */
  function FillGaps(s: seq<Option<real>>, gaps: seq<int>, t: nat, fill: GapFill): (r: Filling)
    requires t <= |gaps|
    ensures |r.values| == |s|
  {
    if t == 0 then Filling(s, None)
    else FillStep(FillGaps(s, gaps, t - 1, fill), gaps[t - 1], fill)
  }

  /** What remove_nan leaves behind: every NaN position visited in order,
      each filled by weighted_past_average (n = 3) of the slice of the n
      entries before it. */
  function RemoveNanResult(s: seq<Option<real>>, n: int): Filling
  {
    var gaps := NanPositions(s);
    FillGaps(s, gaps, |gaps|, PastAverageFill(n))
  }

  /** Once a fill has failed, the later visits change nothing. */
  lemma {:induction false} FailureSticks(s: seq<Option<real>>, gaps: seq<int>, t: nat, u: nat, fill: GapFill)
    requires t <= u <= |gaps|
    requires FillGaps(s, gaps, t, fill).failure.Some?
    ensures FillGaps(s, gaps, u, fill) == FillGaps(s, gaps, t, fill)
    decreases u
  {
    if u > t {
      FailureSticks(s, gaps, t, u - 1, fill);
    }
  }

  /** The visit to the next gap, stated on the state before it and the value
      the fill computes there. */
  lemma FillGapsNext(s: seq<Option<real>>, gaps: seq<int>, t: nat, fill: GapFill, cur: Filling, v: Result<Option<real>>)
    requires t < |gaps| && 0 <= gaps[t] < |s|
    requires cur == FillGaps(s, gaps, t, fill) && cur.failure.None?
    requires v == fill(cur.values, gaps[t])
    ensures FillGaps(s, gaps, t + 1, fill)
              == if v.Err? then Filling(cur.values, Some(v.error)) else Filling(cur.values[gaps[t] := v.value], None)
  {
  }

  /** remove_nan: every gap, in increasing order, is overwritten with the
      weighted past average (n = 3) of the slice of the `n` entries before
      it, earlier fills included. An IndexError stops the loop with the
      earlier fills already in place. */
  method RemoveNan(data: array<Option<real>>, n: int) returns (failure: Option<PyError>)
    modifies data
    ensures data[..] == RemoveNanResult(old(data[..]), n).values
    ensures failure == RemoveNanResult(old(data[..]), n).failure
  {
    ghost var s := data[..];
    var fill := PastAverageFill(n);
    var gaps := NanPositions(data[..]);
    ghost var cur := Filling(s, None);
    var t := 0;
    while t < |gaps|
      invariant 0 <= t <= |gaps|
      invariant cur == FillGaps(s, gaps, t, fill)
      invariant data[..] == cur.values && cur.failure.None?
    {
      var i := gaps[t];
      var v := fill(data[..], i);
      FillGapsNext(s, gaps, t, fill, cur, v);
      cur := if v.Err? then Filling(cur.values, Some(v.error)) else Filling(cur.values[i := v.value], None);
      if v.Err? {
        FailureSticks(s, gaps, t + 1, |gaps|, fill);
        return Some(v.error);
      }
      data[i] := v.value;
      t := t + 1;
    }
    return None;
  }

  /** Filling never touches an entry that was a number, nor a position
      beyond the last gap visited. */
  lemma {:induction false} FillGapsUnchanged(s: seq<Option<real>>, gaps: seq<int>, t: nat, fill: GapFill)
    requires t <= |gaps| && StrictlyIncreasing(gaps)
    requires forall q :: 0 <= q < |gaps| ==> 0 <= gaps[q] < |s| && s[gaps[q]].None?
    ensures forall k :: 0 <= k < |s| && (s[k].Some? || t == 0 || k > gaps[t - 1]) ==>
              FillGaps(s, gaps, t, fill).values[k] == s[k]
  {
    if t > 0 {
      FillGapsUnchanged(s, gaps, t - 1, fill);
      if t > 1 {
        assert gaps[t - 2] < gaps[t - 1];
      }
    }
  }

  /** A successful visit to position i leaves numbers below `bound` when
      every other position below it already held one. */
  lemma StepKeepsNumbers(prev: Filling, i: int, fill: GapFill, bound: int)
    requires ProducesNumbers(fill)
    requires 0 <= i < bound <= |prev.values|
    requires prev.failure.None? && FillStep(prev, i, fill).failure.None?
    requires forall k :: 0 <= k < bound && k != i ==> prev.values[k].Some?
    ensures forall k :: 0 <= k < bound ==> FillStep(prev, i, fill).values[k].Some?
  {
    assert fill(prev.values, i).Ok?;
  }

  /** A position that is not a gap and lies between two consecutive gaps
      (or after the last one) held a number from the start. */
  lemma BetweenGaps(s: seq<Option<real>>, t: nat, k: int)
    requires 0 < t <= |NanPositions(s)| && 0 <= k < |s|
    requires NanPositions(s)[t - 1] < k && (t == |NanPositions(s)| || k < NanPositions(s)[t])
    ensures s[k].Some?
  {
    NanPositionsExact(s);
    if s[k].None? {
      var q := GapIndex(s, k);
      assert false;
    }
  }

  /** Before the first gap every entry is a number. */
  lemma BeforeGaps(s: seq<Option<real>>, k: int)
    requires 0 <= k < |s| && (0 == |NanPositions(s)| || k < NanPositions(s)[0])
    ensures s[k].Some?
  {
    NanPositionsExact(s);
    if s[k].None? {
      var q := GapIndex(s, k);
      assert false;
    }
  }

  /** Without a failure, every position before the next gap to visit holds a number. */
  lemma {:induction false} FillGapsNumbers(s: seq<Option<real>>, t: nat, fill: GapFill)
    requires t <= |NanPositions(s)|
    requires ProducesNumbers(fill)
    requires FillGaps(s, NanPositions(s), t, fill).failure.None?
    ensures forall k :: 0 <= k < |s| && (t == |NanPositions(s)| || k < NanPositions(s)[t]) ==>
              FillGaps(s, NanPositions(s), t, fill).values[k].Some?
  {
    var gaps := NanPositions(s);
    if t > 0 {
      var prev := FillGaps(s, gaps, t - 1, fill);
      var i := gaps[t - 1];
      var bound := if t == |gaps| then |s| else gaps[t];
      NanPositionsExact(s);
      FillGapsNumbers(s, t - 1, fill);
      FillGapsUnchanged(s, gaps, t - 1, fill);
      forall k | 0 <= k < bound && k != i
        ensures prev.values[k].Some?
      {
        if k > i {
          BetweenGaps(s, t, k);
        }
      }
      StepKeepsNumbers(prev, i, fill, bound);
    } else {
      forall k | 0 <= k < |s| && (t == |gaps| || k < gaps[t])
        ensures s[k].Some?
      {
        BeforeGaps(s, k);
      }
    }
  }

  /** The fill made at the q-th gap survives all later fills, and so do the
      entries it was computed from. */
  lemma {:induction false} FillGapsLater(s: seq<Option<real>>, gaps: seq<int>, q: nat, t: nat, fill: GapFill)
    requires q < t <= |gaps| && StrictlyIncreasing(gaps) && 0 <= gaps[q] < |s|
    requires ReadsOnlyBefore(fill)
    requires FillGaps(s, gaps, t, fill).failure.None?
    ensures fill(FillGaps(s, gaps, t, fill).values, gaps[q]) == Ok(FillGaps(s, gaps, t, fill).values[gaps[q]])
    decreases t
  {
    var prev := FillGaps(s, gaps, t - 1, fill).values;
    var r := FillGaps(s, gaps, t, fill).values;
    var i := gaps[q];
    if t > q + 1 {
      FillGapsLater(s, gaps, q, t - 1, fill);
      assert i < gaps[t - 1];
    }
    assert forall k :: 0 <= k < i ==> r[k] == prev[k];
    assert fill(r, i) == fill(prev, i);
  }

  /** When remove_nan completes, no gap is left, entries that were numbers
      are unchanged, and every gap holds the weighted past average of the
      slice of the n entries before it in the final series. */
  lemma RemoveNanFillsEveryGap(s: seq<Option<real>>, n: int)
    requires RemoveNanResult(s, n).failure.None?
    ensures var r := RemoveNanResult(s, n).values;
            && |r| == |s|
            && (forall k :: 0 <= k < |s| ==> r[k].Some?)
            && (forall k :: 0 <= k < |s| && s[k].Some? ==> r[k] == s[k])
            && (forall i :: 0 <= i < |s| && s[i].None? ==> FillValue(PySlice(r, i - n, i)) == Ok(r[i]))
  {
    var gaps := NanPositions(s);
    var fill := PastAverageFill(n);
    NanPositionsExact(s);
    PastAverageFillProperties(n);
    FillGapsNumbers(s, |gaps|, fill);
    FillGapsUnchanged(s, gaps, |gaps|, fill);
    var r := RemoveNanResult(s, n).values;
    forall i | 0 <= i < |s| && s[i].None?
      ensures FillValue(PySlice(r, i - n, i)) == Ok(r[i])
    {
      var q := GapIndex(s, i);
      FillGapsLater(s, gaps, q, |gaps|, fill);
      assert fill(r, i) == Ok(r[i]);
    }
  }

  // ---------------------------------------------------------------------
  // compute_confusion_matrix.

  /** The tag streamedMatrix carries for one day. */
  datatype Outcome = TN | TP | FP | FN

  function OutcomeOf(i: int, trueLabels: set<int>, predLabels: set<int>): (o: Outcome)
    ensures o == TP <==> i in trueLabels && i in predLabels
    ensures o == FN <==> i in trueLabels && i !in predLabels
    ensures o == FP <==> i !in trueLabels && i in predLabels
    ensures o == TN <==> i !in trueLabels && i !in predLabels
  {
    if i in trueLabels then (if i in predLabels then TP else FN)
    else if i in predLabels then FP else TN
  }

  /** Reference definition: the days in [0, k) whose outcome is o, in order. */
  function DaysWithOutcome(trueLabels: set<int>, predLabels: set<int>, k: int, o: Outcome): seq<int>
    decreases k
  {
    if k <= 0 then []
    else DaysWithOutcome(trueLabels, predLabels, k - 1, o) + (if OutcomeOf(k - 1, trueLabels, predLabels) == o then [k - 1] else [])
  }

  /** compute_confusion_matrix. */
  method ComputeConfusionMatrix(trueLabels: set<int>, predLabels: set<int>, totalDataSize: int)
    returns (trueNegative: seq<int>, truePositive: seq<int>, falsePositive: seq<int>, falseNegative: seq<int>,
             streamedMatrix: seq<Outcome>)
    ensures trueNegative == DaysWithOutcome(trueLabels, predLabels, totalDataSize, TN)
    ensures truePositive == DaysWithOutcome(trueLabels, predLabels, totalDataSize, TP)
    ensures falsePositive == DaysWithOutcome(trueLabels, predLabels, totalDataSize, FP)
    ensures falseNegative == DaysWithOutcome(trueLabels, predLabels, totalDataSize, FN)
    ensures |streamedMatrix| == if totalDataSize > 0 then totalDataSize else 0
    ensures forall i :: 0 <= i < |streamedMatrix| ==> streamedMatrix[i] == OutcomeOf(i, trueLabels, predLabels)
  {
    trueNegative, truePositive, falsePositive, falseNegative, streamedMatrix := [], [], [], [], [];
    var i := 0;
    while i < totalDataSize
      invariant 0 <= i <= (if totalDataSize > 0 then totalDataSize else 0)
      invariant trueNegative == DaysWithOutcome(trueLabels, predLabels, i, TN)
      invariant truePositive == DaysWithOutcome(trueLabels, predLabels, i, TP)
      invariant falsePositive == DaysWithOutcome(trueLabels, predLabels, i, FP)
      invariant falseNegative == DaysWithOutcome(trueLabels, predLabels, i, FN)
      invariant |streamedMatrix| == i
      invariant forall k :: 0 <= k < i ==> streamedMatrix[k] == OutcomeOf(k, trueLabels, predLabels)
    {
      if i in trueLabels {
        if i in predLabels {
          truePositive := truePositive + [i];
          streamedMatrix := streamedMatrix + [TP];
        } else {
          falseNegative := falseNegative + [i];
          streamedMatrix := streamedMatrix + [FN];
        }
      } else {
        if i in predLabels {
          falsePositive := falsePositive + [i];
          streamedMatrix := streamedMatrix + [FP];
        } else {
          trueNegative := trueNegative + [i];
          streamedMatrix := streamedMatrix + [TN];
        }
      }
      i := i + 1;
    }
  }

  lemma {:induction false} DaysWithOutcomeMembers(trueLabels: set<int>, predLabels: set<int>, k: int, o: Outcome)
    ensures forall i :: i in DaysWithOutcome(trueLabels, predLabels, k, o) <==>
                          0 <= i < k && OutcomeOf(i, trueLabels, predLabels) == o
    decreases k
  {
    if k > 0 {
      DaysWithOutcomeMembers(trueLabels, predLabels, k - 1, o);
    }
  }

  lemma {:induction false} DaysWithOutcomeCount(trueLabels: set<int>, predLabels: set<int>, k: int)
    ensures |DaysWithOutcome(trueLabels, predLabels, k, TN)| + |DaysWithOutcome(trueLabels, predLabels, k, TP)|
            + |DaysWithOutcome(trueLabels, predLabels, k, FP)| + |DaysWithOutcome(trueLabels, predLabels, k, FN)|
            == if k > 0 then k else 0
    decreases k
  {
    if k > 0 {
      DaysWithOutcomeCount(trueLabels, predLabels, k - 1);
    }
  }

  /** Each day of [0, total) lands in exactly one of the four lists, the one
      its true and predicted membership select, and the four lengths add up
      to the number of days. */
  lemma ConfusionMatrixPartitions(trueLabels: set<int>, predLabels: set<int>, total: int)
    ensures forall i :: 0 <= i < total ==>
              (i in DaysWithOutcome(trueLabels, predLabels, total, TP) <==> i in trueLabels && i in predLabels)
              && (i in DaysWithOutcome(trueLabels, predLabels, total, FN) <==> i in trueLabels && i !in predLabels)
              && (i in DaysWithOutcome(trueLabels, predLabels, total, FP) <==> i !in trueLabels && i in predLabels)
              && (i in DaysWithOutcome(trueLabels, predLabels, total, TN) <==> i !in trueLabels && i !in predLabels)
    ensures |DaysWithOutcome(trueLabels, predLabels, total, TN)| + |DaysWithOutcome(trueLabels, predLabels, total, TP)|
            + |DaysWithOutcome(trueLabels, predLabels, total, FP)| + |DaysWithOutcome(trueLabels, predLabels, total, FN)|
            == if total > 0 then total else 0
  {
    DaysWithOutcomeMembers(trueLabels, predLabels, total, TN);
    DaysWithOutcomeMembers(trueLabels, predLabels, total, TP);
    DaysWithOutcomeMembers(trueLabels, predLabels, total, FP);
    DaysWithOutcomeMembers(trueLabels, predLabels, total, FN);
    DaysWithOutcomeCount(trueLabels, predLabels, total);
  }

  // ---------------------------------------------------------------------
  // create_generated_labels.

  /** The label a day gets: the first list holding it, in the order
      ovulation, fertile, luteal (spike), period, and 'follicular' otherwise. */
  function GeneratedLabel(i: int, ovulation: seq<int>, fertility: seq<int>, spikes: seq<int>, period: seq<int>): (l: Label)
    ensures l in {Ovulation, Fertile, Luteal, Period, Follicular}
    ensures l == Ovulation <==> i in ovulation
    ensures l == Fertile <==> i !in ovulation && i in fertility
    ensures l == Luteal <==> i !in ovulation && i !in fertility && i in spikes
    ensures l == Period <==> i !in ovulation && i !in fertility && i !in spikes && i in period
    ensures l == Follicular <==> i !in ovulation && i !in fertility && i !in spikes && i !in period
  {
    if i in ovulation then Ovulation
    else if i in fertility then Fertile
    else if i in spikes then Luteal
    else if i in period then Period
    else Follicular
  }

  /** create_generated_labels: one label per day 0 .. numDataPoints-1;
      listed days at or beyond numDataPoints have no effect. */
  method CreateGeneratedLabels(numDataPoints: int, ovulation: seq<int>, fertility: seq<int>, spikes: seq<int>, period: seq<int>)
    returns (generatedLabels: seq<Label>)
    ensures |generatedLabels| == if numDataPoints > 0 then numDataPoints else 0
    ensures forall i :: 0 <= i < |generatedLabels| ==> generatedLabels[i] == GeneratedLabel(i, ovulation, fertility, spikes, period)
  {
    generatedLabels := [];
    var i := 0;
    while i < numDataPoints
      invariant 0 <= i <= (if numDataPoints > 0 then numDataPoints else 0)
      invariant |generatedLabels| == i
      invariant forall k :: 0 <= k < i ==> generatedLabels[k] == GeneratedLabel(k, ovulation, fertility, spikes, period)
    {
      if i in ovulation {
        generatedLabels := generatedLabels + [Ovulation];
      } else if i in fertility {
        generatedLabels := generatedLabels + [Fertile];
      } else if i in spikes {
        generatedLabels := generatedLabels + [Luteal];
      } else if i in period {
        generatedLabels := generatedLabels + [Period];
      } else {
        generatedLabels := generatedLabels + [Follicular];
      }
      i := i + 1;
    }

  }
}
