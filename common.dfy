/** Shared vocabulary of the model: outcomes of Python calls that may raise,
    the phase labels the repository compares against, sums and means of
    real-valued series, and Python's list indexing and slicing rules. */
module Common {

  datatype Option<+T> = None | Some(value: T)

  /** The Python exceptions the modelled code can raise (or swallow). */
  datatype PyError =
    | IndexError
    | ZeroDivisionError
    | ValueError
    | KeyError
    | AttributeError
    | TypeError
    | OverflowError

  datatype Result<+T> = Ok(value: T) | Err(error: PyError)

  /** A ground-truth or generated label. The repository keeps labels as
      strings; the spellings it compares against get their own constructor
      ("follicular", "fertile", "ovulation", "luteal", "period", "missing",
      "no_phase") and any other spelling is carried by Other. Other is
      meant only for spellings outside those seven: Other("period") would
      compare unequal to Period, where Python compares the strings equal. */
  datatype Label =
    | Follicular
    | Fertile
    | Ovulation
    | Luteal
    | Period
    | Missing
    | NoPhase
    | Other(text: string)

  /** Sum of a series, accumulated from the front as Python's `sum` does. */
  function Sum(s: seq<real>): real
  {
    if |s| == 0 then 0.0 else Sum(s[..|s| - 1]) + s[|s| - 1]
  }

  lemma SumAppend(s: seq<real>, x: real)
    ensures Sum(s + [x]) == Sum(s) + x
  {
    assert (s + [x])[..|s|] == s;
  }

  lemma {:induction false} SumPrepend(x: real, s: seq<real>)
    ensures Sum([x] + s) == x + Sum(s)
  {
    if |s| > 0 {
      var init := s[..|s| - 1];
      assert ([x] + s)[..|s|] == [x] + init;
      SumPrepend(x, init);
    }
  }

  /** Sliding a window one step right adds the new element and drops the old one. */
  lemma SumSlide(data: seq<real>, a: int, b: int)
    requires 0 <= a < b < |data|
    ensures Sum(data[a + 1..b + 1]) == Sum(data[a..b]) + data[b] - data[a]
  {
    assert data[a..b + 1] == data[a..b] + [data[b]];
    SumAppend(data[a..b], data[b]);
    assert data[a..b + 1] == [data[a]] + data[a + 1..b + 1];
    SumPrepend(data[a], data[a + 1..b + 1]);
  }

  /** A series whose every element is at least `lo` sums to at least |s|·lo. */
  lemma {:induction false} SumLowerBound(s: seq<real>, lo: real)
    requires forall k :: 0 <= k < |s| ==> lo <= s[k]
    ensures |s| as real * lo <= Sum(s)
  {
    if |s| > 0 {
      SumLowerBound(s[..|s| - 1], lo);
    }
  }

  /** A series whose every element is at most `hi` sums to at most |s|·hi. */
  lemma {:induction false} SumUpperBound(s: seq<real>, hi: real)
    requires forall k :: 0 <= k < |s| ==> s[k] <= hi
    ensures Sum(s) <= |s| as real * hi
  {
    if |s| > 0 {
      SumUpperBound(s[..|s| - 1], hi);
    }
  }

  /** The sum of |s| copies of c is |s|·c. */
  lemma SumConstant(s: seq<real>, c: real)
    requires forall k :: 0 <= k < |s| ==> s[k] == c
    ensures Sum(s) == |s| as real * c
  {
    SumLowerBound(s, c);
    SumUpperBound(s, c);
  }

  /** The arithmetic mean of a non-empty series, as pandas' `mean` computes it. */
  function Mean(s: seq<real>): real
    requires |s| > 0
  {
    Sum(s) / |s| as real
  }

  lemma MeanLowerBound(s: seq<real>, lo: real)
    requires |s| > 0
    requires forall k :: 0 <= k < |s| ==> lo <= s[k]
    ensures lo <= Mean(s)
  {
    SumLowerBound(s, lo);
    var len := |s| as real;
    assert len * lo <= Sum(s);
    assert lo == (len * lo) / len;
  }

  /** The mean of a series of copies of c is c. */
  lemma MeanConstant(s: seq<real>, c: real)
    requires |s| > 0
    requires forall k :: 0 <= k < |s| ==> s[k] == c
    ensures Mean(s) == c
  {
    SumConstant(s, c);
    var len := |s| as real;
    assert Sum(s) == len * c;
    assert (len * c) / len == c;
  }

  /** Number of occurrences of `x` in `s`, as Python's `list.count`. */
  function Count<T(==)>(s: seq<T>, x: T): nat
  {
    if |s| == 0 then 0 else Count(s[..|s| - 1], x) + (if s[|s| - 1] == x then 1 else 0)
  }

  /** Python's `s[j]` for an integer j: negative j counts from the end, and
      anything outside [-|s|, |s|) raises IndexError. */
  function PyIndex<T>(s: seq<T>, j: int): (r: Result<T>)
    ensures r.Ok? <==> -|s| <= j < |s|
    ensures r.Ok? && j >= 0 ==> r.value == s[j]
    ensures r.Ok? && j < 0 ==> r.value == s[|s| + j]
  {
    if 0 <= j < |s| then Ok(s[j])
    else if -|s| <= j < 0 then Ok(s[|s| + j])
    else Err(IndexError)
  }

  /** Python's normalisation of a slice bound. */
  function SliceBound(len: nat, a: int): (r: nat)
    ensures r <= len
    ensures 0 <= a <= len ==> r == a
  {
    if a < 0 then (if a + len < 0 then 0 else a + len)
    else if a > len then len
    else a
  }

  /** Python's `s[a:b]` for integer bounds. */
  function PySlice<T>(s: seq<T>, a: int, b: int): (r: seq<T>)
    ensures 0 <= a <= b <= |s| ==> r == s[a..b]
    ensures |r| <= |s|
  {
    var lo := SliceBound(|s|, a);
    var hi := SliceBound(|s|, b);
    if lo < hi then s[lo..hi] else []
  }

  /** The consecutive integers start, start + 1, ..., start + len - 1. */
  function Consecutive(start: int, len: nat): (r: seq<int>)
    ensures |r| == len
    ensures forall k :: 0 <= k < len ==> r[k] == start + k
  {
    if len == 0 then [] else Consecutive(start, len - 1) + [start + len - 1]
  }

  /** Some element of a non-empty set, as a witness for `:|`. */
  lemma Pick<T>(s: set<T>) returns (x: T)
    requires |s| > 0
    ensures x in s
  {
    x :| x in s;
  }

  ghost predicate StrictlyIncreasing(s: seq<int>)
  {
    forall a, b :: 0 <= a < b < |s| ==> s[a] < s[b]
  }

  /** After a step that may append x, a day is listed exactly when it was
      listed before or is the appended x. */
  lemma StepMembers(s: seq<int>, x: int, add: bool, t: seq<int>, y: int)
    requires t == if add then s + [x] else s
    ensures y in t <==> y in s || (add && y == x)
  {
  }

  /** A step that may or may not append a day above every reported day
      keeps the list strictly increasing. */
  lemma StepKeepsIncreasing(s: seq<int>, x: int, add: bool, t: seq<int>)
    requires StrictlyIncreasing(s)
    requires forall y :: y in s ==> y < x
    requires t == if add then s + [x] else s
    ensures StrictlyIncreasing(t)
  {
    if add {
      forall a, b | 0 <= a < b < |t| ensures t[a] < t[b] {
        if b == |s| {
          assert t[a] == s[a] && s[a] in s;
        }
      }
    }
  }
}
