/** The reducers of weather.py: `find_min`, `find_max` and `calculate_mean`
    over the integer temperatures the CSV loader produces. */
module Reducers {
  import opened Wrappers
  import opened Errors

  /** An extreme value together with the position it was found at. */
  datatype Extreme = Extreme(value: int, index: nat)

  /** `v` is the least element of `s` and `k` is the last position holding it. */
  predicate IsLastMin(s: seq<int>, v: int, k: nat)
  {
    && k < |s|
    && s[k] == v
    && (forall j :: 0 <= j < |s| ==> v <= s[j])
    && (forall j :: k < j < |s| ==> s[j] != v)
  }

  /** `v` is the greatest element of `s` and `k` is the last position holding it. */
  predicate IsLastMax(s: seq<int>, v: int, k: nat)
  {
    && k < |s|
    && s[k] == v
    && (forall j :: 0 <= j < |s| ==> s[j] <= v)
    && (forall j :: k < j < |s| ==> s[j] != v)
  }

  /** Reference definition of the minimum with its last index, one element at
      a time from the left: an element at least as small as the minimum so far
      takes over. */
  function LastMin(s: seq<int>): (r: Option<Extreme>)
    ensures r.None? <==> s == []
    ensures r.Some? ==> IsLastMin(s, r.value.value, r.value.index)
  {
    if s == [] then None
    else
      var last := s[|s| - 1];
      match LastMin(s[..|s| - 1])
      case None => Some(Extreme(last, |s| - 1))
      case Some(e) => if last <= e.value then Some(Extreme(last, |s| - 1)) else Some(e)
  }

  /** Reference definition of the maximum with its last index, the mirror
      image of `LastMin`. */
  function LastMax(s: seq<int>): (r: Option<Extreme>)
    ensures r.None? <==> s == []
    ensures r.Some? ==> IsLastMax(s, r.value.value, r.value.index)
  {
    if s == [] then None
    else
      var last := s[|s| - 1];
      match LastMax(s[..|s| - 1])
      case None => Some(Extreme(last, |s| - 1))
      case Some(e) => if last >= e.value then Some(Extreme(last, |s| - 1)) else Some(e)
  }

  /** The minimum and its last index are determined by the list alone. */
  lemma LastMinUnique(s: seq<int>, v: int, k: nat)
    requires IsLastMin(s, v, k)
    ensures LastMin(s) == Some(Extreme(v, k))
  {
    var e := LastMin(s).value;
    assert v <= s[e.index] && e.value <= s[k];
  }

  /** The maximum and its last index are determined by the list alone. */
  lemma LastMaxUnique(s: seq<int>, v: int, k: nat)
    requires IsLastMax(s, v, k)
    ensures LastMax(s) == Some(Extreme(v, k))
  {
    var e := LastMax(s).value;
    assert s[e.index] <= v && s[k] <= e.value;
  }

  /** `find_min`: the empty list gives the empty tuple; otherwise a single
      left-to-right scan keeps the running minimum, lowering it on a strictly
      smaller element and recording the index whenever the current element
      equals it. */
  method FindMin(weatherData: seq<int>) returns (r: Option<Extreme>)
    ensures r.None? <==> weatherData == []
    ensures r.Some? ==> IsLastMin(weatherData, r.value.value, r.value.index)
    ensures r == LastMin(weatherData)
  {
    if weatherData == [] {
      return None;
    }
    var minValue := weatherData[0];
    var lastIndex := -1;
    for index := 0 to |weatherData|
      invariant index == 0 ==> minValue == weatherData[0] && lastIndex == -1
      invariant index > 0 ==> 0 <= lastIndex < index
      invariant index > 0 ==> LastMin(weatherData[..index]) == Some(Extreme(minValue, lastIndex))
    {
      var value := weatherData[index];
      assert weatherData[..index + 1][..index] == weatherData[..index];
      if minValue > value {
        minValue := value;
      }
      if value == minValue {
        lastIndex := index;
      }
    }
    assert weatherData[..|weatherData|] == weatherData;
    r := Some(Extreme(minValue, lastIndex));
  }

  /** `find_max`: the mirror image of `find_min`, raising the running maximum
      on a strictly greater element. */
  method FindMax(weatherData: seq<int>) returns (r: Option<Extreme>)
    ensures r.None? <==> weatherData == []
    ensures r.Some? ==> IsLastMax(weatherData, r.value.value, r.value.index)
    ensures r == LastMax(weatherData)
  {
    if weatherData == [] {
      return None;
    }
    var maxValue := weatherData[0];
    var lastIndex := -1;
    for index := 0 to |weatherData|
      invariant index == 0 ==> maxValue == weatherData[0] && lastIndex == -1
      invariant index > 0 ==> 0 <= lastIndex < index
      invariant index > 0 ==> LastMax(weatherData[..index]) == Some(Extreme(maxValue, lastIndex))
    {
      var value := weatherData[index];
      assert weatherData[..index + 1][..index] == weatherData[..index];
      if maxValue < value {
        maxValue := value;
      }
      if value == maxValue {
        lastIndex := index;
      }
    }
    assert weatherData[..|weatherData|] == weatherData;
    r := Some(Extreme(maxValue, lastIndex));
  }

  /** The sum of a list, as Python's `sum` adds it: left to right. */
  function Sum(s: seq<int>): int
  {
    if s == [] then 0 else Sum(s[..|s| - 1]) + s[|s| - 1]
  }

  /** `calculate_mean`: the sum divided by the length. The empty list raises
      `ZeroDivisionError`; otherwise the mean times the length is the sum. */
  function Mean(weatherData: seq<int>): (r: Result<real, Error>)
    ensures r.Failure? <==> weatherData == []
    ensures r.Failure? ==> r.error == ZeroDivisionError
    ensures r.Success? ==> r.value * |weatherData| as real == Sum(weatherData) as real
  {
    if weatherData == [] then Failure(ZeroDivisionError)
    else Success(Sum(weatherData) as real / |weatherData| as real)
  }

  /** A sum of `n` elements each at least `lo` and at most `hi` lies between
      `n * lo` and `n * hi`. */
  lemma {:induction false} SumBounds(s: seq<int>, lo: int, hi: int)
    requires forall j :: 0 <= j < |s| ==> lo <= s[j] <= hi
    ensures |s| * lo <= Sum(s) <= |s| * hi
  {
    if s != [] {
      SumBounds(s[..|s| - 1], lo, hi);
    }
  }

  /** The mean of a non-empty list lies between its minimum and its maximum. */
  lemma MeanWithinExtremes(s: seq<int>)
    requires s != []
    ensures LastMin(s).value.value as real <= Mean(s).value <= LastMax(s).value.value as real
  {
    var lo, hi := LastMin(s).value.value, LastMax(s).value.value;
    SumBounds(s, lo, hi);
    QuotientBounds(Sum(s) as real, |s| as real, lo as real, hi as real);
  }

  /** Dividing `lo * n <= total <= hi * n` by a positive `n`. */
  lemma QuotientBounds(total: real, n: real, lo: real, hi: real)
    requires n > 0.0
    requires lo * n <= total <= hi * n
    ensures lo <= total / n <= hi
  {
    var q := total / n;
    assert q * n == total;
  }

  /** The docstring's example: in `[49, 57, 56, 55, 53, 49]` the minimum 49
      occurs last at index 5 and the maximum 57 at index 1. */
  lemma ReducersExample()
    ensures LastMin([49, 57, 56, 55, 53, 49]) == Some(Extreme(49, 5))
    ensures LastMax([49, 57, 56, 55, 53, 49]) == Some(Extreme(57, 1))
  {
    LastMinUnique([49, 57, 56, 55, 53, 49], 49, 5);
    LastMaxUnique([49, 57, 56, 55, 53, 49], 57, 1);
  }
}
