/** The fastest, slowest and average execution time over the recorded
    results, as the page's statistics panel shows them. */
module Statistics {
  import opened Records

  datatype Stats = Stats(fastest: int, slowest: int, average: real)

  /** `s` holds `m` and nothing smaller. */
  ghost predicate IsMinimum(s: seq<int>, m: int) {
    m in s && forall i :: 0 <= i < |s| ==> m <= s[i]
  }

  /** `s` holds `m` and nothing larger. */
  ghost predicate IsMaximum(s: seq<int>, m: int) {
    m in s && forall i :: 0 <= i < |s| ==> s[i] <= m
  }

  /** `Math.min(...s)`: the smaller of the running minimum and the next element, left to right. */
  function Min(s: seq<int>): (m: int)
    requires |s| > 0
    ensures IsMinimum(s, m)
  {
    if |s| == 1 then s[0]
    else
      var rest := Min(s[..|s| - 1]);
      assert s == s[..|s| - 1] + [s[|s| - 1]];
      Min2(rest, s[|s| - 1])
  }

  /** `Math.max(...s)`: the larger of the running maximum and the next element, left to right. */
  function Max(s: seq<int>): (m: int)
    requires |s| > 0
    ensures IsMaximum(s, m)
  {
    if |s| == 1 then s[0]
    else
      var rest := Max(s[..|s| - 1]);
      assert s == s[..|s| - 1] + [s[|s| - 1]];
      Max2(rest, s[|s| - 1])
  }

  /** The smaller of two times. */
  function Min2(a: int, b: int): int { if b < a then b else a }

  /** The larger of two times. */
  function Max2(a: int, b: int): int { if b > a then b else a }

  /** `s.reduce((a, b) => a + b, 0)`: the sum, accumulated left to right. */
  function Sum(s: seq<int>): int
  {
    if |s| == 0 then 0 else Sum(s[..|s| - 1]) + s[|s| - 1]
  }

  /** The statistics over `results`: all zero for an empty list, otherwise
      the minimum, the maximum and the exact mean of the execution times. */
  function CalculateStats(results: seq<Result>): (st: Stats)
    ensures results == [] ==> st == Stats(0, 0, 0.0)
    ensures results != [] ==> IsMinimum(Times(results), st.fastest)
    ensures results != [] ==> IsMaximum(Times(results), st.slowest)
    ensures results != [] ==> st.average == Sum(Times(results)) as real / |results| as real
  {
    if |results| == 0 then Stats(0, 0, 0.0)
    else
      var times := Times(results);
      Stats(Min(times), Max(times), Sum(times) as real / |times| as real)
  }

  /** Every element lies between the bounds, so the sum lies between count
      times the lower bound and count times the upper bound. */
  lemma {:induction false} SumBounds(s: seq<int>, lo: int, hi: int)
    requires forall i :: 0 <= i < |s| ==> lo <= s[i] <= hi
    ensures |s| * lo <= Sum(s) <= |s| * hi
  {
    if |s| > 0 {
      SumBounds(s[..|s| - 1], lo, hi);
    }
  }

  /** Dividing a total that lies between `n * lo` and `n * hi` by `n` gives a value between `lo` and `hi`. */
  lemma MeanBounds(total: int, n: int, lo: int, hi: int)
    requires n > 0 && n * lo <= total <= n * hi
    ensures lo as real <= total as real / n as real <= hi as real
  {
  }

  /** For a non-empty list, the average lies between the fastest and the slowest time. */
  lemma AverageBetween(results: seq<Result>)
    requires results != []
    ensures CalculateStats(results).fastest as real <= CalculateStats(results).average
    ensures CalculateStats(results).average <= CalculateStats(results).slowest as real
  {
    var times := Times(results);
    SumBounds(times, Min(times), Max(times));
    MeanBounds(Sum(times), |times|, Min(times), Max(times));
  }

  /** Adding one more element adds it to the running sum. */
  lemma {:induction false} SumAppend(s: seq<int>, x: int)
    ensures Sum(s + [x]) == Sum(s) + x
  {
    assert (s + [x])[..|s|] == s;
  }

  /** Appending one record updates the fastest and slowest times incrementally. */
  lemma ExtremesAfterAppend(results: seq<Result>, x: Result)
    requires results != []
    ensures var before, after := CalculateStats(results), CalculateStats(results + [x]);
      && after.fastest == Min2(before.fastest, x.executionTime)
      && after.slowest == Max2(before.slowest, x.executionTime)
  {
    var t := x.executionTime;
    var before, after := CalculateStats(results), CalculateStats(results + [x]);
    var ts, ts' := Times(results), Times(results + [x]);
    TimesAppend(results, x);
    var lo, hi := Min2(before.fastest, t), Max2(before.slowest, t);
    assert forall i :: 0 <= i < |ts'| ==> ts'[i] == (if i < |ts| then ts[i] else t);
    assert IsMinimum(ts', lo);
    assert IsMaximum(ts', hi);
    MinimumUnique(ts', after.fastest, lo);
    MaximumUnique(ts', after.slowest, hi);
  }

  /** Appending one record to a non-empty list adds its time to the total the average is taken of. */
  lemma AverageAfterAppend(results: seq<Result>, x: Result)
    requires results != []
    ensures CalculateStats(results + [x]).average * (|results| + 1) as real
         == CalculateStats(results).average * |results| as real + x.executionTime as real
  {
    TimesAppend(results, x);
    SumAppend(Times(results), x.executionTime);
    MeanStep(Sum(Times(results)), x.executionTime, |results|,
             CalculateStats(results).average, CalculateStats(results + [x]).average);
  }

  /** Arithmetic behind AverageAfterAppend: the mean of one more value, times the new count. */
  lemma MeanStep(total: int, t: int, n: int, before: real, after: real)
    requires n > 0
    requires before == total as real / n as real
    requires after == (total + t) as real / (n + 1) as real
    ensures after * (n + 1) as real == before * n as real + t as real
  {
    MeanTimesCount(total, n);
    MeanTimesCount(total + t, n + 1);
  }

  /** Appending one record to an empty list gives that record's time for all three statistics. */
  lemma StatsOfSingleton(x: Result)
    ensures CalculateStats([x]) == Stats(x.executionTime, x.executionTime, x.executionTime as real)
  {
    var t := x.executionTime;
    assert Times([x]) == [t];
    assert [t][..0] == [];
    assert Sum([t]) == t;
    assert Min([t]) == t;
    assert Max([t]) == t;
    assert t as real / 1 as real == t as real;
  }

  /** Multiplying a mean by its count gives back the total. */
  lemma MeanTimesCount(total: int, n: int)
    requires n > 0
    ensures (total as real / n as real) * n as real == total as real
  {
  }

  lemma MinimumUnique(s: seq<int>, a: int, b: int)
    requires IsMinimum(s, a) && IsMinimum(s, b)
    ensures a == b
  {
  }

  lemma MaximumUnique(s: seq<int>, a: int, b: int)
    requires IsMaximum(s, a) && IsMaximum(s, b)
    ensures a == b
  {
  }

  /** The seed list has statistics {400, 900, 650}, whatever the clock said. */
  lemma InitialStats(now1: int, now2: int)
    ensures CalculateStats(InitialResults(now1, now2)) == Stats(400, 900, 650.0)
  {
    var r := InitialResults(now1, now2);
    assert Times(r) == [900, 400];
    assert Sum([900, 400]) == 1300 by {
      assert [900, 400][..1] == [900];
      assert [900][..0] == [];
    }
    assert Min([900, 400]) == 400 by { assert [900, 400][..1] == [900]; }
    assert Max([900, 400]) == 900 by { assert [900, 400][..1] == [900]; }
  }
}
