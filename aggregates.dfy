/**
  The per-context aggregates over the runs of one benchmark: the mean of the
  memory medians (floored) and the middle start time (rounded).
*/
module Aggregates {
  import opened Wrappers
  import opened Benchmarks

  /** Which memory median of a run is averaged. */
  datatype Gauge = Med | SysMed

  /** `b || 0`: the run's median, a missing one reading as 0. */
  function MemoryValue(s: Sample, g: Gauge): int {
    var v := match g case Med => s.med case SysMed => s.sysMed;
    if v.Some? then v.value else 0
  }

  /** `samples.map(…).reduce((a, b) => a + (b || 0), 0)`, folded from the left. */
  function MemorySum(samples: seq<Sample>, g: Gauge): int {
    if samples == [] then 0
    else MemorySum(samples[..|samples| - 1], g) + MemoryValue(samples[|samples| - 1], g)
  }

  /** `Math.floor(sum / n)` with JavaScript's true division. */
  function FloorDiv(a: int, n: int): (q: int)
    requires n > 0
    ensures q * n <= a < (q + 1) * n
  {
    var r := (a as real / n as real).Floor;
    FloorDivIsEuclidean(a, n);
    r
  }

  /** Flooring the exact quotient is Dafny's integer division when the divisor
      is positive. */
  lemma FloorDivIsEuclidean(a: int, n: int)
    requires n > 0
    ensures (a as real / n as real).Floor == a / n
  {
    var q, r := a / n, a % n;
    assert a == q * n + r && 0 <= r < n;
    var x := a as real / n as real;
    assert x * (n as real) == a as real;
    assert (q as real) * (n as real) + r as real == a as real;
    assert x == q as real + (r as real) / (n as real);
    assert 0.0 <= (r as real) / (n as real) < 1.0;
  }

  /** The memory statistic of one context: the sum over all runs divided by
      the number of runs, floored. A run without the median counts as 0 in the
      sum and still counts in the divisor. With no runs at all JavaScript
      computes `0 / 0`, which is `NaN`; the model writes 0 for it, because the
      report only asks whether a value is truthy and `NaN` and 0 both are not. */
  function MeanMemory(samples: seq<Sample>, g: Gauge): (r: int)
    ensures |samples| > 0 ==> r == MemorySum(samples, g) / |samples|
    ensures |samples| > 0 ==> r * |samples| <= MemorySum(samples, g) < (r + 1) * |samples|
    ensures |samples| == 0 ==> r == 0
  {
    if |samples| == 0 then 0
    else
      FloorDivIsEuclidean(MemorySum(samples, g), |samples|);
      FloorDiv(MemorySum(samples, g), |samples|)
  }

  /** The worked example: medians 100, 200 and a missing one average to
      floor(300 / 3) = 100. */
  lemma MeanMemoryExample()
    ensures MeanMemory([Sample(Some(100), None, None), Sample(Some(200), None, None),
                        Sample(None, None, None)], Med) == 100
  {
    var s := [Sample(Some(100), None, None), Sample(Some(200), None, None), Sample(None, None, None)];
    assert s[..2][..1] == s[..1] && s[..1][..0] == [];
    assert MemorySum(s[..1], Med) == 100;
    assert MemorySum(s[..2], Med) == 300;
    assert MemorySum(s, Med) == 300;
  }

  // Start times

  /** The indices of the runs whose start time is a number, in increasing
      order, each exactly once. */
  function StartTimeRuns(samples: seq<Sample>): (idx: seq<nat>)
    ensures forall k :: 0 <= k < |idx| ==> idx[k] < |samples| && samples[idx[k]].startTime.Some?
    ensures forall k, l :: 0 <= k < l < |idx| ==> idx[k] < idx[l]
    ensures forall i :: 0 <= i < |samples| && samples[i].startTime.Some? ==> i in idx
  {
    if samples == [] then []
    else
      var n := |samples| - 1;
      var init := samples[..n];
      var prefix := StartTimeRuns(init);
      assert forall k :: 0 <= k < |prefix| ==> samples[prefix[k]] == init[prefix[k]];
      assert forall i :: 0 <= i < n ==> samples[i] == init[i];
      if samples[n].startTime.Some? then prefix + [n] else prefix
  }

  /** `benchmarks.map((elt) => elt.startTime).filter(x => typeof x === 'number')`:
      the start time of each run that has a numeric one, in run order and
      with repetitions, as `StartTimeRuns` enumerates those runs. */
  function NumericStartTimes(samples: seq<Sample>): (ts: seq<real>)
    ensures |ts| == |StartTimeRuns(samples)|
    ensures forall k :: 0 <= k < |ts| ==> samples[StartTimeRuns(samples)[k]].startTime == Some(ts[k])
  {
    if samples == [] then []
    else
      var n := |samples| - 1;
      var init := samples[..n];
      var prefix := NumericStartTimes(init);
      var idx := StartTimeRuns(init);
      assert StartTimeRuns(samples) == if samples[n].startTime.Some? then idx + [n] else idx;
      assert forall k :: 0 <= k < |idx| ==> samples[idx[k]] == init[idx[k]];
      if samples[n].startTime.Some? then prefix + [samples[n].startTime.value] else prefix
  }

  /** A value is among the numeric start times exactly when some run started
      at it. */
  lemma NumericStartTimesMembers(samples: seq<Sample>, x: real)
    ensures x in NumericStartTimes(samples) <==> exists i :: 0 <= i < |samples| && samples[i].startTime == Some(x)
  {
    var ts, idx := NumericStartTimes(samples), StartTimeRuns(samples);
    if x in ts {
      var k :| 0 <= k < |ts| && ts[k] == x;
      assert samples[idx[k]].startTime == Some(x);
    }
    if exists i :: 0 <= i < |samples| && samples[i].startTime == Some(x) {
      var i :| 0 <= i < |samples| && samples[i].startTime == Some(x);
      assert i in idx;
      var k :| 0 <= k < |idx| && idx[k] == i;
      assert ts[k] == x;
    }
  }

  /** A comparison that relates any two values in one direction or the other
      and is transitive; JavaScript's default sort order, which compares the
      texts of numbers, is one (`TextOrderTotal`). */
  ghost predicate Total(before: (real, real) -> bool) {
    && (forall x, y {:trigger before(x, y)} :: before(x, y) || before(y, x))
    && (forall x, y, z :: before(x, y) && before(y, z) ==> before(x, z))
  }

  lemma Connex(before: (real, real) -> bool, a: real, b: real)
    requires Total(before)
    ensures before(a, b) || before(b, a)
  {
  }

  lemma Transitive(before: (real, real) -> bool, a: real, b: real, c: real)
    requires Total(before) && before(a, b) && before(b, c)
    ensures before(a, c)
  {
  }

  ghost predicate SortedBy(s: seq<real>, before: (real, real) -> bool) {
    forall i, j :: 0 <= i < j < |s| ==> before(s[i], s[j])
  }

  /** Puts `x` before the first element it comes before. */
  function Insert(x: real, s: seq<real>, before: (real, real) -> bool): (r: seq<real>)
    ensures multiset(r) == multiset(s) + multiset{x}
  {
    if s == [] then [x]
    else if before(x, s[0]) then [x] + s
    else
      assert s == [s[0]] + s[1..];
      [s[0]] + Insert(x, s[1..], before)
  }

  /** `array.sort()` with the given order, as an insertion sort. */
  function SortBy(s: seq<real>, before: (real, real) -> bool): (r: seq<real>)
    ensures multiset(r) == multiset(s)
  {
    if s == [] then []
    else
      assert s == [s[0]] + s[1..];
      Insert(s[0], SortBy(s[1..], before), before)
  }

  lemma {:induction false} InsertSorted(x: real, s: seq<real>, before: (real, real) -> bool)
    requires Total(before)
    requires SortedBy(s, before)
    ensures SortedBy(Insert(x, s, before), before)
  {
    if s != [] && before(x, s[0]) {
      forall j | 0 <= j < |s| ensures before(x, s[j]) {
        if j > 0 {
          var a, b := s[0], s[j];
          assert before(a, b);
          Transitive(before, x, a, b);
        }
      }
    } else if s != [] {
      var tail := Insert(x, s[1..], before);
      InsertSorted(x, s[1..], before);
      var first := s[0];
      Connex(before, x, first);
      forall j | 0 <= j < |tail| ensures before(s[0], tail[j]) {
        assert tail[j] in multiset(tail);
        assert tail[j] == x || tail[j] in multiset(s[1..]);
        if tail[j] != x {
          assert tail[j] in s[1..];
        }
      }
    }
  }

  /** The sort puts the values in the given order. */
  lemma {:induction false} SortBySorted(s: seq<real>, before: (real, real) -> bool)
    requires Total(before)
    ensures SortedBy(SortBy(s, before), before)
  {
    if s != [] {
      SortBySorted(s[1..], before);
      InsertSorted(s[0], SortBy(s[1..], before), before);
    }
  }

  /** The start-time statistic of one context: sort the numeric start times
      and round the one at index floor(n / 2); 0 when there is none. */
  function StartTimeStat(samples: seq<Sample>, before: (real, real) -> bool): (r: int)
    ensures NumericStartTimes(samples) == [] ==> r == 0
    ensures NumericStartTimes(samples) != [] ==> exists x :: x in NumericStartTimes(samples) && r == Round(x)
  {
    var ts := SortBy(NumericStartTimes(samples), before);
    if |ts| > 0 then
      assert ts[|ts| / 2] in multiset(NumericStartTimes(samples));
      Round(ts[|ts| / 2])
    else
      assert |multiset(NumericStartTimes(samples))| == 0;
      0
  }

  // Counting, to say where the chosen start time stands among the others.

  /** Sorting strictly before m, and sorting before m or level with it. */
  function StrictlyBefore(before: (real, real) -> bool, m: real): real -> bool {
    x => before(x, m) && !before(m, x)
  }

  function NotAfter(before: (real, real) -> bool, m: real): real -> bool {
    x => before(x, m)
  }

  /** How many elements of `s` satisfy `p`. */
  function Count(s: seq<real>, p: real -> bool): (n: nat)
    ensures n <= |s|
  {
    if s == [] then 0 else Count(s[..|s| - 1], p) + (if p(s[|s| - 1]) then 1 else 0)
  }

  lemma {:induction false} CountConcat(a: seq<real>, b: seq<real>, p: real -> bool)
    ensures Count(a + b, p) == Count(a, p) + Count(b, p)
  {
    if b == [] {
      assert a + b == a;
    } else {
      var b' := b[..|b| - 1];
      assert (a + b)[..|a + b| - 1] == a + b';
      CountConcat(a, b', p);
    }
  }

  /** An element inserted anywhere adds its share to the count. */
  lemma CountInsert(pre: seq<real>, x: real, post: seq<real>, p: real -> bool)
    ensures Count(pre + [x] + post, p) == Count(pre + post, p) + (if p(x) then 1 else 0)
  {
    CountConcat(pre + [x], post, p);
    CountConcat(pre, post, p);
    assert (pre + [x])[..|pre|] == pre;
  }

  /** Counting does not depend on the order of the elements. */
  lemma {:induction false} CountPermutation(a: seq<real>, b: seq<real>, p: real -> bool)
    requires multiset(a) == multiset(b)
    ensures Count(a, p) == Count(b, p)
  {
    if a == [] {
      assert |b| == |multiset(b)| == 0;
    } else {
      var x := a[|a| - 1];
      var a' := a[..|a| - 1];
      assert a == a' + [x];
      assert multiset(a') == multiset(a) - multiset{x};
      assert x in multiset(b);
      var i :| 0 <= i < |b| && b[i] == x;
      var pre, post := b[..i], b[i + 1..];
      assert b == pre + [x] + post;
      assert multiset(b) == multiset(pre + post) + multiset{x};
      CountPermutation(a', pre + post, p);
      CountInsert(pre, x, post, p);
    }
  }

  lemma {:induction false} CountNone(s: seq<real>, p: real -> bool)
    requires forall i :: 0 <= i < |s| ==> !p(s[i])
    ensures Count(s, p) == 0
  {
    if s != [] {
      CountNone(s[..|s| - 1], p);
    }
  }

  lemma {:induction false} CountAll(s: seq<real>, p: real -> bool)
    requires forall i :: 0 <= i < |s| ==> p(s[i])
    ensures Count(s, p) == |s|
  {
    if s != [] {
      CountAll(s[..|s| - 1], p);
    }
  }

  /** In a sorted sequence the element at index k has at most k elements
      strictly before it ... */
  lemma SortedRankStrict(t: seq<real>, k: nat, before: (real, real) -> bool)
    requires Total(before) && SortedBy(t, before) && k < |t|
    ensures Count(t, StrictlyBefore(before, t[k])) <= k
  {
    var m := t[k];
    var strict := StrictlyBefore(before, m);
    var rest := t[k..];
    assert t == t[..k] + rest;
    CountConcat(t[..k], rest, strict);
    forall i | 0 <= i < |rest| ensures !strict(rest[i]) {
      if i == 0 {
        Connex(before, m, m);
      } else {
        assert rest[i] == t[k + i];
      }
    }
    CountNone(rest, strict);
  }

  /** ... and at least k + 1 elements at or before it. */
  lemma SortedRankWeak(t: seq<real>, k: nat, before: (real, real) -> bool)
    requires Total(before) && SortedBy(t, before) && k < |t|
    ensures Count(t, NotAfter(before, t[k])) >= k + 1
  {
    var m := t[k];
    var weak := NotAfter(before, m);
    var init := t[..k + 1];
    assert t == init + t[k + 1..];
    CountConcat(init, t[k + 1..], weak);
    forall i | 0 <= i < |init| ensures weak(init[i]) {
      if i == k {
        Connex(before, m, m);
      } else {
        assert init[i] == t[i];
      }
    }
    CountAll(init, weak);
  }

  /** The start-time statistic is 0 when no run has a numeric start time.
      Otherwise it is a rounded start time m of one of the runs such
      that, among the n numeric start times, at most floor(n / 2) sort strictly
      before m and more than floor(n / 2) sort at or before m: the element at
      index floor(n / 2) of the sorted times, which for an even n is the upper
      of the two middle ones. */
  lemma StartTimeIsMiddle(samples: seq<Sample>, before: (real, real) -> bool)
    requires Total(before)
    ensures NumericStartTimes(samples) == [] ==> StartTimeStat(samples, before) == 0
    ensures var ts := NumericStartTimes(samples);
      ts != [] ==>
        exists i :: 0 <= i < |samples| && samples[i].startTime.Some? &&
          var m := samples[i].startTime.value;
          && StartTimeStat(samples, before) == Round(m)
          && Count(ts, StrictlyBefore(before, m)) <= |ts| / 2
          && Count(ts, NotAfter(before, m)) > |ts| / 2
  {
    var ts := NumericStartTimes(samples);
    var t := SortBy(ts, before);
    assert |t| == |multiset(t)| == |multiset(ts)| == |ts|;
    if ts != [] {
      var k := |t| / 2;
      var m := t[k];
      SortBySorted(ts, before);
      SortedRankStrict(t, k, before);
      SortedRankWeak(t, k, before);
      CountPermutation(t, ts, StrictlyBefore(before, m));
      CountPermutation(t, ts, NotAfter(before, m));
      assert m in multiset(ts);
      NumericStartTimesMembers(samples, m);
      var i :| 0 <= i < |samples| && samples[i].startTime == Some(m);
    }
  }

  // The two orders of the sort

  /** JavaScript's comparison of two texts, code unit by code unit: a prefix
      comes first. */
  predicate TextBefore(a: string, b: string) {
    if a == [] then true
    else if b == [] then false
    else if a[0] != b[0] then a[0] < b[0]
    else TextBefore(a[1..], b[1..])
  }

  /** The order `Array.prototype.sort()` uses without a comparator: numbers are
      compared by their texts. `text` is the number-to-text conversion. */
  function TextOrder(text: real -> string): (real, real) -> bool {
    (x, y) => TextBefore(text(x), text(y))
  }

  /** Of two texts one always comes first ... */
  lemma {:induction false} TextBeforeConnex(a: string, b: string)
    ensures TextBefore(a, b) || TextBefore(b, a)
  {
    if a != [] && b != [] && a[0] == b[0] {
      TextBeforeConnex(a[1..], b[1..]);
    }
  }

  /** ... and the comparison is transitive. */
  lemma {:induction false} TextBeforeTransitive(a: string, b: string, c: string)
    requires TextBefore(a, b) && TextBefore(b, c)
    ensures TextBefore(a, c)
  {
    if a != [] && a[0] == b[0] && b[0] == c[0] {
      TextBeforeTransitive(a[1..], b[1..], c[1..]);
    }
  }

  /** The text order is a total order, whatever the number-to-text
      conversion, so what is proved for any total order holds for the sort
      as the script calls it. */
  lemma TextOrderTotal(text: real -> string)
    ensures Total(TextOrder(text))
  {
    var order := TextOrder(text);
    forall x, y ensures order(x, y) || order(y, x) {
      TextBeforeConnex(text(x), text(y));
    }
    forall x, y, z | order(x, y) && order(y, z) ensures order(x, z) {
      TextBeforeTransitive(text(x), text(y), text(z));
    }
  }

  /** The numeric order a middle start time is meant to be taken in. */
  function NumericOrder(): (real, real) -> bool {
    (x, y) => x <= y
  }

  lemma NumericOrderTotal()
    ensures Total(NumericOrder())
  {
  }

  /** Being smaller than m, and being at most m. */
  function Less(m: real): real -> bool {
    x => x < m
  }

  function AtMost(m: real): real -> bool {
    x => x <= m
  }

  /** The start-time statistic with the times sorted numerically. */
  function MedianStartTime(samples: seq<Sample>): int {
    StartTimeStat(samples, NumericOrder())
  }

  /** Sorted numerically, the statistic is the rounded median of the numeric
      start times: at most floor(n / 2) of them are smaller and more than
      floor(n / 2) are at most it. */
  lemma MedianStartTimeIsMedian(samples: seq<Sample>)
    ensures NumericStartTimes(samples) == [] ==> MedianStartTime(samples) == 0
    ensures var ts := NumericStartTimes(samples);
      ts != [] ==>
        exists i :: 0 <= i < |samples| && samples[i].startTime.Some? &&
          var m := samples[i].startTime.value;
          && MedianStartTime(samples) == Round(m)
          && Count(ts, Less(m)) <= |ts| / 2
          && Count(ts, AtMost(m)) > |ts| / 2
  {
    var le := NumericOrder();
    NumericOrderTotal();
    StartTimeIsMiddle(samples, le);
    var ts := NumericStartTimes(samples);
    if ts != [] {
      var i :| 0 <= i < |samples| && samples[i].startTime.Some? &&
        var m := samples[i].startTime.value;
        && StartTimeStat(samples, le) == Round(m)
        && Count(ts, StrictlyBefore(le, m)) <= |ts| / 2
        && Count(ts, NotAfter(le, m)) > |ts| / 2;
      var m := samples[i].startTime.value;
      NumericCounts(ts, m);
      assert MedianStartTime(samples) == Round(m);
      assert Count(ts, Less(m)) <= |ts| / 2 && Count(ts, AtMost(m)) > |ts| / 2;
    }
  }

  /** In the numeric order, sorting strictly before m is being smaller than
      m, and sorting at or before m is being at most m. */
  lemma NumericCounts(ts: seq<real>, m: real)
    ensures Count(ts, StrictlyBefore(NumericOrder(), m)) == Count(ts, Less(m))
    ensures Count(ts, NotAfter(NumericOrder(), m)) == Count(ts, AtMost(m))
  {
    CountSame(ts, StrictlyBefore(NumericOrder(), m), Less(m));
    CountSame(ts, NotAfter(NumericOrder(), m), AtMost(m));
  }

  lemma {:induction false} CountSame(s: seq<real>, p: real -> bool, q: real -> bool)
    requires forall x :: p(x) == q(x)
    ensures Count(s, p) == Count(s, q)
  {
    if s != [] {
      CountSame(s[..|s| - 1], p, q);
    }
  }

  lemma SortPair(y: real, z: real, before: (real, real) -> bool)
    requires before(y, z)
    ensures SortBy([y, z], before) == [y, z]
  {
    assert [y, z][1..] == [z] && [z][1..] == [];
    assert SortBy([z], before) == Insert(z, SortBy([], before), before) == [z];
    assert SortBy([y, z], before) == Insert(y, SortBy([z], before), before);
    assert Insert(y, [z], before) == [y] + [z];
  }

  lemma InsertAfterOne(x: real, z: real, before: (real, real) -> bool)
    requires !before(x, z)
    ensures Insert(x, [z], before) == [z, x]
  {
    assert [z][1..] == [];
    assert Insert(x, [z], before) == [z] + Insert(x, [], before);
  }

  lemma InsertAfterTwo(x: real, y: real, z: real, before: (real, real) -> bool)
    requires !before(x, y) && !before(x, z)
    ensures Insert(x, [y, z], before) == [y, z, x]
  {
    InsertAfterOne(x, z, before);
    assert [y, z][1..] == [z];
    assert Insert(x, [y, z], before) == [y] + Insert(x, [z], before);
  }

  /** Sorting three values of which the last two are in order and the first
      comes before neither, ... */
  lemma SortThreeLast(x: real, y: real, z: real, before: (real, real) -> bool)
    requires before(y, z) && !before(x, y) && !before(x, z)
    ensures SortBy([x, y, z], before) == [y, z, x]
  {
    SortPair(y, z, before);
    InsertAfterTwo(x, y, z, before);
    assert [x, y, z][1..] == [y, z];
  }

  /** ... and of which the first comes before the second. */
  lemma SortThreeFirst(x: real, y: real, z: real, before: (real, real) -> bool)
    requires before(y, z) && before(x, y)
    ensures SortBy([x, y, z], before) == [x, y, z]
  {
    SortPair(y, z, before);
    assert [x, y, z][1..] == [y, z];
  }

  /** Three runs started after 9, 10 and 100 ms. */
  function ThreeRuns(): seq<Sample> {
    [Sample(None, None, Some(9.0)), Sample(None, None, Some(10.0)), Sample(None, None, Some(100.0))]
  }

  /** Sorted as texts, the runs come out as 10, 100, 9, so the statistic the
      script writes is 100, while the numeric median is 10. */
  lemma ThreeRunsTimes()
    ensures NumericStartTimes(ThreeRuns()) == [9.0, 10.0, 100.0]
  {
    var runs := ThreeRuns();
    assert runs[..2][..1] == runs[..1] && runs[..1][..0] == [] && runs[..3] == runs;
    assert NumericStartTimes(runs[..0]) == [];
    assert NumericStartTimes(runs[..1]) == [9.0];
    assert NumericStartTimes(runs[..2]) == [9.0, 10.0];
  }

  lemma TextSortMisplacesMiddle(text: real -> string)
    requires text(9.0) == "9" && text(10.0) == "10" && text(100.0) == "100"
    ensures StartTimeStat(ThreeRuns(), TextOrder(text)) == 100
    ensures MedianStartTime(ThreeRuns()) == 10
  {
    ThreeRunsTimes();
    TextSortOfThreeRuns(text);
    MiddleOfThree(ThreeRuns(), TextOrder(text), [10.0, 100.0, 9.0]);
    SortThreeFirst(9.0, 10.0, 100.0, NumericOrder());
    MiddleOfThree(ThreeRuns(), NumericOrder(), [9.0, 10.0, 100.0]);
    assert Round(100.0) == 100 && Round(10.0) == 10;
  }

  lemma MiddleOfThree(samples: seq<Sample>, before: (real, real) -> bool, t: seq<real>)
    requires SortBy(NumericStartTimes(samples), before) == t && |t| == 3
    ensures StartTimeStat(samples, before) == Round(t[1])
  {
    var ts := SortBy(NumericStartTimes(samples), before);
    assert |ts| / 2 == 1;
    assert StartTimeStat(samples, before) == Round(ts[1]);
  }

  lemma TextSortOfThreeRuns(text: real -> string)
    requires text(9.0) == "9" && text(10.0) == "10" && text(100.0) == "100"
    ensures SortBy([9.0, 10.0, 100.0], TextOrder(text)) == [10.0, 100.0, 9.0]
  {
    var order := TextOrder(text);
    assert TextBefore("10", "100");
    assert !TextBefore("9", "10") && !TextBefore("9", "100");
    SortThreeLast(9.0, 10.0, 100.0, order);
  }
}
