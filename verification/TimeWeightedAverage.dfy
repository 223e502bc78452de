/** The time-weighted moving average (frontend/crypto/ta/TimeWeightedMovingAverage.cpp). */
module TimeWeightedAverage {
  import opened Common
  import opened RealProducts
  import opened Samples

  datatype Point = Point(ts: int, value: real, weight: real)

  /** The fields of the class, as a value. */
  datatype Twma = Twma(interval: int, data: seq<Point>, sum: real, total: real)

  function Weight(interval: int, from: int, to: int): real
    requires interval > 0
  {
    (to - from) as real / interval as real
  }

  /** The time from one timestamp to another that does not lie before it; none to one that does. */
  function Gap(from: int, to: int): nat {
    if from <= to then to - from else 0
  }

  /** Gives the newest point its weight: the time until the next value arrives. */
  function Closed(interval: int, data: seq<Point>, ts: int): seq<Point>
    requires interval > 0 && data != []
  {
    var last := |data| - 1;
    data[last := data[last].(weight := Weight(interval, data[last].ts, ts))]
  }

  function SumOf(data: seq<Point>): real {
    if data == [] then 0.0 else Times(data[0].value, data[0].weight) + SumOf(data[1..])
  }

  function TotalOf(data: seq<Point>): real {
    if data == [] then 0.0 else data[0].weight + TotalOf(data[1..])
  }

  /** The time that passes from point to point, and from the newest to `now`, wherever the timestamps do not descend. */
  function Elapsed(data: seq<Point>, now: int): nat
    requires data != []
  {
    if |data| == 1 then Gap(data[0].ts, now) else Gap(data[0].ts, data[1].ts) + Elapsed(data[1..], now)
  }

  /** The integral of the step function through the points over that time. */
  function Integral(data: seq<Point>, now: int): real
    requires data != []
  {
    var until := if |data| == 1 then now else data[1].ts;
    Times(data[0].value, Gap(data[0].ts, until) as real) + if |data| == 1 then 0.0 else Integral(data[1..], now)
  }

  ghost predicate Ascending(data: seq<Point>) {
    forall i :: 0 <= i < |data| - 1 ==> data[i].ts <= data[i + 1].ts
  }

  /** Every point but the newest weighs the time to its successor; one whose successor came out of order, nothing. */
  ghost predicate Weighed(interval: int, data: seq<Point>)
    requires interval > 0
  {
    && (forall i :: 0 <= i < |data| - 1 ==> data[i].weight == Weight(interval, 0, Gap(data[i].ts, data[i + 1].ts)))
    && (data != [] ==> data[|data| - 1].weight == 0.0)
  }

  /** The running sums are the sums over the window. */
  ghost predicate Valid(t: Twma) {
    && t.interval > 0
    && Weighed(t.interval, t.data)
    && t.sum == SumOf(t.data)
    && t.total == TotalOf(t.data)
  }

  lemma SumsAppend(data: seq<Point>, p: Point)
    ensures SumOf(data + [p]) == SumOf(data) + Times(p.value, p.weight)
    ensures TotalOf(data + [p]) == TotalOf(data) + p.weight
  {
    if data != [] {
      assert (data + [p])[1..] == data[1..] + [p];
    }
  }

  lemma TailAscends(data: seq<Point>)
    requires data != [] && Ascending(data)
    ensures Ascending(data[1..])
  {
    forall i | 0 <= i < |data[1..]| - 1 ensures data[1..][i].ts <= data[1..][i + 1].ts {
      assert data[i + 1].ts <= data[i + 1 + 1].ts;
    }
  }

  /** Through timestamps that ascend, the time that passes is the span; otherwise it is longer. */
  lemma {:induction false} ElapsedIsSpan(data: seq<Point>, now: int)
    requires data != []
    ensures Elapsed(data, now) >= now - data[0].ts
    ensures Ascending(data) && data[|data| - 1].ts <= now ==> Elapsed(data, now) == now - data[0].ts
  {
    if |data| > 1 {
      ElapsedIsSpan(data[1..], now);
      if Ascending(data) {
        TailAscends(data);
      }
    }
  }

  lemma ClosedSums(interval: int, data: seq<Point>, ts: int)
    requires interval > 0 && data != [] && Weighed(interval, data)
    ensures var c := Closed(interval, data, ts);
      && SumOf(c) == SumOf(data) + Times(c[|c| - 1].value, c[|c| - 1].weight)
      && TotalOf(c) == TotalOf(data) + c[|c| - 1].weight
  {
    var c := Closed(interval, data, ts);
    var init := data[..|data| - 1];
    assert data == init + [data[|data| - 1]];
    assert c == init + [c[|c| - 1]];
    SumsAppend(init, data[|data| - 1]);
    SumsAppend(init, c[|c| - 1]);
    assert Times(data[|data| - 1].value, 0.0) == 0.0;
  }

  /** Every point, the newest included, weighs the time to its successor or to now. */
  ghost predicate ClosedWeights(interval: int, data: seq<Point>, now: int)
    requires interval > 0
  {
    forall i :: 0 <= i < |data| ==> data[i].weight == Weight(interval, 0, Gap(data[i].ts, Until(data, i, now)))
  }

  function Until(data: seq<Point>, i: nat, now: int): int
    requires i < |data|
  {
    if i + 1 < |data| then data[i + 1].ts else now
  }

  /** Over a closed window the weights add up to the time that passes and the sum to the integral, in intervals. */
  lemma {:induction false} ClosedWindow(interval: int, data: seq<Point>, now: int)
    requires interval > 0 && data != [] && ClosedWeights(interval, data, now)
    ensures Times(TotalOf(data), interval as real) == Elapsed(data, now) as real
    ensures Times(SumOf(data), interval as real) == Integral(data, now)
  {
    var p := data[0];
    var until := Until(data, 0, now);
    var k := interval as real;
    WeightTimesInterval(interval, 0, Gap(p.ts, until));
    TimesDistributes(Times(p.value, p.weight), SumOf(data[1..]), k);
    TimesDistributes(p.weight, TotalOf(data[1..]), k);
    TimesAssociates(p.value, p.weight, k);
    if |data| == 1 {
      assert data[1..] == [];
      assert Times(0.0, k) == 0.0;
    } else {
      var tail := data[1..];
      forall i | 0 <= i < |tail| ensures tail[i].weight == Weight(interval, 0, Gap(tail[i].ts, Until(tail, i, now))) {
        assert tail[i] == data[i + 1];
        assert Until(tail, i, now) == Until(data, i + 1, now);
      }
      ClosedWindow(interval, data[1..], now);
    }
  }

  ghost predicate Within(data: seq<Point>, lo: real, hi: real) {
    forall i :: 0 <= i < |data| ==> lo <= data[i].value <= hi
  }

  lemma {:induction false} SumBounds(data: seq<Point>, lo: real, hi: real)
    requires forall i :: 0 <= i < |data| ==> data[i].weight >= 0.0
    requires Within(data, lo, hi)
    ensures Times(lo, TotalOf(data)) <= SumOf(data) <= Times(hi, TotalOf(data))
  {
    if data == [] {
    } else {
      SumBounds(data[1..], lo, hi);
      var p := data[0];
      TimesLeq(lo, p.value, p.weight);
      TimesLeq(p.value, hi, p.weight);
      TimesSplits(lo, p.weight, TotalOf(data[1..]));
      TimesSplits(hi, p.weight, TotalOf(data[1..]));
    }
  }

  lemma TimesSplits(a: real, u: real, v: real)
    ensures Times(a, u + v) == Times(a, u) + Times(a, v)
  {
  }

  lemma QuotientWithin(sum: real, total: real, lo: real, hi: real)
    requires total > 0.0 && Times(lo, total) <= sum <= Times(hi, total)
    ensures lo <= sum / total <= hi
    ensures Times(sum / total, total) == sum
  {
    var q := sum / total;
    assert Times(q, total) == sum;
    if q < lo {
      TimesLess(q, lo, total);
    }
    if hi < q {
      TimesLess(hi, q, total);
    }
  }

  lemma WeightTimesInterval(interval: int, from: int, to: int)
    requires interval > 0
    ensures Times(Weight(interval, from, to), interval as real) == (to - from) as real
  {
  }

  lemma WeightIsNonNegative(interval: int, from: int, to: int)
    requires interval > 0 && from <= to
    ensures Weight(interval, from, to) >= 0.0
  {
  }

  lemma TimesAssociates(a: real, b: real, c: real)
    ensures Times(Times(a, b), c) == Times(a, Times(b, c))
  {
  }

  /** The closed window of a push satisfies the premise of ClosedWindow. */
  lemma ClosedIsWeighed(t: Twma, ts: int)
    requires Valid(t) && t.data != [] && t.data[|t.data| - 1].ts <= ts
    ensures var c := Closed(t.interval, t.data, ts);
      && ClosedWeights(t.interval, c, ts)
      && forall i :: 0 <= i < |c| ==> c[i].weight >= 0.0
  {
    var c := Closed(t.interval, t.data, ts);
    SameWeight(t.interval, t.data[|t.data| - 1].ts, ts);
    forall i | 0 <= i < |c| ensures c[i].weight >= 0.0 {
      WeightIsNonNegative(t.interval, 0, Gap(c[i].ts, Until(c, i, ts)));
    }
  }

  lemma SameWeight(interval: int, from: int, to: int)
    requires interval > 0 && from <= to
    ensures Weight(interval, from, to) == Weight(interval, 0, Gap(from, to))
  {
  }

  /** Once the window spans the interval its total weight is at least one. */
  lemma FullWindow(t: Twma, ts: int)
    requires Valid(t) && t.data != [] && t.data[|t.data| - 1].ts <= ts
    requires t.data[0].ts + t.interval <= ts
    ensures var c := Closed(t.interval, t.data, ts);
      && t.sum + Times(c[|c| - 1].value, c[|c| - 1].weight) == SumOf(c)
      && t.total + c[|c| - 1].weight == TotalOf(c)
      && TotalOf(c) >= 1.0
  {
    var c := Closed(t.interval, t.data, ts);
    ClosedIsWeighed(t, ts);
    ClosedWindow(t.interval, c, ts);
    ElapsedIsSpan(c, ts);
    ClosedSums(t.interval, t.data, ts);
    if TotalOf(c) < 1.0 {
      TimesLess(TotalOf(c), 1.0, t.interval as real);
    }
  }

  datatype Pushed = Pushed(state: Twma, result: Option<real>)

  /** `push_value`. */
  function Push(t: Twma, ts: int, value: real): Pushed
    requires Valid(t)
  {
    var point := Point(ts, value, 0.0);
    if t.data == [] || ts < t.data[|t.data| - 1].ts then Pushed(t.(data := t.data + [point]), None)
    else
      var closed := Closed(t.interval, t.data, ts);
      var last := closed[|closed| - 1];
      var sum := t.sum + Times(last.value, last.weight);
      var total := t.total + last.weight;
      var front := closed[0];
      if front.ts + t.interval > ts then Pushed(Twma(t.interval, closed + [point], sum, total), None)
      else
        FullWindow(t, ts);
        Pushed(Twma(t.interval, closed[1..] + [point], sum - Times(front.value, front.weight), total - front.weight),
               Some(sum / total))
  }

  /** What one push does to the window and to the running sums. */
  lemma PushKeepsValid(t: Twma, ts: int, value: real)
    requires Valid(t)
    ensures Valid(Push(t, ts, value).state)
  {
    var point := Point(ts, value, 0.0);
    assert Times(value, 0.0) == 0.0;
    if t.data == [] || ts < t.data[|t.data| - 1].ts {
      SumsAppend(t.data, point);
      if t.data != [] {
        NoWeight(t.interval, t.data[|t.data| - 1].ts, ts);
      }
    } else {
      SameWeight(t.interval, t.data[|t.data| - 1].ts, ts);
      var closed := Closed(t.interval, t.data, ts);
      ClosedSums(t.interval, t.data, ts);
      SumsAppend(closed, point);
      SumsAppend(closed[1..], point);
    }
  }

  lemma NoWeight(interval: int, from: int, to: int)
    requires interval > 0 && to < from
    ensures Weight(interval, 0, Gap(from, to)) == 0.0
  {
  }

  /**
   * What a push returns, in every reachable state: nothing for a timestamp that descends or while the window
   * is shorter than the interval, and then the integral over the time that has passed, divided by that time,
   * which is at least the interval.
   */
  lemma PushReturnsWeightedMean(t: Twma, ts: int, value: real)
    requires Valid(t)
    ensures var r := Push(t, ts, value).result;
      && (r.Some? <==> t.data != [] && t.data[|t.data| - 1].ts <= ts && t.data[0].ts + t.interval <= ts)
      && (r.Some? ==>
            && Times(r.value, Elapsed(t.data, ts) as real) == Integral(t.data, ts)
            && Elapsed(t.data, ts) >= ts - t.data[0].ts >= t.interval)
  {
    var r := Push(t, ts, value).result;
    if r.Some? {
      var c := Closed(t.interval, t.data, ts);
      FullWindow(t, ts);
      ClosedIsWeighed(t, ts);
      ClosedWindow(t.interval, c, ts);
      TimesAssociates(r.value, TotalOf(c), t.interval as real);
      QuotientTimes(SumOf(c), TotalOf(c));
      IntegralIgnoresWeights(t.data, c, ts);
      ElapsedIsSpan(t.data, ts);
    }
  }

  /** With timestamps that ascend: the time average from the front timestamp to now. */
  lemma PushReturnsTimeAverage(t: Twma, ts: int, value: real)
    requires Valid(t) && Ascending(t.data) && (t.data != [] ==> t.data[|t.data| - 1].ts <= ts)
    ensures var r := Push(t, ts, value).result;
      && (r.Some? <==> t.data != [] && t.data[0].ts + t.interval <= ts)
      && (r.Some? ==> Times(r.value, (ts - t.data[0].ts) as real) == Integral(t.data, ts))
  {
    PushReturnsWeightedMean(t, ts, value);
    if t.data != [] {
      ElapsedIsSpan(t.data, ts);
    }
  }

  lemma QuotientTimes(sum: real, total: real)
    requires total != 0.0
    ensures Times(sum / total, total) == sum
  {
  }

  lemma {:induction false} IntegralIgnoresWeights(a: seq<Point>, b: seq<Point>, now: int)
    requires |a| == |b| > 0
    requires forall i :: 0 <= i < |a| ==> a[i].ts == b[i].ts && a[i].value == b[i].value
    ensures Integral(a, now) == Integral(b, now) && Elapsed(a, now) == Elapsed(b, now)
  {
    if |a| > 1 {
      IntegralIgnoresWeights(a[1..], b[1..], now);
    }
  }

  /** The returned average lies between the least and the greatest value in the window. */
  lemma PushReturnsWithinWindow(t: Twma, ts: int, value: real, lo: real, hi: real)
    requires Valid(t) && Within(t.data, lo, hi)
    ensures var r := Push(t, ts, value).result; r.Some? ==> lo <= r.value <= hi
  {
    var r := Push(t, ts, value).result;
    if r.Some? {
      var c := Closed(t.interval, t.data, ts);
      FullWindow(t, ts);
      ClosedIsWeighed(t, ts);
      SumBounds(c, lo, hi);
      QuotientWithin(SumOf(c), TotalOf(c), lo, hi);
    }
  }

  function LeastValue(data: seq<Point>): (lo: real)
    ensures forall i :: 0 <= i < |data| ==> lo <= data[i].value
    ensures (forall i :: 0 <= i < |data| ==> data[i].value > 0.0) ==> lo > 0.0
  {
    if data == [] then 1.0
    else
      var rest := LeastValue(data[1..]);
      if data[0].value < rest then data[0].value else rest
  }

  function GreatestValue(data: seq<Point>): (hi: real)
    ensures forall i :: 0 <= i < |data| ==> data[i].value <= hi
  {
    if data == [] then 0.0
    else
      var rest := GreatestValue(data[1..]);
      if data[0].value > rest then data[0].value else rest
  }

  /** An average of positive values is positive. */
  lemma PositiveAverage(t: Twma, ts: int, value: real)
    requires Valid(t) && forall i :: 0 <= i < |t.data| ==> t.data[i].value > 0.0
    ensures var r := Push(t, ts, value).result; r.Some? ==> r.value > 0.0
  {
    PushReturnsWithinWindow(t, ts, value, LeastValue(t.data), GreatestValue(t.data));
  }

  // ----- whole histories -----

  /** The window holds the most recent values of the history, in order. */
  ghost predicate IsWindowOf(t: Twma, history: seq<Sample>) {
    var from := |history| - |t.data|;
    && from >= 0
    && (history != [] ==> t.data != [])
    && forall i :: 0 <= i < |t.data| ==>
         t.data[i].ts == history[from + i].ts && t.data[i].value == history[from + i].value
  }

  ghost function After(interval: int, history: seq<Sample>): (t: Twma)
    requires interval > 0
    ensures Valid(t) && IsWindowOf(t, history) && t.interval == interval
  {
    if history == [] then Twma(interval, [], 0.0, 0.0)
    else
      var n := |history| - 1;
      assert history == history[..n] + [history[n]];
      var before := After(interval, history[..n]);
      WindowMoves(before, history[..n], history[n]);
      Push(before, history[n].ts, history[n].value).state
  }

  lemma WindowMoves(t: Twma, history: seq<Sample>, s: Sample)
    requires Valid(t) && IsWindowOf(t, history)
    ensures var t' := Push(t, s.ts, s.value).state;
      Valid(t') && IsWindowOf(t', history + [s]) && t'.interval == t.interval
  {
    PushKeepsValid(t, s.ts, s.value);
  }

  lemma WindowInOrder(t: Twma, history: seq<Sample>, next: Sample)
    requires IsWindowOf(t, history) && InOrder(history + [next])
    ensures Ascending(t.data) && (t.data != [] ==> t.data[|t.data| - 1].ts <= next.ts)
  {
    var all := history + [next];
    assert all[|history|] == next && forall i :: 0 <= i < |history| ==> all[i] == history[i];
  }

  /** The history up to a push. */
  lemma AfterPush(interval: int, history: seq<Sample>, s: Sample)
    requires interval > 0
    ensures After(interval, history + [s]) == Push(After(interval, history), s.ts, s.value).state
  {
    assert (history + [s])[..|history|] == history;
  }

  /**
   * How many samples have left the window, from the history alone: each sample that does not descend takes one
   * with it as soon as the oldest one is an interval old.
   */
  function Dropped(interval: int, history: seq<Sample>): (n: nat)
    ensures n <= |history| && (history != [] ==> n < |history|)
  {
    if history == [] then 0
    else
      var before := history[..|history| - 1];
      var n := Dropped(interval, before);
      if Due(interval, before, n, history[|history| - 1].ts) then n + 1 else n
  }

  /** A sample at `ts` completes an average that begins with sample `n`. */
  predicate Due(interval: int, history: seq<Sample>, n: nat, ts: int)
    requires history != [] ==> n < |history|
  {
    history != [] && history[|history| - 1].ts <= ts && history[n].ts + interval <= ts
  }

  /** The number of averages that the pushes of the history have returned. */
  ghost function Results(interval: int, history: seq<Sample>): nat
    requires interval > 0
  {
    if history == [] then 0
    else
      var before := history[..|history| - 1];
      var s := history[|history| - 1];
      Results(interval, before) + if Push(After(interval, before), s.ts, s.value).result.Some? then 1 else 0
  }

  /** The window is the history without its oldest samples, one for each result returned. */
  ghost predicate Counted(interval: int, history: seq<Sample>)
    requires interval > 0
  {
    && |After(interval, history).data| == |history| - Dropped(interval, history)
    && Results(interval, history) == Dropped(interval, history)
  }

  lemma OneMoreIsCounted(interval: int, history: seq<Sample>, s: Sample)
    requires interval > 0 && Counted(interval, history)
    ensures Counted(interval, history + [s])
  {
    var t := After(interval, history);
    AfterPush(interval, history, s);
    ResultWhenDue(t, history, Dropped(interval, history), s);
    PushDrops(t, s);
    assert (history + [s])[..|history|] == history;
  }

  lemma {:induction false} WindowIsCounted(interval: int, history: seq<Sample>)
    requires interval > 0
    ensures Counted(interval, history)
  {
    if history != [] {
      var n := |history| - 1;
      WindowIsCounted(interval, history[..n]);
      OneMoreIsCounted(interval, history[..n], history[n]);
      assert history == history[..n] + [history[n]];
    }
  }

  /** A push returns a result exactly when its sample is due, and with it the oldest one leaves the window. */
  lemma WindowDropsOnePerResult(interval: int, history: seq<Sample>, next: Sample)
    requires interval > 0
    ensures Counted(interval, history)
    ensures Push(After(interval, history), next.ts, next.value).result.Some? <==>
      Due(interval, history, Dropped(interval, history), next.ts)
  {
    WindowIsCounted(interval, history);
    ResultWhenDue(After(interval, history), history, Dropped(interval, history), next);
  }

  lemma PushDrops(t: Twma, s: Sample)
    requires Valid(t)
    ensures var p := Push(t, s.ts, s.value);
      |p.state.data| == |t.data| + (if p.result.Some? then 0 else 1)
  {
  }

  lemma ResultWhenDue(t: Twma, history: seq<Sample>, n: nat, s: Sample)
    requires Valid(t) && IsWindowOf(t, history) && |t.data| == |history| - n
    requires history != [] ==> n < |history|
    ensures Push(t, s.ts, s.value).result.Some? <==> Due(t.interval, history, n, s.ts)
  {
    PushReturnsWeightedMean(t, s.ts, s.value);
  }

  // ----- samples at equal distances -----

  /** Timestamps at equal distances, as the candles of a feed without gaps have them. */
  ghost predicate Spaced(history: seq<Sample>, distance: int) {
    forall i :: 0 <= i < |history| ==> history[i].ts == history[0].ts + i * distance
  }

  function SumOfValues(history: seq<Sample>): real {
    if history == [] then 0.0 else history[0].value + SumOfValues(history[1..])
  }

  lemma {:induction false} SpacedDrops(k: nat, distance: int, history: seq<Sample>)
    requires distance > 0 && k > 0 && Spaced(history, distance)
    ensures Dropped(k * distance, history) == if |history| <= k then 0 else |history| - k
  {
    if history != [] {
      var n := |history| - 1;
      SpacedDrops(k, distance, history[..n]);
      if n > 0 {
        var d := Dropped(k * distance, history[..n]);
        assert history[n].ts == history[0].ts + n * distance && history[d].ts == history[0].ts + d * distance;
        MultipleReached(d, k, n, distance);
        MultipleReached(n - 1, 0, n, distance);
      }
    }
  }

  lemma MultipleReached(d: int, k: int, n: int, distance: int)
    requires distance > 0
    ensures d * distance + k * distance <= n * distance <==> d + k <= n
  {
    if d + k <= n {
      MultipleOf(n - d - k, distance);
    } else {
      MultipleOf(d + k - n - 1, distance);
    }
  }

  lemma MultipleOf(m: int, distance: int)
    requires distance > 0 && m >= 0
    ensures m * distance >= 0
  {
  }

  /** Over samples at equal distances the integral is the sum of the values times the distance. */
  lemma {:induction false} SpacedIntegral(data: seq<Point>, samples: seq<Sample>, distance: int, now: int)
    requires |data| == |samples| > 0 && distance > 0 && now == data[0].ts + |data| * distance
    requires SpacedPoints(data, samples, distance)
    ensures Integral(data, now) == Times(SumOfValues(samples), distance as real)
  {
    TimesDistributes(samples[0].value, SumOfValues(samples[1..]), distance as real);
    if |data| == 1 {
      assert samples[1..] == [] && Times(0.0, distance as real) == 0.0;
    } else {
      assert data[1].ts == data[0].ts + 1 * distance;
      forall i | 0 <= i < |data| - 1 ensures data[1..][i].ts == data[1].ts + i * distance {
        assert data[i + 1].ts == data[0].ts + (i + 1) * distance;
        OneMoreMultiple(i, distance);
      }
      OneMoreMultiple(|data| - 1, distance);
      SpacedIntegral(data[1..], samples[1..], distance, now);
    }
  }

  lemma OneMoreMultiple(i: int, distance: int)
    ensures (i + 1) * distance == i * distance + distance
  {
  }

  /**
   * Samples at equal distances, of which `k` fill the interval: the first `k` pushes return nothing, and every
   * later one the mean of exactly the `k` values before it, whose oldest is an interval old.
   */
  lemma {:induction false} AverageOfLastValues(k: nat, distance: int, history: seq<Sample>, next: Sample)
    requires distance > 0 && k > 0 && Spaced(history + [next], distance)
    ensures k * distance > 0
    ensures var r := Push(After(k * distance, history), next.ts, next.value).result;
      if |history| < k then r == None
      else
        && r.Some? && Times(r.value, k as real) == SumOfValues(history[|history| - k..])
        && history[|history| - k].ts + k * distance == next.ts
  {
    MultipleReached(0, 1, k, distance);
    SpacedPrefix(history, next, distance);
    SpacedDrops(k, distance, history);
    WindowDropsOnePerResult(k * distance, history, next);
    WhenDue(k, distance, history, next);
    if |history| >= k {
      SuffixMean(After(k * distance, history), history, k, distance, next);
    }
  }

  lemma {:induction false} SuffixMean(t: Twma, history: seq<Sample>, k: nat, distance: int, next: Sample)
    requires Valid(t) && IsWindowOf(t, history) && |t.data| == k && 0 < k <= |history|
    requires distance > 0 && t.interval == k * distance && Spaced(history, distance)
    requires history[|history| - 1].ts <= next.ts && history[|history| - k].ts + t.interval == next.ts
    ensures var r := Push(t, next.ts, next.value).result;
      r.Some? && Times(r.value, k as real) == SumOfValues(history[|history| - k..])
  {
    SpacedSuffix(t.data, history, distance);
    FullWindowMean(t, history[|history| - k..], k, distance, next);
  }

  lemma SpacedPrefix(history: seq<Sample>, next: Sample, distance: int)
    requires distance > 0 && Spaced(history + [next], distance)
    ensures Spaced(history, distance)
    ensures history != [] ==> next.ts == history[0].ts + |history| * distance && history[|history| - 1].ts <= next.ts
  {
    var n := |history|;
    var all := history + [next];
    assert forall i :: 0 <= i < n ==> all[i] == history[i];
    if n > 0 {
      assert all[n].ts == all[0].ts + n * distance && all[n - 1].ts == all[0].ts + (n - 1) * distance;
      OneMoreMultiple(n - 1, distance);
    }
  }

  /** The next sample completes an average exactly when there are `k` samples. */
  lemma {:induction false} WhenDue(k: nat, distance: int, history: seq<Sample>, next: Sample)
    requires distance > 0 && k > 0 && Spaced(history, distance)
    requires history != [] ==> next.ts == history[0].ts + |history| * distance && history[|history| - 1].ts <= next.ts
    ensures Due(k * distance, history, if |history| <= k then 0 else |history| - k, next.ts) <==> |history| >= k
    ensures |history| >= k ==> history[|history| - k].ts + k * distance == next.ts
  {
    var n := |history|;
    if n >= k {
      assert history[n - k].ts == history[0].ts + (n - k) * distance;
      LaterMultiple(n - k, k, distance);
    } else {
      MultipleReached(0, k, n, distance);
    }
  }

  lemma LaterMultiple(m: int, k: int, distance: int)
    ensures (m + k) * distance == m * distance + k * distance
  {
  }

  /** The result of a push whose window holds samples at equal distances that fill the interval. */
  lemma {:induction false} FullWindowMean(t: Twma, samples: seq<Sample>, k: nat, distance: int, next: Sample)
    requires Valid(t) && distance > 0 && |t.data| == |samples| == k > 0 && t.interval == k * distance
    requires SpacedPoints(t.data, samples, distance)
    requires t.data[k - 1].ts <= next.ts == t.data[0].ts + t.interval
    ensures var r := Push(t, next.ts, next.value).result;
      r.Some? && Times(r.value, k as real) == SumOfValues(samples)
  {
    SpacedIntegral(t.data, samples, distance, next.ts);
    SpacedAscend(t.data, samples, distance);
    PushReturnsTimeAverage(t, next.ts, next.value);
    MeanOf(Push(t, next.ts, next.value).result.value, k, distance, SumOfValues(samples));
  }

  ghost predicate SpacedPoints(data: seq<Point>, samples: seq<Sample>, distance: int)
    requires |data| == |samples|
  {
    forall i :: 0 <= i < |data| ==>
      data[i].ts == data[0].ts + i * distance && data[i].value == samples[i].value
  }

  /** The latest samples of a history at equal distances. */
  lemma SpacedSuffix(data: seq<Point>, history: seq<Sample>, distance: int)
    requires Spaced(history, distance) && |data| <= |history|
    requires var from := |history| - |data|; forall i :: 0 <= i < |data| ==>
      data[i].ts == history[from + i].ts && data[i].value == history[from + i].value
    ensures SpacedPoints(data, history[|history| - |data|..], distance)
  {
    var from := |history| - |data|;
    forall i | 0 <= i < |data| ensures data[i].ts == data[0].ts + i * distance {
      assert history[from + i].ts == history[0].ts + (from + i) * distance;
      assert data[0].ts == history[from + 0].ts && history[from].ts == history[0].ts + from * distance;
      LaterMultiple(from, i, distance);
    }
  }

  lemma SpacedAscend(data: seq<Point>, samples: seq<Sample>, distance: int)
    requires |data| == |samples| && distance > 0 && SpacedPoints(data, samples, distance)
    ensures Ascending(data)
  {
    forall i | 0 <= i < |data| - 1 ensures data[i].ts <= data[i + 1].ts {
      OneMoreMultiple(i, distance);
    }
  }

  lemma MeanOf(r: real, k: nat, distance: int, sum: real)
    requires distance > 0 && Times(r, (k * distance) as real) == Times(sum, distance as real)
    ensures Times(r, k as real) == sum
  {
    var d := distance as real;
    assert (k * distance) as real == Times(k as real, d);
    TimesAssociates(r, k as real, d);
    TimesThenDivide(Times(r, k as real), d);
    TimesThenDivide(sum, d);
  }

  /**
   * After every history in order the window is the history from sample `Dropped` on, the running sums are its
   * sums, and the next push returns the integral of the step function over the window, divided by a span of at
   * least the interval; the result lies between the least and the greatest value of the window.
   */
  lemma AverageIsExact(interval: int, history: seq<Sample>, next: Sample, lo: real, hi: real)
    requires interval > 0 && InOrder(history + [next])
    requires Within(After(interval, history).data, lo, hi)
    ensures var t := After(interval, history);
      var r := Push(t, next.ts, next.value).result;
      && |t.data| == |history| - Dropped(interval, history) && IsWindowOf(t, history)
      && t.sum == SumOf(t.data) && t.total == TotalOf(t.data)
      && (r.Some? <==> t.data != [] && t.data[0].ts + interval <= next.ts)
      && (r.Some? ==>
            && Times(r.value, (next.ts - t.data[0].ts) as real) == Integral(t.data, next.ts)
            && next.ts - t.data[0].ts >= interval
            && lo <= r.value <= hi)
  {
    var t := After(interval, history);
    WindowIsCounted(interval, history);
    WindowInOrder(t, history, next);
    PushIsExact(t, next, lo, hi);
  }

  /**
   * After every history whatsoever, descending timestamps included: the window is the history from sample
   * `Dropped` on, the sums match, and a result is a mean over the elapsed time.
   */
  lemma AverageOfAnyHistory(interval: int, history: seq<Sample>, next: Sample, lo: real, hi: real)
    requires interval > 0 && Within(After(interval, history).data, lo, hi)
    ensures var t := After(interval, history);
      var r := Push(t, next.ts, next.value).result;
      && |t.data| == |history| - Dropped(interval, history) && IsWindowOf(t, history)
      && t.sum == SumOf(t.data) && t.total == TotalOf(t.data)
      && (r.Some? <==> t.data != [] && t.data[|t.data| - 1].ts <= next.ts && t.data[0].ts + interval <= next.ts)
      && (r.Some? ==>
            && Times(r.value, Elapsed(t.data, next.ts) as real) == Integral(t.data, next.ts)
            && Elapsed(t.data, next.ts) >= interval
            && lo <= r.value <= hi)
  {
    WindowIsCounted(interval, history);
    PushReturnsWeightedMean(After(interval, history), next.ts, next.value);
    PushReturnsWithinWindow(After(interval, history), next.ts, next.value, lo, hi);
  }

  lemma PushIsExact(t: Twma, next: Sample, lo: real, hi: real)
    requires Valid(t) && Ascending(t.data) && Within(t.data, lo, hi)
    requires t.data != [] ==> t.data[|t.data| - 1].ts <= next.ts
    ensures var r := Push(t, next.ts, next.value).result;
      && (r.Some? <==> t.data != [] && t.data[0].ts + t.interval <= next.ts)
      && (r.Some? ==>
            && Times(r.value, (next.ts - t.data[0].ts) as real) == Integral(t.data, next.ts)
            && lo <= r.value <= hi)
  {
    PushReturnsTimeAverage(t, next.ts, next.value);
    PushReturnsWithinWindow(t, next.ts, next.value, lo, hi);
  }

  // ----- the class -----

  class TimeWeightedMovingAverage {
    const interval: int
    var data: seq<Point>
    var sum: real
    var totalWeight: real

    function State(): Twma
      reads this
    {
      Twma(interval, data, sum, totalWeight)
    }

    constructor (interval: int)
      requires interval > 0
      ensures State() == Twma(interval, [], 0.0, 0.0) && Valid(State())
    {
      this.interval, data, sum, totalWeight := interval, [], 0.0, 0.0;
    }

    method PushValue(ts: int, value: real) returns (r: Option<real>)
      requires Valid(State())
      modifies this
      ensures Valid(State())
      ensures State() == Push(old(State()), ts, value).state && r == Push(old(State()), ts, value).result
    {
      PushKeepsValid(State(), ts, value);
      var point := Point(ts, value, 0.0);
      if data == [] || ts < data[|data| - 1].ts {
        data := data + [point];
        return None;
      }
      var last := data[|data| - 1].(weight := Weight(interval, data[|data| - 1].ts, ts));
      data := data[|data| - 1 := last];
      sum := sum + Times(last.value, last.weight);
      totalWeight := totalWeight + last.weight;
      if data[0].ts + interval > ts {
        data := data + [point];
        return None;
      }
      FullWindow(old(State()), ts);
      r := Some(sum / totalWeight);
      sum := sum - Times(data[0].value, data[0].weight);
      totalWeight := totalWeight - data[0].weight;
      data := data[1..] + [point];
    }
  }
}
