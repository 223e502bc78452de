/** The enumeration of parameter values (frontend/crypto/optimizer/ConfigGenerator.cpp). */
module ConfigGenerator {
  import opened RealProducts

  /** `limits_map[name]`, in the order of the names. */
  datatype Limit = Limit(min: real, step: real, max: real)

  /** A parameter of the strategy's meta information, and its value in the current configuration. */
  datatype Param = Param(optimizable: bool, minValue: real, step: real, maxValue: real, current: real)

  /** A parameter that is not optimized ranges from its current value to one step further. */
  function LimitOf(p: Param): Limit {
    if p.optimizable then Limit(p.minValue, p.step, p.maxValue) else Limit(p.current, p.step, p.current + p.step)
  }

  /** The first parameter changes fastest; the result tells whether there is a next configuration. */
  function Increment(limits: seq<Limit>, values: seq<real>): (r: (seq<real>, bool))
    requires |values| == |limits|
    ensures |r.0| == |limits|
  {
    if limits == [] then ([], false)
    else
      var v := values[0] + limits[0].step;
      if v < limits[0].max then ([v] + values[1..], true)
      else
        var rest := Increment(limits[1..], values[1..]);
        ([limits[0].min] + rest.0, rest.1)
  }

  function Mins(limits: seq<Limit>): (r: seq<real>)
    ensures |r| == |limits|
  {
    seq(|limits|, i requires 0 <= i < |limits| => limits[i].min)
  }

  // ----- the values of one parameter -----

  /** The odometer comes to an end at this parameter. */
  predicate Ends(l: Limit) {
    l.step > 0.0 || l.min + l.step >= l.max
  }

  function Value(l: Limit, i: int): real {
    l.min + Times(i as real, l.step)
  }

  function Ceiling(x: real): int {
    -((-x).Floor)
  }

  /** The number of values that the parameter takes. */
  function Count(l: Limit): int
    requires Ends(l)
  {
    if l.min + l.step >= l.max then 1 else Ceiling(StepsBetween(l))
  }

  function StepsBetween(l: Limit): real
    requires l.step != 0.0
  {
    (l.max - l.min) / l.step
  }

  lemma StepsTimesStep(l: Limit)
    requires l.step != 0.0
    ensures Times(StepsBetween(l), l.step) == l.max - l.min
  {
  }

  lemma CeilingBounds(x: real)
    ensures Ceiling(x) as real - 1.0 < x <= Ceiling(x) as real
  {
  }

  /** The values are the minimum and every later multiple of the step that stays below the maximum. */
  lemma CountIsExact(l: Limit)
    requires Ends(l)
    ensures Count(l) >= 1
    ensures forall i: int :: i >= 1 && l.step > 0.0 ==> (i < Count(l) <==> Value(l, i) < l.max)
    ensures l.step <= 0.0 ==> Count(l) == 1
  {
    if l.step > 0.0 {
      forall i: int | i >= 1 ensures i < Count(l) <==> Value(l, i) < l.max {
        ValueBelowMax(l, i);
      }
      ValueBelowMax(l, 1);
      assert Times(1.0, l.step) == l.step;
    }
  }

  lemma ValueBelowMax(l: Limit, i: int)
    requires l.step > 0.0 && i >= 1
    ensures Count(l) >= 1
    ensures i < Count(l) <==> Value(l, i) < l.max
  {
    assert Times(1.0, l.step) == l.step;
    TimesLeq(1.0, i as real, l.step);
    if l.min + l.step < l.max {
      var x := StepsBetween(l);
      StepsTimesStep(l);
      CeilingBounds(x);
      if i as real < x {
        TimesLess(i as real, x, l.step);
      } else {
        TimesLeq(x, i as real, l.step);
      }
      if x <= 1.0 {
        TimesLeq(x, 1.0, l.step);
      }
    }
  }

  lemma NextValue(l: Limit, i: int)
    ensures Value(l, i) + l.step == Value(l, i + 1)
    ensures Value(l, 0) == l.min
  {
  }

  lemma ValuesDiffer(l: Limit, i: int, j: int)
    requires Ends(l) && 0 <= i < Count(l) && 0 <= j < Count(l) && i != j
    ensures Value(l, i) != Value(l, j)
  {
  }

  /** A parameter that is not optimized keeps its current value. */
  lemma FixedParameter(p: Param)
    requires !p.optimizable
    ensures Ends(LimitOf(p)) && Count(LimitOf(p)) == 1 && Value(LimitOf(p), 0) == p.current
  {
  }

  // ----- all parameters -----

  ghost predicate AllEnd(limits: seq<Limit>) {
    forall i :: 0 <= i < |limits| ==> Ends(limits[i])
  }

  /** The number of configurations. */
  function Total(limits: seq<Limit>): (n: int)
    requires AllEnd(limits)
    ensures n >= 1
  {
    if limits == [] then 1
    else
      CountIsExact(limits[0]);
      ProductIsPositive(Count(limits[0]), Total(limits[1..]));
      Count(limits[0]) * Total(limits[1..])
  }

  lemma ProductIsPositive(a: int, b: int)
    requires a >= 1 && b >= 1
    ensures a * b >= 1
  {
  }

  /** Configuration number `n`: the digits of `n` in the mixed radix of the counts, the first one least significant. */
  function Config(limits: seq<Limit>, n: int): (r: seq<real>)
    requires AllEnd(limits) && n >= 0
    ensures |r| == |limits|
  {
    if limits == [] then []
    else
      CountIsExact(limits[0]);
      [Value(limits[0], n % Count(limits[0]))] + Config(limits[1..], n / Count(limits[0]))
  }

  lemma {:induction false} FirstConfig(limits: seq<Limit>)
    requires AllEnd(limits)
    ensures Config(limits, 0) == Mins(limits)
  {
    if limits != [] {
      CountIsExact(limits[0]);
      NextValue(limits[0], 0);
      FirstConfig(limits[1..]);
    }
  }

  lemma DigitsOfNext(n: int, c: int)
    requires n >= 0 && c >= 1
    ensures n % c + 1 < c ==> (n + 1) % c == n % c + 1 && (n + 1) / c == n / c
    ensures n % c + 1 == c ==> (n + 1) % c == 0 && (n + 1) / c == n / c + 1
  {
    var q, r := n / c, n % c;
    assert n == q * c + r;
    if r + 1 < c {
      DivisionIsUnique(n + 1, c, q, r + 1);
    } else {
      assert n + 1 == (q + 1) * c;
      DivisionIsUnique(n + 1, c, q + 1, 0);
    }
  }

  lemma DivisionIsUnique(n: int, c: int, q: int, r: int)
    requires c >= 1 && n == q * c + r && 0 <= r < c
    ensures n / c == q && n % c == r
  {
    var q', r' := n / c, n % c;
    assert (q - q') * c == r' - r;
    if q - q' >= 1 {
      MultipleAtLeast(q - q', c);
    } else if q' - q >= 1 {
      MultipleAtLeast(q' - q, c);
    }
  }

  lemma MultipleAtLeast(k: int, c: int)
    requires k >= 1 && c >= 1
    ensures k * c >= c
  {
  }

  /** One increment leads from each configuration to the next, and from the last one to the end. */
  lemma {:induction false} IncrementIsNext(limits: seq<Limit>, n: int)
    requires AllEnd(limits) && 0 <= n < Total(limits)
    ensures Increment(limits, Config(limits, n)).1 <==> n + 1 < Total(limits)
    ensures n + 1 < Total(limits) ==> Increment(limits, Config(limits, n)).0 == Config(limits, n + 1)
  {
    if limits != [] {
      var l, c := limits[0], Count(limits[0]);
      CountIsExact(l);
      DigitsOfNext(n, c);
      NextValue(l, n % c);
      NextValue(l, 0);
      QuotientBelow(n, c, Total(limits[1..]));
      IncrementIsNext(limits[1..], n / c);
      if n % c + 1 < c {
        assert Value(l, n % c + 1) < l.max;
      } else {
        LastValue(l);
      }
    }
  }

  lemma LastValue(l: Limit)
    requires Ends(l)
    ensures Value(l, Count(l)) >= l.max
  {
  }

  lemma QuotientBelow(n: int, c: int, t: int)
    requires n >= 0 && c >= 1 && t >= 1 && n < c * t
    ensures 0 <= n / c < t
    ensures n % c + 1 < c ==> n + 1 < c * t
    ensures n % c + 1 == c ==> (n + 1 < c * t <==> n / c + 1 < t)
  {
    var q, r := n / c, n % c;
    assert n == q * c + r;
    if q >= t {
      MultipleLeq(t, q, c);
    }
    MultipleLeq(q + 1, t, c);
    if q + 1 < t {
      MultipleLeq(q + 2, t, c);
    }
  }

  lemma MultipleLeq(a: int, b: int, c: int)
    requires c >= 1
    ensures a <= b ==> a * c <= b * c
    ensures (a + 1) * c == a * c + c
  {
  }

  // ----- each point of the product exactly once -----

  /** The configuration takes one of its values for every parameter. */
  ghost predicate Chooses(limits: seq<Limit>, config: seq<real>, digits: seq<int>)
    requires AllEnd(limits)
  {
    && |config| == |limits| == |digits|
    && forall i :: 0 <= i < |limits| ==> 0 <= digits[i] < Count(limits[i]) && config[i] == Value(limits[i], digits[i])
  }

  /** The number of a choice. */
  lemma {:induction false} ChoiceHasNumber(limits: seq<Limit>, config: seq<real>, digits: seq<int>) returns (n: int)
    requires AllEnd(limits) && Chooses(limits, config, digits)
    ensures 0 <= n < Total(limits) && Config(limits, n) == config
  {
    if limits == [] {
      n := 0;
    } else {
      var c := Count(limits[0]);
      CountIsExact(limits[0]);
      assert Chooses(limits[1..], config[1..], digits[1..]);
      var m := ChoiceHasNumber(limits[1..], config[1..], digits[1..]);
      n := m * c + digits[0];
      DivisionIsUnique(n, c, m, digits[0]);
      MultipleLeq(m + 1, Total(limits[1..]), c);
      MultipleLeq(m, m, c);
      MultipleLeq(0, m, c);
    }
  }

  lemma {:induction false} NumberHasChoice(limits: seq<Limit>, n: int) returns (digits: seq<int>)
    requires AllEnd(limits) && 0 <= n < Total(limits)
    ensures Chooses(limits, Config(limits, n), digits)
  {
    if limits == [] {
      digits := [];
    } else {
      var c := Count(limits[0]);
      CountIsExact(limits[0]);
      QuotientBelow(n, c, Total(limits[1..]));
      var rest := NumberHasChoice(limits[1..], n / c);
      digits := [n % c] + rest;
    }
  }

  lemma SameNumber(n: int, m: int, c: int)
    requires c >= 1 && n % c == m % c && n / c == m / c
    ensures n == m
  {
  }

  /** Equal configurations have equal first digits and equal remaining configurations. */
  lemma SameParts(limits: seq<Limit>, n: int, m: int)
    requires AllEnd(limits) && limits != [] && n >= 0 && m >= 0 && Config(limits, n) == Config(limits, m)
    ensures var c := Count(limits[0]);
      c >= 1 && n % c == m % c && Config(limits[1..], n / c) == Config(limits[1..], m / c)
  {
    var c := Count(limits[0]);
    ConfigParts(limits, n);
    ConfigParts(limits, m);
    if n % c != m % c {
      ValuesDiffer(limits[0], n % c, m % c);
    }
  }

  lemma ConfigParts(limits: seq<Limit>, n: int)
    requires AllEnd(limits) && limits != [] && n >= 0
    ensures var c := Count(limits[0]);
      && c >= 1 && 0 <= n % c < c
      && Config(limits, n)[0] == Value(limits[0], n % c) && Config(limits, n)[1..] == Config(limits[1..], n / c)
  {
  }

  lemma {:induction false} NumbersDiffer(limits: seq<Limit>, n: int, m: int)
    requires AllEnd(limits) && 0 <= n < Total(limits) && 0 <= m < Total(limits)
    requires Config(limits, n) == Config(limits, m)
    ensures n == m
  {
    if limits != [] {
      var c := Count(limits[0]);
      SameParts(limits, n, m);
      QuotientBelow(n, c, Total(limits[1..]));
      QuotientBelow(m, c, Total(limits[1..]));
      NumbersDiffer(limits[1..], n / c, m / c);
      SameNumber(n, m, c);
    }
  }

  /** What the generator returns: all configurations, in the order of their numbers. */
  function AllConfigs(limits: seq<Limit>): (r: seq<seq<real>>)
    requires AllEnd(limits)
    ensures |r| == Total(limits)
  {
    seq(Total(limits), n requires 0 <= n => Config(limits, n))
  }

  /** Every point of the Cartesian product is returned, nothing else is, and nothing twice. */
  lemma EnumerationIsExhaustive(limits: seq<Limit>, config: seq<real>)
    requires AllEnd(limits)
    ensures config in AllConfigs(limits) <==> exists digits :: Chooses(limits, config, digits)
    ensures forall n, m :: 0 <= n < m < |AllConfigs(limits)| ==> AllConfigs(limits)[n] != AllConfigs(limits)[m]
  {
    var all := AllConfigs(limits);
    if config in all {
      var n :| 0 <= n < |all| && all[n] == config;
      var digits := NumberHasChoice(limits, n);
      assert Chooses(limits, config, digits);
    }
    if exists digits :: Chooses(limits, config, digits) {
      var digits :| Chooses(limits, config, digits);
      var n := ChoiceHasNumber(limits, config, digits);
      assert all[n] == config;
    }
    forall n, m | 0 <= n < m < |all| ensures all[n] != all[m] {
      if all[n] == all[m] {
        NumbersDiffer(limits, n, m);
      }
    }
  }

  // ----- from the parameters -----

  function LimitsOf(params: seq<Param>): (r: seq<Limit>)
    ensures |r| == |params|
  {
    seq(|params|, i requires 0 <= i < |params| => LimitOf(params[i]))
  }

  /**
   * A value of a parameter: of a fixed one its current value, of an optimised one its minimum and each later
   * multiple of its step that stays below its maximum.
   */
  ghost predicate Takes(p: Param, v: real) {
    if !p.optimizable then v == p.current
    else v == p.minValue || (p.step > 0.0 && v < p.maxValue && exists i: nat :: v == StepsUp(p, i))
  }

  function StepsUp(p: Param, i: nat): real {
    p.minValue + Times(i as real, p.step)
  }

  /** An optimised parameter has a positive step or no room for a second value; a fixed one is always fine. */
  ghost predicate Proper(p: Param) {
    p.optimizable ==> p.step > 0.0 || p.minValue + p.step >= p.maxValue
  }

  lemma ProperExactly(p: Param)
    ensures Proper(p) <==> Ends(LimitOf(p))
  {
  }

  lemma TakesExactly(p: Param, v: real)
    requires Proper(p)
    ensures Takes(p, v) <==> exists i :: 0 <= i < Count(LimitOf(p)) && v == Value(LimitOf(p), i)
  {
    var l := LimitOf(p);
    CountIsExact(l);
    NextValue(l, 0);
    if !p.optimizable {
      FixedParameter(p);
      assert v == p.current ==> v == Value(l, 0);
    } else {
      if v == p.minValue {
        assert v == Value(l, 0);
      } else if Takes(p, v) {
        var i: nat :| v == StepsUp(p, i);
        assert v == Value(l, i);
      }
      forall i | 0 <= i < Count(l) && v == Value(l, i) ensures Takes(p, v) {
        assert v == StepsUp(p, i);
      }
    }
  }

  /** The configurations of the parameters are all choices of a value for each of them, and nothing else. */
  lemma ConfigsOfParameters(params: seq<Param>, config: seq<real>)
    requires forall i :: 0 <= i < |params| ==> Proper(params[i])
    ensures AllEnd(LimitsOf(params))
    ensures config in AllConfigs(LimitsOf(params)) <==>
      |config| == |params| && forall i :: 0 <= i < |params| ==> Takes(params[i], config[i])
  {
    var limits := LimitsOf(params);
    forall i | 0 <= i < |params| ensures Ends(limits[i]) {
      ProperExactly(params[i]);
    }
    EnumerationIsExhaustive(limits, config);
    if config in AllConfigs(limits) {
      var digits :| Chooses(limits, config, digits);
      forall i | 0 <= i < |params| ensures Takes(params[i], config[i]) {
        TakesExactly(params[i], config[i]);
      }
    }
    if |config| == |params| && forall i :: 0 <= i < |params| ==> Takes(params[i], config[i]) {
      forall i | 0 <= i < |params| ensures DigitOf(limits[i], config[i]) >= 0 && IsDigit(limits[i], config[i]) {
        TakesExactly(params[i], config[i]);
      }
      var digits := seq(|params|, i requires 0 <= i < |params| => DigitOf(limits[i], config[i]));
      assert Chooses(limits, config, digits);
    }
  }

  /** The value is one of the parameter's. */
  ghost predicate IsDigit(l: Limit, v: real)
    requires Ends(l)
  {
    exists i :: 0 <= i < Count(l) && v == Value(l, i)
  }

  ghost function DigitOf(l: Limit, v: real): (i: int)
    requires Ends(l)
    ensures IsDigit(l, v) ==> 0 <= i < Count(l) && v == Value(l, i)
  {
    if IsDigit(l, v) then
      var i :| 0 <= i < Count(l) && v == Value(l, i);
      i
    else 0
  }

  // ----- when the loop ends at all -----

  /** The values after `n` increments, whatever they returned. */
  function Incremented(limits: seq<Limit>, n: nat): (r: seq<real>)
    ensures |r| == |limits|
  {
    if n == 0 then Mins(limits) else Increment(limits, Incremented(limits, n - 1)).0
  }

  /** The loop body runs for the `n`-th time and there is no next configuration. */
  ghost predicate EndsAfter(limits: seq<Limit>, n: nat) {
    !Increment(limits, Incremented(limits, n)).1
  }

  lemma {:induction false} IncrementedIsConfig(limits: seq<Limit>, n: nat)
    requires AllEnd(limits) && n < Total(limits)
    ensures Incremented(limits, n) == Config(limits, n)
  {
    if n == 0 {
      FirstConfig(limits);
    } else {
      IncrementedIsConfig(limits, n - 1);
      IncrementIsNext(limits, n - 1);
    }
  }

  /** A parameter without an end stops every increment at itself, or before. */
  lemma {:induction false} StuckParameter(limits: seq<Limit>, values: seq<real>, j: nat)
    requires |values| == |limits| && j < |limits| && !Ends(limits[j]) && values[j] <= limits[j].min
    ensures var r := Increment(limits, values); r.1 && r.0[j] <= limits[j].min
  {
    if j > 0 && values[0] + limits[0].step >= limits[0].max {
      StuckParameter(limits[1..], values[1..], j - 1);
    }
  }

  lemma {:induction false} StuckForEver(limits: seq<Limit>, j: nat, n: nat)
    requires j < |limits| && !Ends(limits[j])
    ensures Incremented(limits, n)[j] <= limits[j].min && !EndsAfter(limits, n)
  {
    if n > 0 {
      StuckForEver(limits, j, n - 1);
      StuckParameter(limits, Incremented(limits, n - 1), j);
    }
    StuckParameter(limits, Incremented(limits, n), j);
  }

  /** The enumeration ends exactly when every step is positive or leaves no room for a second value. */
  lemma EndsExactly(limits: seq<Limit>)
    ensures (exists n: nat :: EndsAfter(limits, n)) <==> AllEnd(limits)
  {
    if AllEnd(limits) {
      var n := Total(limits) - 1;
      IncrementedIsConfig(limits, n);
      IncrementIsNext(limits, n);
      assert EndsAfter(limits, n);
    } else {
      var j :| 0 <= j < |limits| && !Ends(limits[j]);
      forall n: nat ensures !EndsAfter(limits, n) {
        StuckForEver(limits, j, n);
      }
    }
  }

  // ----- the loops -----

  lemma IncrementAt(limits: seq<Limit>, values: seq<real>, i: nat)
    requires |values| == |limits| && i < |limits|
    ensures var v := values[i] + limits[i].step;
      Increment(limits[i..], values[i..]) ==
        if v < limits[i].max then ([v] + values[i + 1..], true)
        else
          var rest := Increment(limits[i + 1..], values[i + 1..]);
          ([limits[i].min] + rest.0, rest.1)
  {
  }

  /** The array while position `i` is being counted: minima before it, the old values after it. */
  ghost predicate Carried(limits: seq<Limit>, values: seq<real>, before: seq<real>, i: nat)
    requires |values| == |before| == |limits| && i <= |limits|
  {
    values == Mins(limits)[..i] + before[i..]
  }

  lemma CarryOn(limits: seq<Limit>, values: seq<real>, before: seq<real>, i: nat, v: real)
    requires |values| == |before| == |limits| && i < |limits| && Carried(limits, values, before, i)
    ensures values[i] == before[i]
    ensures values[i := v] == Mins(limits)[..i] + ([v] + before[i + 1..])
    ensures Carried(limits, values[i := limits[i].min], before, i + 1)
    ensures forall s: seq<real> :: Mins(limits)[..i] + ([limits[i].min] + s) == Mins(limits)[..i + 1] + s
  {
  }

  /** `increment_current_param`, in place. */
  method IncrementCurrent(limits: seq<Limit>, current: array<real>) returns (more: bool)
    requires current.Length == |limits|
    modifies current
    ensures (current[..], more) == Increment(limits, old(current[..]))
  {
    ghost var before := current[..];
    assert limits[0..] == limits && before[0..] == before;
    assert Mins(limits)[..0] + Increment(limits, before).0 == Increment(limits, before).0;
    var i := 0;
    while i < |limits|
      invariant 0 <= i <= |limits| && Carried(limits, current[..], before, i)
      invariant var rest := Increment(limits[i..], before[i..]);
        Increment(limits, before) == (Mins(limits)[..i] + rest.0, rest.1)
    {
      var v := current[i] + limits[i].step;
      CarryOn(limits, current[..], before, i, v);
      IncrementAt(limits, before, i);
      current[i] := v;
      if current[i] < limits[i].max {
        return true;
      }
      current[i] := limits[i].min;
      i := i + 1;
    }
    return false;
  }

  /** The loop of `get_possible_configs` that collects the limits. */
  method CollectLimits(params: seq<Param>) returns (limits: seq<Limit>)
    ensures limits == LimitsOf(params)
  {
    limits := [];
    for i := 0 to |params|
      invariant limits == LimitsOf(params)[..i]
    {
      var p := params[i];
      if p.optimizable {
        limits := limits + [Limit(p.minValue, p.step, p.maxValue)];
      } else {
        limits := limits + [Limit(p.current, p.step, p.current + p.step)];
      }
    }
  }

  /** The loop of `get_possible_configs` that steps through the configurations. */
  method EnumerateConfigs(limits: seq<Limit>) returns (configs: seq<seq<real>>)
    requires AllEnd(limits)
    ensures configs == AllConfigs(limits)
  {
    var current := new real[|limits|](i requires 0 <= i < |limits| => limits[i].min);
    assert current[..] == Mins(limits);
    FirstConfig(limits);
    configs := [];
    var more := true;
    while more
      invariant |configs| <= Total(limits) && configs == AllConfigs(limits)[..|configs|]
      invariant if more then |configs| < Total(limits) && current[..] == Config(limits, |configs|)
        else |configs| == Total(limits)
      decreases more, Total(limits) - |configs|
    {
      IncrementIsNext(limits, |configs|);
      configs := configs + [current[..]];
      more := IncrementCurrent(limits, current);
    }
  }

  /** `get_possible_configs`. */
  method GetPossibleConfigs(params: seq<Param>) returns (configs: seq<seq<real>>)
    requires forall i :: 0 <= i < |params| ==> Proper(params[i])
    ensures forall config :: config in configs <==>
      |config| == |params| && forall i :: 0 <= i < |params| ==> Takes(params[i], config[i])
    ensures forall n, m :: 0 <= n < m < |configs| ==> configs[n] != configs[m]
  {
    ConfigsOfParameters(params, []);
    var limits := CollectLimits(params);
    configs := EnumerateConfigs(limits);
    EnumerationIsExhaustive(limits, []);
    forall config
      ensures config in configs <==>
        |config| == |params| && forall i :: 0 <= i < |params| ==> Takes(params[i], config[i])
    {
      ConfigsOfParameters(params, config);
    }
  }
}
