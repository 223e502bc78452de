/** The trailing stop (TrailingStopLoss.cpp and BacktestTrailingStopLoss) as a drawdown from an extremum. */
module TrailingStops {
  import opened Common
  import opened Events
  import opened Gateway

  datatype Tick = Tick(ts: int, price: real)

  /** The gateway after some prices. */
  function After(gw: GatewayState, ticks: seq<Tick>, wrap: bool): GatewayState {
    if ticks == [] then gw
    else
      var t := ticks[|ticks| - 1];
      OnNewPrice(After(gw, ticks[..|ticks| - 1], wrap), t.ts, t.price, wrap).gw
  }

  /**
   * The best price for a position that a stop on `side` protects: the highest for a long one, the lowest for a
   * short one.
   */
  function Best(side: Side, first: real, ticks: seq<Tick>): real {
    if ticks == [] then first
    else
      var before := Best(side, first, ticks[..|ticks| - 1]);
      var p := ticks[|ticks| - 1].price;
      if side.Sell? then (if p > before then p else before) else (if p < before then p else before)
  }

  lemma {:induction false} BestIsExtreme(side: Side, first: real, ticks: seq<Tick>)
    ensures var b := Best(side, first, ticks);
      && (b == first || exists i :: 0 <= i < |ticks| && b == ticks[i].price)
      && (if side.Sell? then first <= b else b <= first)
      && (forall i :: 0 <= i < |ticks| ==> if side.Sell? then ticks[i].price <= b else b <= ticks[i].price)
  {
    if ticks != [] {
      var n := |ticks| - 1;
      BestIsExtreme(side, first, ticks[..n]);
      var before := Best(side, first, ticks[..n]);
      if Best(side, first, ticks) == before && before != first {
        var i :| 0 <= i < n && before == ticks[..n][i].price;
        assert ticks[i].price == before;
      }
    }
  }

  /** How far tick `i` has retreated from the best price before it. */
  function Retreat(side: Side, first: real, ticks: seq<Tick>, i: nat): real
    requires i < |ticks|
  {
    var d := Best(side, first, ticks[..i]) - ticks[i].price;
    if side.Sell? then d else -d
  }

  /** The first tick whose retreat exceeds the distance, or the number of ticks. */
  function FirstRetreat(side: Side, distance: real, first: real, ticks: seq<Tick>): (n: nat)
    ensures n <= |ticks|
    ensures n < |ticks| ==> Retreat(side, first, ticks, n) > distance
    ensures forall i :: 0 <= i < n ==> Retreat(side, first, ticks, i) <= distance
  {
    if ticks == [] then 0
    else
      var n := |ticks| - 1;
      var before := FirstRetreat(side, distance, first, ticks[..n]);
      PrefixRetreats(side, first, ticks);
      if before < n then before
      else if Retreat(side, first, ticks, n) > distance then n
      else |ticks|
  }

  lemma PrefixRetreats(side: Side, first: real, ticks: seq<Tick>)
    requires ticks != []
    ensures forall i :: 0 <= i < |ticks| - 1 ==>
      Retreat(side, first, ticks[..|ticks| - 1], i) == Retreat(side, first, ticks, i)
  {
    forall i | 0 <= i < |ticks| - 1
      ensures Retreat(side, first, ticks[..|ticks| - 1], i) == Retreat(side, first, ticks, i)
    {
      assert ticks[..|ticks| - 1][..i] == ticks[..i];
    }
  }

  /** A position that only a trailing stop protects, from its price at the time of the request on. */
  ghost predicate Protected(gw: GatewayState, tr: Trailing, first: real) {
    && gw.trailing == Some(tr)
    && gw.tpsl.None? && gw.lists == Both([], [])
    && gw.pos != 0.0 && tr.side == SideOf(gw.pos).Opposite()
    && tr.distance >= 0.0
    && tr.stop == first + Signed(tr.distance, tr.side)
  }

  /** `push_trailing_stop_request` protects the position. */
  lemma RequestProtects(gw: GatewayState, g: Guid, distance: real)
    requires gw.tpsl.None? && gw.lists == Both([], []) && gw.pos != 0.0 && distance >= 0.0
    ensures var side := SideOf(gw.pos).Opposite();
      var r := PushTrailing(gw, g, distance, side);
      Protected(r.gw, r.gw.trailing.value, gw.lastPrice)
  {
  }

  function StopAt(tr: Trailing, best: real): Trailing {
    tr.(stop := best + Signed(tr.distance, tr.side))
  }

  /**
   * The stop follows the best price at the distance; the position is closed, at the stop, by the
   * first price whose retreat from the best price exceeds the distance, and by no other.
   */
  lemma {:induction false} TrailingStopIsDrawdown(gw: GatewayState, tr: Trailing, first: real, ticks: seq<Tick>,
      wrap: bool)
    requires Protected(gw, tr, first)
    ensures var n := FirstRetreat(tr.side, tr.distance, first, ticks);
      var gw' := After(gw, ticks, wrap);
      && (n == |ticks| ==>
            && gw'.trailing == Some(StopAt(tr, Best(tr.side, first, ticks)))
            && gw'.pos == gw.pos && gw'.log == gw.log)
      && (n < |ticks| ==>
            && gw'.trailing == None && gw'.pos == 0.0
            && |gw'.log| == |gw.log| + 1 && gw'.log[..|gw.log|] == gw.log
            && var t := gw'.log[|gw.log|];
               && t.guid == tr.guid && t.ts == ticks[n].ts
               && t.price == Best(tr.side, first, ticks[..n]) + Signed(tr.distance, tr.side)
               && t.SignedVolume() == -gw.pos)
    ensures After(gw, ticks, wrap).tpsl.None? && After(gw, ticks, wrap).lists == Both([], [])
  {
    if ticks == [] {
      assert tr == StopAt(tr, first);
    } else {
      var n := |ticks| - 1;
      TrailingStopIsDrawdown(gw, tr, first, ticks[..n], wrap);
      if FirstRetreat(tr.side, tr.distance, first, ticks[..n]) < n {
        ClosedStays(gw, tr, first, ticks, wrap);
      } else {
        OpenMoves(gw, tr, first, ticks, wrap);
      }
    }
  }

  /** The same from the request on: a stop requested on the side opposite to the position starts at the last price. */
  lemma RequestedStopIsDrawdown(gw: GatewayState, g: Guid, distance: real, ticks: seq<Tick>, wrap: bool)
    requires gw.tpsl.None? && gw.lists == Both([], []) && gw.pos != 0.0 && distance >= 0.0
    ensures var side := SideOf(gw.pos).Opposite();
      var n := FirstRetreat(side, distance, gw.lastPrice, ticks);
      var gw' := After(PushTrailing(gw, g, distance, side).gw, ticks, wrap);
      && (n == |ticks| ==>
            && gw'.trailing
               == Some(Trailing(g, distance, side, Best(side, gw.lastPrice, ticks) + Signed(distance, side)))
            && gw'.pos == gw.pos && gw'.log == gw.log)
      && (n < |ticks| ==>
            && gw'.trailing == None && gw'.pos == 0.0
            && |gw'.log| == |gw.log| + 1 && gw'.log[..|gw.log|] == gw.log
            && var t := gw'.log[|gw.log|];
               && t.guid == g && t.ts == ticks[n].ts
               && t.price == Best(side, gw.lastPrice, ticks[..n]) + Signed(distance, side)
               && t.SignedVolume() == -gw.pos)
  {
    var placed := PushTrailing(gw, g, distance, SideOf(gw.pos).Opposite()).gw;
    RequestProtects(gw, g, distance);
    TrailingStopIsDrawdown(placed, placed.trailing.value, gw.lastPrice, ticks, wrap);
  }

  /** Once the position is closed a price changes nothing but the last price. */
  lemma ClosedStays(gw: GatewayState, tr: Trailing, first: real, ticks: seq<Tick>, wrap: bool)
    requires ticks != []
    requires var before := ticks[..|ticks| - 1];
      var gw' := After(gw, before, wrap);
      && FirstRetreat(tr.side, tr.distance, first, before) < |before|
      && gw'.tpsl.None? && gw'.lists == Both([], []) && gw'.trailing == None
    ensures var before := ticks[..|ticks| - 1];
      var n := FirstRetreat(tr.side, tr.distance, first, before);
      && FirstRetreat(tr.side, tr.distance, first, ticks) == n && before[..n] == ticks[..n]
      && After(gw, ticks, wrap) == After(gw, before, wrap).(lastPrice := ticks[|ticks| - 1].price)
  {
  }

  /** While the position is open a price moves the stop, or closes the position, or does neither. */
  lemma OpenMoves(gw: GatewayState, tr: Trailing, first: real, ticks: seq<Tick>, wrap: bool)
    requires Protected(gw, tr, first) && ticks != []
    requires var before := ticks[..|ticks| - 1];
      var gw' := After(gw, before, wrap);
      && FirstRetreat(tr.side, tr.distance, first, before) == |before|
      && gw'.tpsl.None? && gw'.lists == Both([], [])
      && gw'.trailing == Some(StopAt(tr, Best(tr.side, first, before))) && gw'.pos == gw.pos && gw'.log == gw.log
    ensures var before := ticks[..|ticks| - 1];
      var m := FirstRetreat(tr.side, tr.distance, first, ticks);
      var gw'' := After(gw, ticks, wrap);
      && gw''.tpsl.None? && gw''.lists == Both([], [])
      && (m == |ticks| ==>
            gw''.trailing == Some(StopAt(tr, Best(tr.side, first, ticks))) && gw''.pos == gw.pos && gw''.log == gw.log)
      && (m < |ticks| ==>
            && m == |before| && gw''.trailing == None && gw''.pos == 0.0
            && gw''.log == gw.log + [ClosingTrade(After(gw, before, wrap).(lastPrice := ticks[m].price), tr.guid,
                ticks[m].ts,
                                                  Best(tr.side, first, before) + Signed(tr.distance, tr.side))])
  {
  }

  /** As long as the position is open the stop only moves in its favour. */
  lemma StopIsMonotone(gw: GatewayState, tr: Trailing, first: real, ticks: seq<Tick>, t: Tick, wrap: bool)
    requires Protected(gw, tr, first)
    requires FirstRetreat(tr.side, tr.distance, first, ticks) == |ticks|
    requires FirstRetreat(tr.side, tr.distance, first, ticks + [t]) == |ticks| + 1
    ensures var a, b := After(gw, ticks, wrap).trailing, After(gw, ticks + [t], wrap).trailing;
      a.Some? && b.Some? && if tr.side.Sell? then a.value.stop <= b.value.stop else b.value.stop <= a.value.stop
  {
    TrailingStopIsDrawdown(gw, tr, first, ticks, wrap);
    TrailingStopIsDrawdown(gw, tr, first, ticks + [t], wrap);
    assert (ticks + [t])[..|ticks|] == ticks;
  }
}
