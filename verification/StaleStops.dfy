/**
 * Full-position stops that outlive their position (frontend/crypto/gateway/BacktestTradingGateway.cpp): when
 * a price makes the exchange trade a volume of zero.
 */
module StaleStops {
  import opened Common
  import opened Events
  import opened Gateway
  import opened GatewayLaws
  import Ledger

  /** The full-position TPSL trades at this price. */
  predicate TpslCloses(gw: GatewayState, price: real) {
    gw.tpsl.Some? && TpslPrice(gw.pos, gw.tpsl.value, price).Some?
  }

  /** The trailing stop of a flat position trades at this price: a flat position counts as a long one. */
  predicate TrailingTradesFlat(gw: GatewayState, price: real) {
    gw.trailing.Some? &&
    var tr := gw.trailing.value;
    NewStop(tr.distance, tr.side, price, tr.stop).None? && price < tr.stop
  }

  /** What the two stops make of a price, before the conditional orders. */
  function StopsOn(gw: GatewayState, ts: int, price: real): GatewayState {
    TryTrailing(TryTpsl(gw.(lastPrice := price), ts).gw, ts).gw
  }

  /** Since `gw` a volume of zero has been traded. */
  ghost predicate TradesNothing(gw: GatewayState, gw': GatewayState) {
    exists i :: |gw.log| <= i < |gw'.log| && gw'.log[i].volume == 0.0
  }

  /**
   * Exactly when a price makes the stops trade a volume of zero, for every gateway: a TPSL without a position
   * is reached, or a trailing stop is reached when there is no position, be it that the TPSL has just closed it.
   */
  lemma StopsTradeNothingExactly(gw: GatewayState, ts: int, price: real)
    ensures gw.log <= StopsOn(gw, ts, price).log
    ensures TradesNothing(gw, StopsOn(gw, ts, price)) <==>
      || (TpslCloses(gw, price) && gw.pos == 0.0)
      || (TrailingTradesFlat(gw, price) && (gw.pos == 0.0 || TpslCloses(gw, price)))
  {
    var g := gw.(lastPrice := price);
    var a := TryTpsl(g, ts).gw;
    var b := StopsOn(gw, ts, price);
    TpslTradesPosition(g, ts);
    TrailingTradesPosition(a, ts);
    if TpslCloses(gw, price) {
      assert b.log[|gw.log|] == a.log[|gw.log|];
    }
  }

  lemma TpslTradesPosition(gw: GatewayState, ts: int)
    ensures var a := TryTpsl(gw, ts).gw;
      && a.trailing == gw.trailing && a.lastPrice == gw.lastPrice
      && (if TpslCloses(gw, gw.lastPrice)
          then a.pos == 0.0 && |a.log| == |gw.log| + 1 && gw.log <= a.log && a.log[|gw.log|].volume == Abs(gw.pos)
          else a == gw)
  {
  }

  /** A stop that is reached trades the position, which is a volume of zero exactly without one. */
  lemma TrailingTradesPosition(gw: GatewayState, ts: int)
    ensures var b := TryTrailing(gw, ts).gw;
      && gw.log <= b.log && |b.log| <= |gw.log| + 1
      && (|b.log| == |gw.log| + 1 ==> b.log[|gw.log|].volume == Abs(gw.pos))
      && (gw.pos == 0.0 ==> (|b.log| == |gw.log| + 1 <==> TrailingTradesFlat(gw, gw.lastPrice)))
  {
  }

  /** Every conditional order asks for a volume, and so did every trade since the first `n`. */
  ghost predicate RequestsVolume(n: nat, gw: GatewayState) {
    && n <= |gw.log|
    && (forall k: Kind, r :: r in gw.lists.Get(k) ==> r.volume != 0.0)
    && forall i :: n <= i < |gw.log| ==> gw.log[i].volume != 0.0
  }

  lemma FiringTradesVolume(n: nat)
    ensures FiringKeeps(gw => RequestsVolume(n, gw))
  {
    forall gw: GatewayState, k: Kind, i: nat, ts: int | RequestsVolume(n, gw) && i < |gw.lists.Get(k)|
      ensures RequestsVolume(n, Fire(gw, k, i, ts).gw)
    {
      assert gw.lists.Get(k)[i] in gw.lists.Get(k);
      forall k': Kind, r | r in Fire(gw, k, i, ts).gw.lists.Get(k') ensures r.volume != 0.0 {
        assert r in gw.lists.Get(k');
      }
    }
  }

  /** For a whole price, as long as every conditional order asks for a volume. */
  lemma PriceTradesNothingExactly(gw: GatewayState, ts: int, price: real, wrap: bool)
    requires forall k: Kind, r :: r in gw.lists.Get(k) ==> r.volume != 0.0
    ensures TradesNothing(gw, OnNewPrice(gw, ts, price, wrap).gw) <==>
      || (TpslCloses(gw, price) && gw.pos == 0.0)
      || (TrailingTradesFlat(gw, price) && (gw.pos == 0.0 || TpslCloses(gw, price)))
  {
    var b := StopsOn(gw, ts, price);
    var c := OnNewPrice(gw, ts, price, wrap).gw;
    StopsTradeNothingExactly(gw, ts, price);
    TriggersAnnounce(b, ts, wrap);
    assert b.log <= c.log;
    assert b.lists == gw.lists;
    FiringTradesVolume(|b.log|);
    TriggersKeep(g => RequestsVolume(|b.log|, g), b, ts, wrap);
    assert RequestsVolume(|b.log|, c);
    if TradesNothing(gw, b) {
      var i :| |gw.log| <= i < |b.log| && b.log[i].volume == 0.0;
      assert c.log[i] == b.log[i];
    }
    if TradesNothing(gw, c) {
      var i :| |gw.log| <= i < |c.log| && c.log[i].volume == 0.0;
      assert i < |b.log| && c.log[i] == b.log[i];
    }
  }

  /** A position manager without a position takes a trade of nothing for a new position. */
  lemma NothingOpensPosition(t: Trade)
    requires t.volume == 0.0
    ensures var pm := Ledger.Receive(Ledger.NO_POSITION, t).pm; pm.position.Some? && Ledger.Volume(pm) == 0.0
  {
  }

  /**
   * No market order touches a stop, one that flattens the position neither: that one announces the end of the
   * TPSL and leaves it set, and of the trailing stop it announces nothing.
   */
  lemma FlatteningLeavesStops(gw: GatewayState, g: Guid, volume: real, side: Side, ts: int)
    ensures var r := PushOrder(gw, g, volume, side, ts);
      && r.gw.tpsl == gw.tpsl && r.gw.trailing == gw.trailing && r.gw.pos == gw.pos + Signed(volume, side)
      && (forall e :: e in r.events && (e.OmTpsl? || e.OmTrailing?) <==>
            gw.tpsl.Some? && r.gw.pos == 0.0 && e == OmTpsl(gw.tpsl.value.guid, false, false, false))
  {
    if gw.tpsl.Some? && gw.pos + Signed(volume, side) == 0.0 {
      assert PushOrder(gw, g, volume, side, ts).events[1] == OmTpsl(gw.tpsl.value.guid, false, false, false);
    }
  }

  /** After an order that flattens the position: the price beyond a TPSL limit or below a trailing stop, exactly. */
  lemma FlattenedTradesNothingExactly(gw: GatewayState, g: Guid, volume: real, side: Side, ts: int, later: int,
      price: real)
    requires gw.pos + Signed(volume, side) == 0.0
    ensures var flat := PushOrder(gw, g, volume, side, ts).gw;
      TradesNothing(flat, StopsOn(flat, later, price)) <==>
        || (gw.tpsl.Some? && (price >= gw.tpsl.value.takeProfit || price <= gw.tpsl.value.stopLoss))
        || TrailingTradesFlat(gw, price)
  {
    var flat := PushOrder(gw, g, volume, side, ts).gw;
    FlatteningLeavesStops(gw, g, volume, side, ts);
    StopsTradeNothingExactly(flat, later, price);
  }

  // ----- runs that get there -----

  /** Buys, sets both stops at 10, and sells again. */
  const FLATTENING: seq<Call> :=
    [NewPrice(1, 10.0), OrderCall(1, 1.0, Buy, 1), TpslCall(Tpsl(2, 20.0, 5.0)), TrailingCall(3, 1.0, Sell),
     OrderCall(4, 1.0, Sell, 2)]

  lemma OneMoreCall(calls: seq<Call>, c: Call, wrap: bool)
    ensures ApplyAll(calls + [c], wrap).gw == Apply(ApplyAll(calls, wrap).gw, c, wrap).gw
  {
    assert (calls + [c])[..|calls|] == calls;
  }

  lemma EmptyLists(gw: GatewayState, ts: int, price: real, wrap: bool)
    requires gw.lists == Both([], [])
    ensures OnNewPrice(gw, ts, price, wrap).gw == StopsOn(gw, ts, price)
  {
    assert StopsOn(gw, ts, price).lists == Both([], []);
  }

  /** The position is open and both stops are set. */
  lemma StopsAreSet(wrap: bool)
    ensures var gw := ApplyAll(FLATTENING[..4], wrap).gw;
      && gw.pos == 1.0 && gw.tpsl == Some(Tpsl(2, 20.0, 5.0)) && gw.trailing == Some(Trailing(3, 1.0, Sell, 9.0))
      && gw.lists == Both([], [])
  {
    var c := FLATTENING;
    EmptyLists(FLAT, 1, 10.0, wrap);
    OneMoreCall([], c[0], wrap);
    OneMoreCall([c[0]], c[1], wrap);
    OneMoreCall([c[0], c[1]], c[2], wrap);
    OneMoreCall([c[0], c[1], c[2]], c[3], wrap);
    assert [] + [c[0]] == [c[0]] && [c[0]] + [c[1]] == [c[0], c[1]] && [c[0], c[1]] + [c[2]] == [c[0], c[1], c[2]];
    assert [c[0], c[1], c[2]] + [c[3]] == c[..4];
  }

  lemma FlatteningIsFlat(wrap: bool)
    ensures var gw := ApplyAll(FLATTENING, wrap).gw;
      && gw.pos == 0.0 && gw.tpsl == Some(Tpsl(2, 20.0, 5.0)) && gw.trailing == Some(Trailing(3, 1.0, Sell, 9.0))
      && gw.lists == Both([], [])
  {
    StopsAreSet(wrap);
    OneMoreCall(FLATTENING[..4], FLATTENING[4], wrap);
    assert FLATTENING[..4] + [FLATTENING[4]] == FLATTENING;
  }

  /** From a new gateway: inside the limits of the TPSL the trailing stop trades nothing, and beyond them the TPSL. */
  lemma FlattenedRunTradesNothing(wrap: bool)
    ensures var gw := ApplyAll(FLATTENING, wrap).gw;
      && TradesNothing(gw, ApplyAll(FLATTENING + [NewPrice(3, 8.0)], wrap).gw)
      && TradesNothing(gw, ApplyAll(FLATTENING + [NewPrice(3, 21.0)], wrap).gw)
  {
    var gw := ApplyAll(FLATTENING, wrap).gw;
    FlatteningIsFlat(wrap);
    OneMoreCall(FLATTENING, NewPrice(3, 8.0), wrap);
    OneMoreCall(FLATTENING, NewPrice(3, 21.0), wrap);
    PriceTradesNothingExactly(gw, 3, 8.0, wrap);
    PriceTradesNothingExactly(gw, 3, 21.0, wrap);
  }
}
