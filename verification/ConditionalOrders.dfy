/**
 * Conditional orders over a sequence of prices (frontend/crypto/gateway/BacktestTradingGateway.cpp): which price
 * fires an order that has no neighbour, at what price it trades, and in which order orders are listed and fired.
 */
module ConditionalOrders {
  import opened Common
  import opened Events
  import opened Gateway
  import opened GatewayLaws
  import opened TrailingStops
  import opened Subsequences

  /** What `price` is better than `reference` for a position on `side`. */
  function Advantage(side: Side, reference: real, price: real): real {
    Signed(price - reference, side)
  }

  /**
   * The price has reached the request: for the position that it closes a take profit is met at its trigger or
   * better, a stop loss at its trigger or worse.
   */
  predicate Met(k: Kind, r: Request, price: real) {
    var advantage := Advantage(r.side.Opposite(), r.trigger, price);
    if k.Tp? then advantage >= 0.0 else advantage <= 0.0
  }

  /** Only conditional orders are left to act, at most one of each kind. */
  predicate Single(gw: GatewayState) {
    gw.tpsl.None? && gw.trailing.None? && forall k: Kind :: |gw.lists.Get(k)| <= 1
  }

  predicate Meets(gw: GatewayState, k: Kind, price: real) {
    gw.lists.Get(k) != [] && Met(k, gw.lists.Get(k)[0], price)
  }

  /** What the only order of kind `k` trades at `price`: all that it asks for, at its trigger, with the market's fee. */
  function TradesAt(gw: GatewayState, k: Kind, t: Tick): seq<Trade> {
    if Meets(gw, k, t.price) then
      var r := gw.lists.Get(k)[0];
      [Trade(r.guid, t.ts, r.trigger, r.volume, r.side, Fee(r.volume, t.price))]
    else []
  }

  /** The orders that a price leaves. */
  function Leaves(gw: GatewayState, k: Kind, price: real): seq<Request> {
    if Meets(gw, k, price) then [] else gw.lists.Get(k)
  }

  lemma SingleFires(gw: GatewayState, k: Kind, ts: int, wrap: bool)
    requires |gw.lists.Get(k)| <= 1
    ensures var after := Walk(gw, k, 0, ts, wrap).gw;
      var trades := TradesAt(gw, k, Tick(ts, gw.lastPrice));
      && after == gw.(pos := gw.pos + SumSigned(trades), lists := gw.lists.Set(k, Leaves(gw, k, gw.lastPrice)),
                      log := gw.log + trades)
  {
    var trades := TradesAt(gw, k, Tick(ts, gw.lastPrice));
    assert gw.log + [] == gw.log;
    if Meets(gw, k, gw.lastPrice) {
      var fired := Fire(gw, k, 0, ts).gw;
      assert Triggers(k, gw.lists.Get(k)[0], gw.lastPrice);
      assert EraseAt(gw.lists.Get(k), 0) == [];
      assert Walk(fired, k, 0, ts, wrap) == Reply(fired, []);
      assert trades == [fired.log[|gw.log|]];
      assert trades[..0] == [] && SumSigned(trades) == SumSigned(trades[..0]) + trades[0].SignedVolume();
    }
  }

  /** One price: the stop loss before the take profit, each if and only if the price has met it. */
  lemma PriceFiresMet(gw: GatewayState, t: Tick, wrap: bool)
    requires Single(gw)
    ensures var after := OnNewPrice(gw, t.ts, t.price, wrap).gw;
      && Single(after)
      && after.log == gw.log + TradesAt(gw, Sl, t) + TradesAt(gw, Tp, t)
      && after.pos == gw.pos + SumSigned(TradesAt(gw, Sl, t)) + SumSigned(TradesAt(gw, Tp, t))
      && after.lists == Both(Leaves(gw, Tp, t.price), Leaves(gw, Sl, t.price))
  {
    var now := gw.(lastPrice := t.price);
    assert OnNewPrice(gw, t.ts, t.price, wrap).gw == TriggerConditionals(now, t.ts, wrap).gw;
    assert |gw.lists.Get(Sl)| <= 1 && |gw.lists.Get(Tp)| <= 1;
    SingleFires(now, Sl, t.ts, wrap);
    var sl := Walk(now, Sl, 0, t.ts, wrap).gw;
    SingleFires(sl, Tp, t.ts, wrap);
    assert TradesAt(sl, Tp, t) == TradesAt(gw, Tp, t) && TradesAt(now, Sl, t) == TradesAt(gw, Sl, t);
  }

  /** The first tick that meets one of the orders, or the number of ticks. */
  function FirstMet(gw: GatewayState, ticks: seq<Tick>): (n: nat)
    ensures n <= |ticks|
    ensures n < |ticks| ==> Meets(gw, Tp, ticks[n].price) || Meets(gw, Sl, ticks[n].price)
    ensures forall i :: 0 <= i < n ==> !Meets(gw, Tp, ticks[i].price) && !Meets(gw, Sl, ticks[i].price)
  {
    if ticks == [] then 0
    else
      var n := |ticks| - 1;
      var before := FirstMet(gw, ticks[..n]);
      if before < n then before
      else if Meets(gw, Tp, ticks[n].price) || Meets(gw, Sl, ticks[n].price) then n
      else |ticks|
  }

  /** Until a price meets them the orders wait. */
  lemma {:induction false} OrdersWait(gw: GatewayState, ticks: seq<Tick>, wrap: bool)
    requires Single(gw) && FirstMet(gw, ticks) == |ticks|
    ensures var after := After(gw, ticks, wrap); after == gw.(lastPrice := after.lastPrice)
  {
    if ticks != [] {
      var n := |ticks| - 1;
      OrdersWait(gw, ticks[..n], wrap);
      PriceFiresMet(After(gw, ticks[..n], wrap), ticks[n], wrap);
      var before := After(gw, ticks[..n], wrap);
      assert before.log + [] + [] == before.log;
      QuietPrice(before, ticks[n], wrap);
    }
  }

  /** A price that meets nothing changes nothing but the last price. */
  lemma QuietPrice(gw: GatewayState, t: Tick, wrap: bool)
    requires Single(gw) && !Meets(gw, Tp, t.price) && !Meets(gw, Sl, t.price)
    ensures OnNewPrice(gw, t.ts, t.price, wrap).gw == gw.(lastPrice := t.price)
  {
    var now := gw.(lastPrice := t.price);
    SingleFires(now, Sl, t.ts, wrap);
    SingleFires(now, Tp, t.ts, wrap);
    assert now.log + [] == now.log;
    assert now.lists.Set(Sl, now.lists.Get(Sl)) == now.lists && now.lists.Set(Tp, now.lists.Get(Tp)) == now.lists;
  }

  /**
   * An order of each kind at most, over every price sequence: nothing happens before the first price that meets
   * one of them, and that price fires those that it meets, whole and at their triggers, and no other.
   */
  lemma OrdersFireWhenMet(gw: GatewayState, ticks: seq<Tick>, wrap: bool)
    requires Single(gw)
    ensures var n := FirstMet(gw, ticks);
      && (forall m :: 0 <= m <= n ==>
            var after := After(gw, ticks[..m], wrap); after == gw.(lastPrice := after.lastPrice))
      && (n < |ticks| ==>
            var after := After(gw, ticks[..n + 1], wrap);
            && after.log == gw.log + TradesAt(gw, Sl, ticks[n]) + TradesAt(gw, Tp, ticks[n])
            && after.pos == gw.pos + SumSigned(TradesAt(gw, Sl, ticks[n])) + SumSigned(TradesAt(gw, Tp, ticks[n]))
            && after.lists == Both(Leaves(gw, Tp, ticks[n].price), Leaves(gw, Sl, ticks[n].price)))
  {
    var n := FirstMet(gw, ticks);
    forall m | 0 <= m <= n
      ensures var after := After(gw, ticks[..m], wrap); after == gw.(lastPrice := after.lastPrice)
    {
      NothingMet(gw, ticks[..m]);
      OrdersWait(gw, ticks[..m], wrap);
    }
    if n < |ticks| {
      var before := After(gw, ticks[..n], wrap);
      PriceFiresMet(before, ticks[n], wrap);
      assert ticks[..n + 1][..n] == ticks[..n];
      assert before.log == gw.log && before.lists == gw.lists;
      assert TradesAt(before, Tp, ticks[n]) == TradesAt(gw, Tp, ticks[n]);
      assert TradesAt(before, Sl, ticks[n]) == TradesAt(gw, Sl, ticks[n]);
    }
  }

  lemma {:induction false} NothingMet(gw: GatewayState, ticks: seq<Tick>)
    requires forall i :: 0 <= i < |ticks| ==> !Meets(gw, Tp, ticks[i].price) && !Meets(gw, Sl, ticks[i].price)
    ensures FirstMet(gw, ticks) == |ticks|
  {
  }

  /** A new order is listed behind the others of its kind, and fires at once if the last price meets it. */
  lemma NewOrderFiresIfMet(gw: GatewayState, k: Kind, r: Request, ts: int, wrap: bool)
    requires Single(gw) && gw.lists.Get(k) == [] && !Meets(gw, k.Other(), gw.lastPrice)
    ensures var after := PushConditional(gw, k, r, ts, wrap).gw;
      var listed := gw.(lists := gw.lists.Set(k, [r]));
      && Single(after)
      && after.log == gw.log + TradesAt(listed, k, Tick(ts, gw.lastPrice))
      && after.lists == gw.lists.Set(k, if Met(k, r, gw.lastPrice) then [] else [r])
  {
    var listed := gw.(lists := gw.lists.Set(k, [r]));
    assert gw.lists.Get(k) + [r] == [r];
    assert |listed.lists.Get(Sl)| <= 1 && |listed.lists.Get(Tp)| <= 1;
    SingleFires(listed, Sl, ts, wrap);
    SingleFires(Walk(listed, Sl, 0, ts, wrap).gw, Tp, ts, wrap);
    assert gw.log + [] == gw.log;
    assert k == Tp || k == Sl;
  }

  // ----- stop losses first -----

  /** Of what a price or a new order fires, the trades of stop losses come first. */
  lemma StopLossesFirst(gw: GatewayState, ts: int, wrap: bool) returns (n: nat)
    requires Distinct(gw.lists.tp) && Distinct(gw.lists.sl)
    ensures var after := TriggerConditionals(gw, ts, wrap).gw;
      && |gw.log| <= n <= |after.log| && gw.log <= after.log
      && (forall i :: |gw.log| <= i < n ==> Allowed(Sl, gw, after.log[i]))
      && (forall i :: n <= i < |after.log| ==> Allowed(Tp, gw, after.log[i]))
  {
    LoopFiresOnlyAllowed(gw, Sl, 0, ts, wrap);
    var sl := Walk(gw, Sl, 0, ts, wrap).gw;
    OtherListStays(gw, Sl, 0, ts, wrap);
    LoopFiresOnlyAllowed(sl, Tp, 0, ts, wrap);
    n := |sl.log|;
  }

  lemma {:induction false} OtherListStays(gw: GatewayState, k: Kind, i: nat, ts: int, wrap: bool)
    requires i <= |gw.lists.Get(k)|
    ensures Walk(gw, k, i, ts, wrap).gw.lists.Get(k.Other()) == gw.lists.Get(k.Other())
    decreases |gw.lists.Get(k)|, |gw.lists.Get(k)| - i
  {
    var l := gw.lists.Get(k);
    if i < |l| && Triggers(k, l[i], gw.lastPrice) {
      var r := Fire(gw, k, i, ts);
      if i + 1 < |l| {
        OtherListStays(r.gw, k, i + 1, ts, wrap);
      } else if wrap {
        OtherListStays(r.gw, k, 0, ts, wrap);
      }
    } else if i < |l| {
      OtherListStays(gw, k, i + 1, ts, wrap);
    }
  }

  // ----- the order of the lists -----

  /** The requests of kind `k`, as they were made. */
  function Requested(k: Kind, calls: seq<Call>): seq<Request> {
    if calls == [] then []
    else
      var before := Requested(k, calls[..|calls| - 1]);
      var c := calls[|calls| - 1];
      if c.ConditionalCall? && c.k == k then before + [c.r] else before
  }

  lemma WithinFiring(k: Kind, all: seq<Request>)
    ensures FiringKeeps((gw: GatewayState) => Within(gw.lists.Get(k), all))
  {
    forall gw: GatewayState, j: Kind, i: nat, ts: int | Within(gw.lists.Get(k), all) && i < |gw.lists.Get(j)|
      ensures Within(Fire(gw, j, i, ts).gw.lists.Get(k), all)
    {
      if j == k {
        WithinErase(gw.lists.Get(k), all, i);
      }
    }
  }

  /** Whatever is called, the orders of a list stand in the order in which they were requested. */
  lemma {:induction false} ListsKeepOrder(calls: seq<Call>, k: Kind, wrap: bool)
    ensures Within(ApplyAll(calls, wrap).gw.lists.Get(k), Requested(k, calls))
  {
    if calls != [] {
      ListsKeepOrder(calls[..|calls| - 1], k, wrap);
      CallKeepsOrder(ApplyAll(calls[..|calls| - 1], wrap).gw, calls[|calls| - 1], k,
                     Requested(k, calls[..|calls| - 1]), wrap);
    }
  }

  lemma CallKeepsOrder(gw: GatewayState, c: Call, k: Kind, all: seq<Request>, wrap: bool)
    requires Within(gw.lists.Get(k), all)
    ensures Within(Apply(gw, c, wrap).gw.lists.Get(k), if c.ConditionalCall? && c.k == k then all + [c.r] else all)
  {
    match c
    case NewPrice(ts, price) =>
      var stopped := TryTrailing(TryTpsl(gw.(lastPrice := price), ts).gw, ts).gw;
      StopsKeepLists(gw.(lastPrice := price), ts);
      StopsKeepLists(TryTpsl(gw.(lastPrice := price), ts).gw, ts);
      TriggersKeepOrder(stopped, k, all, ts, wrap);
    case ConditionalCall(j, r, ts) =>
      var listed := gw.(lists := gw.lists.Set(j, gw.lists.Get(j) + [r]));
      WithinAppend(gw.lists.Get(k), all, r);
      TriggersKeepOrder(listed, k, if j == k then all + [r] else all, ts, wrap);
    case CancelCall(j, g) =>
      var i := IndexOf(gw.lists.Get(j), g);
      if j == k && i < |gw.lists.Get(k)| {
        WithinErase(gw.lists.Get(k), all, i);
      }
    case _ =>
  }

  lemma StopsKeepLists(gw: GatewayState, ts: int)
    ensures TryTpsl(gw, ts).gw.lists == gw.lists && TryTrailing(gw, ts).gw.lists == gw.lists
  {
  }

  lemma TriggersKeepOrder(gw: GatewayState, k: Kind, all: seq<Request>, ts: int, wrap: bool)
    requires Within(gw.lists.Get(k), all)
    ensures Within(TriggerConditionals(gw, ts, wrap).gw.lists.Get(k), all)
  {
    WithinFiring(k, all);
    TriggersKeep((g: GatewayState) => Within(g.lists.Get(k), all), gw, ts, wrap);
  }
}
