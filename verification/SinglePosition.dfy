/**
 * Strategies that enter through `try_send_order` and leave by a trailing stop or a full-position TPSL
 * (frontend/crypto/strategy/StrategyBase.cpp): whatever they decide, an order is sent only when the
 * position is flat and no order is in flight.
 */
module SinglePosition {
  import opened Common
  import opened Lots
  import opened Events
  import opened Gateway
  import opened OrderManager
  import opened GatewayLaws
  import Ledger
  import Candles
  import PositionStops
  import TrailingStops

  /** `flag` is the strategy's copy of the opened-position flag; a run crashes when `std::get` throws. */
  datatype Run = Run(sys: Sys, flag: bool, pm: Ledger.Pm, crashed: bool)

  /** What the code outside the model decides when one of its callbacks runs. */
  datatype Decision =
    | Nothing
    | Enter(side: Side, price: real, ts: int)
    | SetTpsl(takeProfit: real, stopLoss: real)
    | SetTrailing(distance: real, side: Side)

  /**
   * A price, with the numbers of callbacks that enter: those on prices, queued before the gateway's
   * events, and those on the candles that the price completes, queued after them. Or one turn of the loop.
   */
  datatype Input = Price(t: Candles.PublicTrade, onPrice: nat, onCandles: nat) | Turn(d: Decision)

  const START := Run(Sys([], FLAT, NO_ORDERS, 0), false, Ledger.NO_POSITION, false)

  function Signals(n: nat): (r: seq<Event>)
    ensures |r| == n && forall e :: e in r ==> e == OnSignal
  {
    seq(n, i => OnSignal)
  }

  // ----- the handlers -----

  /** `try_send_order`; nobody subscribes to the order. */
  function TrySendOrder(r: Run, step: real, side: Side, price: real, ts: int): Run
    requires step >= 0.0
  {
    if r.sys.om.orders != map[] || r.flag || price <= 0.0 then r
    else
      match SendMarketOrder(r.sys, step, price, Signed(POSITION_AMOUNT / price, side), ts)
      case None => r.(sys := Reported(r.sys), crashed := true)
      case Some(s) => r.(sys := s)
  }

  /** `send_tpsl` and `send_trailing_stop`. */
  function Exit(r: Run, d: Decision): Run {
    match d
    case SetTpsl(takeProfit, stopLoss) =>
      var p := PushTpsl(r.sys.gw, Tpsl(r.sys.next, takeProfit, stopLoss));
      r.(sys := Sys(r.sys.q + p.events, p.gw, r.sys.om.(tpsl := Some(r.sys.next)), r.sys.next + 1))
    case SetTrailing(distance, side) =>
      var p := PushTrailing(r.sys.gw, r.sys.next, distance, side);
      r.(sys := Sys(r.sys.q + p.events, p.gw, r.sys.om.(trailing := Some(r.sys.next)), r.sys.next + 1))
    case _ => r
  }

  function Handle(r: Run, step: real, e: Event, d: Decision): Run
    requires step >= 0.0
  {
    match e
    case OmAck(g) => r.(sys := r.sys.(om := OnAck(r.sys.om, g)))
    case OmTrade(t) => var o := OnTrade(r.sys.om, t); r.(sys := r.sys.(om := o.om, q := r.sys.q + o.events))
    case OmTpsl(_, setUp, triggered, _) => r.(sys := r.sys.(om := OnTpsl(r.sys.om, setUp, triggered)))
    case OmTrailing(stop) => r.(sys := r.sys.(om := OnTrailing(r.sys.om, stop)))
    case SiTrade(t) =>
      var pm := Ledger.Receive(r.pm, t).pm;
      r.(pm := pm, sys := r.sys.(q := r.sys.q + [OpenedFlag(pm.position.Some?), OnExit]))
    case OpenedFlag(isOpen) => r.(flag := isOpen)
    case OnSignal => if d.Enter? then TrySendOrder(r, step, d.side, d.price, d.ts) else r
    case OnExit => Exit(r, d)
    case _ => r
  }

  /** A price waits until the queue is empty; a turn needs an event. */
  function Perform(r: Run, step: real, i: Input): Run
    requires step >= 0.0
  {
    if r.crashed then r
    else
      match i
      case Price(t, onPrice, onCandles) =>
        if r.sys.q != [] then r
        else
          var g := OnNewPrice(r.sys.gw, t.ts, t.price, false);
          r.(sys := r.sys.(gw := g.gw, q := Signals(onPrice) + [OnExit] + g.events + Signals(onCandles)))
      case Turn(d) =>
        if r.sys.q == [] then r else Handle(r.(sys := r.sys.(q := r.sys.q[1..])), step, r.sys.q[0], d)
  }

  function After(step: real, inputs: seq<Input>): Run
    requires step >= 0.0
  {
    if inputs == [] then START else Perform(After(step, inputs[..|inputs| - 1]), step, inputs[|inputs| - 1])
  }

  // ----- the invariant -----

  /**
   * Neither an acknowledgement nor a flag stands before a signal; an order's acknowledgement comes once, before
   * its trade.
   */
  predicate Precedes(a: Event, b: Event) {
    && !((a.OmAck? || a.OpenedFlag?) && b.OnSignal?)
    && !(a.OmTrade? && b.OmAck? && a.t.guid == b.g)
    && !(a.OmAck? && b.OmAck? && a.g == b.g)
  }

  ghost predicate Orderly(q: seq<Event>) {
    forall i, j :: 0 <= i < j < |q| ==> Precedes(q[i], q[j])
  }

  /** The flag that the strategy will have when the queue has drained. */
  function FlagAfter(q: seq<Event>, flag: bool): bool {
    if q == [] then flag
    else if q[|q| - 1].OpenedFlag? then q[|q| - 1].isOpen
    else FlagAfter(q[..|q| - 1], flag)
  }

  /**
   * Every market order waits for its trade, and for its acknowledgement before that; it is acknowledged after the
   * last signal.
   */
  ghost predicate OrderWaits(s: Sys, g: Guid)
    requires g in s.om.orders
  {
    var e := s.om.orders[g];
    && e.subs == [] && !e.traded && g < s.next
    && TradeIn(s.q, g)
    && (if e.acked then OnSignal !in s.q else OmAck(g) in s.q)
  }

  ghost predicate Flat(r: Run) {
    r.sys.gw.pos == 0.0 && r.sys.om.orders == map[] && forall g :: OmAck(g) !in r.sys.q
  }

  /** Orders and the events about them. */
  ghost predicate OrdersOk(s: Sys) {
    && Orderly(s.q)
    && (forall g :: g in s.om.orders ==> OrderWaits(s, g))
    && (forall e :: e in s.q && e.OmTrade? ==> e.t.guid < s.next)
    && (forall e :: e in s.q && e.OmAck? ==> e.g in s.om.orders && !s.om.orders[e.g].acked)
  }

  /** Stops, and the absence of conditional orders. */
  ghost predicate StopsOk(s: Sys) {
    && s.gw.lists == Both([], []) && s.om.conds == Both(map[], map[])
    && (s.gw.tpsl.Some? ==> s.gw.tpsl.value.guid < s.next)
    && (s.gw.trailing.Some? ==> s.gw.trailing.value.guid < s.next)
  }

  /** The position manager when it has heard of the queued trades. */
  function PmAfter(q: seq<Event>, pm: Ledger.Pm): Ledger.Pm {
    if q == [] then pm else PmAfter(q[1..], if q[0].SiTrade? then Ledger.Receive(pm, q[0].t).pm else pm)
  }

  /** The manager holds the gateway's position; one that is no larger than dust it holds as an empty position. */
  predicate Matches(pm: Ledger.Pm, pos: real) {
    match pm.position
    case None => pos == 0.0
    case Some(o) => o.volume == Ledger.Snap(pos)
  }

  ghost predicate VolumesOk(step: real, r: Run) {
    Matches(PmAfter(r.sys.q, r.pm), r.sys.gw.pos) && IsLot(step, r.sys.gw.pos)
  }

  ghost predicate Ok(step: real, r: Run) {
    && OrdersOk(r.sys)
    && StopsOk(r.sys)
    && VolumesOk(step, r)
    && FlagAfter(r.sys.q, r.flag) == r.pm.position.Some?
    && (OnSignal in r.sys.q && !r.flag && r.sys.om.orders == map[] ==> Flat(r))
  }

  // ----- queues -----

  lemma {:induction false} FlagAppend(q: seq<Event>, more: seq<Event>, flag: bool)
    ensures FlagAfter(q + more, flag) == FlagAfter(more, FlagAfter(q, flag))
  {
    if more == [] {
      assert q + more == q;
    } else {
      assert (q + more)[..|q + more| - 1] == q + more[..|more| - 1];
      FlagAppend(q, more[..|more| - 1], flag);
    }
  }

  lemma {:induction false} FlagUnchanged(more: seq<Event>, flag: bool)
    requires forall e :: e in more ==> !e.OpenedFlag?
    ensures FlagAfter(more, flag) == flag
  {
    if more != [] {
      FlagUnchanged(more[..|more| - 1], flag);
    }
  }

  lemma FlagTail(q: seq<Event>, flag: bool)
    requires q != []
    ensures FlagAfter(q, flag) == FlagAfter(q[1..], if q[0].OpenedFlag? then q[0].isOpen else flag)
  {
    assert q == [q[0]] + q[1..];
    FlagAppend([q[0]], q[1..], flag);
    assert [q[0]][..0] == [];
  }

  lemma {:induction false} PmAppend(q: seq<Event>, more: seq<Event>, pm: Ledger.Pm)
    ensures PmAfter(q + more, pm) == PmAfter(more, PmAfter(q, pm))
  {
    if q == [] {
      assert q + more == more;
    } else {
      assert (q + more)[0] == q[0] && (q + more)[1..] == q[1..] + more;
      PmAppend(q[1..], more, if q[0].SiTrade? then Ledger.Receive(pm, q[0].t).pm else pm);
    }
  }

  lemma {:induction false} PmUnchanged(more: seq<Event>, pm: Ledger.Pm)
    requires forall e :: e in more ==> !e.SiTrade?
    ensures PmAfter(more, pm) == pm
  {
    if more != [] {
      PmUnchanged(more[1..], pm);
    }
  }

  /** Among the events of one trade. */
  lemma PmEmit(before: seq<Event>, t: Trade, after: seq<Event>, pm: Ledger.Pm)
    requires forall e :: e in before || e in after ==> !e.SiTrade?
    ensures PmAfter(before + Emit(t) + after, pm) == Ledger.Receive(pm, t).pm
  {
    PmAppend(before + Emit(t), after, pm);
    PmAppend(before, Emit(t), pm);
    PmUnchanged(before, pm);
    PmUnchanged(after, Ledger.Receive(pm, t).pm);
    assert Emit(t)[1..] == [SiTrade(t)];
    assert [SiTrade(t)][1..] == [] && PmAfter([SiTrade(t)], pm) == PmAfter([], Ledger.Receive(pm, t).pm);
  }

  lemma ReceiveClose(pm: Ledger.Pm, pos: real, t: Trade)
    requires Matches(pm, pos) && t.SignedVolume() == -pos
    ensures Matches(Ledger.Receive(pm, t).pm, 0.0)
  {
  }

  lemma ReceiveOpen(pm: Ledger.Pm, t: Trade)
    requires Matches(pm, 0.0)
    ensures Matches(Ledger.Receive(pm, t).pm, t.SignedVolume())
  {
  }

  lemma OrderlyTail(q: seq<Event>)
    requires q != [] && Orderly(q)
    ensures Orderly(q[1..]) && forall e :: e in q[1..] ==> Precedes(q[0], e)
    ensures forall e :: e in q[1..] ==> e in q
    ensures forall e :: e in q && e != q[0] ==> e in q[1..]
  {
  }

  lemma OrderlyAppend(q: seq<Event>, more: seq<Event>)
    requires Orderly(q) && Orderly(more) && forall a, b :: a in q && b in more ==> Precedes(a, b)
    ensures Orderly(q + more)
  {
  }

  lemma TradeStaysIn(q: seq<Event>, more: seq<Event>, g: Guid)
    requires q != [] && TradeIn(q, g) && !(q[0].OmTrade? && q[0].t.guid == g)
    ensures TradeIn(q[1..] + more, g)
  {
    var i :| 0 <= i < |q| && q[i].OmTrade? && q[i].t.guid == g;
    assert (q[1..] + more)[i - 1] == q[i];
  }

  // ----- a turn that only appends events without orders -----

  /** What handlers append besides orders: flags, exits, and news of stops. */
  predicate Harmless(e: Event) {
    e.OpenedFlag? || e.OnExit? || e.OmTpsl? || e.OmTrailing?
  }

  /** The queue's part of the invariant after the head has gone and harmless events have come. */
  lemma HarmlessTurn(step: real, r: Run, r': Run, more: seq<Event>)
    requires Ok(step, r) && r.sys.q != [] && !r.sys.q[0].OmAck? && !r.sys.q[0].OmTrade?
    requires r'.sys.q == r.sys.q[1..] + more && forall e :: e in more ==> Harmless(e)
    requires r'.sys.om.orders == r.sys.om.orders && r.sys.next <= r'.sys.next
    ensures Orderly(r'.sys.q)
    ensures forall g :: g in r'.sys.om.orders ==> OrderWaits(r'.sys, g)
    ensures forall e :: e in r'.sys.q && e.OmTrade? ==> e.t.guid < r'.sys.next
    ensures forall e :: e in r'.sys.q && e.OmAck? ==> e.g in r'.sys.om.orders && !r'.sys.om.orders[e.g].acked
    ensures OnSignal in r'.sys.q ==> OnSignal in r.sys.q
    ensures forall g :: OmAck(g) in r'.sys.q ==> OmAck(g) in r.sys.q
  {
    OrderlyTail(r.sys.q);
    assert forall i :: 0 <= i < |more| ==> more[i] in more;
    OrderlyAppend(r.sys.q[1..], more);
    forall g | g in r'.sys.om.orders ensures OrderWaits(r'.sys, g) {
      assert OrderWaits(r.sys, g);
      TradeStaysIn(r.sys.q, more, g);
    }
  }

  lemma PmAfterTurn(q: seq<Event>, more: seq<Event>, pm: Ledger.Pm)
    requires q != [] && forall e :: e in more ==> !e.SiTrade?
    ensures PmAfter(q[1..] + more, if q[0].SiTrade? then Ledger.Receive(pm, q[0].t).pm else pm) == PmAfter(q, pm)
  {
    var pm' := if q[0].SiTrade? then Ledger.Receive(pm, q[0].t).pm else pm;
    PmAppend(q[1..], more, pm');
    PmUnchanged(more, PmAfter(q[1..], pm'));
  }

  lemma FlagAfterTurn(q: seq<Event>, more: seq<Event>, flag: bool)
    requires q != []
    ensures FlagAfter(q[1..] + more, if q[0].OpenedFlag? then q[0].isOpen else flag)
         == FlagAfter(more, FlagAfter(q, flag))
  {
    FlagTail(q, flag);
    FlagAppend(q[1..], more, if q[0].OpenedFlag? then q[0].isOpen else flag);
  }

  /** An event that neither orders nor positions notice. */
  lemma QuietTurn(step: real, r: Run, r': Run, more: seq<Event>)
    requires Ok(step, r) && r.sys.q != []
    requires !r.sys.q[0].OmAck? && !r.sys.q[0].OmTrade? && !r.sys.q[0].SiTrade? && !r.sys.q[0].OpenedFlag?
    requires r'.sys.q == r.sys.q[1..] + more && forall e :: e in more ==> Harmless(e) && !e.OpenedFlag?
    requires r'.sys.om.orders == r.sys.om.orders && r'.sys.om.conds == r.sys.om.conds && r.sys.next <= r'.sys.next
    requires r'.sys.gw.pos == r.sys.gw.pos && r'.sys.gw.lists == r.sys.gw.lists
    requires r'.sys.gw.tpsl.Some? ==> r'.sys.gw.tpsl.value.guid < r'.sys.next
    requires r'.sys.gw.trailing.Some? ==> r'.sys.gw.trailing.value.guid < r'.sys.next
    requires r'.flag == r.flag && r'.pm == r.pm
    ensures Ok(step, r')
  {
    HarmlessTurn(step, r, r', more);
    PmAfterTurn(r.sys.q, more, r.pm);
    FlagAfterTurn(r.sys.q, more, r.flag);
    FlagUnchanged(more, FlagAfter(r.sys.q, r.flag));
  }

  /** The flag comes in: no signal is left, so nothing needs to be flat. */
  lemma FlagTurn(step: real, r: Run, r': Run)
    requires Ok(step, r) && r.sys.q != [] && r.sys.q[0].OpenedFlag?
    requires r' == r.(flag := r.sys.q[0].isOpen, sys := r.sys.(q := r.sys.q[1..]))
    ensures Ok(step, r')
  {
    assert r.sys.q[1..] + [] == r.sys.q[1..];
    OrderlyTail(r.sys.q);
    HarmlessTurn(step, r, r', []);
    PmAfterTurn(r.sys.q, [], r.pm);
    FlagAfterTurn(r.sys.q, [], r.flag);
    assert FlagAfter([], FlagAfter(r.sys.q, r.flag)) == FlagAfter(r.sys.q, r.flag);
  }

  /** The position manager catches up and announces the flag. */
  lemma TradeReceivedTurn(step: real, r: Run, r': Run)
    requires Ok(step, r) && r.sys.q != [] && r.sys.q[0].SiTrade?
    requires var pm := Ledger.Receive(r.pm, r.sys.q[0].t).pm;
      r' == r.(pm := pm, sys := r.sys.(q := r.sys.q[1..] + [OpenedFlag(pm.position.Some?), OnExit]))
    ensures Ok(step, r')
  {
    var t := r.sys.q[0].t;
    var more := [OpenedFlag(r'.pm.position.Some?), OnExit];
    HarmlessTurn(step, r, r', more);
    PmAfterTurn(r.sys.q, more, r.pm);
    FlagAfterTurn(r.sys.q, more, r.flag);
    assert more[..1][..0] == [] && FlagAfter(more, FlagAfter(r.sys.q, r.flag)) == r'.pm.position.Some?;
  }

  // ----- acknowledgement and trade -----

  lemma AckTurn(step: real, r: Run, r': Run)
    requires Ok(step, r) && r.sys.q != [] && r.sys.q[0].OmAck?
    requires r' == r.(sys := r.sys.(q := r.sys.q[1..], om := OnAck(r.sys.om, r.sys.q[0].g)))
    ensures Ok(step, r')
  {
    var q := r.sys.q;
    var g := q[0].g;
    OrderlyTail(q);
    assert OrderWaits(r.sys, g);
    assert q[1..] + [] == q[1..];
    forall h | h in r'.sys.om.orders ensures OrderWaits(r'.sys, h) {
      assert OrderWaits(r.sys, h);
      TradeStaysIn(q, [], h);
    }
    PmAfterTurn(q, [], r.pm);
    FlagAfterTurn(q, [], r.flag);
    assert FlagAfter([], FlagAfter(q, r.flag)) == FlagAfter(q, r.flag);
  }

  /** The trade of an order removes it; the trade of a stop finds no order. */
  lemma TradedOrders(step: real, r: Run, t: Trade)
    requires Ok(step, r) && r.sys.q != [] && r.sys.q[0] == OmTrade(t)
    ensures var o := OnTrade(r.sys.om, t);
      && o.events == [] && o.om.orders == r.sys.om.orders - {t.guid} && o.om.conds == r.sys.om.conds
      && (t.guid in r.sys.om.orders ==> OnSignal !in r.sys.q)
  {
    OrderlyTail(r.sys.q);
    if t.guid in r.sys.om.orders {
      assert OrderWaits(r.sys, t.guid);
      assert OmAck(t.guid) !in r.sys.q[1..];
    } else {
      assert r.sys.om.orders - {t.guid} == r.sys.om.orders;
    }
  }

  lemma TradeTurn(step: real, r: Run, r': Run, t: Trade)
    requires Ok(step, r) && r.sys.q != [] && r.sys.q[0] == OmTrade(t)
    requires r' == r.(sys := r.sys.(q := r.sys.q[1..] + [], om := OnTrade(r.sys.om, t).om))
    ensures Ok(step, r')
  {
    var q := r.sys.q;
    TradedOrders(step, r, t);
    OrderlyTail(q);
    assert q[1..] + [] == q[1..];
    forall h | h in r'.sys.om.orders ensures OrderWaits(r'.sys, h) {
      assert OrderWaits(r.sys, h);
      TradeStaysIn(q, [], h);
    }
    forall e | e in r'.sys.q && e.OmAck? ensures e.g in r'.sys.om.orders && !r'.sys.om.orders[e.g].acked {
      assert Precedes(q[0], e);
    }
    PmAfterTurn(q, [], r.pm);
    FlagAfterTurn(q, [], r.flag);
    assert FlagAfter([], FlagAfter(q, r.flag)) == FlagAfter(q, r.flag);
  }

  // ----- an order -----

  /** What sending the order does to the run. */
  function Sent(r: Run, o: MarketOrder, events: seq<Event>, gw: GatewayState): Run {
    var g := r.sys.next;
    var om := r.sys.om.(orders := r.sys.om.orders[g := OrderEntry(o, false, false, [])]);
    r.(sys := Sys(r.sys.q + events, gw, om, g + 1))
  }

  /** The events of an order: its acknowledgement, perhaps news of a stop, its trade. */
  ghost predicate OrderEvents(g: Guid, t: Trade, events: seq<Event>) {
    && t.guid == g
    && (events == [OmAck(g)] + [] + Emit(t) || exists e: Event :: e.OmTpsl? && events == [OmAck(g)] + [e] + Emit(t))
  }

  lemma OrderEventsArranged(q: seq<Event>, g: Guid, t: Trade, events: seq<Event>)
    requires Orderly(q) && OrderEvents(g, t, events)
    requires forall e :: e in q && e.OmTrade? ==> e.t.guid != g
    requires forall e :: e in q && e.OmAck? ==> e.g != g
    ensures Orderly(q + events)
    ensures forall pm :: PmAfter(q + events, pm) == Ledger.Receive(PmAfter(q, pm), t).pm
    ensures FlagAfter(events, FlagAfter(q, true)) == FlagAfter(q, true)
    ensures FlagAfter(events, FlagAfter(q, false)) == FlagAfter(q, false)
  {
    OrderlyAppend(q, events);
    FlagUnchanged(events, FlagAfter(q, true));
    FlagUnchanged(events, FlagAfter(q, false));
    forall pm ensures PmAfter(q + events, pm) == Ledger.Receive(PmAfter(q, pm), t).pm {
      PmAppend(q, events, pm);
      PmOfOrder(g, t, events, PmAfter(q, pm));
    }
  }

  lemma PmOfOrder(g: Guid, t: Trade, events: seq<Event>, pm: Ledger.Pm)
    requires OrderEvents(g, t, events)
    ensures PmAfter(events, pm) == Ledger.Receive(pm, t).pm
  {
    if events == [OmAck(g)] + [] + Emit(t) {
      PmEmit([OmAck(g)], t, [], pm);
      assert [OmAck(g)] + Emit(t) + [] == events;
    } else {
      var e: Event :| e.OmTpsl? && events == [OmAck(g)] + [e] + Emit(t);
      PmEmit([OmAck(g)] + [e], t, [], pm);
      assert [OmAck(g)] + [e] + Emit(t) + [] == events;
    }
  }

  lemma OrderEventsMembers(g: Guid, t: Trade, events: seq<Event>)
    requires OrderEvents(g, t, events)
    ensures forall e :: e in events ==> e == OmAck(g) || e.OmTpsl? || e == OmTrade(t) || e == SiTrade(t)
    ensures OmAck(g) in events && OmTrade(t) in events
  {
  }

  lemma SentOrders(s: Sys, s': Sys, o: MarketOrder, t: Trade, events: seq<Event>)
    requires OrdersOk(s) && s.om.orders == map[] && t.guid == s.next && s'.q == s.q + events && Orderly(s'.q)
    requires forall e :: e in events ==> e == OmAck(s.next) || e.OmTpsl? || e == OmTrade(t) || e == SiTrade(t)
    requires OmAck(s.next) in events && OmTrade(t) in events
    requires s'.om.orders == map[s.next := OrderEntry(o, false, false, [])] && s'.next == s.next + 1
    ensures OrdersOk(s')
  {
    var i :| 0 <= i < |events| && events[i] == OmTrade(t);
    assert s'.q[|s.q| + i] == OmTrade(t);
    assert OrderWaits(s', s.next);
  }

  lemma SentIsOk(step: real, r: Run, o: MarketOrder, t: Trade, events: seq<Event>, gw: GatewayState)
    requires Ok(step, r) && OrderEvents(r.sys.next, t, events) && r.sys.om.orders == map[]
    requires gw == r.sys.gw.(pos := t.SignedVolume(), log := gw.log) && IsLot(step, t.SignedVolume())
    requires r.sys.gw.pos == 0.0
    ensures Ok(step, Sent(r, o, events, gw))
  {
    var r' := Sent(r, o, events, gw);
    OrderEventsArranged(r.sys.q, r.sys.next, t, events);
    OrderEventsMembers(r.sys.next, t, events);
    SentOrders(r.sys, r'.sys, o, t, events);
    ReceiveOpen(PmAfter(r.sys.q, r.pm), t);
    FlagAppend(r.sys.q, events, r.flag);
    FlagUnchanged(events, FlagAfter(r.sys.q, r.flag));
  }

  /** `send_market_order` on an empty map sends one order of whole lots. */
  lemma SendForm(step: real, r: Run, price: real, volume: real, ts: int)
    returns (o: MarketOrder, t: Trade, events: seq<Event>, gw: GatewayState)
    requires step > 0.0 && SendMarketOrder(r.sys, step, price, volume, ts).Some?
    ensures r.(sys := SendMarketOrder(r.sys, step, price, volume, ts).value) == Sent(r, o, events, gw)
    ensures OrderEvents(r.sys.next, t, events) && IsLot(step, t.SignedVolume())
    ensures gw == r.sys.gw.(pos := r.sys.gw.pos + t.SignedVolume(), log := gw.log)
  {
    AdjustedVolumeIsStable(step, volume);
    var v := AdjustedVolume(step, volume).value;
    o := MarketOrder(SideOf(v), Abs(v), 0.0, price, ts);
    var p := PushOrder(r.sys.gw, r.sys.next, o.target, o.side, ts);
    gw, events := p.gw, p.events;
    t := gw.log[|r.sys.gw.log|];
    assert t.SignedVolume() == v;
  }

  /** Whatever a signal decides keeps the invariant. */
  lemma EnterKeepsOk(step: real, r: Run, side: Side, price: real, ts: int)
    requires step > 0.0 && Ok(step, r) && (r.sys.om.orders == map[] && !r.flag ==> r.sys.gw.pos == 0.0)
    ensures Ok(step, TrySendOrder(r, step, side, price, ts))
  {
    if r.sys.om.orders == map[] && !r.flag && price > 0.0 {
      var volume := Signed(POSITION_AMOUNT / price, side);
      if SendMarketOrder(r.sys, step, price, volume, ts).Some? {
        var o, t, events, gw := SendForm(step, r, price, volume, ts);
        SentIsOk(step, r, o, t, events, gw);
      } else {
        CrashIsOk(step, r);
      }
    }
  }

  lemma SignalTurn(step: real, r: Run, d: Decision)
    requires step > 0.0 && Ok(step, r) && r.sys.q != [] && r.sys.q[0] == OnSignal
    ensures Ok(step, Handle(r.(sys := r.sys.(q := r.sys.q[1..])), step, OnSignal, d))
  {
    var u := r.(sys := r.sys.(q := r.sys.q[1..]));
    assert r.sys.q[1..] + [] == r.sys.q[1..];
    QuietTurn(step, r, u, []);
    if d.Enter? {
      EnterKeepsOk(step, u, d.side, d.price, d.ts);
    }
  }

  lemma CrashIsOk(step: real, r: Run)
    requires Ok(step, r)
    ensures Ok(step, r.(sys := Reported(r.sys), crashed := true))
  {
  }

  lemma ExitTurn(step: real, r: Run, d: Decision)
    requires step > 0.0 && Ok(step, r) && r.sys.q != [] && r.sys.q[0] == OnExit
    ensures Ok(step, Handle(r.(sys := r.sys.(q := r.sys.q[1..])), step, OnExit, d))
  {
    var u := r.(sys := r.sys.(q := r.sys.q[1..]));
    var r' := Exit(u, d);
    match d
    case SetTpsl(tp, sl) => QuietTurn(step, r, r', PushTpsl(u.sys.gw, Tpsl(u.sys.next, tp, sl)).events);
    case SetTrailing(distance, side) =>
      QuietTurn(step, r, r', PushTrailing(u.sys.gw, u.sys.next, distance, side).events);
    case _ =>
      assert r.sys.q[1..] + [] == r.sys.q[1..];
      QuietTurn(step, r, r', []);
  }

  lemma TurnKeepsOk(step: real, r: Run, d: Decision)
    requires step > 0.0 && Ok(step, r) && r.sys.q != []
    ensures Ok(step, Handle(r.(sys := r.sys.(q := r.sys.q[1..])), step, r.sys.q[0], d))
  {
    var e := r.sys.q[0];
    var r' := Handle(r.(sys := r.sys.(q := r.sys.q[1..])), step, e, d);
    assert r.sys.q[1..] + [] == r.sys.q[1..];
    match e
    case OmAck(g) => AckTurn(step, r, r');
    case OmTrade(t) =>
      TradedOrders(step, r, t);
      TradeTurn(step, r, r', t);
    case SiTrade(t) => TradeReceivedTurn(step, r, r');
    case OpenedFlag(_) => FlagTurn(step, r, r');
    case OnSignal => SignalTurn(step, r, d);
    case OnExit => ExitTurn(step, r, d);
    case _ => QuietTurn(step, r, r', []);
  }

  // ----- a price -----

  /** With an empty queue the flag is right and no order is in flight. */
  lemma Quiescent(step: real, r: Run)
    requires Ok(step, r) && r.sys.q == []
    ensures r.sys.om.orders == map[] && r.flag == r.pm.position.Some? && Matches(r.pm, r.sys.gw.pos)
    ensures !r.flag ==> r.sys.gw.pos == 0.0
  {
    assert FlagAfter([], r.flag) == r.flag;
    assert forall g :: g in r.sys.om.orders ==> TradeIn(r.sys.q, g);
    assert r.sys.om.orders.Keys == {};
  }

  /** What the gateway pushes on a price: trades of stops and news of stops. */
  ghost predicate StopEvent(e: Event, next: Guid) {
    || (e.OmTrade? && e.t.guid < next)
    || e.SiTrade? || e.OmTpsl? || e.OmTrailing?
  }

  lemma StopsPush(gw: GatewayState, ts: int, next: Guid)
    requires gw.tpsl.Some? ==> gw.tpsl.value.guid < next
    requires gw.trailing.Some? ==> gw.trailing.value.guid < next
    ensures forall e :: e in TryTpsl(gw, ts).events || e in TryTrailing(gw, ts).events ==> StopEvent(e, next)
    ensures TryTpsl(gw, ts).gw.trailing == gw.trailing && TryTpsl(gw, ts).gw.lists == gw.lists
    ensures TryTrailing(gw, ts).gw.tpsl == gw.tpsl && TryTrailing(gw, ts).gw.lists == gw.lists
    ensures TryTpsl(gw, ts).gw.tpsl.Some? ==> TryTpsl(gw, ts).gw.tpsl == gw.tpsl
    ensures TryTrailing(gw, ts).gw.trailing.Some? ==> TryTrailing(gw, ts).gw.trailing.value.guid < next
    ensures TryTpsl(gw, ts).gw.pos == gw.pos || TryTpsl(gw, ts).gw.pos == 0.0
    ensures TryTrailing(gw, ts).gw.pos == gw.pos || TryTrailing(gw, ts).gw.pos == 0.0
  {
  }

  /** The manager will hear of what the stops trade away. */
  lemma StopsBalance(gw: GatewayState, ts: int, step: real, pm: Ledger.Pm)
    requires IsLot(step, gw.pos) && Matches(pm, gw.pos)
    ensures Matches(PmAfter(TryTpsl(gw, ts).events, pm), TryTpsl(gw, ts).gw.pos)
    ensures Matches(PmAfter(TryTrailing(gw, ts).events, pm), TryTrailing(gw, ts).gw.pos)
    ensures IsLot(step, TryTpsl(gw, ts).gw.pos) && IsLot(step, TryTrailing(gw, ts).gw.pos)
  {
    LotsAdd(step, gw.pos, gw.pos);
    TpslBalances(gw, ts, pm);
    TrailingBalances(gw, ts, pm);
  }

  lemma TpslBalances(gw: GatewayState, ts: int, pm: Ledger.Pm)
    requires Matches(pm, gw.pos)
    ensures Matches(PmAfter(TryTpsl(gw, ts).events, pm), TryTpsl(gw, ts).gw.pos)
  {
    if gw.tpsl.Some? && TpslPrice(gw.pos, gw.tpsl.value, gw.lastPrice).Some? {
      var tpsl := gw.tpsl.value;
      var t := ClosingTrade(gw, tpsl.guid, ts, TpslPrice(gw.pos, tpsl, gw.lastPrice).value);
      PmEmit([OmTpsl(tpsl.guid, false, true, false)], t, [], pm);
      assert TryTpsl(gw, ts).events == [OmTpsl(tpsl.guid, false, true, false)] + Emit(t) + [];
      ReceiveClose(pm, gw.pos, t);
    }
  }

  lemma TrailingBalances(gw: GatewayState, ts: int, pm: Ledger.Pm)
    requires Matches(pm, gw.pos)
    ensures Matches(PmAfter(TryTrailing(gw, ts).events, pm), TryTrailing(gw, ts).gw.pos)
  {
    if gw.trailing.Some? {
      var tr := gw.trailing.value;
      match NewStop(tr.distance, tr.side, gw.lastPrice, tr.stop)
      case Some(stop) => PmUnchanged(TryTrailing(gw, ts).events, pm);
      case None =>
        var t := ClosingTrade(gw, tr.guid, ts, tr.stop);
        PmEmit([], t, [OmTrailing(None)], pm);
        assert [] + Emit(t) + [OmTrailing(None)] == Emit(t) + [OmTrailing(None)];
        ReceiveClose(pm, gw.pos, t);
    }
  }

  /** The gateway's answer to a price, when no conditional order rests. */
  lemma PriceForm(gw: GatewayState, ts: int, price: real)
    requires gw.lists == Both([], [])
    ensures var a := TryTpsl(gw.(lastPrice := price), ts);
      var b := TryTrailing(a.gw, ts);
      OnNewPrice(gw, ts, price, false) == Reply(b.gw, a.events + b.events)
  {
    var a := TryTpsl(gw.(lastPrice := price), ts);
    var b := TryTrailing(a.gw, ts);
    assert b.gw.lists == Both([], []);
    assert a.events + b.events + [] == a.events + b.events;
  }

  lemma PriceEvents(step: real, r: Run, t: Candles.PublicTrade)
    requires Ok(step, r) && r.sys.q == []
    ensures var g := OnNewPrice(r.sys.gw, t.ts, t.price, false);
      && (forall e :: e in g.events ==> StopEvent(e, r.sys.next))
      && Matches(PmAfter(g.events, r.pm), g.gw.pos)
      && IsLot(step, g.gw.pos) && (r.sys.gw.pos == 0.0 ==> g.gw.pos == 0.0)
      && g.gw.lists == r.sys.gw.lists
      && (g.gw.tpsl.Some? ==> g.gw.tpsl.value.guid < r.sys.next)
      && (g.gw.trailing.Some? ==> g.gw.trailing.value.guid < r.sys.next)
  {
    var gw := r.sys.gw.(lastPrice := t.price);
    var a := TryTpsl(gw, t.ts);
    PriceForm(r.sys.gw, t.ts, t.price);
    StopsPush(gw, t.ts, r.sys.next);
    StopsPush(a.gw, t.ts, r.sys.next);
    StopsBalance(gw, t.ts, step, r.pm);
    StopsBalance(a.gw, t.ts, step, PmAfter(a.events, r.pm));
    PmAppend(a.events, TryTrailing(a.gw, t.ts).events, r.pm);
  }

  lemma PriceKeepsOk(step: real, r: Run, t: Candles.PublicTrade, onPrice: nat, onCandles: nat)
    requires step > 0.0 && Ok(step, r) && r.sys.q == [] && !r.crashed
    ensures Ok(step, Perform(r, step, Price(t, onPrice, onCandles)))
  {
    var r' := Perform(r, step, Price(t, onPrice, onCandles));
    var g := OnNewPrice(r.sys.gw, t.ts, t.price, false);
    Quiescent(step, r);
    PriceEvents(step, r, t);
    PriceQueue(g.events, r.sys.next, onPrice, onCandles, r.pm);
    FlagUnchanged(r'.sys.q, r.flag);
    PriceOrders(r.sys, r'.sys);
  }

  lemma PriceOrders(s: Sys, s': Sys)
    requires s.om.orders == map[] && s'.om == s.om && s'.next == s.next && Orderly(s'.q)
    requires forall e :: e in s'.q ==> StopEvent(e, s.next) || e == OnExit || e == OnSignal
    ensures OrdersOk(s')
    ensures forall g :: OmAck(g) !in s'.q
  {
  }

  lemma PriceQueue(events: seq<Event>, next: Guid, onPrice: nat, onCandles: nat, pm: Ledger.Pm)
    requires forall e :: e in events ==> StopEvent(e, next)
    ensures var q := Signals(onPrice) + [OnExit] + events + Signals(onCandles);
      && Orderly(q)
      && (forall e :: e in q ==> StopEvent(e, next) || e == OnExit || e == OnSignal)
      && PmAfter(q, pm) == PmAfter(events, pm)
  {
    var q := Signals(onPrice) + [OnExit] + events + Signals(onCandles);
    forall i | 0 <= i < |q| ensures StopEvent(q[i], next) || q[i] == OnExit || q[i] == OnSignal {
      assert q[i] in Signals(onPrice) || q[i] == OnExit || q[i] in events || q[i] in Signals(onCandles);
    }
    PmAppend(Signals(onPrice) + [OnExit] + events, Signals(onCandles), pm);
    PmAppend(Signals(onPrice) + [OnExit], events, pm);
    PmUnchanged(Signals(onPrice) + [OnExit], pm);
    PmUnchanged(Signals(onCandles), PmAfter(events, pm));
  }

  // ----- all runs -----

  lemma {:induction false} AlwaysOk(step: real, inputs: seq<Input>)
    requires step > 0.0
    ensures Ok(step, After(step, inputs))
  {
    if inputs != [] {
      AlwaysOk(step, inputs[..|inputs| - 1]);
      var r := After(step, inputs[..|inputs| - 1]);
      match inputs[|inputs| - 1]
      case Price(t, onPrice, onCandles) =>
        if !r.crashed && r.sys.q == [] {
          PriceKeepsOk(step, r, t, onPrice, onCandles);
        }
      case Turn(d) =>
        if !r.crashed && r.sys.q != [] {
          TurnKeepsOk(step, r, d);
        }
    } else {
      assert 0.0 == LotsOf(0, step);
    }
  }

  /**
   * Single position: after any prices and whatever the strategies have decided, a decision that sends
   * an order does so only when the gateway holds no position and no order is in flight.
   */
  lemma OrdersAreSentFlat(step: real, inputs: seq<Input>, d: Decision)
    requires step > 0.0
    requires var r := After(step, inputs); Perform(r, step, Turn(d)).sys.om.orders.Keys > r.sys.om.orders.Keys
    ensures var r := After(step, inputs);
      && r.sys.q != [] && r.sys.q[0] == OnSignal
      && r.sys.gw.pos == 0.0 && r.sys.om.orders == map[] && (forall g :: OmAck(g) !in r.sys.q)
  {
    AlwaysOk(step, inputs);
    var r := After(step, inputs);
    if r.sys.q != [] && !r.crashed {
      OnlySignalsSend(step, r, d);
      assert OnSignal in r.sys.q;
    }
  }

  lemma OnlySignalsSend(step: real, r: Run, d: Decision)
    requires step > 0.0 && Ok(step, r) && r.sys.q != [] && !r.crashed
    requires Perform(r, step, Turn(d)).sys.om.orders.Keys > r.sys.om.orders.Keys
    ensures r.sys.q[0] == OnSignal && !r.flag && r.sys.om.orders == map[]
  {
    match r.sys.q[0]
    case OmTrade(t) => TradedOrders(step, r, t);
    case _ =>
  }

  // ----- which order is sent -----

  /** The guards of `try_send_order`, on the turn of a signal. */
  predicate Allowed(r: Run, d: Decision) {
    && !r.crashed && r.sys.q != [] && r.sys.q[0] == OnSignal
    && d.Enter? && r.sys.om.orders == map[] && !r.flag && d.price > 0.0
  }

  /** One order on `side` has been sent, and filled at the last price: about the amount, in whole lots. */
  ghost predicate Sends(step: real, r: Run, r': Run, side: Side, price: real, ts: int)
    requires price > 0.0
  {
    && |r'.sys.gw.log| == |r.sys.gw.log| + 1 && r.sys.gw.log <= r'.sys.gw.log
    && r'.sys.om.orders.Keys == {r.sys.next}
    && var t := r'.sys.gw.log[|r.sys.gw.log|];
       && t.guid == r.sys.next && t.side == side && t.price == r.sys.gw.lastPrice && t.ts == ts
       && t.volume > 0.0 && IsLot(step, t.volume) && 2.0 * Abs(t.volume - POSITION_AMOUNT / price) <= step
       && r'.sys.gw.pos == t.SignedVolume()
  }

  /** Neither a trade nor a new order. */
  ghost predicate SendsNothing(r: Run, r': Run) {
    && r'.sys.gw.log == r.sys.gw.log && r'.sys.gw.pos == r.sys.gw.pos
    && r'.sys.om.orders.Keys <= r.sys.om.orders.Keys
  }

  /**
   * In every run, a turn sends an order exactly when it is that of a signal to enter, the guards allow it and
   * the amount is worth half a lot; it then takes the position from flat to the order's volume, on the side of
   * the signal. Every other turn sends nothing; the run crashes exactly if only the amount is too small.
   */
  lemma SignalsSendExactly(step: real, inputs: seq<Input>, d: Decision)
    requires step > 0.0
    ensures var r := After(step, inputs);
      var r' := Perform(r, step, Turn(d));
      && (if Allowed(r, d) && BuysLot(step, d.price) then
            r.sys.gw.pos == 0.0 && Sends(step, r, r', d.side, d.price, d.ts)
          else SendsNothing(r, r'))
      && (r'.crashed <==> r.crashed || (Allowed(r, d) && !BuysLot(step, d.price)))
  {
    AlwaysOk(step, inputs);
    var r := After(step, inputs);
    if Allowed(r, d) {
      assert OnSignal in r.sys.q;
      SignalSends(step, r, d);
    } else if !r.crashed && r.sys.q != [] {
      OtherTurnSendsNothing(step, r, d);
    }
  }

  lemma SignalSends(step: real, r: Run, d: Decision)
    requires step > 0.0 && Allowed(r, d) && r.sys.gw.pos == 0.0
    ensures var r' := Perform(r, step, Turn(d));
      && (if BuysLot(step, d.price) then Sends(step, r, r', d.side, d.price, d.ts) else SendsNothing(r, r'))
      && (r'.crashed <==> !BuysLot(step, d.price))
  {
    var u := r.(sys := r.sys.(q := r.sys.q[1..]));
    var volume := Signed(POSITION_AMOUNT / d.price, d.side);
    AmountIsPositive(d.price);
    AdjustedVolumeIsStable(step, volume);
    RoundToLotIsNearestAndIdempotent(step, volume);
    if AdjustedVolume(step, volume).Some? {
      var v := AdjustedVolume(step, volume).value;
      SignedLot(step, v, Sell);
      var r' := Perform(r, step, Turn(d));
      var t := r'.sys.gw.log[|r.sys.gw.log|];
      assert t.side == SideOf(v) && t.volume == Abs(v);
    }
  }

  lemma OtherTurnSendsNothing(step: real, r: Run, d: Decision)
    requires step > 0.0 && Ok(step, r) && !Allowed(r, d) && r.sys.q != [] && !r.crashed
    ensures SendsNothing(r, Perform(r, step, Turn(d))) && !Perform(r, step, Turn(d)).crashed
  {
    var u := r.(sys := r.sys.(q := r.sys.q[1..]));
    if r.sys.q[0].OmTrade? {
      TradedOrders(step, r, r.sys.q[0].t);
    }
    HandlerSendsNothing(u, step, r.sys.q[0], d);
  }

  lemma HandlerSendsNothing(r: Run, step: real, e: Event, d: Decision)
    requires step > 0.0 && !r.crashed
    requires e == OnSignal && d.Enter? ==> r.sys.om.orders != map[] || r.flag || d.price <= 0.0
    requires e.OmTrade? ==> OnTrade(r.sys.om, e.t).om.orders == r.sys.om.orders - {e.t.guid}
    ensures SendsNothing(r, Handle(r, step, e, d)) && !Handle(r, step, e, d).crashed
  {
    match e
    case OnExit => ExitSendsNothing(r, d);
    case _ =>
  }

  lemma ExitSendsNothing(r: Run, d: Decision)
    ensures SendsNothing(r, Exit(r, d)) && Exit(r, d).crashed == r.crashed
  {
  }

  // ----- which stop is set -----

  /**
   * In every run, a decision to leave by a TPSL: if there is a position that nothing else protects, it is closed at
   * the decided limits, by the first price that reaches one, and the manager knows the stop until then.
   */
  lemma ExitClosesAtLimit(step: real, inputs: seq<Input>, takeProfit: real, stopLoss: real,
      ticks: seq<TrailingStops.Tick>, wrap: bool)
    requires step > 0.0
    requires var gw := After(step, inputs).sys.gw; gw.trailing.None? && gw.pos != 0.0
    ensures var r := After(step, inputs);
      var tpsl := Tpsl(r.sys.next, takeProfit, stopLoss);
      var s := Exit(r, SetTpsl(takeProfit, stopLoss)).sys;
      var n := PositionStops.FirstReach(SideOf(r.sys.gw.pos), tpsl, ticks);
      var gw' := TrailingStops.After(s.gw, ticks, wrap);
      && PositionStops.Shared(s.gw, s.om) && s.next > r.sys.next
      && PositionStops.HearTicks(s.gw, s.om, ticks, wrap).errors == r.sys.om.errors
      && (n == |ticks| ==> gw'.tpsl == Some(tpsl) && gw'.pos == r.sys.gw.pos && gw'.log == r.sys.gw.log)
      && (n < |ticks| ==> PositionStops.ClosedAtLimit(r.sys.gw, gw', tpsl, ticks[n]))
  {
    AlwaysOk(step, inputs);
    var r := After(step, inputs);
    var tpsl := Tpsl(r.sys.next, takeProfit, stopLoss);
    var s := Exit(r, SetTpsl(takeProfit, stopLoss)).sys;
    PositionStops.RequestedTpslClosesAtLimit(r.sys.gw, tpsl, ticks, wrap);
    PositionStops.StopsStayShared(s.gw, s.om, ticks, wrap);
  }

  /** In every run, a decision to leave by a trailing stop: it follows the best price from then on, at that distance. */
  lemma ExitFollowsBest(step: real, inputs: seq<Input>, distance: real, ticks: seq<TrailingStops.Tick>, wrap: bool)
    requires step > 0.0 && distance >= 0.0
    requires var gw := After(step, inputs).sys.gw; gw.tpsl.None? && gw.pos != 0.0
    ensures var r := After(step, inputs);
      var side := SideOf(r.sys.gw.pos).Opposite();
      var s := Exit(r, SetTrailing(distance, side)).sys;
      var n := TrailingStops.FirstRetreat(side, distance, r.sys.gw.lastPrice, ticks);
      var gw' := TrailingStops.After(s.gw, ticks, wrap);
      && PositionStops.Shared(s.gw, s.om) && s.next > r.sys.next
      && PositionStops.HearTicks(s.gw, s.om, ticks, wrap).errors == r.sys.om.errors
      && (n == |ticks| ==> gw'.pos == r.sys.gw.pos && gw'.log == r.sys.gw.log)
      && (n < |ticks| ==>
            && gw'.pos == 0.0 && |gw'.log| == |r.sys.gw.log| + 1
            && var t := gw'.log[|r.sys.gw.log|];
               && t.price == TrailingStops.Best(side, r.sys.gw.lastPrice, ticks[..n]) + Signed(distance, side)
               && t.SignedVolume() == -r.sys.gw.pos)
  {
    AlwaysOk(step, inputs);
    var r := After(step, inputs);
    var side := SideOf(r.sys.gw.pos).Opposite();
    var s := Exit(r, SetTrailing(distance, side)).sys;
    TrailingStops.RequestedStopIsDrawdown(r.sys.gw, r.sys.next, distance, ticks, wrap);
    PositionStops.StopsStayShared(s.gw, s.om, ticks, wrap);
  }

  // ----- the events of a price drain -----

  /** An upper bound on the turns that an event can cause, its own included, whatever is decided. */
  function TurnsOf(e: Event): nat {
    match e
    case OnSignal => 8
    case SiTrade(_) => 4
    case OnExit => 2
    case _ => 1
  }

  function Turns(q: seq<Event>): nat {
    if q == [] then 0 else TurnsOf(q[0]) + Turns(q[1..])
  }

  lemma {:induction false} TurnsAppend(q: seq<Event>, more: seq<Event>)
    ensures Turns(q + more) == Turns(q) + Turns(more)
  {
    if q == [] {
      assert q + more == more;
    } else {
      assert (q + more)[0] == q[0] && (q + more)[1..] == q[1..] + more;
      TurnsAppend(q[1..], more);
    }
  }

  lemma TurnsOfSingle(e: Event)
    ensures Turns([e]) == TurnsOf(e)
  {
    assert [e][1..] == [];
  }

  lemma TurnsOfOrder(g: Guid, t: Trade, events: seq<Event>)
    requires OrderEvents(g, t, events)
    ensures Turns(events) <= 7
  {
    TurnsOfSingle(OmAck(g));
    TurnsOfSingle(SiTrade(t));
    assert Emit(t) == [OmTrade(t)] + [SiTrade(t)];
    TurnsOfSingle(OmTrade(t));
    TurnsAppend([OmTrade(t)], [SiTrade(t)]);
    if events == [OmAck(g)] + [] + Emit(t) {
      assert events == [OmAck(g)] + Emit(t);
      TurnsAppend([OmAck(g)], Emit(t));
    } else {
      var e: Event :| e.OmTpsl? && events == [OmAck(g)] + [e] + Emit(t);
      TurnsOfSingle(e);
      TurnsAppend([OmAck(g)], [e]);
      TurnsAppend([OmAck(g)] + [e], Emit(t));
    }
  }

  /** The queue after a turn: the head has gone and some events have come. */
  lemma TurnAppends(step: real, r: Run, d: Decision) returns (more: seq<Event>)
    requires step > 0.0 && Ok(step, r) && r.sys.q != []
    ensures Handle(r.(sys := r.sys.(q := r.sys.q[1..])), step, r.sys.q[0], d).sys.q == r.sys.q[1..] + more
    ensures Turns(more) < TurnsOf(r.sys.q[0])
  {
    var u := r.(sys := r.sys.(q := r.sys.q[1..]));
    if r.sys.q[0].OmTrade? {
      TradedOrders(step, r, r.sys.q[0].t);
    }
    more := HandlerAppends(u, step, r.sys.q[0], d);
  }

  lemma HandlerAppends(r: Run, step: real, e: Event, d: Decision) returns (more: seq<Event>)
    requires step > 0.0 && (e.OmTrade? ==> OnTrade(r.sys.om, e.t).events == [])
    ensures Handle(r, step, e, d).sys.q == r.sys.q + more && Turns(more) < TurnsOf(e)
  {
    more := [];
    assert r.sys.q + [] == r.sys.q;
    match e
    case SiTrade(t) =>
      var pm := Ledger.Receive(r.pm, t).pm;
      more := [OpenedFlag(pm.position.Some?)] + [OnExit];
      TurnsOfSingle(OpenedFlag(pm.position.Some?));
      TurnsOfSingle(OnExit);
      TurnsAppend([OpenedFlag(pm.position.Some?)], [OnExit]);
    case OnSignal =>
      if d.Enter? {
        more := EnterAppends(step, r, d.side, d.price, d.ts);
      }
    case OnExit => more := ExitAppends(r, d);
    case _ =>
  }

  lemma ExitAppends(r: Run, d: Decision) returns (more: seq<Event>)
    ensures Exit(r, d).sys.q == r.sys.q + more && Turns(more) <= 1
  {
    more := [];
    assert r.sys.q + [] == r.sys.q;
    match d
    case SetTpsl(tp, sl) =>
      more := PushTpsl(r.sys.gw, Tpsl(r.sys.next, tp, sl)).events;
      TurnsOfSingle(more[0]);
    case SetTrailing(distance, side) =>
      more := PushTrailing(r.sys.gw, r.sys.next, distance, side).events;
      TurnsOfSingle(more[0]);
    case _ =>
  }

  lemma EnterAppends(step: real, r: Run, side: Side, price: real, ts: int) returns (more: seq<Event>)
    requires step > 0.0
    ensures TrySendOrder(r, step, side, price, ts).sys.q == r.sys.q + more && Turns(more) <= 7
  {
    more := [];
    assert r.sys.q + [] == r.sys.q;
    if r.sys.om.orders == map[] && !r.flag && price > 0.0 {
      var volume := Signed(POSITION_AMOUNT / price, side);
      if SendMarketOrder(r.sys, step, price, volume, ts).Some? {
        var o, t, events, gw := SendForm(step, r, price, volume, ts);
        TurnsOfOrder(r.sys.next, t, events);
        more := events;
      }
    }
  }

  /** Every turn brings the queue closer to its end, whatever is decided. */
  lemma TurnIsCloser(step: real, r: Run, d: Decision)
    requires step > 0.0 && Ok(step, r) && r.sys.q != [] && !r.crashed
    ensures Turns(Perform(r, step, Turn(d)).sys.q) < Turns(r.sys.q)
  {
    var more := TurnAppends(step, r, d);
    TurnsAppend(r.sys.q[1..], more);
  }

  function TurnsWith(decisions: seq<Decision>): seq<Input> {
    seq(|decisions|, i requires 0 <= i < |decisions| => Turn(decisions[i]))
  }

  /** Some turns of the loop. */
  function Decide(r: Run, step: real, decisions: seq<Decision>): Run
    requires step >= 0.0
    decreases |decisions|
  {
    if decisions == [] then r else Decide(Perform(r, step, Turn(decisions[0])), step, decisions[1..])
  }

  lemma {:induction false} AfterTurns(step: real, inputs: seq<Input>, decisions: seq<Decision>)
    requires step > 0.0
    ensures After(step, inputs + TurnsWith(decisions)) == Decide(After(step, inputs), step, decisions)
    decreases |decisions|
  {
    if decisions == [] {
      assert inputs + TurnsWith(decisions) == inputs;
    } else {
      var first := inputs + [Turn(decisions[0])];
      assert first[..|first| - 1] == inputs;
      AfterTurns(step, first, decisions[1..]);
      assert inputs + TurnsWith(decisions) == first + TurnsWith(decisions[1..]);
    }
  }

  lemma {:induction false} StaysCrashed(step: real, r: Run, decisions: seq<Decision>)
    requires step > 0.0 && r.crashed
    ensures Decide(r, step, decisions) == r
    decreases |decisions|
  {
    if decisions != [] {
      StaysCrashed(step, r, decisions[1..]);
    }
  }

  lemma {:induction false} TurnsDrain(step: real, r: Run, decisions: seq<Decision>)
    requires step > 0.0 && Ok(step, r) && |decisions| >= Turns(r.sys.q)
    ensures var r' := Decide(r, step, decisions); r'.crashed || r'.sys.q == []
    decreases |decisions|
  {
    if r.crashed {
      StaysCrashed(step, r, decisions);
    } else if decisions != [] {
      if r.sys.q != [] {
        TurnIsCloser(step, r, decisions[0]);
        TurnKeepsOk(step, r, decisions[0]);
      }
      TurnsDrain(step, Perform(r, step, Turn(decisions[0])), decisions[1..]);
    }
  }

  /**
   * Run to completion: whatever the callbacks decide, as many turns as the queue counts empty it, unless the
   * run has crashed; so the next price is taken.
   */
  lemma EventsDrain(step: real, inputs: seq<Input>, decisions: seq<Decision>)
    requires step > 0.0 && |decisions| >= Turns(After(step, inputs).sys.q)
    ensures var r := After(step, inputs + TurnsWith(decisions)); r.crashed || r.sys.q == []
  {
    AlwaysOk(step, inputs);
    AfterTurns(step, inputs, decisions);
    TurnsDrain(step, After(step, inputs), decisions);
  }

  /**
   * When the queue is empty the flag tells whether the manager has a position, no order is pending, and the
   * manager holds the gateway's position, unless that is no larger than dust.
   */
  lemma FlagIsRightWhenQuiet(step: real, inputs: seq<Input>)
    requires step > 0.0 && After(step, inputs).sys.q == []
    ensures var r := After(step, inputs);
      && r.flag == r.pm.position.Some? && r.sys.om.orders == map[]
      && (!r.flag ==> r.sys.gw.pos == 0.0)
      && Ledger.Volume(r.pm) == Ledger.Snap(r.sys.gw.pos)
      && (step > Ledger.DUST ==> r.sys.gw.pos == Ledger.Volume(r.pm))
  {
    AlwaysOk(step, inputs);
    var r := After(step, inputs);
    Quiescent(step, r);
    if step > Ledger.DUST && Abs(r.sys.gw.pos) <= Ledger.DUST {
      SmallLotIsZero(step, r.sys.gw.pos);
    }
  }
}
