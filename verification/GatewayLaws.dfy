/** Conservation and firing laws of the backtest exchange, for every sequence of calls. */
module GatewayLaws {
  import opened Common
  import opened Lots
  import opened Events
  import opened Gateway
  import Ledger

  // ----- the position is the volume of the trades -----

  /** The position agrees with the trades pushed so far. */
  ghost predicate Conserved(gw: GatewayState) {
    gw.pos == SumSigned(gw.log)
  }

  /** A property that every firing keeps is kept by both trigger loops, whatever they skip. */
  ghost predicate FiringKeeps(p: GatewayState -> bool) {
    forall gw: GatewayState, k: Kind, i: nat, ts: int ::
      p(gw) && i < |gw.lists.Get(k)| && Triggers(k, gw.lists.Get(k)[i], gw.lastPrice) ==> p(Fire(gw, k, i, ts).gw)
  }

  lemma {:induction false} WalkKeeps(p: GatewayState -> bool, gw: GatewayState, k: Kind, i: nat, ts: int, wrap: bool)
    requires FiringKeeps(p) && p(gw) && i <= |gw.lists.Get(k)|
    ensures p(Walk(gw, k, i, ts, wrap).gw)
    decreases |gw.lists.Get(k)|, |gw.lists.Get(k)| - i
  {
    var l := gw.lists.Get(k);
    if i < |l| && Triggers(k, l[i], gw.lastPrice) {
      var r := Fire(gw, k, i, ts);
      if i + 1 < |l| {
        WalkKeeps(p, r.gw, k, i + 1, ts, wrap);
      } else if wrap {
        WalkKeeps(p, r.gw, k, 0, ts, wrap);
      }
    } else if i < |l| {
      WalkKeeps(p, gw, k, i + 1, ts, wrap);
    }
  }

  lemma TriggersKeep(p: GatewayState -> bool, gw: GatewayState, ts: int, wrap: bool)
    requires FiringKeeps(p) && p(gw)
    ensures p(TriggerConditionals(gw, ts, wrap).gw)
  {
    WalkKeeps(p, gw, Sl, 0, ts, wrap);
    WalkKeeps(p, Walk(gw, Sl, 0, ts, wrap).gw, Tp, 0, ts, wrap);
  }

  // ----- every call -----

  /** A call of the gateway's interface. */
  datatype Call =
    | NewPrice(ts: int, price: real)
    | OrderCall(g: Guid, volume: real, side: Side, ts: int)
    | TpslCall(tpsl: Tpsl)
    | TrailingCall(g: Guid, distance: real, side: Side)
    | ConditionalCall(k: Kind, r: Request, ts: int)
    | CancelCall(k: Kind, g: Guid)

  function Apply(gw: GatewayState, c: Call, wrap: bool): Reply {
    match c
    case NewPrice(ts, price) => OnNewPrice(gw, ts, price, wrap)
    case OrderCall(g, volume, side, ts) => PushOrder(gw, g, volume, side, ts)
    case TpslCall(tpsl) => PushTpsl(gw, tpsl)
    case TrailingCall(g, distance, side) => PushTrailing(gw, g, distance, side)
    case ConditionalCall(k, r, ts) => PushConditional(gw, k, r, ts, wrap)
    case CancelCall(k, g) => CancelConditional(gw, k, g)
  }

  function ApplyAll(calls: seq<Call>, wrap: bool): Reply {
    if calls == [] then Reply(FLAT, [])
    else
      var before := ApplyAll(calls[..|calls| - 1], wrap);
      var r := Apply(before.gw, calls[|calls| - 1], wrap);
      Reply(r.gw, before.events + r.events)
  }

  lemma ConservedFiring()
    ensures FiringKeeps(gw => Conserved(gw))
  {
  }

  lemma TpslConserves(gw: GatewayState, ts: int)
    requires Conserved(gw)
    ensures Conserved(TryTpsl(gw, ts).gw)
  {
  }

  lemma TrailingConserves(gw: GatewayState, ts: int)
    requires Conserved(gw)
    ensures Conserved(TryTrailing(gw, ts).gw)
  {
  }

  lemma ApplyConserves(gw: GatewayState, c: Call, wrap: bool)
    requires Conserved(gw)
    ensures Conserved(Apply(gw, c, wrap).gw)
  {
    ConservedFiring();
    match c
    case NewPrice(ts, price) =>
      var a := TryTpsl(gw.(lastPrice := price), ts);
      TpslConserves(gw.(lastPrice := price), ts);
      TrailingConserves(a.gw, ts);
      TriggersKeep(g => Conserved(g), TryTrailing(a.gw, ts).gw, ts, wrap);
    case OrderCall(g, volume, side, ts) =>
      SumSignedAppend(gw.log, PushOrder(gw, g, volume, side, ts).gw.log[|gw.log|]);
    case ConditionalCall(k, r, ts) =>
      TriggersKeep(g => Conserved(g), gw.(lists := gw.lists.Set(k, gw.lists.Get(k) + [r])), ts, wrap);
    case _ =>
  }

  /** After every sequence of calls the position is the signed volume of all trades ever pushed. */
  lemma {:induction false} PositionIsTradedVolume(calls: seq<Call>, wrap: bool)
    ensures Conserved(ApplyAll(calls, wrap).gw)
  {
    if calls != [] {
      PositionIsTradedVolume(calls[..|calls| - 1], wrap);
      ApplyConserves(ApplyAll(calls[..|calls| - 1], wrap).gw, calls[|calls| - 1], wrap);
    }
  }

  // ----- the position manager follows -----

  /** The trades among some events, as the strategy instance receives them. */
  function TradesOf(events: seq<Event>): seq<Trade> {
    if events == [] then []
    else (if events[0].SiTrade? then [events[0].t] else []) + TradesOf(events[1..])
  }

  lemma {:induction false} TradesOfAppend(a: seq<Event>, b: seq<Event>)
    ensures TradesOf(a + b) == TradesOf(a) + TradesOf(b)
  {
    if a == [] {
      assert a + b == b;
    } else {
      var head := if a[0].SiTrade? then [a[0].t] else [];
      TradesOfAppend(a[1..], b);
      assert (a + b)[0] == a[0] && (a + b)[1..] == a[1..] + b;
      assert TradesOf(a) == head + TradesOf(a[1..]);
      assert head + (TradesOf(a[1..]) + TradesOf(b)) == head + TradesOf(a[1..]) + TradesOf(b);
    }
  }

  /** A reply pushes exactly the trades by which it extends the history. */
  ghost predicate Announces(gw: GatewayState, r: Reply) {
    r.gw.log == gw.log + TradesOf(r.events)
  }

  lemma AnnouncesBoth(gw: GatewayState, a: Reply, b: Reply)
    requires Announces(gw, a) && Announces(a.gw, b)
    ensures Announces(gw, Reply(b.gw, a.events + b.events))
  {
    TradesOfAppend(a.events, b.events);
  }

  lemma TradesOfEmit(t: Trade, e: Event)
    ensures TradesOf(Emit(t)) == [t]
    ensures !e.SiTrade? ==> TradesOf([e]) == [] && TradesOf(Emit(t) + [e]) == [t] && TradesOf([e] + Emit(t)) == [t]
  {
    assert Emit(t)[1..] == [SiTrade(t)];
    assert [SiTrade(t)][1..] == [];
    assert [e][1..] == [];
    TradesOfAppend(Emit(t), [e]);
    TradesOfAppend([e], Emit(t));
  }

  lemma FireAnnounces(gw: GatewayState, k: Kind, i: nat, ts: int)
    requires i < |gw.lists.Get(k)|
    ensures Announces(gw, Fire(gw, k, i, ts))
  {
    TradesOfEmit(Fire(gw, k, i, ts).events[0].t, OmCond(k, gw.lists.Get(k)[i].guid, false));
  }

  lemma {:induction false} WalkAnnounces(gw: GatewayState, k: Kind, i: nat, ts: int, wrap: bool)
    requires i <= |gw.lists.Get(k)|
    ensures Announces(gw, Walk(gw, k, i, ts, wrap))
    decreases |gw.lists.Get(k)|, |gw.lists.Get(k)| - i
  {
    var l := gw.lists.Get(k);
    if i == |l| {
      assert gw.log + [] == gw.log;
    } else if Triggers(k, l[i], gw.lastPrice) {
      var r := Fire(gw, k, i, ts);
      FireAnnounces(gw, k, i, ts);
      if i + 1 < |l| {
        WalkAnnounces(r.gw, k, i + 1, ts, wrap);
        AnnouncesBoth(gw, r, Walk(r.gw, k, i + 1, ts, wrap));
      } else if wrap {
        WalkAnnounces(r.gw, k, 0, ts, wrap);
        AnnouncesBoth(gw, r, Walk(r.gw, k, 0, ts, wrap));
      }
    } else {
      WalkAnnounces(gw, k, i + 1, ts, wrap);
    }
  }

  lemma TriggersAnnounce(gw: GatewayState, ts: int, wrap: bool)
    ensures Announces(gw, TriggerConditionals(gw, ts, wrap))
  {
    var sl := Walk(gw, Sl, 0, ts, wrap);
    WalkAnnounces(gw, Sl, 0, ts, wrap);
    WalkAnnounces(sl.gw, Tp, 0, ts, wrap);
    AnnouncesBoth(gw, sl, Walk(sl.gw, Tp, 0, ts, wrap));
  }

  lemma StopsAnnounce(gw: GatewayState, ts: int)
    ensures Announces(gw, TryTpsl(gw, ts)) && Announces(gw, TryTrailing(gw, ts))
  {
    assert gw.log + [] == gw.log;
    if gw.tpsl.Some? && TpslPrice(gw.pos, gw.tpsl.value, gw.lastPrice).Some? {
      var tpsl := gw.tpsl.value;
      TradesOfEmit(ClosingTrade(gw, tpsl.guid, ts, TpslPrice(gw.pos, tpsl, gw.lastPrice).value),
                   OmTpsl(tpsl.guid, false, true, false));
    }
    if gw.trailing.Some? {
      var tr := gw.trailing.value;
      TradesOfEmit(ClosingTrade(gw, tr.guid, ts, tr.stop), OmTrailing(None));
      TradesOfEmit(ClosingTrade(gw, tr.guid, ts, tr.stop),
                   OmTrailing(NewStop(tr.distance, tr.side, gw.lastPrice, tr.stop)));
    }
  }

  lemma OrderAnnounces(gw: GatewayState, g: Guid, volume: real, side: Side, ts: int)
    ensures Announces(gw, PushOrder(gw, g, volume, side, ts))
  {
    var r := PushOrder(gw, g, volume, side, ts);
    var t := r.gw.log[|gw.log|];
    TradesOfEmit(t, OmAck(g));
    var rest := r.events[..|r.events| - 2];
    assert r.events == rest + Emit(t);
    TradesOfAppend(rest, Emit(t));
    if |rest| == 2 {
      TradesOfEmit(t, rest[1]);
      assert rest == [OmAck(g)] + [rest[1]];
      TradesOfAppend([OmAck(g)], [rest[1]]);
    } else {
      assert rest == [OmAck(g)];
    }
  }

  lemma ConditionalAnnounces(gw: GatewayState, k: Kind, r: Request, ts: int, wrap: bool)
    ensures Announces(gw, PushConditional(gw, k, r, ts, wrap))
  {
    var placed := gw.(lists := gw.lists.Set(k, gw.lists.Get(k) + [r]));
    var fired := TriggerConditionals(placed, ts, wrap);
    TriggersAnnounce(placed, ts, wrap);
    TradesOfAppend([OmCond(k, r.guid, true)], fired.events);
    assert [OmCond(k, r.guid, true)][1..] == [];
  }

  lemma ApplyAnnounces(gw: GatewayState, c: Call, wrap: bool)
    ensures Announces(gw, Apply(gw, c, wrap))
  {
    assert gw.log + [] == gw.log;
    match c
    case NewPrice(ts, price) =>
      var a := TryTpsl(gw.(lastPrice := price), ts);
      var b := TryTrailing(a.gw, ts);
      StopsAnnounce(gw.(lastPrice := price), ts);
      StopsAnnounce(a.gw, ts);
      TriggersAnnounce(b.gw, ts, wrap);
      AnnouncesBoth(gw, a, b);
      AnnouncesBoth(gw, Reply(b.gw, a.events + b.events), TriggerConditionals(b.gw, ts, wrap));
    case OrderCall(g, volume, side, ts) => OrderAnnounces(gw, g, volume, side, ts);
    case ConditionalCall(k, r, ts) => ConditionalAnnounces(gw, k, r, ts, wrap);
    case TpslCall(tpsl) => NoTradeIn(Apply(gw, c, wrap).events);
    case TrailingCall(_, _, _) => NoTradeIn(Apply(gw, c, wrap).events);
    case CancelCall(_, _) => NoTradeIn(Apply(gw, c, wrap).events);
  }

  lemma NoTradeIn(events: seq<Event>)
    requires |events| <= 1 && forall e :: e in events ==> !e.SiTrade?
    ensures TradesOf(events) == []
  {
  }

  /** The trade stream that the channel has delivered is the whole history. */
  lemma {:induction false} StreamIsHistory(calls: seq<Call>, wrap: bool)
    ensures var r := ApplyAll(calls, wrap); TradesOf(r.events) == r.gw.log
  {
    if calls != [] {
      var before := ApplyAll(calls[..|calls| - 1], wrap);
      var r := Apply(before.gw, calls[|calls| - 1], wrap);
      StreamIsHistory(calls[..|calls| - 1], wrap);
      ApplyAnnounces(before.gw, calls[|calls| - 1], wrap);
      TradesOfAppend(before.events, r.events);
    }
  }

  // ----- fees -----

  /** Each trade since the first `n` is charged for its volume at `price`, whatever price it is executed at. */
  ghost predicate ChargedAt(n: nat, price: real, gw: GatewayState) {
    && gw.lastPrice == price && n <= |gw.log|
    && forall i :: n <= i < |gw.log| ==> gw.log[i].fee == gw.log[i].volume * price * TAKER_FEE_RATE
  }

  lemma ChargedFiring(n: nat, price: real)
    ensures FiringKeeps(gw => ChargedAt(n, price, gw))
  {
  }

  lemma TpslCharges(n: nat, price: real, gw: GatewayState, ts: int)
    requires ChargedAt(n, price, gw)
    ensures ChargedAt(n, price, TryTpsl(gw, ts).gw)
  {
  }

  lemma TrailingCharges(n: nat, price: real, gw: GatewayState, ts: int)
    requires ChargedAt(n, price, gw)
    ensures ChargedAt(n, price, TryTrailing(gw, ts).gw)
  {
  }

  /** Every trade that a call causes pays the taker's rate on its volume at the market price of that call. */
  lemma FeesAreAtMarketPrice(gw: GatewayState, c: Call, wrap: bool)
    ensures var gw' := Apply(gw, c, wrap).gw;
      && gw.log <= gw'.log
      && ChargedAt(|gw.log|, if c.NewPrice? then c.price else gw.lastPrice, gw')
  {
    ApplyAnnounces(gw, c, wrap);
    var n := |gw.log|;
    match c
    case NewPrice(ts, price) =>
      var a := TryTpsl(gw.(lastPrice := price), ts);
      TpslCharges(n, price, gw.(lastPrice := price), ts);
      TrailingCharges(n, price, a.gw, ts);
      ChargedFiring(n, price);
      TriggersKeep(g => ChargedAt(n, price, g), TryTrailing(a.gw, ts).gw, ts, wrap);
    case ConditionalCall(k, r, ts) =>
      ChargedFiring(n, gw.lastPrice);
      TriggersKeep(g => ChargedAt(n, gw.lastPrice, g), gw.(lists := gw.lists.Set(k, gw.lists.Get(k) + [r])), ts, wrap);
    case _ =>
  }

  // ----- whole lots -----

  /** Positions, requests and trades are whole lots. */
  ghost predicate LotGateway(step: real, gw: GatewayState) {
    && IsLot(step, gw.pos)
    && (forall i :: 0 <= i < |gw.log| ==> IsLot(step, gw.log[i].SignedVolume()))
    && (forall k: Kind, r :: r in gw.lists.Get(k) ==> IsLot(step, r.volume))
  }

  ghost predicate LotCall(step: real, c: Call) {
    match c
    case OrderCall(_, volume, _, _) => IsLot(step, volume)
    case ConditionalCall(_, r, _) => IsLot(step, r.volume)
    case _ => true
  }

  lemma LotTradeAppended(step: real, log: seq<Trade>, t: Trade)
    requires forall i :: 0 <= i < |log| ==> IsLot(step, log[i].SignedVolume())
    requires IsLot(step, t.SignedVolume())
    ensures forall i :: 0 <= i < |log + [t]| ==> IsLot(step, (log + [t])[i].SignedVolume())
  {
  }

  lemma FireKeepsLots(step: real, gw: GatewayState, k: Kind, i: nat, ts: int)
    requires LotGateway(step, gw) && i < |gw.lists.Get(k)|
    ensures LotGateway(step, Fire(gw, k, i, ts).gw)
  {
    var o := gw.lists.Get(k)[i];
    SignedLot(step, o.volume, o.side);
    LotsAdd(step, gw.pos, Signed(o.volume, o.side));
    LotTradeAppended(step, gw.log, Fire(gw, k, i, ts).events[0].t);
    forall k': Kind, r | r in Fire(gw, k, i, ts).gw.lists.Get(k') ensures IsLot(step, r.volume) {
      assert r in gw.lists.Get(k');
    }
  }

  lemma LotFiring(step: real)
    ensures FiringKeeps(gw => LotGateway(step, gw))
  {
    forall gw: GatewayState, k: Kind, i: nat, ts: int | LotGateway(step, gw) && i < |gw.lists.Get(k)|
      ensures LotGateway(step, Fire(gw, k, i, ts).gw)
    {
      FireKeepsLots(step, gw, k, i, ts);
    }
  }

  lemma CloseKeepsLots(step: real, gw: GatewayState, t: Trade)
    requires LotGateway(step, gw) && t.SignedVolume() == -gw.pos
    ensures IsLot(step, 0.0) && IsLot(step, t.SignedVolume())
  {
    LotsAdd(step, gw.pos, gw.pos);
  }

  lemma StopsKeepLots(step: real, gw: GatewayState, ts: int)
    requires LotGateway(step, gw)
    ensures LotGateway(step, TryTpsl(gw, ts).gw) && LotGateway(step, TryTrailing(gw, ts).gw)
  {
    if gw.tpsl.Some? && TpslPrice(gw.pos, gw.tpsl.value, gw.lastPrice).Some? {
      var price := TpslPrice(gw.pos, gw.tpsl.value, gw.lastPrice).value;
      CloseKeepsLots(step, gw, ClosingTrade(gw, gw.tpsl.value.guid, ts, price));
    }
    if gw.trailing.Some? {
      CloseKeepsLots(step, gw, ClosingTrade(gw, gw.trailing.value.guid, ts, gw.trailing.value.stop));
    }
  }

  lemma ApplyKeepsLots(step: real, gw: GatewayState, c: Call, wrap: bool)
    requires LotGateway(step, gw) && LotCall(step, c)
    ensures LotGateway(step, Apply(gw, c, wrap).gw)
  {
    LotFiring(step);
    match c
    case NewPrice(ts, price) =>
      var a := TryTpsl(gw.(lastPrice := price), ts);
      StopsKeepLots(step, gw.(lastPrice := price), ts);
      StopsKeepLots(step, a.gw, ts);
      TriggersKeep(g => LotGateway(step, g), TryTrailing(a.gw, ts).gw, ts, wrap);
    case OrderCall(g, volume, side, ts) =>
      SignedLot(step, volume, side);
      LotsAdd(step, gw.pos, Signed(volume, side));
    case ConditionalCall(k, r, ts) =>
      ListingKeepsLots(step, gw, k, r);
      TriggersKeep(g => LotGateway(step, g), gw.(lists := gw.lists.Set(k, gw.lists.Get(k) + [r])), ts, wrap);
    case CancelCall(k, g) => CancelKeepsLots(step, gw, k, g);
    case _ =>
  }

  lemma ListingKeepsLots(step: real, gw: GatewayState, k: Kind, r: Request)
    requires LotGateway(step, gw) && IsLot(step, r.volume)
    ensures LotGateway(step, gw.(lists := gw.lists.Set(k, gw.lists.Get(k) + [r])))
  {
    var gw' := gw.(lists := gw.lists.Set(k, gw.lists.Get(k) + [r]));
    forall k': Kind, o | o in gw'.lists.Get(k') ensures IsLot(step, o.volume) {
      assert o == r || o in gw.lists.Get(k');
    }
  }

  lemma CancelKeepsLots(step: real, gw: GatewayState, k: Kind, g: Guid)
    requires LotGateway(step, gw)
    ensures LotGateway(step, CancelConditional(gw, k, g).gw)
  {
    forall k': Kind, r | r in CancelConditional(gw, k, g).gw.lists.Get(k') ensures IsLot(step, r.volume) {
      assert r in gw.lists.Get(k');
    }
  }

  lemma {:induction false} CallsKeepLots(step: real, calls: seq<Call>, wrap: bool)
    requires forall i :: 0 <= i < |calls| ==> LotCall(step, calls[i])
    ensures LotGateway(step, ApplyAll(calls, wrap).gw)
  {
    if calls == [] {
      assert 0.0 == LotsOf(0, step);
    } else {
      CallsKeepLots(step, calls[..|calls| - 1], wrap);
      ApplyKeepsLots(step, ApplyAll(calls[..|calls| - 1], wrap).gw, calls[|calls| - 1], wrap);
    }
  }

  /** A position manager that folds the delivered trade stream holds the gateway's position. */
  lemma ManagerHoldsPosition(step: real, calls: seq<Call>, wrap: bool)
    requires step > Ledger.DUST && forall i :: 0 <= i < |calls| ==> LotCall(step, calls[i])
    ensures var r := ApplyAll(calls, wrap); Ledger.Volume(Ledger.Fold(TradesOf(r.events))) == r.gw.pos
  {
    PositionIsTradedVolume(calls, wrap);
    StreamIsHistory(calls, wrap);
    CallsKeepLots(step, calls, wrap);
    Ledger.FoldHoldsVolume(step, ApplyAll(calls, wrap).gw.log);
  }

  // ----- what a trigger loop fires -----

  /** The trade is that of a listed request whose trigger the price has reached; its fee is that of the market price. */
  ghost predicate Allowed(k: Kind, gw: GatewayState, t: Trade) {
    && t.fee == Fee(t.volume, gw.lastPrice)
    && exists r :: r in gw.lists.Get(k) && TradeOfRequest(t, r) && Triggers(k, r, gw.lastPrice)
  }

  ghost predicate Distinct(l: seq<Request>) {
    forall i, j :: 0 <= i < j < |l| ==> l[i].guid != l[j].guid
  }

  /** What was fired: allowed trades, one for each request that has left the list. */
  ghost predicate FiredFrom(k: Kind, gw: GatewayState, gw': GatewayState) {
    && gw.log <= gw'.log && gw'.lastPrice == gw.lastPrice
    && |gw'.log| - |gw.log| == |gw.lists.Get(k)| - |gw'.lists.Get(k)|
    && (forall r :: r in gw'.lists.Get(k) ==> r in gw.lists.Get(k))
    && Distinct(gw'.lists.Get(k))
    && (forall i :: |gw.log| <= i < |gw'.log| ==> Allowed(k, gw, gw'.log[i]))
    && (forall i :: |gw.log| <= i < |gw'.log| ==> !InList(gw'.lists.Get(k), gw'.log[i].guid))
  }

  predicate TradeOfRequest(t: Trade, r: Request) {
    t.guid == r.guid && t.price == r.trigger && t.volume == r.volume && t.side == r.side
  }

  lemma FireIsAllowed(gw: GatewayState, k: Kind, i: nat, ts: int)
    requires i < |gw.lists.Get(k)| && Triggers(k, gw.lists.Get(k)[i], gw.lastPrice) && Distinct(gw.lists.Get(k))
    ensures FiredFrom(k, gw, Fire(gw, k, i, ts).gw)
  {
  }

  lemma StillGone(l: seq<Request>, m: seq<Request>, g: Guid)
    requires !InList(l, g) && forall r :: r in m ==> r in l
    ensures !InList(m, g)
  {
    forall i | 0 <= i < |m| ensures m[i].guid != g {
      assert m[i] in l;
    }
  }

  lemma FiredFromBoth(k: Kind, a: GatewayState, b: GatewayState, c: GatewayState)
    requires FiredFrom(k, a, b) && FiredFrom(k, b, c)
    ensures FiredFrom(k, a, c)
  {
    forall i | |a.log| <= i < |c.log|
      ensures Allowed(k, a, c.log[i]) && !InList(c.lists.Get(k), c.log[i].guid)
    {
      if i < |b.log| {
        assert c.log[i] == b.log[i];
        StillGone(b.lists.Get(k), c.lists.Get(k), b.log[i].guid);
      } else {
        assert Allowed(k, b, c.log[i]);
      }
    }
  }

  /** Safety of a trigger loop: what fires was allowed to fire, fires once, and leaves the list. */
  lemma {:induction false} LoopFiresOnlyAllowed(gw: GatewayState, k: Kind, i: nat, ts: int, wrap: bool)
    requires i <= |gw.lists.Get(k)| && Distinct(gw.lists.Get(k))
    ensures FiredFrom(k, gw, Walk(gw, k, i, ts, wrap).gw)
    decreases |gw.lists.Get(k)|, |gw.lists.Get(k)| - i
  {
    var l := gw.lists.Get(k);
    if i < |l| && Triggers(k, l[i], gw.lastPrice) {
      var r := Fire(gw, k, i, ts);
      FireIsAllowed(gw, k, i, ts);
      if i + 1 < |l| {
        LoopFiresOnlyAllowed(r.gw, k, i + 1, ts, wrap);
        FiredFromBoth(k, gw, r.gw, Walk(r.gw, k, i + 1, ts, wrap).gw);
      } else if wrap {
        LoopFiresOnlyAllowed(r.gw, k, 0, ts, wrap);
        FiredFromBoth(k, gw, r.gw, Walk(r.gw, k, 0, ts, wrap).gw);
      }
    } else if i < |l| {
      LoopFiresOnlyAllowed(gw, k, i + 1, ts, wrap);
    }
  }
}
