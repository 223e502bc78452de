/** The backtest exchange as the object that it is in the program, proved against Gateway. */
module BacktestGateway {
  import opened Common
  import opened Events
  import opened PriorityQueue
  import opened Gateway

  type EventLoop = ThreadSafePriorityQueue<Event>

  /** Some events of Normal priority have been queued since `before`, and nothing else has happened. */
  predicate Queued(before: Queues<Event>, after: Queues<Event>, events: seq<Event>) {
    after == before.(normal := before.normal + events)
  }

  lemma QueuedTwice(a: Queues<Event>, b: Queues<Event>, c: Queues<Event>, x: seq<Event>, y: seq<Event>)
    requires Queued(a, b, x) && Queued(b, c, y)
    ensures Queued(a, c, x + y)
  {
  }

  /** The loop runs, and only prices wait at another priority than Normal. */
  ghost predicate Accepting(loop: EventLoop)
    reads loop
  {
    && loop.queues.running
    && loop.priority == EventPriority
    && forall p: Priority, e: Event :: p != Normal && e in loop.queues.Get(p) ==> e.OnPrice?
  }

  method Enqueue(loop: EventLoop, events: seq<Event>)
    requires Accepting(loop) && forall e :: e in events ==> !e.OnPrice?
    modifies loop
    ensures Accepting(loop) && Queued(old(loop.queues), loop.queues, events)
  {
    var i := 0;
    while i < |events|
      invariant 0 <= i <= |events| && Accepting(loop)
      invariant Queued(old(loop.queues), loop.queues, events[..i])
    {
      var _ := loop.PushValue(events[i]);
      assert events[..i + 1] == events[..i] + [events[i]];
      i := i + 1;
    }
    assert events[..i] == events;
  }

  /** Where a trigger loop goes on after element `i` of `n` has fired. */
  function AfterFiring(i: nat, n: nat, wrap: bool): nat
    requires i < n
  {
    if i + 1 < n then i + 1 else if wrap then 0 else n - 1
  }

  lemma WalkAfterFiring(gw: GatewayState, k: Kind, i: nat, ts: int, wrap: bool)
    requires i < |gw.lists.Get(k)| && Triggers(k, gw.lists.Get(k)[i], gw.lastPrice)
    ensures var n := |gw.lists.Get(k)|;
      var fired := Fire(gw, k, i, ts);
      && |fired.gw.lists.Get(k)| == n - 1 && AfterFiring(i, n, wrap) <= n - 1
      && var rest := Walk(fired.gw, k, AfterFiring(i, n, wrap), ts, wrap);
         Walk(gw, k, i, ts, wrap) == Reply(rest.gw, fired.events + rest.events)
  {
  }

  class BacktestTradingGateway {
    const loop: EventLoop
    /** Which of its two outcomes the undefined increment of the trigger loops has. */
    const wrap: bool
    var posVolume: real
    var lastPrice: real
    var tpsl: Option<Tpsl>
    var trailingStop: Option<Trailing>
    var takeProfits: seq<Request>
    var stopLosses: seq<Request>
    ghost var log: seq<Trade>

    ghost function State(): GatewayState
      reads this
    {
      GatewayState(posVolume, lastPrice, tpsl, trailingStop, Both(takeProfits, stopLosses), log)
    }

    constructor (loop: EventLoop, wrap: bool)
      ensures this.loop == loop && this.wrap == wrap && State() == FLAT
    {
      this.loop, this.wrap := loop, wrap;
      posVolume, lastPrice, tpsl, trailingStop, takeProfits, stopLosses, log := 0.0, 0.0, None, None, [], [], [];
    }

    /** The trade channel has two subscribers. */
    method PushTrade(t: Trade)
      requires Accepting(loop)
      modifies this`log, loop
      ensures Accepting(loop) && log == old(log) + [t] && Queued(old(loop.queues), loop.queues, Emit(t))
    {
      Enqueue(loop, Emit(t));
      log := log + [t];
    }

    /** The `trigger` lambda, with the erasure that follows it. */
    method Trigger(k: Kind, i: nat, ts: int)
      requires Accepting(loop) && i < |State().lists.Get(k)|
      modifies this, loop
      ensures Accepting(loop) && State() == Fire(old(State()), k, i, ts).gw
      ensures Queued(old(loop.queues), loop.queues, Fire(old(State()), k, i, ts).events)
    {
      var o := if k.Tp? then takeProfits[i] else stopLosses[i];
      posVolume := posVolume + Signed(o.volume, o.side);
      var t := Trade(o.guid, ts, o.trigger, o.volume, o.side, Fee(o.volume, lastPrice));
      PushTrade(t);
      ghost var traded := loop.queues;
      Enqueue(loop, [OmCond(k, o.guid, false)]);
      QueuedTwice(old(loop.queues), traded, loop.queues, Emit(t), [OmCond(k, o.guid, false)]);
      if k.Tp? {
        takeProfits := EraseAt(takeProfits, i);
      } else {
        stopLosses := EraseAt(stopLosses, i);
      }
    }

    /** One trigger loop: `it = erase(it); continue;` is followed by `++it`, which skips an element. */
    method TriggerLoop(k: Kind, ts: int)
      requires Accepting(loop)
      modifies this, loop
      ensures Accepting(loop) && State() == Walk(old(State()), k, 0, ts, wrap).gw
      ensures Queued(old(loop.queues), loop.queues, Walk(old(State()), k, 0, ts, wrap).events)
    {
      ghost var whole := Walk(State(), k, 0, ts, wrap);
      ghost var events := [];
      var i := 0;
      var n := if k.Tp? then |takeProfits| else |stopLosses|;
      while i < n
        invariant Accepting(loop) && n == |State().lists.Get(k)| && 0 <= i <= n
        invariant Queued(old(loop.queues), loop.queues, events)
        invariant whole.gw == Walk(State(), k, i, ts, wrap).gw
        invariant whole.events == events + Walk(State(), k, i, ts, wrap).events
        decreases n, n - i
      {
        if Triggers(k, if k.Tp? then takeProfits[i] else stopLosses[i], lastPrice) {
          WalkAfterFiring(State(), k, i, ts, wrap);
          ghost var fired := Fire(State(), k, i, ts);
          ghost var before := loop.queues;
          Trigger(k, i, ts);
          QueuedTwice(old(loop.queues), before, loop.queues, events, fired.events);
          events := events + fired.events;
          if i + 1 < n {
            i := i + 1;
          } else if wrap {
            i := 0;
          }
          n := n - 1;
        } else {
          i := i + 1;
        }
      }
    }

    /** `try_trigger_conditionals`. */
    method TryTriggerConditionals(ts: int)
      requires Accepting(loop)
      modifies this, loop
      ensures Accepting(loop) && State() == TriggerConditionals(old(State()), ts, wrap).gw
      ensures Queued(old(loop.queues), loop.queues, TriggerConditionals(old(State()), ts, wrap).events)
    {
      ghost var sl := Walk(State(), Sl, 0, ts, wrap);
      TriggerLoop(Sl, ts);
      ghost var between := loop.queues;
      TriggerLoop(Tp, ts);
      QueuedTwice(old(loop.queues), between, loop.queues, sl.events, Walk(sl.gw, Tp, 0, ts, wrap).events);
    }

    /** `try_trade_tpsl`, which leaves it to its caller to trade. */
    method TryTradeTpsl(ts: int) returns (trade: Option<Trade>)
      requires Accepting(loop) && tpsl.Some?
      modifies loop
      ensures Accepting(loop)
      ensures match TpslPrice(posVolume, tpsl.value, lastPrice)
        case None => trade == None && loop.queues == old(loop.queues)
        case Some(price) =>
          && trade == Some(ClosingTrade(State(), tpsl.value.guid, ts, price))
          && Queued(old(loop.queues), loop.queues, [OmTpsl(tpsl.value.guid, false, true, false)])
    {
      var volume, side := Abs(posVolume), SideOf(posVolume);
      var price: Option<real> := None;
      match side {
        case Buy =>
          if lastPrice >= tpsl.value.takeProfit {
            price := Some(tpsl.value.takeProfit);
          } else if lastPrice <= tpsl.value.stopLoss {
            price := Some(tpsl.value.stopLoss);
          }
        case Sell =>
          if lastPrice <= tpsl.value.takeProfit {
            price := Some(tpsl.value.takeProfit);
          } else if lastPrice >= tpsl.value.stopLoss {
            price := Some(tpsl.value.stopLoss);
          }
      }
      if price.None? {
        return None;
      }
      Enqueue(loop, [OmTpsl(tpsl.value.guid, false, true, false)]);
      return Some(Trade(tpsl.value.guid, ts, price.value, volume, side.Opposite(), Fee(volume, lastPrice)));
    }

    /** The part of `on_new_price` that is about the full-position take profit and stop loss. */
    method HandleTpsl(ts: int)
      requires Accepting(loop)
      modifies this, loop
      ensures Accepting(loop) && State() == TryTpsl(old(State()), ts).gw
      ensures Queued(old(loop.queues), loop.queues, TryTpsl(old(State()), ts).events)
    {
      if tpsl.Some? {
        var trade := TryTradeTpsl(ts);
        if trade.Some? {
          ghost var between := loop.queues;
          PushTrade(trade.value);
          QueuedTwice(old(loop.queues), between, loop.queues, [OmTpsl(tpsl.value.guid, false, true, false)],
              Emit(trade.value));
          posVolume := 0.0;
          tpsl := None;
        }
      }
    }

    /** The part of `on_new_price` that is about the trailing stop. */
    method HandleTrailingStop(ts: int)
      requires Accepting(loop)
      modifies this, loop
      ensures Accepting(loop) && State() == TryTrailing(old(State()), ts).gw
      ensures Queued(old(loop.queues), loop.queues, TryTrailing(old(State()), ts).events)
    {
      if trailingStop.Some? {
        var tr := trailingStop.value;
        var stop := NewStop(tr.distance, tr.side, lastPrice, tr.stop);
        if stop.Some? {
          trailingStop := Some(tr.(stop := stop.value));
          Enqueue(loop, [OmTrailing(stop)]);
        } else {
          var side := SideOf(posVolume);
          var triggered := if side.Buy? then lastPrice < tr.stop else lastPrice > tr.stop;
          if triggered {
            var t := Trade(tr.guid, ts, tr.stop, Abs(posVolume), side.Opposite(), Fee(Abs(posVolume), lastPrice));
            PushTrade(t);
            ghost var between := loop.queues;
            Enqueue(loop, [OmTrailing(None)]);
            QueuedTwice(old(loop.queues), between, loop.queues, Emit(t), [OmTrailing(None)]);
            trailingStop := None;
            posVolume := 0.0;
          }
        }
      }
    }

    method OnNewPrice(ts: int, price: real)
      requires Accepting(loop)
      modifies this, loop
      ensures Accepting(loop) && State() == Gateway.OnNewPrice(old(State()), ts, price, wrap).gw
      ensures Queued(old(loop.queues), loop.queues, Gateway.OnNewPrice(old(State()), ts, price, wrap).events)
    {
      lastPrice := price;
      ghost var a := TryTpsl(State(), ts);
      HandleTpsl(ts);
      ghost var between := loop.queues;
      ghost var b := TryTrailing(State(), ts);
      HandleTrailingStop(ts);
      QueuedTwice(old(loop.queues), between, loop.queues, a.events, b.events);
      between := loop.queues;
      ghost var c := TriggerConditionals(State(), ts, wrap);
      TryTriggerConditionals(ts);
      QueuedTwice(old(loop.queues), between, loop.queues, a.events + b.events, c.events);
    }

    method PushOrderRequest(g: Guid, volume: real, side: Side, ts: int)
      requires Accepting(loop)
      modifies this, loop
      ensures Accepting(loop) && State() == PushOrder(old(State()), g, volume, side, ts).gw
      ensures Queued(old(loop.queues), loop.queues, PushOrder(old(State()), g, volume, side, ts).events)
    {
      Enqueue(loop, [OmAck(g)]);
      var t := Trade(g, ts, lastPrice, volume, side, Fee(volume, lastPrice));
      posVolume := posVolume + Signed(volume, side);
      ghost var between := loop.queues;
      ghost var gone := [];
      if posVolume == 0.0 && tpsl.Some? {
        gone := [OmTpsl(tpsl.value.guid, false, false, false)];
        Enqueue(loop, [OmTpsl(tpsl.value.guid, false, false, false)]);
      }
      QueuedTwice(old(loop.queues), between, loop.queues, [OmAck(g)], gone);
      between := loop.queues;
      PushTrade(t);
      QueuedTwice(old(loop.queues), between, loop.queues, [OmAck(g)] + gone, Emit(t));
    }

    method PushTpslRequest(request: Tpsl)
      requires Accepting(loop)
      modifies this, loop
      ensures Accepting(loop) && State() == PushTpsl(old(State()), request).gw
      ensures Queued(old(loop.queues), loop.queues, PushTpsl(old(State()), request).events)
    {
      if posVolume == 0.0 {
        Enqueue(loop, [OmTpsl(request.guid, true, false, true)]);
        return;
      }
      tpsl := Some(request);
      Enqueue(loop, [OmTpsl(request.guid, true, false, false)]);
    }

    method PushTrailingStopRequest(g: Guid, distance: real, side: Side)
      requires Accepting(loop)
      modifies this, loop
      ensures Accepting(loop) && State() == PushTrailing(old(State()), g, distance, side).gw
      ensures Queued(old(loop.queues), loop.queues, PushTrailing(old(State()), g, distance, side).events)
    {
      var stop := lastPrice + Signed(distance, side);
      trailingStop := Some(Trailing(g, distance, side, stop));
      Enqueue(loop, [OmTrailing(Some(stop))]);
    }

    /** `push_take_profit_request` and `push_stop_loss_request`. */
    method PushConditionalRequest(k: Kind, r: Request, ts: int)
      requires Accepting(loop)
      modifies this, loop
      ensures Accepting(loop) && State() == PushConditional(old(State()), k, r, ts, wrap).gw
      ensures Queued(old(loop.queues), loop.queues, PushConditional(old(State()), k, r, ts, wrap).events)
    {
      if k.Tp? {
        takeProfits := takeProfits + [r];
      } else {
        stopLosses := stopLosses + [r];
      }
      Enqueue(loop, [OmCond(k, r.guid, true)]);
      ghost var between := loop.queues;
      ghost var fired := TriggerConditionals(State(), ts, wrap);
      TryTriggerConditionals(ts);
      QueuedTwice(old(loop.queues), between, loop.queues, [OmCond(k, r.guid, true)], fired.events);
    }

    /** `cancel_take_profit_request` and `cancel_stop_loss_request`. */
    method CancelConditionalRequest(k: Kind, g: Guid)
      requires Accepting(loop)
      modifies this, loop
      ensures Accepting(loop) && State() == CancelConditional(old(State()), k, g).gw
      ensures Queued(old(loop.queues), loop.queues, CancelConditional(old(State()), k, g).events)
    {
      var l := if k.Tp? then takeProfits else stopLosses;
      var i := 0;
      while i < |l|
        invariant 0 <= i <= |l| && State() == old(State()) && loop.queues == old(loop.queues) && Accepting(loop)
        invariant IndexOf(l, g) == i + IndexOf(l[i..], g)
      {
        if l[i].guid == g {
          if k.Tp? {
            takeProfits := EraseAt(takeProfits, i);
          } else {
            stopLosses := EraseAt(stopLosses, i);
          }
          Enqueue(loop, [OmCond(k, g, false)]);
          return;
        }
        assert l[i..][1..] == l[i + 1..];
        i := i + 1;
      }
      assert loop.queues.normal + [] == loop.queues.normal;
    }
  }
}
