/** Trades, and the events of the strategy's event loop (frontend/crypto/gateway/Events.h). */
module Events {
  import opened Common
  import Candles
  import opened PriorityQueue

  /** Order, trade and request identifiers; the program draws them at random and relies on their being fresh. */
  type Guid = nat

  /** `Trade`: an execution on the gateway. */
  datatype Trade = Trade(guid: Guid, ts: int, price: real, volume: real, side: Side, fee: real) {
    function SignedVolume(): real {
      Signed(volume, side)
    }
  }

  /**
   * The events of the loop. A price is of Low priority, the others are of Normal priority. The prefix names the
   * subscriber whose callback runs:
   * Om the OrderManager, Si the StrategyInstance, On the entry strategy; the Callback events
   * go to the subscriber that a strategy attached to one order's channel.
   */
  datatype Event =
    | OmAck(g: Guid)
    | OmTrade(t: Trade)
    | OmCond(k: Kind, g: Guid, active: bool)
    | OmTpsl(g: Guid, setUp: bool, triggered: bool, rejected: bool)
    | OmTrailing(stop: Option<real>)
    | SiTrade(t: Trade)
    | OnCandle(ts: int, close: real)
    | MoCallback(g: Guid, level: int)
    | CondCallback(k: Kind, g: Guid, level: int)
    | OnSignal
    | OpenedFlag(isOpen: bool)
    | OnExit
    | OnPrice(price: Candles.PublicTrade)

  function EventPriority(e: Event): Priority {
    if e.OnPrice? then Low else Normal
  }

  /** The two subscribers of the gateway's trade channel, in their order of subscription. */
  function Emit(t: Trade): seq<Event> {
    [OmTrade(t), SiTrade(t)]
  }

  /** A trade of order `g` waits for the OrderManager. */
  ghost predicate TradeIn(q: seq<Event>, g: Guid) {
    exists i :: 0 <= i < |q| && q[i].OmTrade? && q[i].t.guid == g
  }

  /** Order `g` has traded. */
  ghost predicate Traded(log: seq<Trade>, g: Guid) {
    exists i :: 0 <= i < |log| && log[i].guid == g
  }

  /** The volume of a trade stream. */
  function SumSigned(log: seq<Trade>): real {
    if log == [] then 0.0 else SumSigned(log[..|log| - 1]) + log[|log| - 1].SignedVolume()
  }

  lemma SumSignedAppend(log: seq<Trade>, t: Trade)
    ensures SumSigned(log + [t]) == SumSigned(log) + t.SignedVolume()
  {
  }

  lemma TradedAppend(log: seq<Trade>, t: Trade, g: Guid)
    ensures Traded(log + [t], g) <==> Traded(log, g) || t.guid == g
  {
    assert (log + [t])[|log|] == t;
    if Traded(log, g) {
      var i :| 0 <= i < |log| && log[i].guid == g;
      assert (log + [t])[i].guid == g;
    }
  }

  lemma TradeInAppend(q: seq<Event>, r: seq<Event>, g: Guid)
    ensures TradeIn(q + r, g) <==> TradeIn(q, g) || TradeIn(r, g)
  {
    if TradeIn(q, g) {
      var i :| 0 <= i < |q| && q[i].OmTrade? && q[i].t.guid == g;
      assert (q + r)[i] == q[i];
    }
    if TradeIn(r, g) {
      var i :| 0 <= i < |r| && r[i].OmTrade? && r[i].t.guid == g;
      assert (q + r)[|q| + i] == r[i];
    }
  }
}
