/** Average-price position accounting (Position.cpp and PositionManager.cpp). */
module Ledger {
  import opened Common
  import opened RealProducts
  import opened Lots
  import opened Events

  /** Volumes of at most this size count as zero. */
  const DUST := 0.00000001

  /** `OpenedPosition`: signed volume, average entry price, entry fee not yet attributed to a close. */
  datatype Opened = Opened(volume: real, avg: real, fee: real, openTs: int)

  /** `ClosedPosition`: what closing trades realised, net of the fees attributed to them. */
  datatype Closed = Closed(volume: real, rpnl: real, fee: real)

  datatype Pm = Pm(position: Option<Opened>, closed: Option<Closed>)

  /** `PositionResult`; `closeTs` is present when the position has been closed completely. */
  datatype PositionResult = PositionResult(pnl: real, fees: real, openTs: int, closeTs: Option<int>)

  datatype Traded = Traded(position: Opened, closed: Option<Closed>)
  datatype Received = Received(pm: Pm, result: Option<PositionResult>)

  const NO_POSITION := Pm(None, None)

  function Snap(v: real): real {
    if Abs(v) <= DUST then 0.0 else v
  }

  predicate Increases(o: Opened, v: real) {
    o.volume == 0.0 || (v < 0.0 <==> o.volume < 0.0)
  }

  /** The average of the old entry and the new trade, weighted by volume. */
  function NewAverage(o: Opened, price: real, v: real): real
    requires o.volume + v != 0.0
  {
    (Times(o.avg, o.volume) + Times(price, v)) / (o.volume + v)
  }

  /** `extract_fee`: the share of the entry fee that belongs to `v`. */
  function ExtractedFee(o: Opened, v: real): real
    requires o.volume != 0.0
  {
    Times(Abs(v), o.fee / Abs(o.volume))
  }

  /** `OpenedPosition::on_trade`. */
  function OnTrade(o: Opened, price: real, v: real, fee: real): Traded {
    if v == 0.0 then Traded(o, None)
    else
      var volume := Snap(o.volume + v);
      if Increases(o, v) then
        Traded(o.(volume := volume, avg := NewAverage(o, price, v), fee := o.fee + fee), None)
      else
        var extracted := ExtractedFee(o, v);
        var closedFee := fee + extracted;
        Traded(o.(volume := volume, fee := o.fee - extracted),
               Some(Closed(v, Times(price - o.avg, -v) - closedFee, closedFee)))
  }

  /** `ClosedPosition::operator+=`. */
  function Add(c: Closed, other: Closed): Closed {
    Closed(c.volume + other.volume, c.rpnl + other.rpnl, c.fee + other.fee)
  }

  /** `PositionManager::on_trade_received`. */
  function Receive(pm: Pm, t: Trade): Received {
    var v := t.SignedVolume();
    match pm.position
    case None => Received(pm.(position := Some(OnTrade(Opened(0.0, 0.0, 0.0, t.ts), t.price, v, t.fee).position)), None)
    case Some(o) =>
      var r := OnTrade(o, t.price, v, t.fee);
      match r.closed
      case None => Received(pm.(position := Some(r.position)), None)
      case Some(c) =>
        var total := if pm.closed.Some? then Add(pm.closed.value, c) else c;
        if r.position.volume == 0.0 then
          Received(NO_POSITION, Some(PositionResult(total.rpnl, total.fee, o.openTs, Some(t.ts))))
        else
          Received(Pm(Some(r.position), Some(total)), Some(PositionResult(total.rpnl, total.fee, o.openTs, None)))
  }

  function Volume(pm: Pm): real {
    if pm.position.Some? then pm.position.value.volume else 0.0
  }

  function Fold(trades: seq<Trade>): Pm {
    if trades == [] then NO_POSITION
    else Receive(Fold(trades[..|trades| - 1]), trades[|trades| - 1]).pm
  }

  lemma ReceiveVolume(pm: Pm, t: Trade)
    ensures Volume(Receive(pm, t).pm)
         == if t.SignedVolume() == 0.0 then Volume(pm) else Snap(Volume(pm) + t.SignedVolume())
  {
  }

  /** On whole lots larger than dust the manager holds exactly the volume of the trade stream. */
  lemma ReceiveLotVolume(step: real, pm: Pm, t: Trade)
    requires step > DUST && IsLot(step, Volume(pm)) && IsLot(step, t.SignedVolume())
    ensures Volume(Receive(pm, t).pm) == Volume(pm) + t.SignedVolume()
    ensures IsLot(step, Volume(Receive(pm, t).pm))
  {
    LotsAdd(step, Volume(pm), t.SignedVolume());
    var v := Volume(pm) + t.SignedVolume();
    if Abs(v) <= DUST {
      SmallLotIsZero(step, v);
    }
    ReceiveVolume(pm, t);
  }

  /** A PositionManager that folds a stream of whole-lot trades holds the stream's volume. */
  lemma {:induction false} FoldHoldsVolume(step: real, trades: seq<Trade>)
    requires step > DUST && forall i :: 0 <= i < |trades| ==> IsLot(step, trades[i].SignedVolume())
    ensures Volume(Fold(trades)) == SumSigned(trades) && IsLot(step, SumSigned(trades))
  {
    if trades == [] {
      assert 0.0 == LotsOf(0, step);
    } else {
      var n := |trades| - 1;
      FoldHoldsVolume(step, trades[..n]);
      ReceiveLotVolume(step, Fold(trades[..n]), trades[n]);
    }
  }
}
