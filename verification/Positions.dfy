/** The position accounting as the objects that it is in the program, proved against Ledger. */
module Positions {
  import opened Common
  import opened RealProducts
  import opened Events
  import opened Ledger

  class OpenedPosition {
    var absoluteVolume: real
    var avgEntryPrice: real
    var totalEntryFee: real
    const openTs: int

    function State(): Opened
      reads this
    {
      Opened(absoluteVolume, avgEntryPrice, totalEntryFee, openTs)
    }

    /** The position that a first trade opens. */
    constructor (t: Trade)
      ensures State() == Ledger.OnTrade(Opened(0.0, 0.0, 0.0, t.ts), t.price, t.SignedVolume(), t.fee).position
    {
      absoluteVolume, avgEntryPrice, totalEntryFee, openTs := 0.0, 0.0, 0.0, t.ts;
      new;
      var _ := OnTrade(t.price, t.SignedVolume(), t.fee);
    }

    /** `extract_fee`. */
    method ExtractFee(v: real) returns (extracted: real)
      requires absoluteVolume != 0.0
      modifies this`totalEntryFee
      ensures extracted == ExtractedFee(old(State()), v) && totalEntryFee == old(totalEntryFee) - extracted
    {
      var feePerOne := totalEntryFee / Abs(absoluteVolume);
      extracted := Times(Abs(v), feePerOne);
      totalEntryFee := totalEntryFee - extracted;
    }

    method OnTrade(price: real, v: real, fee: real) returns (closed: Option<Closed>)
      modifies this
      ensures State() == Ledger.OnTrade(old(State()), price, v, fee).position
      ensures closed == Ledger.OnTrade(old(State()), price, v, fee).closed
    {
      if v == 0.0 {
        return None;
      }
      if Increases(State(), v) {
        var amount := Times(avgEntryPrice, absoluteVolume);
        avgEntryPrice := (amount + Times(price, v)) / (absoluteVolume + v);
        totalEntryFee := totalEntryFee + fee;
        closed := None;
      } else {
        var extracted := ExtractFee(v);
        var closedFee := fee + extracted;
        closed := Some(Closed(v, Times(price - avgEntryPrice, -v) - closedFee, closedFee));
      }
      // the scope guard of the source: it runs on either way out
      absoluteVolume := absoluteVolume + v;
      if Abs(absoluteVolume) <= DUST {
        absoluteVolume := 0.0;
      }
    }
  }

  class PositionManager {
    var position: OpenedPosition?
    var closed: Option<Closed>

    function State(): Pm
      reads this, position
    {
      Pm(if position == null then None else Some(position.State()), closed)
    }

    function Repr(): set<object>
      reads this
    {
      {this} + if position == null then {} else {position}
    }

    constructor ()
      ensures State() == NO_POSITION && fresh(Repr())
    {
      position, closed := null, None;
    }

    method OnTradeReceived(t: Trade) returns (result: Option<PositionResult>)
      modifies Repr()
      ensures State() == Receive(old(State()), t).pm && result == Receive(old(State()), t).result
      ensures fresh(Repr() - old(Repr()))
    {
      if position == null {
        position := new OpenedPosition(t);
        return None;
      }
      var c := position.OnTrade(t.price, t.SignedVolume(), t.fee);
      if c.None? {
        return None;
      }
      closed := Some(if closed.Some? then Add(closed.value, c.value) else c.value);
      var total := closed.value;
      if position.absoluteVolume == 0.0 {
        result := Some(PositionResult(total.rpnl, total.fee, position.openTs, Some(t.ts)));
        position, closed := null, None;
      } else {
        result := Some(PositionResult(total.rpnl, total.fee, position.openTs, None));
      }
    }
  }
}
