/** Conservation of money in the position ledger, with its exact error. */
module LedgerLaws {
  import opened Common
  import opened RealProducts
  import opened Lots
  import opened Events
  import opened Ledger

  /** The money that trades bring in: what sells earn less what buys cost. */
  function CashFlow(trades: seq<Trade>): real {
    if trades == [] then 0.0
    else CashFlow(trades[..|trades| - 1]) - Times(trades[|trades| - 1].price, trades[|trades| - 1].SignedVolume())
  }

  /** The fees of the trades, except those without volume, which the ledger skips. */
  function FeeSum(trades: seq<Trade>): real {
    if trades == [] then 0.0
    else
      FeeSum(trades[..|trades| - 1])
      + if trades[|trades| - 1].SignedVolume() == 0.0 then 0.0 else trades[|trades| - 1].fee
  }

  lemma SumsAppend(trades: seq<Trade>, t: Trade)
    ensures CashFlow(trades + [t]) == CashFlow(trades) - Times(t.price, t.SignedVolume())
    ensures FeeSum(trades + [t]) == FeeSum(trades) + if t.SignedVolume() == 0.0 then 0.0 else t.fee
  {
    assert (trades + [t])[..|trades|] == trades;
  }

  /**
   * A history of the manager: the trades of the position that is open now, and the money that was
   * lost because a position that was being increased was still no larger than dust.
   */
  datatype Books = Books(pm: Pm, since: seq<Trade>, lost: real)

  /** What snapping takes out of a volume. */
  function Snapped(v: real): real {
    v - Snap(v)
  }

  function OpenOf(pm: Pm, ts: int): Opened {
    if pm.position.Some? then pm.position.value else Opened(0.0, 0.0, 0.0, ts)
  }

  /** The average price that a trade leaves. */
  function AverageAfter(o: Opened, t: Trade): real {
    OnTrade(o, t.price, t.SignedVolume(), t.fee).position.avg
  }

  function Post(b: Books, t: Trade): Books {
    var r := Receive(b.pm, t);
    if r.pm.position.None? then Books(r.pm, [], 0.0)
    else
      var o := OpenOf(b.pm, t.ts);
      var v := t.SignedVolume();
      Books(r.pm, b.since + [t], b.lost + if v == 0.0 then 0.0 else Times(AverageAfter(o, t), Snapped(o.volume + v)))
  }

  function BooksOf(trades: seq<Trade>): Books {
    if trades == [] then Books(NO_POSITION, [], 0.0)
    else Post(BooksOf(trades[..|trades| - 1]), trades[|trades| - 1])
  }

  /** Profit before fees that closing trades have realised. */
  function RawOf(closed: Option<Closed>): real {
    if closed.Some? then closed.value.rpnl + closed.value.fee else 0.0
  }

  function FeeOf(closed: Option<Closed>): real {
    if closed.Some? then closed.value.fee else 0.0
  }

  function Raw(pm: Pm): real {
    RawOf(pm.closed)
  }

  function ClosedFees(pm: Pm): real {
    FeeOf(pm.closed)
  }

  /** The conservation law of an open position. */
  ghost predicate Balanced(b: Books) {
    match b.pm.position
    case None => b == Books(NO_POSITION, [], 0.0)
    case Some(o) =>
      && Raw(b.pm) == CashFlow(b.since) + Times(o.avg, o.volume) + b.lost
      && ClosedFees(b.pm) + o.fee == FeeSum(b.since)
      && (o.volume == 0.0 || Abs(o.volume) > DUST)
  }

  // ----- one trade -----

  /** Opening or increasing keeps the amount at the average price equal to what was paid. */
  lemma IncreaseKeepsAmount(o: Opened, price: real, v: real)
    requires o.volume + v != 0.0
    ensures Times(NewAverage(o, price, v), o.volume + v) == Times(o.avg, o.volume) + Times(price, v)
  {
    var amount := Times(o.avg, o.volume) + Times(price, v);
    DivideThenTimes(amount, o.volume + v);
  }

  lemma DivideThenTimes(a: real, b: real)
    requires b != 0.0
    ensures Times(a / b, b) == a
  {
  }

  lemma SnapSplits(avg: real, volume: real)
    ensures Times(avg, volume) == Times(avg, Snap(volume)) + Times(avg, Snapped(volume))
    ensures Snap(volume) == 0.0 || Abs(Snap(volume)) > DUST
    ensures Abs(Snapped(volume)) <= DUST
  {
    assert Times(avg, 0.0) == 0.0;
  }

  lemma CloseMoves(avg: real, price: real, volume: real, v: real)
    ensures Times(price - avg, -v) == Times(avg, volume + v) - Times(avg, volume) - Times(price, v)
  {
  }

  /** A trade with volume moves exactly its cash between what is realised and what is held at the average price. */
  lemma TradeConserves(o: Opened, price: real, v: real, fee: real)
    requires v != 0.0
    ensures var r := OnTrade(o, price, v, fee);
      && RawOf(r.closed) == Times(r.position.avg, r.position.volume) + Times(r.position.avg, Snapped(o.volume + v))
                - Times(o.avg, o.volume) - Times(price, v)
      && FeeOf(r.closed) + r.position.fee == o.fee + fee
      && r.position.volume == Snap(o.volume + v)
  {
    if Increases(o, v) {
      assert o.volume + v != 0.0;
      IncreaseKeepsAmount(o, price, v);
      SnapSplits(NewAverage(o, price, v), o.volume + v);
    } else {
      CloseMoves(o.avg, price, o.volume, v);
      SnapSplits(o.avg, o.volume + v);
    }
  }

  /** The law holds after every trade. */
  lemma PostBalances(b: Books, t: Trade)
    requires Balanced(b)
    ensures Balanced(Post(b, t))
  {
    if t.SignedVolume() == 0.0 {
      EmptyTradeBalances(b, t);
    } else if Receive(b.pm, t).pm.position.Some? {
      TradeBalances(b, t);
    }
  }

  lemma EmptyTradeBalances(b: Books, t: Trade)
    requires Balanced(b) && t.SignedVolume() == 0.0
    ensures Balanced(Post(b, t))
  {
    SumsAppend(b.since, t);
    assert Times(0.0, 0.0) == 0.0 && Times(t.price, 0.0) == 0.0;
  }

  lemma TradeBalances(b: Books, t: Trade)
    requires Balanced(b) && t.SignedVolume() != 0.0 && Receive(b.pm, t).pm.position.Some?
    ensures Balanced(Post(b, t))
  {
    var o := OpenOf(b.pm, t.ts);
    var r := OnTrade(o, t.price, t.SignedVolume(), t.fee);
    NothingHeld(b);
    MoneyMoves(b, t, o, r);
    FeesMove(b, t, o, r);
    VolumeMoves(o, r, t);
    ReceiveMoves(b.pm, t, o, r);
    SumsAppend(b.since, t);
    BalanceAgain(Post(b, t), r.position, b.lost + Times(r.position.avg, Snapped(o.volume + t.SignedVolume())));
  }

  /** The law, put together from its parts. */
  lemma BalanceAgain(b: Books, o: Opened, lost: real)
    requires b.pm.position == Some(o) && b.lost == lost
    requires Raw(b.pm) == CashFlow(b.since) + Times(o.avg, o.volume) + lost
    requires ClosedFees(b.pm) + o.fee == FeeSum(b.since)
    requires o.volume == 0.0 || Abs(o.volume) > DUST
    ensures Balanced(b)
  {
  }

  lemma MoneyMoves(b: Books, t: Trade, o: Opened, r: Ledger.Traded)
    requires o == OpenOf(b.pm, t.ts) && r == OnTrade(o, t.price, t.SignedVolume(), t.fee) && t.SignedVolume() != 0.0
    requires Raw(b.pm) == CashFlow(b.since) + Times(o.avg, o.volume) + b.lost
    ensures Raw(b.pm) + RawOf(r.closed)
         == CashFlow(b.since) - Times(t.price, t.SignedVolume()) + Times(r.position.avg, r.position.volume)
            + (b.lost + Times(r.position.avg, Snapped(o.volume + t.SignedVolume())))
  {
    TradeConserves(o, t.price, t.SignedVolume(), t.fee);
  }

  lemma FeesMove(b: Books, t: Trade, o: Opened, r: Ledger.Traded)
    requires o == OpenOf(b.pm, t.ts) && r == OnTrade(o, t.price, t.SignedVolume(), t.fee) && t.SignedVolume() != 0.0
    requires ClosedFees(b.pm) + o.fee == FeeSum(b.since)
    ensures ClosedFees(b.pm) + FeeOf(r.closed) + r.position.fee == FeeSum(b.since) + t.fee
  {
    TradeConserves(o, t.price, t.SignedVolume(), t.fee);
  }

  lemma VolumeMoves(o: Opened, r: Ledger.Traded, t: Trade)
    requires r == OnTrade(o, t.price, t.SignedVolume(), t.fee) && t.SignedVolume() != 0.0
    ensures r.position.volume == 0.0 || Abs(r.position.volume) > DUST
  {
  }

  /** Without a position nothing is held, realised or paid. */
  lemma NothingHeld(b: Books)
    requires Balanced(b)
    ensures var o := OpenOf(b.pm, 0);
      && Raw(b.pm) == CashFlow(b.since) + Times(o.avg, o.volume) + b.lost
      && ClosedFees(b.pm) + o.fee == FeeSum(b.since)
  {
    assert Times(0.0, 0.0) == 0.0;
  }

  /** What receiving a trade does, in terms of what the trade does to the position. */
  lemma ReceiveMoves(pm: Pm, t: Trade, o: Opened, r: Ledger.Traded)
    requires o == OpenOf(pm, t.ts) && r == OnTrade(o, t.price, t.SignedVolume(), t.fee)
    requires t.SignedVolume() != 0.0 && Receive(pm, t).pm.position.Some?
    requires pm.position.None? ==> pm.closed.None?
    ensures var pm' := Receive(pm, t).pm;
      && pm'.position == Some(r.position)
      && Raw(pm') == Raw(pm) + RawOf(r.closed)
      && ClosedFees(pm') == ClosedFees(pm) + FeeOf(r.closed)
  {
  }

  /** What posting keeps holds of the books of every sequence. */
  lemma {:induction false} BooksKeep(p: Books -> bool, ok: Trade -> bool, trades: seq<Trade>)
    requires p(Books(NO_POSITION, [], 0.0))
    requires forall b, t :: p(b) && ok(t) ==> p(Post(b, t))
    requires forall i :: 0 <= i < |trades| ==> ok(trades[i])
    ensures p(BooksOf(trades))
  {
    if trades != [] {
      BooksKeep(p, ok, trades[..|trades| - 1]);
    }
  }

  /** Conservation for every trade sequence, flips through zero included. */
  lemma LedgerConserves(trades: seq<Trade>)
    ensures Balanced(BooksOf(trades))
  {
    forall b, t | Balanced(b) ensures Balanced(Post(b, t)) {
      PostBalances(b, t);
    }
    BooksKeep(b => Balanced(b), t => true, trades);
  }

  /** The books are those of the manager, and their trades are the latest of the sequence. */
  lemma {:induction false} BooksFollowManager(trades: seq<Trade>)
    ensures BooksOf(trades).pm == Fold(trades)
    ensures var since := BooksOf(trades).since; |since| <= |trades| && since == trades[|trades| - |since|..]
  {
    if trades != [] {
      BooksFollowManager(trades[..|trades| - 1]);
    }
  }

  // ----- the close -----

  /** The volume that a full close leaves unaccounted for. */
  function Residual(pm: Pm, t: Trade): real {
    Volume(pm) + t.SignedVolume()
  }

  /** The entry fee that a full close attributes to no one. */
  function LeftoverFee(pm: Pm, t: Trade): real {
    OnTrade(OpenOf(pm, t.ts), t.price, t.SignedVolume(), t.fee).position.fee
  }

  ghost predicate ClosesFully(pm: Pm, t: Trade) {
    pm.position.Some? && Receive(pm, t).pm.position.None?
  }

  /**
   * At a full close the reported profit is the cash flow of the position's trades less their fees,
   * off by exactly the residual at the average price, the leftover entry fee, and what dust has lost.
   */
  lemma FullCloseReportsCashFlow(b: Books, t: Trade)
    requires Balanced(b) && ClosesFully(b.pm, t)
    ensures var r := Receive(b.pm, t).result;
      var trades := b.since + [t];
      && r.Some? && r.value.closeTs == Some(t.ts) && r.value.openTs == b.pm.position.value.openTs
      && r.value.pnl == CashFlow(trades) - FeeSum(trades) + Times(b.pm.position.value.avg, Residual(b.pm, t))
                        + LeftoverFee(b.pm, t) + b.lost
      && r.value.fees == FeeSum(trades) - LeftoverFee(b.pm, t)
    ensures Abs(Residual(b.pm, t)) <= DUST
    ensures Times(LeftoverFee(b.pm, t), Abs(Volume(b.pm)))
         == Times(b.pm.position.value.fee, Abs(Volume(b.pm)) - Abs(t.SignedVolume()))
    ensures Abs(Abs(Volume(b.pm)) - Abs(t.SignedVolume())) == Abs(Residual(b.pm, t))
  {
    var o := b.pm.position.value;
    var v := t.SignedVolume();
    SumsAppend(b.since, t);
    TradeConserves(o, t.price, v, t.fee);
    SnapSplits(o.avg, o.volume + v);
    assert Times(o.avg, 0.0) == 0.0;
    LeftoverShare(o, v);
  }

  lemma LeftoverShare(o: Opened, v: real)
    requires o.volume != 0.0
    ensures Times(o.fee - ExtractedFee(o, v), Abs(o.volume)) == Times(o.fee, Abs(o.volume) - Abs(v))
  {
    var a, x := Abs(o.volume), Abs(v);
    DivideThenTimes(o.fee, a);
    ThreeFactors(o.fee, o.fee / a, x, a);
  }

  lemma ThreeFactors(fee: real, share: real, x: real, a: real)
    requires Times(share, a) == fee
    ensures Times(fee - Times(x, share), a) == Times(fee, a - x)
  {
  }

  // ----- when the error vanishes -----

  /** Dust loses nothing as long as every trade is larger than dust. */
  lemma NothingLost(trades: seq<Trade>)
    requires forall i :: 0 <= i < |trades| ==> Abs(trades[i].SignedVolume()) > DUST
    ensures BooksOf(trades).lost == 0.0
  {
    forall b, t: Trade | Balanced(b) && b.lost == 0.0 && Abs(t.SignedVolume()) > DUST
      ensures Balanced(Post(b, t)) && Post(b, t).lost == 0.0
    {
      PostBalances(b, t);
      LargeTradeLosesNothing(b, t);
    }
    BooksKeep(b => Balanced(b) && b.lost == 0.0, (t: Trade) => Abs(t.SignedVolume()) > DUST, trades);
  }

  lemma LargeTradeLosesNothing(b: Books, t: Trade)
    requires Balanced(b) && b.lost == 0.0 && Abs(t.SignedVolume()) > DUST
    ensures Post(b, t).lost == 0.0
  {
    var o := OpenOf(b.pm, t.ts);
    assert Times(AverageAfter(o, t), 0.0) == 0.0;
  }

  /** With trades larger than dust the error is exactly the residual and the leftover fee. */
  lemma LargeTradesReport(trades: seq<Trade>, t: Trade)
    requires forall i :: 0 <= i < |trades| ==> Abs(trades[i].SignedVolume()) > DUST
    requires ClosesFully(Fold(trades), t)
    ensures var pm := Fold(trades);
      var all := BooksOf(trades).since + [t];
      && Receive(pm, t).result.Some?
      && Receive(pm, t).result.value.pnl
         == CashFlow(all) - FeeSum(all) + Times(pm.position.value.avg, Residual(pm, t)) + LeftoverFee(pm, t)
      && Abs(Residual(pm, t)) <= DUST
  {
    LedgerConserves(trades);
    BooksFollowManager(trades);
    NothingLost(trades);
    FullCloseReportsCashFlow(BooksOf(trades), t);
  }

  lemma LotsHaveNoDust(step: real, a: real, v: real)
    requires step > DUST && IsLot(step, a) && IsLot(step, v)
    ensures Snapped(a + v) == 0.0 && (Abs(a + v) <= DUST ==> a + v == 0.0)
  {
    LotsAdd(step, a, v);
    if Abs(a + v) <= DUST {
      SmallLotIsZero(step, a + v);
    }
  }

  lemma WithoutDustNothingIsLost(b: Books, t: Trade)
    requires b.lost == 0.0 && (t.SignedVolume() != 0.0 ==> Snapped(Volume(b.pm) + t.SignedVolume()) == 0.0)
    ensures Post(b, t).lost == 0.0
  {
    assert Times(AverageAfter(OpenOf(b.pm, t.ts), t), 0.0) == 0.0;
  }

  /** A full close by a whole-lot trade is exact. */
  lemma LotCloseIsExact(step: real, b: Books, t: Trade)
    requires step > DUST && Balanced(b) && IsLot(step, Volume(b.pm)) && IsLot(step, t.SignedVolume())
    requires ClosesFully(b.pm, t)
    ensures Residual(b.pm, t) == 0.0 && LeftoverFee(b.pm, t) == 0.0
  {
    LotsHaveNoDust(step, Volume(b.pm), t.SignedVolume());
    FullCloseReportsCashFlow(b, t);
    NoLeftover(b.pm.position.value.fee, LeftoverFee(b.pm, t), Abs(Volume(b.pm)), Abs(t.SignedVolume()));
  }

  lemma NoLeftover(fee: real, leftover: real, volume: real, v: real)
    requires Times(leftover, volume) == Times(fee, volume - v) && volume == v && volume != 0.0
    ensures leftover == 0.0
  {
    assert Times(fee, 0.0) == 0.0;
    ZeroProduct(leftover, volume);
  }

  lemma ZeroProduct(a: real, b: real)
    requires Times(a, b) == 0.0 && b != 0.0
    ensures a == 0.0
  {
  }

  ghost predicate LotBooks(step: real, b: Books) {
    Balanced(b) && b.lost == 0.0 && IsLot(step, Volume(b.pm))
  }

  lemma LotTradeKeepsLotBooks(step: real, b: Books, t: Trade)
    requires step > DUST && LotBooks(step, b) && IsLot(step, t.SignedVolume())
    ensures LotBooks(step, Post(b, t))
  {
    PostBalances(b, t);
    LotsHaveNoDust(step, Volume(b.pm), t.SignedVolume());
    WithoutDustNothingIsLost(b, t);
    ReceiveLotVolume(step, b.pm, t);
  }

  lemma LotsLoseNothing(step: real, trades: seq<Trade>)
    requires step > DUST && forall i :: 0 <= i < |trades| ==> IsLot(step, trades[i].SignedVolume())
    ensures LotBooks(step, BooksOf(trades))
  {
    assert 0.0 == LotsOf(0, step);
    forall b, t: Trade | LotBooks(step, b) && IsLot(step, t.SignedVolume()) ensures LotBooks(step, Post(b, t)) {
      LotTradeKeepsLotBooks(step, b, t);
    }
    BooksKeep(b => LotBooks(step, b), (t: Trade) => IsLot(step, t.SignedVolume()), trades);
  }

  /** Whole lots larger than dust: every full close reports exactly the cash flow less the fees. */
  lemma LotsReportExactly(step: real, trades: seq<Trade>, t: Trade)
    requires step > DUST && forall i :: 0 <= i < |trades| ==> IsLot(step, trades[i].SignedVolume())
    requires IsLot(step, t.SignedVolume()) && ClosesFully(Fold(trades), t)
    ensures var all := BooksOf(trades).since + [t];
      var r := Receive(Fold(trades), t).result;
      r.Some? && r.value.pnl == CashFlow(all) - FeeSum(all) && r.value.fees == FeeSum(all)
  {
    BooksFollowManager(trades);
    LotsLoseNothing(step, trades);
    LotCloseIsExact(step, BooksOf(trades), t);
    FullCloseReportsCashFlow(BooksOf(trades), t);
    assert Times(Fold(trades).position.value.avg, 0.0) == 0.0;
  }

  // ----- the whole sequence of trades -----

  /** What a full close reports. */
  function ReportedBy(pm: Pm, t: Trade): real {
    var r := Receive(pm, t).result;
    if r.Some? && r.value.closeTs.Some? then r.value.pnl else 0.0
  }

  /** By how much the profit that a full close reports is off. */
  ghost function ErrorOf(b: Books, t: Trade): real {
    if ClosesFully(b.pm, t) then Times(OpenOf(b.pm, t.ts).avg, Residual(b.pm, t)) + LeftoverFee(b.pm, t) + b.lost
    else 0.0
  }

  /** The sum of the profits that full closes have reported. */
  function Reported(trades: seq<Trade>): real {
    if trades == [] then 0.0
    else Reported(trades[..|trades| - 1]) + ReportedBy(Fold(trades[..|trades| - 1]), trades[|trades| - 1])
  }

  ghost function CloseErrors(trades: seq<Trade>): real {
    if trades == [] then 0.0
    else CloseErrors(trades[..|trades| - 1]) + ErrorOf(BooksOf(trades[..|trades| - 1]), trades[|trades| - 1])
  }

  /** Cash flow less fees. */
  function Net(trades: seq<Trade>): real {
    CashFlow(trades) - FeeSum(trades)
  }

  lemma NetAppend(trades: seq<Trade>, since: seq<Trade>, t: Trade)
    ensures Net(trades + [t]) - Net(trades) == Net(since + [t]) - Net(since)
  {
    SumsAppend(trades, t);
    SumsAppend(since, t);
  }

  /** A full close accounts for the trades of its position. */
  lemma CloseAccounts(b: Books, t: Trade)
    requires Balanced(b)
    ensures ReportedBy(b.pm, t) - ErrorOf(b, t) == Net(b.since + [t]) - Net(Post(b, t).since)
  {
    if ClosesFully(b.pm, t) {
      FullCloseReportsCashFlow(b, t);
    }
  }

  /** The positions that are closed account for all trades before the open one. */
  ghost predicate Accounts(trades: seq<Trade>) {
    Reported(trades) - CloseErrors(trades) == Net(trades) - Net(BooksOf(trades).since)
  }

  /** What holds of no trades and is kept by one more holds of every sequence. */
  lemma {:induction false} ForEverySequence(p: seq<Trade> -> bool, trades: seq<Trade>)
    requires p([]) && forall before, t :: p(before) ==> p(before + [t])
    ensures p(trades)
  {
    if trades != [] {
      ForEverySequence(p, trades[..|trades| - 1]);
      assert trades == trades[..|trades| - 1] + [trades[|trades| - 1]];
    }
  }

  lemma ClosedPositionsAccount(trades: seq<Trade>)
    ensures Accounts(trades)
  {
    forall before, t | Accounts(before) ensures Accounts(before + [t]) {
      OneMoreAccounts(before, t);
    }
    ForEverySequence(s => Accounts(s), trades);
  }

  lemma OneMoreAccounts(before: seq<Trade>, t: Trade)
    requires Accounts(before)
    ensures Accounts(before + [t])
  {
    var b := BooksOf(before);
    LedgerConserves(before);
    BooksFollowManager(before);
    CloseAccounts(b, t);
    NetAppend(before, b.since, t);
    Unfolded(before, t);
    AddUp(Reported(before), ReportedBy(b.pm, t), CloseErrors(before), ErrorOf(b, t), Net(before), Net(before + [t]),
          Net(b.since), Net(b.since + [t]), Net(Post(b, t).since));
  }

  lemma Unfolded(before: seq<Trade>, t: Trade)
    ensures Reported(before + [t]) == Reported(before) + ReportedBy(Fold(before), t)
    ensures CloseErrors(before + [t]) == CloseErrors(before) + ErrorOf(BooksOf(before), t)
    ensures BooksOf(before + [t]) == Post(BooksOf(before), t)
  {
    assert (before + [t])[..|before|] == before;
  }

  lemma AddUp(r: real, dr: real, e: real, de: real, n: real, n': real, s: real, s': real, after: real)
    requires r - e == n - s && dr - de == s' - after && n' - n == s' - s
    ensures (r + dr) - (e + de) == n' - after
  {
  }

  /**
   * Over the whole sequence, flips and full closes included: the reported profits and what the open position
   * has realised are the cash flow of all trades less all fees, plus what the open position is worth at its
   * average price and the entry fee that it still carries, off by exactly the errors of the full closes and
   * what dust has lost on the open position.
   */
  lemma SequenceConserves(trades: seq<Trade>)
    ensures var b := BooksOf(trades);
      var o := OpenOf(b.pm, 0);
      Reported(trades) + (Raw(b.pm) - ClosedFees(b.pm))
        == CashFlow(trades) - FeeSum(trades) + Times(o.avg, o.volume) + o.fee + CloseErrors(trades) + b.lost
  {
    ClosedPositionsAccount(trades);
    LedgerConserves(trades);
    NothingHeld(BooksOf(trades));
  }

  /** With whole lots larger than dust there is no error. */
  lemma LotSequenceConserves(step: real, trades: seq<Trade>)
    requires step > DUST && forall i :: 0 <= i < |trades| ==> IsLot(step, trades[i].SignedVolume())
    ensures var pm := Fold(trades);
      var o := OpenOf(pm, 0);
      Reported(trades) + (Raw(pm) - ClosedFees(pm))
        == CashFlow(trades) - FeeSum(trades) + Times(o.avg, o.volume) + o.fee
  {
    SequenceConserves(trades);
    BooksFollowManager(trades);
    LotsLoseNothing(step, trades);
    NoCloseErrors(step, trades);
  }

  lemma {:induction false} NoCloseErrors(step: real, trades: seq<Trade>)
    requires step > DUST && forall i :: 0 <= i < |trades| ==> IsLot(step, trades[i].SignedVolume())
    ensures CloseErrors(trades) == 0.0
  {
    if trades != [] {
      var n := |trades| - 1;
      NoCloseErrors(step, trades[..n]);
      LotsLoseNothing(step, trades[..n]);
      BooksFollowManager(trades[..n]);
      if ClosesFully(BooksOf(trades[..n]).pm, trades[n]) {
        LotCloseIsExact(step, BooksOf(trades[..n]), trades[n]);
        assert Times(OpenOf(BooksOf(trades[..n]).pm, trades[n].ts).avg, 0.0) == 0.0;
      }
    }
  }

  // ----- what a trade reports -----

  /** The trade is on the other side of the open position and has a volume. */
  predicate Reduces(pm: Pm, t: Trade) {
    && pm.position.Some? && pm.position.value.volume != 0.0 && t.SignedVolume() != 0.0
    && (t.SignedVolume() < 0.0) != (pm.position.value.volume < 0.0)
  }

  /**
   * Which trades report a result: exactly those that reduce, close or turn round a position. It is a partial
   * one exactly if more than dust is left.
   */
  lemma ReducingTradesReport(pm: Pm, t: Trade)
    ensures var r := Receive(pm, t).result;
      && (r.Some? <==> Reduces(pm, t))
      && (r.Some? ==>
            && r.value.openTs == pm.position.value.openTs
            && (r.value.closeTs.None? <==> Abs(Volume(pm) + t.SignedVolume()) > DUST)
            && (r.value.closeTs.Some? ==> r.value.closeTs == Some(t.ts)))
  {
  }

  /**
   * What one trade does to an open position: a reducing trade realises its distance from the average price,
   * which stays, and takes its share of the entry fee along; any other trade realises nothing and moves the
   * average toward its own price.
   */
  lemma ReducingKeepsAverage(o: Opened, price: real, v: real, fee: real)
    requires o.volume != 0.0 && v != 0.0
    ensures var r := OnTrade(o, price, v, fee);
      if (v < 0.0) != (o.volume < 0.0) then
        && r.position.avg == o.avg && r.closed.Some? && r.closed.value.volume == v
        && RawOf(r.closed) == Times(price - o.avg, -v)
        && FeeOf(r.closed) == fee + (o.fee - r.position.fee)
        && Times(o.fee - r.position.fee, Abs(o.volume)) == Times(o.fee, Abs(v))
      else
        && r.closed.None? && r.position.fee == o.fee + fee
        && (o.avg <= price ==> o.avg <= r.position.avg <= price)
        && (price <= o.avg ==> price <= r.position.avg <= o.avg)
  {
    if (v < 0.0) != (o.volume < 0.0) {
      LeftoverShare(o, v);
      ShareTaken(o.fee, ExtractedFee(o, v), Abs(o.volume), Abs(v));
    } else {
      AverageBetween(o.avg, price, o.volume, v);
    }
  }

  lemma ShareTaken(fee: real, share: real, volume: real, v: real)
    requires Times(fee - share, volume) == Times(fee, volume - v)
    ensures Times(share, volume) == Times(fee, v)
  {
  }

  /** A mean with weights of the same sign lies between its two values. */
  lemma AverageBetween(a: real, b: real, u: real, v: real)
    requires (u < 0.0 && v < 0.0) || (u > 0.0 && v > 0.0)
    ensures var m := (Times(a, u) + Times(b, v)) / (u + v);
      (a <= b ==> a <= m <= b) && (b <= a ==> b <= m <= a)
  {
    var m := (Times(a, u) + Times(b, v)) / (u + v);
    var x := Abs(v) / Abs(u + v);
    assert m == a + Times(b - a, x) by {
      MeanAsShift(a, b, u, v, x);
    }
    PartOfWhole(Abs(v), Abs(u + v));
    ShiftWithin(b - a, x);
    ShiftWithin(a - b, x);
    TimesDistributes(0.0, b - a, x);
  }

  lemma PartOfWhole(part: real, whole: real)
    requires 0.0 <= part <= whole && whole > 0.0
    ensures 0.0 <= part / whole <= 1.0
  {
    DivideThenTimes(part, whole);
    if part / whole > 1.0 {
      TimesLess(1.0, part / whole, whole);
    }
  }

  lemma MeanAsShift(a: real, b: real, u: real, v: real, x: real)
    requires u + v != 0.0 && Times(x, u + v) == v
    ensures (Times(a, u) + Times(b, v)) / (u + v) == a + Times(b - a, x)
  {
    var s := u + v;
    assert Times(a, u) + Times(b, v) == Times(a, s) + Times(b - a, Times(x, s));
    assert Times(a, s) + Times(b - a, Times(x, s)) == Times(a + Times(b - a, x), s);
    TimesThenDivide(a + Times(b - a, x), s);
  }

  lemma ShiftWithin(d: real, x: real)
    requires 0.0 <= x <= 1.0
    ensures d >= 0.0 ==> 0.0 <= Times(d, x) <= d
  {
    if d >= 0.0 {
      TimesLeq(0.0, x, d);
      TimesLeq(x, 1.0, d);
      TimesCommutes(d, x);
    }
  }

  /** What a trade realises: its distance from the average price, for all that it trades against the position. */
  function RealisedBy(pm: Pm, t: Trade): real {
    if Reduces(pm, t) then Times(t.price - pm.position.value.avg, -t.SignedVolume()) else 0.0
  }

  /** What the trades of the open position have realised, one by one. */
  function Realised(trades: seq<Trade>): real {
    if trades == [] || Fold(trades).position.None? then 0.0
    else Realised(trades[..|trades| - 1]) + RealisedBy(Fold(trades[..|trades| - 1]), trades[|trades| - 1])
  }

  /** The volume that the trades of the open position have traded against it. */
  function Reduced(trades: seq<Trade>): real {
    if trades == [] || Fold(trades).position.None? then 0.0
    else
      var t := trades[|trades| - 1];
      Reduced(trades[..|trades| - 1]) + if Reduces(Fold(trades[..|trades| - 1]), t) then t.SignedVolume() else 0.0
  }

  function ClosedVolume(pm: Pm): real {
    if pm.closed.Some? then pm.closed.value.volume else 0.0
  }

  lemma {:induction false} RealisedIsBooked(trades: seq<Trade>)
    ensures Raw(Fold(trades)) == Realised(trades) && ClosedVolume(Fold(trades)) == Reduced(trades)
    ensures Fold(trades).position.None? ==> Fold(trades) == NO_POSITION
  {
    if trades != [] {
      var n := |trades| - 1;
      RealisedIsBooked(trades[..n]);
      TradeBooks(Fold(trades[..n]), trades[n]);
    }
  }

  lemma TradeBooks(pm: Pm, t: Trade)
    requires pm.position.None? ==> pm == NO_POSITION
    ensures var pm' := Receive(pm, t).pm;
      if pm'.position.None? then pm' == NO_POSITION
      else
        && Raw(pm') == Raw(pm) + RealisedBy(pm, t)
        && ClosedVolume(pm') == ClosedVolume(pm) + if Reduces(pm, t) then t.SignedVolume() else 0.0
  {
  }

  /** An opened position remembers the time of its first trade. */
  ghost predicate OpenedByFirst(b: Books) {
    b.pm.position.Some? ==> b.since != [] && b.pm.position.value.openTs == b.since[0].ts
  }

  lemma OpenTimeIsFirstTrade(trades: seq<Trade>)
    ensures OpenedByFirst(BooksOf(trades)) && Balanced(BooksOf(trades))
  {
    forall b, t | OpenedByFirst(b) && Balanced(b) ensures OpenedByFirst(Post(b, t)) && Balanced(Post(b, t)) {
      PostBalances(b, t);
      OpenTimeStays(b, t);
    }
    BooksKeep(b => OpenedByFirst(b) && Balanced(b), t => true, trades);
  }

  lemma OpenTimeStays(b: Books, t: Trade)
    requires OpenedByFirst(b) && Balanced(b)
    ensures OpenedByFirst(Post(b, t))
  {
  }

  /**
   * After every trade sequence a partial result is what the trades of the open position have realised, one by
   * one, less all their fees but the entry fee still carried; that is also the money that they have brought in,
   * valuing what is still held at the average price.
   */
  lemma PartialCloseReportsRealised(trades: seq<Trade>, t: Trade)
    requires var r := Receive(Fold(trades), t).result; r.Some? && r.value.closeTs.None?
    ensures var r := Receive(Fold(trades), t).result.value;
      var b := BooksOf(trades + [t]);
      && b.pm.position.Some? && b.since == BooksOf(trades).since + [t]
      && var o := b.pm.position.value;
         && r.openTs == b.since[0].ts
         && r.fees == FeeSum(b.since) - o.fee
         && r.pnl == Realised(trades + [t]) - r.fees
         && r.pnl == CashFlow(b.since) + Times(o.avg, o.volume) + b.lost - r.fees
  {
    BooksFollowManager(trades);
    RealisedIsBooked(trades + [t]);
    OpenTimeIsFirstTrade(trades + [t]);
    LedgerConserves(trades + [t]);
    assert (trades + [t])[..|trades|] == trades;
    PartialResult(Fold(trades), t);
  }

  /** A partial result is what the manager has booked on the position so far. */
  lemma PartialResult(pm: Pm, t: Trade)
    requires var r := Receive(pm, t).result; r.Some? && r.value.closeTs.None?
    ensures var r := Receive(pm, t);
      && r.pm.position.Some? && r.result.value.pnl == Raw(r.pm) - ClosedFees(r.pm)
      && r.result.value.fees == ClosedFees(r.pm)
  {
  }

  /** With whole lots larger than dust nothing is lost on the way. */
  lemma LotPartialCloseReports(step: real, trades: seq<Trade>, t: Trade)
    requires step > DUST && forall i :: 0 <= i < |trades| ==> IsLot(step, trades[i].SignedVolume())
    requires IsLot(step, t.SignedVolume())
    requires var r := Receive(Fold(trades), t).result; r.Some? && r.value.closeTs.None?
    ensures var r := Receive(Fold(trades), t).result.value;
      var since := BooksOf(trades).since + [t];
      var pm := Receive(Fold(trades), t).pm;
      && pm.position.Some?
      && r.fees == FeeSum(since) - pm.position.value.fee
      && r.pnl == CashFlow(since) + Times(pm.position.value.avg, pm.position.value.volume) - r.fees
  {
    PartialCloseReportsRealised(trades, t);
    LotsLoseNothing(step, trades + [t]);
    BooksFollowManager(trades + [t]);
    assert (trades + [t])[..|trades|] == trades;
  }

  // ----- positions that hold nothing -----

  ghost predicate AllDust(trades: seq<Trade>) {
    forall i :: 0 <= i < |trades| ==> Abs(trades[i].SignedVolume()) <= DUST
  }

  /** An opened position holds nothing exactly if each of its trades is dust; otherwise it holds more than dust. */
  ghost predicate EmptyExactly(b: Books) {
    b.pm.position.Some? ==>
      && (b.pm.position.value.volume == 0.0 <==> AllDust(b.since))
      && (b.pm.position.value.volume == 0.0 || Abs(b.pm.position.value.volume) > DUST)
      && (b.since != [])
  }

  lemma DustAppend(trades: seq<Trade>, t: Trade)
    ensures AllDust(trades + [t]) <==> AllDust(trades) && Abs(t.SignedVolume()) <= DUST
  {
    if AllDust(trades + [t]) {
      assert (trades + [t])[|trades|] == t;
      assert forall i :: 0 <= i < |trades| ==> (trades + [t])[i] == trades[i];
    }
  }

  lemma PostKeepsEmptyExactly(b: Books, t: Trade)
    requires EmptyExactly(b) && (b.pm.position.None? ==> b.since == [])
    ensures EmptyExactly(Post(b, t)) && (Post(b, t).pm.position.None? ==> Post(b, t).since == [])
  {
    DustAppend(b.since, t);
    ReceiveVolume(b.pm, t);
  }

  /**
   * Exactly when the manager keeps a position that holds nothing: after every trade sequence, if and only
   * if none of the trades since it was opened is larger than dust, however many they are and whatever they
   * add up to. Only a trade larger than dust gives such a position a volume.
   */
  lemma EmptyPositionExactly(trades: seq<Trade>)
    requires Fold(trades).position.Some?
    ensures var since := BooksOf(trades).since;
      && 0 < |since| <= |trades| && since == trades[|trades| - |since|..]
      && (Fold(trades).position.value.volume == 0.0 <==> AllDust(since))
  {
    forall b, t | EmptyExactly(b) && (b.pm.position.None? ==> b.since == [])
      ensures EmptyExactly(Post(b, t)) && (Post(b, t).pm.position.None? ==> Post(b, t).since == [])
    {
      PostKeepsEmptyExactly(b, t);
    }
    BooksKeep(b => EmptyExactly(b) && (b.pm.position.None? ==> b.since == []), t => true, trades);
    BooksFollowManager(trades);
  }

  /**
   * A first trade opens a position that holds nothing exactly if it is dust; its fee is booked unless it has no
   * volume.
   */
  lemma DustOpensEmptyPosition(t: Trade)
    ensures var pm := Receive(NO_POSITION, t).pm;
      && pm.position.Some?
      && (pm.position.value.volume == 0.0 <==> Abs(t.SignedVolume()) <= DUST)
      && pm.position.value.fee == (if t.SignedVolume() == 0.0 then 0.0 else t.fee)
  {
    ReceiveVolume(NO_POSITION, t);
  }

  /** Of a trade without volume not even the fee is accounted for. */
  lemma EmptyTradeOpensPosition(t: Trade)
    requires t.volume == 0.0
    ensures Receive(NO_POSITION, t).pm.position == Some(Opened(0.0, 0.0, 0.0, t.ts))
  {
  }
}
