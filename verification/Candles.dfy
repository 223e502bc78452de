/** Candle building (frontend/crypto/util/CandleBuiler.cpp) and its declarative specification. */
module Candles {
  import opened Common

  /** A trade of the market-data stream; the sign of the volume is the taker's side. */
  datatype PublicTrade = PublicTrade(ts: nat, price: real, volume: real)

  datatype Candle = Candle(ts: int, open: real, high: real, low: real, close: real, buy: real, sell: real, count: nat)

  /** The fields of the class, as a value; a zero start stands for "no candle yet". */
  datatype Builder = Builder(
    timeframe: int, start: int, open: real, high: real, low: real, close: real, buy: real, sell: real, count: nat)

  datatype Built = Built(builder: Builder, candles: seq<Candle>)

  function Max(a: real, b: real): real {
    if a < b then b else a
  }

  function Min(a: real, b: real): real {
    if b < a then b else a
  }

  function BuyPart(t: PublicTrade): real {
    if SideOf(t.volume).Buy? then Abs(t.volume) else 0.0
  }

  function SellPart(t: PublicTrade): real {
    if SideOf(t.volume).Buy? then 0.0 else Abs(t.volume)
  }

  function Fresh(timeframe: int): Builder {
    Builder(timeframe, 0, 0.0, 0.0, 0.0, 0.0, 0.0, 0.0, 0)
  }

  /** The candle that the builder holds open. */
  function OpenCandle(b: Builder): Candle {
    Candle(b.start, b.open, b.high, b.low, b.close, b.buy, b.sell, b.count)
  }

  function Flat(ts: int, price: real): Candle {
    Candle(ts, price, price, price, price, 0.0, 0.0, 0)
  }

  function Frame(timeframe: int, ts: int): int
    requires timeframe > 0
  {
    ts / timeframe
  }

  /** `n` empty candles after frame `saved`. */
  function Gap(timeframe: int, saved: int, n: int, price: real): (r: seq<Candle>)
    ensures |r| == if n < 0 then 0 else n
    ensures forall i :: 0 <= i < |r| ==> r[i] == FlatAt(timeframe, saved + 1 + i, price)
  {
    seq(if n < 0 then 0 else n, i requires 0 <= i => FlatAt(timeframe, saved + 1 + i, price))
  }

  /** The empty candle of frame `f`. */
  function FlatAt(timeframe: int, f: int, price: real): Candle {
    Flat(f * timeframe, price)
  }

  /** `push_trade`. */
  function Push(b: Builder, t: PublicTrade): Built
    requires b.timeframe > 0 && b.start >= 0
  {
    var current := Frame(b.timeframe, t.ts);
    var saved := Frame(b.timeframe, b.start);
    var start := current * b.timeframe;
    if current == saved then
      Built(Builder(b.timeframe, start, b.open, Max(b.high, t.price), Min(b.low, t.price), t.price,
                    b.buy + BuyPart(t), b.sell + SellPart(t), b.count + 1),
            [])
    else
      Built(Builder(b.timeframe, start, t.price, t.price, t.price, t.price, BuyPart(t), SellPart(t), 1),
            if b.start == 0 then []
            else [OpenCandle(b)] + Gap(b.timeframe, saved, current - saved - 1, b.close))
  }

  /** All candles emitted by a whole stream, and the final builder. */
  function Feed(timeframe: int, trades: seq<PublicTrade>): (r: Built)
    requires timeframe > 0
    ensures r.builder.timeframe == timeframe && r.builder.start >= 0
  {
    if trades == [] then Built(Fresh(timeframe), [])
    else
      var n := |trades| - 1;
      var before := Feed(timeframe, trades[..n]);
      var now := Push(before.builder, trades[n]);
      StartIsNonNegative(before.builder, trades[n]);
      Built(now.builder, before.candles + now.candles)
  }

  lemma StartIsNonNegative(b: Builder, t: PublicTrade)
    requires b.timeframe > 0 && b.start >= 0
    ensures 0 <= Push(b, t).builder.start <= t.ts
    ensures Frame(b.timeframe, Push(b, t).builder.start) == Frame(b.timeframe, t.ts)
  {
    FrameStart(b.timeframe, t.ts);
  }

  lemma FrameStart(timeframe: int, ts: int)
    requires timeframe > 0 && ts >= 0
    ensures 0 <= Frame(timeframe, ts) * timeframe <= ts < (Frame(timeframe, ts) + 1) * timeframe
    ensures Frame(timeframe, Frame(timeframe, ts) * timeframe) == Frame(timeframe, ts)
  {
  }

  // ----- the specification: group by frame -----

  /** The trades of frame `f`, in order. */
  function InFrame(timeframe: int, trades: seq<PublicTrade>, f: int): seq<PublicTrade>
    requires timeframe > 0
  {
    if trades == [] then []
    else
      var n := |trades| - 1;
      InFrame(timeframe, trades[..n], f) + if Frame(timeframe, trades[n].ts) == f then [trades[n]] else []
  }

  function Highest(trades: seq<PublicTrade>): real
    requires trades != []
  {
    var n := |trades| - 1;
    if n == 0 then trades[0].price else Max(Highest(trades[..n]), trades[n].price)
  }

  function Lowest(trades: seq<PublicTrade>): real
    requires trades != []
  {
    var n := |trades| - 1;
    if n == 0 then trades[0].price else Min(Lowest(trades[..n]), trades[n].price)
  }

  function BuyVolume(trades: seq<PublicTrade>): real {
    if trades == [] then 0.0 else BuyVolume(trades[..|trades| - 1]) + BuyPart(trades[|trades| - 1])
  }

  function SellVolume(trades: seq<PublicTrade>): real {
    if trades == [] then 0.0 else SellVolume(trades[..|trades| - 1]) + SellPart(trades[|trades| - 1])
  }

  /** The price of the last trade before frame `f`. */
  function CloseBefore(timeframe: int, trades: seq<PublicTrade>, f: int): real
    requires timeframe > 0
  {
    if trades == [] then 0.0
    else
      var n := |trades| - 1;
      if Frame(timeframe, trades[n].ts) < f then trades[n].price else CloseBefore(timeframe, trades[..n], f)
  }

  /** The candle of frame `f`: aligned, first/max/min/last of its trades, flat when it has none. */
  function CandleAt(timeframe: int, trades: seq<PublicTrade>, f: int): Candle
    requires timeframe > 0
  {
    var own := InFrame(timeframe, trades, f);
    if own == [] then FlatAt(timeframe, f, CloseBefore(timeframe, trades, f))
    else
      Candle(f * timeframe, own[0].price, Highest(own), Lowest(own), own[|own| - 1].price,
             BuyVolume(own), SellVolume(own), |own|)
  }

  /** One candle for every frame from the first trade's to the one before the last trade's. */
  function Expected(timeframe: int, trades: seq<PublicTrade>): (r: seq<Candle>)
    requires timeframe > 0 && Ordered(trades) && trades != []
    ensures |r| == Frame(timeframe, trades[|trades| - 1].ts) - Frame(timeframe, trades[0].ts)
  {
    var first := Frame(timeframe, trades[0].ts);
    var last := Frame(timeframe, trades[|trades| - 1].ts);
    FramesAscend(timeframe, trades[0].ts, trades[|trades| - 1].ts);
    seq(last - first, i requires 0 <= i => CandleAt(timeframe, trades, first + i))
  }

  lemma FramesAscend(timeframe: int, a: int, b: int)
    requires timeframe > 0 && a <= b
    ensures Frame(timeframe, a) <= Frame(timeframe, b)
  {
    FrameBounds(timeframe, a);
    FrameBounds(timeframe, b);
  }

  lemma FrameBounds(timeframe: int, ts: int)
    requires timeframe > 0
    ensures Frame(timeframe, ts) * timeframe <= ts < (Frame(timeframe, ts) + 1) * timeframe
  {
  }

  ghost predicate Ordered(trades: seq<PublicTrade>) {
    forall i, j :: 0 <= i < j < |trades| ==> trades[i].ts <= trades[j].ts
  }

  lemma NoneBeyond(timeframe: int, trades: seq<PublicTrade>, f: int)
    requires timeframe > 0
    requires forall i :: 0 <= i < |trades| ==> Frame(timeframe, trades[i].ts) < f
    ensures InFrame(timeframe, trades, f) == []
    ensures trades != [] ==> CloseBefore(timeframe, trades, f) == trades[|trades| - 1].price
  {
  }

  /** Later trades do not change the candle of an earlier frame. */
  lemma EarlierFramesSettled(timeframe: int, trades: seq<PublicTrade>, t: PublicTrade, f: int)
    requires timeframe > 0 && f < Frame(timeframe, t.ts)
    ensures CandleAt(timeframe, trades + [t], f) == CandleAt(timeframe, trades, f)
  {
    var longer := trades + [t];
    assert longer[..|trades|] == trades && longer[|trades|] == t;
    var own := InFrame(timeframe, trades, f);
    assert own + [] == own;
  }

  lemma AppendToFrame(timeframe: int, trades: seq<PublicTrade>, t: PublicTrade)
    requires timeframe > 0
    ensures InFrame(timeframe, trades + [t], Frame(timeframe, t.ts))
         == InFrame(timeframe, trades, Frame(timeframe, t.ts)) + [t]
  {
  }

  /** What one more trade does to the measures of a group. */
  lemma GroupAppend(own: seq<PublicTrade>, t: PublicTrade)
    ensures Highest(own + [t]) == if own == [] then t.price else Max(Highest(own), t.price)
    ensures Lowest(own + [t]) == if own == [] then t.price else Min(Lowest(own), t.price)
    ensures BuyVolume(own + [t]) == BuyVolume(own) + BuyPart(t)
    ensures SellVolume(own + [t]) == SellVolume(own) + SellPart(t)
  {
  }

  /** The last trade's own frame is not empty and ends with that trade. */
  lemma LastFrame(timeframe: int, trades: seq<PublicTrade>)
    requires timeframe > 0 && trades != []
    ensures var last := trades[|trades| - 1];
      var own := InFrame(timeframe, trades, Frame(timeframe, last.ts));
      own != [] && own[|own| - 1] == last
  {
  }

  /**
   * The refinement: for every stream in non-descending order whose first trade lies past frame zero,
   * the emitted candles are exactly the declarative ones, and the open candle is that of the last frame.
   */
  lemma {:induction false} FeedRefinesGrouping(timeframe: int, trades: seq<PublicTrade>)
    requires timeframe > 0 && trades != [] && Ordered(trades) && trades[0].ts >= timeframe
    ensures Feed(timeframe, trades).candles == Expected(timeframe, trades)
    ensures OpenCandle(Feed(timeframe, trades).builder)
         == CandleAt(timeframe, trades, Frame(timeframe, trades[|trades| - 1].ts))
  {
    var n := |trades| - 1;
    var t := trades[n];
    var before := trades[..n];
    var f := Frame(timeframe, t.ts);
    assert trades == before + [t];
    if n == 0 {
      FirstTrade(timeframe, t);
      assert trades == [t];
    } else {
      FeedRefinesGrouping(timeframe, before);
      FeedStep(timeframe, before, t);
    }
  }

  /** The emitted candles are aligned to the timeframe and follow one another without a gap. */
  lemma CandlesFollowOneAnother(timeframe: int, trades: seq<PublicTrade>)
    requires timeframe > 0 && trades != [] && Ordered(trades) && trades[0].ts >= timeframe
    ensures var candles := Feed(timeframe, trades).candles;
      && (forall i :: 0 <= i < |candles| ==> candles[i].ts == (Frame(timeframe, trades[0].ts) + i) * timeframe)
      && (forall i :: 0 < i < |candles| ==> candles[i].ts == candles[i - 1].ts + timeframe)
  {
    FeedRefinesGrouping(timeframe, trades);
    var candles := Feed(timeframe, trades).candles;
    forall i | 0 <= i < |candles| ensures candles[i].ts == (Frame(timeframe, trades[0].ts) + i) * timeframe {
    }
    forall i | 0 < i < |candles| ensures candles[i].ts == candles[i - 1].ts + timeframe {
      NextMultiple(Frame(timeframe, trades[0].ts) + i - 1, timeframe);
    }
  }

  // ----- what the specification means -----

  /** The number of trades before a point in time; for trades in order, the index of the first later one. */
  function CountBefore(trades: seq<PublicTrade>, ts: int): (n: nat)
    ensures n <= |trades|
  {
    if trades == [] then 0
    else CountBefore(trades[..|trades| - 1], ts) + if trades[|trades| - 1].ts < ts then 1 else 0
  }

  lemma {:induction false} CountSplits(trades: seq<PublicTrade>, ts: int)
    requires Ordered(trades)
    ensures forall i :: 0 <= i < |trades| ==> (i < CountBefore(trades, ts) <==> trades[i].ts < ts)
  {
    if trades != [] {
      CountSplits(trades[..|trades| - 1], ts);
    }
  }

  /** The trades from one point in time until another. */
  function Range(trades: seq<PublicTrade>, from: int, until: int): seq<PublicTrade> {
    var lo, hi := CountBefore(trades, from), CountBefore(trades, until);
    if lo <= hi then trades[lo..hi] else []
  }

  /** If the last of some trades in order is early, so are all of them. */
  lemma CountOfLast(trades: seq<PublicTrade>, ts: int)
    requires trades != [] && Ordered(trades)
    ensures var n := |trades| - 1;
      if trades[n].ts < ts then CountBefore(trades, ts) == n + 1 && CountBefore(trades[..n], ts) == n
      else CountBefore(trades, ts) == CountBefore(trades[..n], ts)
  {
    CountSplits(trades, ts);
    if trades[|trades| - 1].ts < ts {
      assert |trades| - 1 < CountBefore(trades, ts);
    }
  }

  lemma CountGrows(trades: seq<PublicTrade>, from: int, until: int)
    requires from <= until
    ensures CountBefore(trades, from) <= CountBefore(trades, until)
  {
  }

  /** One trade more extends the range if it lies in it. */
  lemma RangeGrows(trades: seq<PublicTrade>, from: int, until: int)
    requires trades != [] && Ordered(trades) && from < until
    ensures var n := |trades| - 1;
      Range(trades, from, until)
      == Range(trades[..n], from, until) + if from <= trades[n].ts < until then [trades[n]] else []
    ensures CountBefore(trades, from) <= CountBefore(trades, until)
  {
    var n := |trades| - 1;
    CountOfLast(trades, from);
    CountOfLast(trades, until);
    CountGrows(trades[..n], from, until);
    SliceGrows(trades, CountBefore(trades[..n], from), CountBefore(trades[..n], until));
  }

  lemma SliceGrows(trades: seq<PublicTrade>, lo: nat, hi: nat)
    requires trades != [] && lo <= hi < |trades|
    ensures trades[..|trades| - 1][lo..hi] == trades[lo..hi]
    ensures trades[lo..|trades|] == trades[lo..|trades| - 1] + [trades[|trades| - 1]]
    ensures trades[|trades|..|trades|] == []
  {
  }

  lemma {:induction false} InFrameIsRange(timeframe: int, trades: seq<PublicTrade>, f: int, from: int, until: int)
    requires timeframe > 0 && Ordered(trades) && from == f * timeframe && until == (f + 1) * timeframe
    ensures CountBefore(trades, from) <= CountBefore(trades, until)
    ensures InFrame(timeframe, trades, f) == Range(trades, from, until)
  {
    FrameExactly(timeframe, 0, f);
    if trades != [] {
      var n := |trades| - 1;
      InFrameIsRange(timeframe, trades[..n], f, from, until);
      FrameExactly(timeframe, trades[n].ts, f);
      RangeGrows(trades, from, until);
    }
  }

  lemma FrameExactly(timeframe: int, ts: int, f: int)
    requires timeframe > 0
    ensures Frame(timeframe, ts) == f <==> f * timeframe <= ts < (f + 1) * timeframe
    ensures Frame(timeframe, ts) < f <==> ts < f * timeframe
    ensures f * timeframe < (f + 1) * timeframe
  {
    FrameBounds(timeframe, ts);
    var g := Frame(timeframe, ts);
    if g < f {
      MultipleLeq(g + 1, f, timeframe);
    } else if f < g {
      MultipleLeq(f + 1, g, timeframe);
    }
    MultipleLeq(f, f, timeframe);
  }

  lemma MultipleLeq(a: int, b: int, timeframe: int)
    requires a <= b && timeframe > 0
    ensures a * timeframe <= b * timeframe
    ensures (a + 1) * timeframe == a * timeframe + timeframe
  {
  }

  lemma {:induction false} CloseBeforeIsLast(timeframe: int, trades: seq<PublicTrade>, f: int, from: int)
    requires timeframe > 0 && Ordered(trades) && from == f * timeframe
    ensures var lo := CountBefore(trades, from);
      CloseBefore(timeframe, trades, f) == if lo == 0 then 0.0 else trades[lo - 1].price
  {
    if trades != [] {
      var n := |trades| - 1;
      FrameExactly(timeframe, trades[n].ts, f);
      CloseBeforeIsLast(timeframe, trades[..n], f, from);
      CountSplits(trades, from);
      CountSplits(trades[..n], from);
    }
  }

  lemma {:induction false} ExtremaOfTrades(trades: seq<PublicTrade>)
    requires trades != []
    ensures forall i :: 0 <= i < |trades| ==> Lowest(trades) <= trades[i].price <= Highest(trades)
    ensures exists i :: 0 <= i < |trades| && trades[i].price == Highest(trades)
    ensures exists i :: 0 <= i < |trades| && trades[i].price == Lowest(trades)
  {
    var n := |trades| - 1;
    if n > 0 {
      ExtremaOfTrades(trades[..n]);
      var i :| 0 <= i < n && trades[..n][i].price == Highest(trades[..n]);
      var j :| 0 <= j < n && trades[..n][j].price == Lowest(trades[..n]);
      assert trades[i].price == Highest(trades[..n]) && trades[j].price == Lowest(trades[..n]);
      assert trades[n].price == Highest(trades) || trades[i].price == Highest(trades);
      assert trades[n].price == Lowest(trades) || trades[j].price == Lowest(trades);
    } else {
      assert trades[0].price == Highest(trades) == Lowest(trades);
    }
  }

  /** The volumes of some trades, with their signs and without. */
  function NetVolume(trades: seq<PublicTrade>): real {
    if trades == [] then 0.0 else NetVolume(trades[..|trades| - 1]) + trades[|trades| - 1].volume
  }

  function GrossVolume(trades: seq<PublicTrade>): real {
    if trades == [] then 0.0 else GrossVolume(trades[..|trades| - 1]) + Abs(trades[|trades| - 1].volume)
  }

  lemma {:induction false} VolumesOfTrades(trades: seq<PublicTrade>)
    ensures BuyVolume(trades) - SellVolume(trades) == NetVolume(trades)
    ensures BuyVolume(trades) + SellVolume(trades) == GrossVolume(trades)
    ensures BuyVolume(trades) >= 0.0 && SellVolume(trades) >= 0.0
  {
    if trades != [] {
      VolumesOfTrades(trades[..|trades| - 1]);
    }
  }

  /** The candle sums up some trades that follow one another. */
  ghost predicate SumsUp(c: Candle, trades: seq<PublicTrade>) {
    && c.count == |trades|
    && c.buy - c.sell == NetVolume(trades) && c.buy + c.sell == GrossVolume(trades)
    && c.buy >= 0.0 && c.sell >= 0.0
    && (trades != [] ==>
          && c.open == trades[0].price && c.close == trades[|trades| - 1].price
          && (forall i :: 0 <= i < |trades| ==> c.low <= trades[i].price <= c.high)
          && (exists i :: 0 <= i < |trades| && trades[i].price == c.high)
          && (exists i :: 0 <= i < |trades| && trades[i].price == c.low))
  }

  lemma CandleSumsUp(timeframe: int, trades: seq<PublicTrade>, f: int)
    requires timeframe > 0
    ensures SumsUp(CandleAt(timeframe, trades, f), InFrame(timeframe, trades, f))
  {
    var own := InFrame(timeframe, trades, f);
    VolumesOfTrades(own);
    if own != [] {
      ExtremaOfTrades(own);
    }
  }

  /**
   * What the candle of a frame says of trades in order: it sums up exactly the trades from the frame's begin until
   * its end, or repeats the last price before it.
   */
  lemma CandleMeans(timeframe: int, trades: seq<PublicTrade>, f: int, from: int, until: int)
    requires timeframe > 0 && Ordered(trades) && from == f * timeframe && until == (f + 1) * timeframe
    ensures var c := CandleAt(timeframe, trades, f);
      var lo, hi := CountBefore(trades, from), CountBefore(trades, until);
      && lo <= hi && (forall i :: 0 <= i < |trades| ==> (lo <= i < hi <==> from <= trades[i].ts < until))
      && c.ts == from && SumsUp(c, trades[lo..hi])
      && (lo == hi && lo > 0 ==> c.open == c.high == c.low == c.close == trades[lo - 1].price)
  {
    InFrameIsRange(timeframe, trades, f, from, until);
    CandleSumsUp(timeframe, trades, f);
    CloseBeforeIsLast(timeframe, trades, f, from);
    CountSplits(trades, from);
    CountSplits(trades, until);
  }

  // ----- frame zero -----

  /** A builder that still stands in frame zero hands the first later trade to a new candle, whatever it has seen. */
  lemma ZeroStartForgets(b: Builder, t: PublicTrade)
    requires b.timeframe > 0 && b.start == 0 && t.ts >= b.timeframe
    ensures Push(b, t) == Push(Fresh(b.timeframe), t) && Push(b, t).candles == []
  {
  }

  lemma {:induction false} EarlyStaysAtZero(timeframe: int, early: seq<PublicTrade>)
    requires timeframe > 0 && forall i :: 0 <= i < |early| ==> early[i].ts < timeframe
    ensures Feed(timeframe, early).builder.start == 0 && Feed(timeframe, early).candles == []
  {
    if early != [] {
      var n := |early| - 1;
      EarlyStaysAtZero(timeframe, early[..n]);
      FrameOfZero(timeframe);
      FrameBounds(timeframe, early[n].ts);
      InFrameZero(timeframe, early[n].ts);
    }
  }

  lemma InFrameZero(timeframe: int, ts: nat)
    requires timeframe > 0
    ensures Frame(timeframe, ts) == 0 <==> ts < timeframe
  {
  }

  lemma SameFeedGoesOn(timeframe: int, a: seq<PublicTrade>, b: seq<PublicTrade>, t: PublicTrade)
    requires timeframe > 0 && Feed(timeframe, a) == Feed(timeframe, b)
    ensures Feed(timeframe, a + [t]) == Feed(timeframe, b + [t])
  {
    FeedUnfolds(timeframe, a, t);
    FeedUnfolds(timeframe, b, t);
  }

  lemma FirstAfterEarly(timeframe: int, early: seq<PublicTrade>, t: PublicTrade)
    requires timeframe > 0 && t.ts >= timeframe
    requires forall i :: 0 <= i < |early| ==> early[i].ts < timeframe
    ensures Feed(timeframe, early + [t]) == Feed(timeframe, [t])
  {
    EarlyStaysAtZero(timeframe, early);
    ZeroStartForgets(Feed(timeframe, early).builder, t);
    FeedUnfolds(timeframe, early, t);
    FeedUnfolds(timeframe, [], t);
    assert [] + [t] == [t];
  }

  lemma {:induction false} EarlyTradesAreForgotten(timeframe: int, early: seq<PublicTrade>, later: seq<PublicTrade>)
    requires timeframe > 0 && later != []
    requires forall i :: 0 <= i < |early| ==> early[i].ts < timeframe
    requires forall i :: 0 <= i < |later| ==> later[i].ts >= timeframe
    ensures Feed(timeframe, early + later) == Feed(timeframe, later)
  {
    var n := |later| - 1;
    if n == 0 {
      FirstAfterEarly(timeframe, early, later[0]);
      assert later == [later[0]];
    } else {
      EarlyTradesAreForgotten(timeframe, early, later[..n]);
      SameFeedGoesOn(timeframe, early + later[..n], later[..n], later[n]);
      assert early + later == early + later[..n] + [later[n]] && later == later[..n] + [later[n]];
    }
  }

  /**
   * Exactly when the first trade may lie in frame zero: the emitted candles are the declarative ones if
   * and only if the stream starts past frame zero or never leaves it. Otherwise the candle of frame
   * zero and the gap after it are missing.
   */
  lemma FrameZeroExactly(timeframe: int, early: seq<PublicTrade>, later: seq<PublicTrade>)
    requires timeframe > 0 && early + later != [] && Ordered(early + later)
    requires forall i :: 0 <= i < |early| ==> early[i].ts < timeframe
    requires forall i :: 0 <= i < |later| ==> later[i].ts >= timeframe
    ensures Feed(timeframe, early + later).candles == Expected(timeframe, early + later) <==> early == [] || later == []
    ensures later != [] ==> Ordered(later) && Feed(timeframe, early + later).candles == Expected(timeframe, later)
  {
    var all := early + later;
    if later == [] {
      assert all == early;
      EarlyStaysAtZero(timeframe, early);
      InFrameZero(timeframe, all[0].ts);
      InFrameZero(timeframe, all[|all| - 1].ts);
    } else {
      LaterIsOrdered(early, later);
      EarlyTradesAreForgotten(timeframe, early, later);
      FeedRefinesGrouping(timeframe, later);
      assert all[|all| - 1] == later[|later| - 1];
      if early == [] {
        assert all == later;
      } else {
        assert all[0] == early[0];
        InFrameZero(timeframe, early[0].ts);
        InFrameZero(timeframe, later[0].ts);
        FramesAscend(timeframe, 0, later[0].ts);
      }
    }
  }

  lemma LaterIsOrdered(early: seq<PublicTrade>, later: seq<PublicTrade>)
    requires Ordered(early + later)
    ensures Ordered(later)
  {
    forall i, j | 0 <= i < j < |later| ensures later[i].ts <= later[j].ts {
      assert (early + later)[|early| + i] == later[i] && (early + later)[|early| + j] == later[j];
    }
  }

  lemma NextMultiple(f: int, timeframe: int)
    ensures (f + 1) * timeframe == f * timeframe + timeframe
  {
  }

  lemma FirstTrade(timeframe: int, t: PublicTrade)
    requires timeframe > 0 && t.ts >= timeframe
    ensures Feed(timeframe, [t]).candles == []
    ensures OpenCandle(Feed(timeframe, [t]).builder) == CandleAt(timeframe, [t], Frame(timeframe, t.ts))
  {
    FramesAscend(timeframe, timeframe, t.ts);
    FrameOfZero(timeframe);
    FeedUnfolds(timeframe, [], t);
    assert [] + [t] == [t];
    AppendToFrame(timeframe, [], t);
    GroupAppend([], t);
  }

  lemma FrameOfZero(timeframe: int)
    requires timeframe > 0
    ensures Frame(timeframe, 0) == 0 && Frame(timeframe, timeframe) == 1
  {
  }

  lemma FeedUnfolds(timeframe: int, before: seq<PublicTrade>, t: PublicTrade)
    requires timeframe > 0
    ensures var earlier := Feed(timeframe, before);
      var now := Push(earlier.builder, t);
      Feed(timeframe, before + [t]) == Built(now.builder, earlier.candles + now.candles)
  {
  }

  lemma FeedStep(timeframe: int, before: seq<PublicTrade>, t: PublicTrade)
    requires timeframe > 0 && before != [] && Ordered(before + [t]) && Ordered(before) && before[0].ts >= timeframe
    requires Feed(timeframe, before).candles == Expected(timeframe, before)
    requires OpenCandle(Feed(timeframe, before).builder)
          == CandleAt(timeframe, before, Frame(timeframe, before[|before| - 1].ts))
    ensures Feed(timeframe, before + [t]).candles == Expected(timeframe, before + [t])
    ensures OpenCandle(Feed(timeframe, before + [t]).builder)
         == CandleAt(timeframe, before + [t], Frame(timeframe, t.ts))
  {
    var b := Feed(timeframe, before).builder;
    var last := before[|before| - 1];
    var f, saved := Frame(timeframe, t.ts), Frame(timeframe, last.ts);
    FeedUnfolds(timeframe, before, t);
    ExpectedExtends(timeframe, before, t);
    PastFrameZero(timeframe, before, t);
    LastFrame(timeframe, before);
    OpenCandleStep(timeframe, before, t, b);
  }

  lemma PastFrameZero(timeframe: int, before: seq<PublicTrade>, t: PublicTrade)
    requires timeframe > 0 && before != [] && Ordered(before + [t]) && before[0].ts >= timeframe
    ensures var saved := Frame(timeframe, before[|before| - 1].ts);
      && 1 <= saved <= Frame(timeframe, t.ts)
      && saved * timeframe > 0
      && Frame(timeframe, saved * timeframe) == saved
  {
    var last := before[|before| - 1];
    var trades := before + [t];
    assert trades[|before|] == t && trades[|before| - 1] == last && trades[0] == before[0];
    FramesAscend(timeframe, last.ts, t.ts);
    FramesAscend(timeframe, timeframe, before[0].ts);
    FramesAscend(timeframe, before[0].ts, last.ts);
    FrameOfZero(timeframe);
    FrameStart(timeframe, last.ts);
    StartIsPositive(timeframe, Frame(timeframe, last.ts));
  }

  lemma OpenCandleStep(timeframe: int, before: seq<PublicTrade>, t: PublicTrade, b: Builder)
    requires timeframe > 0 && before != [] && Ordered(before + [t]) && Ordered(before) && before[0].ts >= timeframe
    requires b.timeframe == timeframe && b.start >= 0
    requires OpenCandle(b) == CandleAt(timeframe, before, Frame(timeframe, before[|before| - 1].ts))
    ensures OpenCandle(Push(b, t).builder) == CandleAt(timeframe, before + [t], Frame(timeframe, t.ts))
  {
    var last := before[|before| - 1];
    var f, saved := Frame(timeframe, t.ts), Frame(timeframe, last.ts);
    var own := InFrame(timeframe, before, f);
    PastFrameZero(timeframe, before, t);
    AppendToFrame(timeframe, before, t);
    GroupAppend(own, t);
    LastFrame(timeframe, before);
    if f > saved {
      NoneAfterLast(timeframe, before, f);
    }
  }

  lemma NoneAfterLast(timeframe: int, trades: seq<PublicTrade>, f: int)
    requires timeframe > 0 && trades != [] && Ordered(trades)
    requires Frame(timeframe, trades[|trades| - 1].ts) < f
    ensures InFrame(timeframe, trades, f) == []
    ensures CloseBefore(timeframe, trades, f) == trades[|trades| - 1].price
  {
    forall i | 0 <= i < |trades| ensures Frame(timeframe, trades[i].ts) < f {
      FramesAscend(timeframe, trades[i].ts, trades[|trades| - 1].ts);
    }
    NoneBeyond(timeframe, trades, f);
  }

  lemma StartIsPositive(timeframe: int, frame: int)
    requires timeframe > 0 && frame >= 1
    ensures frame * timeframe > 0
  {
  }

  /** Where the declarative candles of a longer stream come from. */
  lemma ExpectedEntry(timeframe: int, before: seq<PublicTrade>, t: PublicTrade, f: int)
    requires timeframe > 0 && before != [] && Ordered(before) && f < Frame(timeframe, t.ts)
    ensures CandleAt(timeframe, before + [t], f) == CandleAt(timeframe, before, f)
    ensures var last := before[|before| - 1];
      Frame(timeframe, last.ts) < f ==> CandleAt(timeframe, before, f) == FlatAt(timeframe, f, last.price)
  {
    EarlierFramesSettled(timeframe, before, t, f);
    if Frame(timeframe, before[|before| - 1].ts) < f {
      NoneAfterLast(timeframe, before, f);
    }
  }

  /** The declarative side of one more trade: nothing in the same frame, else the open candle and the gap. */
  lemma ExpectedExtends(timeframe: int, before: seq<PublicTrade>, t: PublicTrade)
    requires timeframe > 0 && before != [] && Ordered(before + [t]) && Ordered(before)
    ensures var last := before[|before| - 1];
      var f, saved := Frame(timeframe, t.ts), Frame(timeframe, last.ts);
      Expected(timeframe, before + [t]) == Expected(timeframe, before)
        + if f == saved then []
          else [CandleAt(timeframe, before, saved)] + Gap(timeframe, saved, f - saved - 1, last.price)
  {
    var trades := before + [t];
    var last := before[|before| - 1];
    assert trades[|trades| - 1] == t && trades[|before| - 1] == last && trades[0] == before[0];
    var f, saved, first := Frame(timeframe, t.ts), Frame(timeframe, last.ts), Frame(timeframe, before[0].ts);
    FramesAscend(timeframe, last.ts, t.ts);
    FramesAscend(timeframe, before[0].ts, last.ts);
    forall i | 0 <= i < f - first
      ensures Expected(timeframe, trades)[i] == CandleAt(timeframe, before, first + i)
      ensures first + i > saved ==> Expected(timeframe, trades)[i] == FlatAt(timeframe, first + i, last.price)
    {
      ExpectedEntry(timeframe, before, t, first + i);
    }
  }

  // ----- conservation -----

  function Trades(candles: seq<Candle>): nat {
    if candles == [] then 0 else candles[0].count + Trades(candles[1..])
  }

  function Bought(candles: seq<Candle>): real {
    if candles == [] then 0.0 else candles[0].buy + Bought(candles[1..])
  }

  function Sold(candles: seq<Candle>): real {
    if candles == [] then 0.0 else candles[0].sell + Sold(candles[1..])
  }

  lemma {:induction false} TotalsAdd(a: seq<Candle>, b: seq<Candle>)
    ensures Trades(a + b) == Trades(a) + Trades(b)
    ensures Bought(a + b) == Bought(a) + Bought(b)
    ensures Sold(a + b) == Sold(a) + Sold(b)
  {
    if a == [] {
      assert a + b == b;
    } else {
      assert (a + b)[1..] == a[1..] + b;
      TotalsAdd(a[1..], b);
    }
  }

  lemma {:induction false} EmptyCandlesAddNothing(candles: seq<Candle>)
    requires forall i :: 0 <= i < |candles| ==> candles[i].count == 0 && candles[i].buy == 0.0 && candles[i].sell == 0.0
    ensures Trades(candles) == 0 && Bought(candles) == 0.0 && Sold(candles) == 0.0
  {
    if candles != [] {
      EmptyCandlesAddNothing(candles[1..]);
    }
  }

  /** A push moves the open candle's totals into what it emits and adds the trade to the open candle. */
  lemma PushConserves(b: Builder, t: PublicTrade)
    requires b.timeframe > 0 && b.start >= 0
    requires b.start == 0 ==> b.count == 0 && b.buy == 0.0 && b.sell == 0.0
    ensures var r := Push(b, t);
      && Trades(r.candles) + r.builder.count == b.count + 1
      && Bought(r.candles) + r.builder.buy == b.buy + BuyPart(t)
      && Sold(r.candles) + r.builder.sell == b.sell + SellPart(t)
  {
    var r := Push(b, t);
    if r.candles != [] {
      var gap := r.candles[1..];
      assert r.candles == [OpenCandle(b)] + gap;
      EmptyCandlesAddNothing(gap);
    }
  }

  /** No trade and no volume is lost or counted twice between the emitted candles and the open one. */
  lemma {:induction false} FeedConserves(timeframe: int, trades: seq<PublicTrade>)
    requires timeframe > 0 && forall i :: 0 <= i < |trades| ==> trades[i].ts >= timeframe
    ensures var r := Feed(timeframe, trades);
      && (r.builder.start == 0 <==> trades == [])
      && Trades(r.candles) + r.builder.count == |trades|
      && Bought(r.candles) + r.builder.buy == BuyVolume(trades)
      && Sold(r.candles) + r.builder.sell == SellVolume(trades)
  {
    if trades != [] {
      var n := |trades| - 1;
      FeedConserves(timeframe, trades[..n]);
      var before := Feed(timeframe, trades[..n]);
      PushConserves(before.builder, trades[n]);
      TotalsAdd(before.candles, Push(before.builder, trades[n]).candles);
      FramesAscend(timeframe, timeframe, trades[n].ts);
      FrameOfZero(timeframe);
      StartIsPositive(timeframe, Frame(timeframe, trades[n].ts));
    }
  }

  /** The emitted timestamps ascend strictly and lie between the old and the new open candle's. */
  lemma EmittedTimestamps(b: Builder, t: PublicTrade)
    requires b.timeframe > 0 && b.start >= 0 && b.start == Frame(b.timeframe, b.start) * b.timeframe
    requires b.start <= t.ts
    ensures var r := Push(b, t);
      && b.start <= r.builder.start
      && (forall i :: 0 <= i < |r.candles| ==> b.start <= r.candles[i].ts < r.builder.start)
      && (forall i, j :: 0 <= i < j < |r.candles| ==> r.candles[i].ts < r.candles[j].ts)
  {
    var r := Push(b, t);
    var saved := Frame(b.timeframe, b.start);
    var current := Frame(b.timeframe, t.ts);
    FramesAscend(b.timeframe, b.start, t.ts);
    FrameTimesAscend(b.timeframe, saved, current);
    forall i | 0 <= i < |r.candles|
      ensures r.candles[i].ts == (saved + i) * b.timeframe && b.start <= r.candles[i].ts < r.builder.start
    {
      FrameTimesAscend(b.timeframe, saved, saved + i);
      FrameTimesAscend(b.timeframe, saved + i, current);
    }
    forall i, j | 0 <= i < j < |r.candles| ensures r.candles[i].ts < r.candles[j].ts {
      FrameTimesAscend(b.timeframe, saved + i, saved + j);
    }
  }

  lemma FrameTimesAscend(timeframe: int, f: int, g: int)
    requires timeframe > 0 && f <= g
    ensures f * timeframe <= g * timeframe
    ensures f < g ==> f * timeframe < g * timeframe
  {
  }

  // ----- the class -----

  class CandleBuilder {
    const timeframe: int
    var start: int
    var open: real
    var high: real
    var low: real
    var close: real
    var buyTakerVolume: real
    var sellTakerVolume: real
    var tradesCount: nat

    function State(): Builder
      reads this
    {
      Builder(timeframe, start, open, high, low, close, buyTakerVolume, sellTakerVolume, tradesCount)
    }

    ghost predicate Valid()
      reads this
    {
      timeframe > 0 && start >= 0
    }

    constructor (timeframe: int)
      requires timeframe > 0
      ensures Valid() && State() == Fresh(timeframe)
    {
      this.timeframe := timeframe;
      start, open, high, low, close := 0, 0.0, 0.0, 0.0, 0.0;
      buyTakerVolume, sellTakerVolume, tradesCount := 0.0, 0.0, 0;
    }

    method PushTrade(t: PublicTrade) returns (res: seq<Candle>)
      requires Valid()
      modifies this
      ensures Valid()
      ensures State() == Push(old(State()), t).builder
      ensures res == Push(old(State()), t).candles
    {
      StartIsNonNegative(State(), t);
      var current := t.ts / timeframe;
      var saved := start / timeframe;
      if current == saved {
        high, low, close := Max(high, t.price), Min(low, t.price), t.price;
        buyTakerVolume, sellTakerVolume := buyTakerVolume + BuyPart(t), sellTakerVolume + SellPart(t);
        tradesCount := tradesCount + 1;
        start := current * timeframe;
        return [];
      }
      res := [];
      if start != 0 {
        res := [Candle(start, open, high, low, close, buyTakerVolume, sellTakerVolume, tradesCount)];
        var i := 1;
        while i < current - saved
          invariant i == |res| >= 1
          invariant i <= current - saved || i == 1
          invariant res == [OpenCandle(State())] + Gap(timeframe, saved, i - 1, close)
        {
          res := res + [FlatAt(timeframe, saved + i, close)];
          i := i + 1;
        }
      }
      open, high, low, close := t.price, t.price, t.price, t.price;
      buyTakerVolume, sellTakerVolume := BuyPart(t), SellPart(t);
      tradesCount := 1;
      start := current * timeframe;
    }
  }
}
