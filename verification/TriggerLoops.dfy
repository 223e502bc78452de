/**
 * Which triggered orders a trigger loop of the backtest exchange leaves behind
 * (frontend/crypto/gateway/BacktestTradingGateway.cpp): the element after a fired one is skipped.
 */
module TriggerLoops {
  import opened Common
  import opened Events
  import opened Gateway

  // ----- one pass -----

  /** The list after one pass: of a block of triggered neighbours the first, the third and so on have gone. */
  function Left(k: Kind, l: seq<Request>, price: real): (r: seq<Request>)
    ensures |r| <= |l|
  {
    if l == [] then []
    else if !Triggers(k, l[0], price) then [l[0]] + Left(k, l[1..], price)
    else if |l| == 1 then []
    else [l[1]] + Left(k, l[2..], price)
  }

  /** The last element of the list fires, which makes the pass increment the end of the list. */
  predicate LastFires(k: Kind, l: seq<Request>, price: real) {
    l != [] &&
    if !Triggers(k, l[0], price) then LastFires(k, l[1..], price)
    else |l| == 1 || LastFires(k, l[2..], price)
  }

  lemma {:induction false} FiringShortens(k: Kind, l: seq<Request>, price: real)
    requires LastFires(k, l, price)
    ensures |Left(k, l, price)| < |l|
  {
    if !Triggers(k, l[0], price) {
      FiringShortens(k, l[1..], price);
    }
  }

  /** What the loop leaves: a pass after whose end the loop goes on at the front is followed by another one. */
  function Settled(k: Kind, l: seq<Request>, price: real, wrap: bool): seq<Request>
    decreases |l|
  {
    if wrap && LastFires(k, l, price) then
      FiringShortens(k, l, price);
      Settled(k, Left(k, l, price), price, wrap)
    else Left(k, l, price)
  }

  // ----- the loop -----

  lemma SlicesAfterFiring(l: seq<Request>, i: nat)
    requires i < |l|
    ensures var m := EraseAt(l, i);
      && |m| == |l| - 1
      && (i + 1 < |l| ==> m[..i + 1] == l[..i] + [l[i + 1]] && m[i + 1..] == l[i..][2..] && l[i..][1] == l[i + 1])
      && (i + 1 == |l| ==> m == l[..i])
  {
  }

  /** The list that the walk from `i` leaves, when `before` is what stands in front of `i`. */
  function SettledFrom(k: Kind, before: seq<Request>, rest: seq<Request>, price: real, wrap: bool): seq<Request> {
    if wrap && LastFires(k, rest, price) then Settled(k, before + Left(k, rest, price), price, wrap)
    else before + Left(k, rest, price)
  }

  lemma {:induction false} WalkLeaves(gw: GatewayState, k: Kind, i: nat, ts: int, wrap: bool)
    requires i <= |gw.lists.Get(k)|
    ensures var l := gw.lists.Get(k);
      Walk(gw, k, i, ts, wrap).gw.lists.Get(k) == SettledFrom(k, l[..i], l[i..], gw.lastPrice, wrap)
    decreases |gw.lists.Get(k)|, |gw.lists.Get(k)| - i
  {
    var l := gw.lists.Get(k);
    var price := gw.lastPrice;
    if i == |l| {
      assert l[i..] == [] && l[..i] + [] == l[..i];
    } else if Triggers(k, l[i], price) {
      var r := Fire(gw, k, i, ts).gw;
      SlicesAfterFiring(l, i);
      assert r.lists.Get(k) == EraseAt(l, i) && r.lastPrice == price;
      if i + 1 < |l| {
        WalkLeaves(r, k, i + 1, ts, wrap);
        assert Walk(gw, k, i, ts, wrap).gw == Walk(r, k, i + 1, ts, wrap).gw;
        PassGoesOn(k, l[..i], l[i..], [l[i + 1]], l[i..][2..], price, wrap);
      } else {
        assert l[i..] == [l[i]];
        assert l[..i] + [] == l[..i];
        if wrap {
          WalkFromFront(r, k, ts, wrap);
        }
      }
    } else {
      WalkLeaves(gw, k, i + 1, ts, wrap);
      assert l[..i + 1] == l[..i] + [l[i]] && l[i + 1..] == l[i..][1..];
      PassGoesOn(k, l[..i], l[i..], [l[i]], l[i..][1..], price, wrap);
    }
  }

  /** One element is kept, and the pass goes on behind it. */
  lemma PassGoesOn(k: Kind, before: seq<Request>, rest: seq<Request>, kept: seq<Request>, next: seq<Request>,
      price: real,
                   wrap: bool)
    requires Left(k, rest, price) == kept + Left(k, next, price)
    requires LastFires(k, rest, price) <==> LastFires(k, next, price)
    ensures SettledFrom(k, before + kept, next, price, wrap) == SettledFrom(k, before, rest, price, wrap)
  {
    assert before + kept + Left(k, next, price) == before + (kept + Left(k, next, price));
  }

  lemma {:induction false} WalkFromFront(gw: GatewayState, k: Kind, ts: int, wrap: bool)
    ensures Walk(gw, k, 0, ts, wrap).gw.lists.Get(k) == Settled(k, gw.lists.Get(k), gw.lastPrice, wrap)
    decreases |gw.lists.Get(k)|, |gw.lists.Get(k)| + 1
  {
    var l := gw.lists.Get(k);
    WalkLeaves(gw, k, 0, ts, wrap);
    assert l[0..] == l && l[..0] + Left(k, l, gw.lastPrice) == Left(k, l, gw.lastPrice);
  }

  // ----- blocks of triggered neighbours -----

  /** The number of triggered orders at the front. */
  function Front(k: Kind, l: seq<Request>, price: real): nat {
    if l == [] || !Triggers(k, l[0], price) then 0 else 1 + Front(k, l[1..], price)
  }

  /** The length of the longest block of triggered neighbours. */
  function Longest(k: Kind, l: seq<Request>, price: real): nat {
    if l == [] then 0
    else if Front(k, l, price) > Longest(k, l[1..], price) then Front(k, l, price) else Longest(k, l[1..], price)
  }

  /** The `n` orders from `i` on trigger. */
  ghost predicate Block(k: Kind, l: seq<Request>, price: real, i: nat, n: nat) {
    i + n <= |l| && forall j :: i <= j < i + n ==> Triggers(k, l[j], price)
  }

  /** The number of triggered orders at the end. */
  function Trail(k: Kind, l: seq<Request>, price: real): (m: nat)
    ensures m <= |l| && forall j :: |l| - m <= j < |l| ==> Triggers(k, l[j], price)
    ensures m < |l| ==> !Triggers(k, l[|l| - 1 - m], price)
  {
    if l == [] then 0
    else
      var m := Trail(k, l[1..], price);
      if m == |l| - 1 && Triggers(k, l[0], price) then |l| else m
  }

  lemma {:induction false} FrontIsBlock(k: Kind, l: seq<Request>, price: real, n: nat)
    ensures n <= Front(k, l, price) <==> Block(k, l, price, 0, n)
  {
    if l != [] && n > 0 {
      FrontIsBlock(k, l[1..], price, n - 1);
      if Block(k, l, price, 0, n) {
        assert Triggers(k, l[0], price);
        assert forall j :: 0 <= j < n - 1 ==> l[1..][j] == l[j + 1];
      }
      if n <= Front(k, l, price) {
        forall j | 0 <= j < n ensures Triggers(k, l[j], price) {
          assert j > 0 ==> l[j] == l[1..][j - 1];
        }
      }
    }
  }

  /** There is a block of `n` triggered neighbours exactly if the longest one is no shorter. */
  lemma {:induction false} LongestIsLongest(k: Kind, l: seq<Request>, price: real, n: nat)
    requires n >= 1
    ensures n <= Longest(k, l, price) <==> exists i: nat :: Block(k, l, price, i, n)
  {
    if l != [] {
      LongestIsLongest(k, l[1..], price, n);
      FrontIsBlock(k, l, price, n);
      if i: nat :| Block(k, l, price, i, n) {
        if i > 0 {
          assert Block(k, l[1..], price, i - 1, n);
        }
      }
      if i: nat :| Block(k, l[1..], price, i, n) {
        BlockOfTail(k, l, price, i, n);
      }
    }
  }

  lemma BlockOfTail(k: Kind, l: seq<Request>, price: real, i: nat, n: nat)
    requires l != [] && Block(k, l[1..], price, i, n)
    ensures Block(k, l, price, i + 1, n)
  {
    forall j | i + 1 <= j < i + 1 + n ensures Triggers(k, l[j], price) {
      assert l[j] == l[1..][j - 1];
    }
  }

  /** A pass halves every block. */
  lemma {:induction false} PassHalvesFront(k: Kind, l: seq<Request>, price: real)
    ensures Front(k, Left(k, l, price), price) == Front(k, l, price) / 2
  {
    if |l| >= 2 && Triggers(k, l[0], price) {
      PassHalvesFront(k, l[2..], price);
      assert l[1..][0] == l[1] && l[1..][1..] == l[2..];
      assert Left(k, l, price)[1..] == Left(k, l[2..], price);
    }
  }

  lemma {:induction false} PassHalvesLongest(k: Kind, l: seq<Request>, price: real)
    ensures Longest(k, Left(k, l, price), price) == Longest(k, l, price) / 2
  {
    if l == [] {
    } else if !Triggers(k, l[0], price) {
      PassHalvesLongest(k, l[1..], price);
      assert Left(k, l, price)[1..] == Left(k, l[1..], price);
    } else if |l| == 1 {
      assert l[1..] == [];
    } else {
      PassHalvesLongest(k, l[2..], price);
      PassHalvesFront(k, l, price);
      assert l[1..][1..] == l[2..];
      assert Left(k, l, price)[1..] == Left(k, l[2..], price);
    }
  }

  lemma TrailOfCons(k: Kind, x: Request, l: seq<Request>, price: real)
    ensures Trail(k, [x] + l, price)
         == if Trail(k, l, price) == |l| && Triggers(k, x, price) then |l| + 1 else Trail(k, l, price)
  {
    assert ([x] + l)[1..] == l;
  }

  /** A pass halves the block at the end, and leaves an order that does not trigger if there was one. */
  lemma {:induction false} PassHalvesTrail(k: Kind, l: seq<Request>, price: real)
    ensures var m := Left(k, l, price);
      && Trail(k, m, price) == Trail(k, l, price) / 2
      && (Trail(k, m, price) == |m| <==> Trail(k, l, price) == |l|)
    ensures LastFires(k, l, price) <==> Trail(k, l, price) % 2 == 1
  {
    if l == [] {
    } else if !Triggers(k, l[0], price) {
      PassHalvesTrail(k, l[1..], price);
      TrailOfCons(k, l[0], Left(k, l[1..], price), price);
    } else if |l| == 1 {
      assert l[1..] == [];
    } else {
      PassHalvesTrail(k, l[2..], price);
      FiredFirst(k, l, price);
    }
  }

  lemma FiredFirst(k: Kind, l: seq<Request>, price: real)
    requires |l| >= 2 && Triggers(k, l[0], price)
    requires var m := Left(k, l[2..], price);
      && Trail(k, m, price) == Trail(k, l[2..], price) / 2
      && (Trail(k, m, price) == |m| <==> Trail(k, l[2..], price) == |l[2..]|)
    ensures var m := Left(k, l, price);
      && Trail(k, m, price) == Trail(k, l, price) / 2
      && (Trail(k, m, price) == |m| <==> Trail(k, l, price) == |l|)
      && Trail(k, l, price) % 2 == Trail(k, l[2..], price) % 2
  {
    var m := Left(k, l[2..], price);
    TrailOfTwo(k, l, price);
    TrailOfCons(k, l[1], m, price);
    assert Left(k, l, price) == [l[1]] + m;
    HalfOfTwoMore(Trail(k, l[2..], price), |l[2..]|);
  }

  lemma TrailOfTwo(k: Kind, l: seq<Request>, price: real)
    requires |l| >= 2 && Triggers(k, l[0], price)
    ensures var n := |l| - 2;
      Trail(k, l, price)
        == if Trail(k, l[2..], price) == n && Triggers(k, l[1], price) then n + 2 else Trail(k, l[2..], price)
  {
    assert l[1..] == [l[1]] + l[2..];
    TrailOfCons(k, l[1], l[2..], price);
  }

  lemma HalfOfTwoMore(a: nat, n: nat)
    ensures (n + 2) / 2 == n / 2 + 1 && (n + 2) % 2 == n % 2
    ensures a < n ==> a / 2 <= n / 2
  {
  }

  lemma {:induction false} TrailIsABlock(k: Kind, l: seq<Request>, price: real)
    ensures Trail(k, l, price) <= Longest(k, l, price)
  {
    var m := Trail(k, l, price);
    if m > 0 {
      assert Block(k, l, price, |l| - m, m);
      LongestIsLongest(k, l, price, m);
    }
  }

  // ----- when nothing is left behind -----

  function Pow2(q: nat): nat {
    if q == 0 then 1 else 2 * Pow2(q - 1)
  }

  /** Every triggered order has gone. */
  ghost predicate NoneLeft(k: Kind, l: seq<Request>, price: real) {
    forall r :: r in l ==> !Triggers(k, r, price)
  }

  lemma NoneLeftIsNoBlock(k: Kind, l: seq<Request>, price: real)
    ensures NoneLeft(k, l, price) <==> Longest(k, l, price) == 0
  {
    LongestIsLongest(k, l, price, 1);
    if i: nat :| Block(k, l, price, i, 1) {
      assert l[i] in l;
    }
    if r :| r in l && Triggers(k, r, price) {
      var i: nat :| i < |l| && l[i] == r;
      assert Block(k, l, price, i, 1);
    }
  }

  /** No two neighbours trigger together. */
  ghost predicate NoNeighboursTrigger(k: Kind, l: seq<Request>, price: real) {
    forall i :: 0 <= i < |l| - 1 ==> !(Triggers(k, l[i], price) && Triggers(k, l[i + 1], price))
  }

  lemma NoNeighboursIsShortBlocks(k: Kind, l: seq<Request>, price: real)
    ensures NoNeighboursTrigger(k, l, price) <==> Longest(k, l, price) <= 1
  {
    LongestIsLongest(k, l, price, 2);
    if i: nat :| Block(k, l, price, i, 2) {
      assert Triggers(k, l[i], price) && Triggers(k, l[i + 1], price);
    }
    if i :| 0 <= i < |l| - 1 && Triggers(k, l[i], price) && Triggers(k, l[i + 1], price) {
      assert Block(k, l, price, i, 2);
    }
  }

  /**
   * The loop goes on at the front once for each of the `q` passes that fire the last order, and each pass
   * halves the blocks: the block at the end has 2^q - 1 orders and no block as many as 2^(q + 1).
   */
  ghost predicate PassesSuffice(k: Kind, l: seq<Request>, price: real, q: nat) {
    Trail(k, l, price) == Pow2(q) - 1 && Longest(k, l, price) < Pow2(q + 1)
  }

  ghost predicate LeavesNothing(k: Kind, l: seq<Request>, price: real, wrap: bool) {
    if wrap then exists q: nat :: PassesSuffice(k, l, price, q) else NoNeighboursTrigger(k, l, price)
  }

  /** One pass that fires the last order needs one fewer afterwards. */
  lemma PassNeedsOneFewer(k: Kind, l: seq<Request>, price: real, q: nat)
    requires Trail(k, l, price) % 2 == 1
    ensures PassesSuffice(k, Left(k, l, price), price, q) <==> PassesSuffice(k, l, price, q + 1)
  {
    PassHalvesTrail(k, l, price);
    PassHalvesLongest(k, l, price);
    assert Pow2(q + 1) == 2 * Pow2(q) && Pow2(q + 2) == 2 * Pow2(q + 1);
  }

  lemma {:induction false} SettledExactly(k: Kind, l: seq<Request>, price: real)
    ensures NoneLeft(k, Settled(k, l, price, true), price) <==> LeavesNothing(k, l, price, true)
    decreases |l|
  {
    PassHalvesTrail(k, l, price);
    if LastFires(k, l, price) {
      FiringShortens(k, l, price);
      var m := Left(k, l, price);
      SettledExactly(k, m, price);
      if q: nat :| PassesSuffice(k, m, price, q) {
        PassNeedsOneFewer(k, l, price, q);
      }
      if q: nat :| PassesSuffice(k, l, price, q) {
        assert q > 0;
        PassNeedsOneFewer(k, l, price, q - 1);
      }
    } else {
      LastPassExactly(k, l, price);
    }
  }

  /** A pass that does not fire the last order is the last one. */
  lemma LastPassExactly(k: Kind, l: seq<Request>, price: real)
    requires Trail(k, l, price) % 2 == 0
    ensures NoneLeft(k, Left(k, l, price), price) <==> exists q: nat :: PassesSuffice(k, l, price, q)
  {
    NoneLeftIsNoBlock(k, Left(k, l, price), price);
    PassHalvesLongest(k, l, price);
    if Longest(k, l, price) <= 1 {
      ShortBlocksSuffice(k, l, price);
    }
    if q: nat :| PassesSuffice(k, l, price, q) {
      EvenTrailIsShort(k, l, price, q);
    }
  }

  lemma ShortBlocksSuffice(k: Kind, l: seq<Request>, price: real)
    requires Longest(k, l, price) <= 1
    ensures PassesSuffice(k, l, price, Trail(k, l, price))
  {
    TrailIsABlock(k, l, price);
    assert Pow2(0) == 1 && Pow2(1) == 2 && Pow2(2) == 4;
  }

  lemma EvenTrailIsShort(k: Kind, l: seq<Request>, price: real, q: nat)
    requires Trail(k, l, price) % 2 == 0 && PassesSuffice(k, l, price, q)
    ensures Longest(k, l, price) <= 1
  {
    OddPower(q);
    assert Pow2(1) == 2;
  }

  lemma OddPower(q: nat)
    ensures Pow2(q) >= 1 && (Pow2(q) % 2 == 1 <==> q == 0)
  {
  }

  /**
   * Exactly when a trigger loop fires every order that the price triggers. If the loop ends where it passes
   * the end of the list: when no two neighbours trigger together. If it goes on at the front there: when,
   * for some q, the block of triggered orders at the end has 2^q - 1 orders and no block has 2^(q + 1).
   */
  lemma LoopFiresAllExactly(gw: GatewayState, k: Kind, ts: int, wrap: bool)
    ensures NoneLeft(k, Walk(gw, k, 0, ts, wrap).gw.lists.Get(k), gw.lastPrice)
      <==> LeavesNothing(k, gw.lists.Get(k), gw.lastPrice, wrap)
  {
    var l, price := gw.lists.Get(k), gw.lastPrice;
    WalkFromFront(gw, k, ts, wrap);
    if wrap {
      SettledExactly(k, l, price);
    } else {
      NoneLeftIsNoBlock(k, Left(k, l, price), price);
      PassHalvesLongest(k, l, price);
      NoNeighboursIsShortBlocks(k, l, price);
    }
  }

  /** Whatever happens at the end of the list: when no two neighbours trigger together, nothing is left behind. */
  lemma LonelyOrdersFire(gw: GatewayState, k: Kind, ts: int, wrap: bool)
    requires NoNeighboursTrigger(k, gw.lists.Get(k), gw.lastPrice)
    ensures NoneLeft(k, Walk(gw, k, 0, ts, wrap).gw.lists.Get(k), gw.lastPrice)
  {
    var l, price := gw.lists.Get(k), gw.lastPrice;
    LoopFiresAllExactly(gw, k, ts, wrap);
    NoNeighboursIsShortBlocks(k, l, price);
    ShortBlocksSuffice(k, l, price);
  }

  /**
   * An input on which a triggered stop loss stays, whatever happens at the end: two neighbours that trigger
   * together.
   */
  lemma SecondNeighbourIsSkipped(wrap: bool)
    ensures var l := [Request(1, Sell, 10.0, 1.0), Request(2, Sell, 10.0, 1.0)];
      var gw := FLAT.(lastPrice := 9.0, lists := Both([], l));
      && Triggers(Sl, l[1], gw.lastPrice)
      && Walk(gw, Sl, 0, 0, wrap).gw.lists.sl == [l[1]]
  {
    var l := [Request(1, Sell, 10.0, 1.0), Request(2, Sell, 10.0, 1.0)];
    var gw := FLAT.(lastPrice := 9.0, lists := Both([], l));
    WalkFromFront(gw, Sl, 0, wrap);
    assert l[2..] == [] && Left(Sl, l, 9.0) == [l[1]] + [];
  }

  /** Three triggered neighbours all fire if the loop goes on at the front, and not if it ends. */
  lemma ThreeNeighbours()
    ensures var l := [Request(1, Sell, 10.0, 1.0), Request(2, Sell, 10.0, 1.0), Request(3, Sell, 10.0, 1.0)];
      var gw := FLAT.(lastPrice := 9.0, lists := Both([], l));
      && Walk(gw, Sl, 0, 0, true).gw.lists.sl == []
      && Walk(gw, Sl, 0, 0, false).gw.lists.sl == [l[1]]
  {
    var l := [Request(1, Sell, 10.0, 1.0), Request(2, Sell, 10.0, 1.0), Request(3, Sell, 10.0, 1.0)];
    var gw := FLAT.(lastPrice := 9.0, lists := Both([], l));
    WalkFromFront(gw, Sl, 0, true);
    WalkFromFront(gw, Sl, 0, false);
    assert l[2..] == [l[2]] && Left(Sl, l, 9.0) == [l[1]] + [] == [l[1]];
    assert LastFires(Sl, l, 9.0);
    SingleOrder(l[1]);
  }

  lemma SingleOrder(r: Request)
    requires Triggers(Sl, r, 9.0)
    ensures Settled(Sl, [r], 9.0, true) == []
  {
    assert LastFires(Sl, [r], 9.0) && Left(Sl, [r], 9.0) == [];
  }
}
