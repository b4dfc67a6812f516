/** Weighted-average cost, replayed from a customer's settled trades of one metal. */
module CostReplay {
  import opened Sums
  import opened Books
  import opened Journal
  import opened Platform
  import O = Orders
  import H = PhysicalDelivery

  datatype Cost = Cost(heldMg: int, cents: int)

  function Min(a: int, b: int): int { if a < b then a else b }

  // One settled trade: a buy adds what was paid, a sell retires cost in proportion to the grams leaving.
  function Trade1(c: Cost, t: Terms): Cost {
    if t.side == Buy then Cost(c.heldMg + t.gramsMg, c.cents + t.total)
    else if c.heldMg <= 0 then c
    else
      var sold := Min(t.gramsMg, c.heldMg);
      var held := c.heldMg - sold;
      Cost(held, if held == 0 then 0 else c.cents - c.cents * sold / c.heldMg)
  }

  function Replay(trades: seq<Terms>): Cost {
    if trades == [] then Cost(0, 0) else Trade1(Replay(trades[..|trades| - 1]), trades[|trades| - 1])
  }

  function Basis(trades: seq<Terms>): int {
    if Replay(trades).cents > 0 then Replay(trades).cents else 0
  }

  // The loop over settled orders.
  method CostBasis(trades: seq<Terms>) returns (basis: int)
    ensures basis == Basis(trades)
  {
    var heldMg, costCents := 0, 0;
    for i := 0 to |trades|
      invariant Replay(trades[..i]) == Cost(heldMg, costCents)
    {
      var row := trades[i];
      assert trades[..i + 1][..i] == trades[..i];
      if row.side == Buy {
        heldMg := heldMg + row.gramsMg;
        costCents := costCents + row.total;
        continue;
      }
      if heldMg <= 0 { continue; }
      var soldMg := if row.gramsMg > heldMg then heldMg else row.gramsMg;
      var costRemoved := costCents * soldMg / heldMg;
      costCents := costCents - costRemoved;
      heldMg := heldMg - soldMg;
      if heldMg == 0 { costCents := 0; }
    }
    assert trades[..|trades|] == trades;
    basis := if costCents > 0 then costCents else 0;
  }

  // ---------------------------------------------------------------- the arithmetic of one sell

  // Exact proportion is cents * held' / held; the recorded cost is at or above it by less than a cent.
  lemma SellKeepsProportion(c: Cost, t: Terms)
    requires t.side == Sell && 0 < t.gramsMg < c.heldMg && c.cents >= 0
    ensures var c' := Trade1(c, t);
            && c'.heldMg == c.heldMg - t.gramsMg
            && 0 <= c'.cents <= c.cents
            && c.cents * c'.heldMg <= c'.cents * c.heldMg < c.cents * c'.heldMg + c.heldMg
  {
    var removed := c.cents * t.gramsMg / c.heldMg;
    MulMono(c.cents, t.gramsMg, c.heldMg);
    DivBetween(c.cents * t.gramsMg, c.heldMg, c.cents);
    Distribute(c.cents, c.heldMg, t.gramsMg);
    Distribute(c.heldMg, c.cents, removed);
  }

  lemma DivBetween(x: int, d: int, most: int)
    requires d > 0 && 0 <= x <= most * d
    ensures 0 <= x / d <= most
    ensures d * (x / d) <= x < d * (x / d) + d
  {
    if x / d > most {
      MulMono(d, most + 1, x / d);
    }
  }

  lemma Distribute(a: int, b: int, c: int)
    ensures a * (b - c) == a * b - a * c
  {
  }

  lemma MulMono(a: int, b: int, c: int)
    requires a >= 0 && b <= c
    ensures a * b <= a * c
  {
  }

  ghost predicate TradesOk(trades: seq<Terms>) {
    forall i :: 0 <= i < |trades| ==> WellPriced(trades[i])
  }

  // No sell is ever larger than what is held when it is replayed.
  ghost predicate NeverOversold(trades: seq<Terms>) {
    forall k :: 0 <= k < |trades| && trades[k].side == Sell ==> trades[k].gramsMg <= Replay(trades[..k]).heldMg
  }

  function SpentOn(): Terms -> int { (t: Terms) => if t.side == Buy then t.total else 0 }
  function BoughtOn(): Terms -> int { (t: Terms) => if t.side == Buy then t.gramsMg else -t.gramsMg }

  // Cost stays between nothing and everything ever spent, and is nothing when nothing is held.
  lemma {:induction false} CostIsBounded(trades: seq<Terms>)
    requires TradesOk(trades)
    ensures var c := Replay(trades);
            && c.heldMg >= 0
            && 0 <= c.cents <= Sum(trades, SpentOn())
            && (c.heldMg == 0 ==> c.cents == 0)
            && Basis(trades) == c.cents
    decreases |trades|
  {
    if trades != [] {
      var k := |trades| - 1;
      assert WellPriced(trades[k]);
      CostIsBounded(trades[..k]);
      var c := Replay(trades[..k]);
      if trades[k].side == Sell && trades[k].gramsMg < c.heldMg {
        SellKeepsProportion(c, trades[k]);
      }
    }
  }

  // What the ledger takes from the buyer's account for one trade, whoever the buyer is.
  function PaidOn(user: UserId): Terms -> int {
    (t: Terms) => -MoveNet(Trade(user, t, false), Customer(user, ETB))
  }

  // A history of buys costs exactly the cents the ledger took for them, fees and taxes with it.
  lemma BuysCostWhatWasPaid(trades: seq<Terms>, user: UserId)
    requires TradesOk(trades) && forall i :: 0 <= i < |trades| ==> trades[i].side == Buy
    ensures Basis(trades) == Sum(trades, PaidOn(user)) && Replay(trades).heldMg == Sum(trades, BoughtOn())
  {
    CostIsBounded(trades);
    BuysAddUp(trades, user);
  }

  lemma {:induction false} BuysAddUp(trades: seq<Terms>, user: UserId)
    requires forall i :: 0 <= i < |trades| ==> trades[i].side == Buy
    ensures Replay(trades) == Cost(Sum(trades, BoughtOn()), Sum(trades, PaidOn(user)))
    decreases |trades|
  {
    if trades != [] {
      BuysAddUp(trades[..|trades| - 1], user);
    }
  }

  // Without overselling, the replay holds exactly what was bought less what was sold.
  lemma {:induction false} HeldIsNetBought(trades: seq<Terms>)
    requires TradesOk(trades) && NeverOversold(trades)
    ensures Replay(trades).heldMg == Sum(trades, BoughtOn())
    decreases |trades|
  {
    if trades != [] {
      var k := |trades| - 1;
      assert WellPriced(trades[k]);
      forall i | 0 <= i < k && trades[..k][i].side == Sell
        ensures trades[..k][i].gramsMg <= Replay(trades[..k][..i]).heldMg
      {
        assert trades[..k][..i] == trades[..i];
      }
      HeldIsNetBought(trades[..k]);
    }
  }

  // ---------------------------------------------------------------- the replay follows the ledger

  // The settled trades of one customer and metal, in the order the ledger recorded them.
  function TradesIn(log: seq<Txn>, orders: seq<Order>, user: UserId, m: Metal): seq<Terms> {
    if log == [] then []
    else
      var last := log[|log| - 1];
      TradesIn(log[..|log| - 1], orders, user, m)
      + (if IsTradeOf(last, orders, user, m) then [orders[last.ref.i].terms] else [])
  }

  lemma {:induction false} PostingIsRecorded(log: seq<Txn>, k: nat)
    requires k < |log|
    ensures log[k].body in PostingsOf(log, log[k].ref)
    decreases |log|
  {
    if k < |log| - 1 {
      PostingIsRecorded(log[..|log| - 1], k);
    }
  }

  lemma {:induction false} ShapeHasMove(story: seq<Move>, p: Posting) returns (m: Move)
    requires p in Shapes(story)
    ensures m in story && p == Shape(m)
    decreases |story|
  {
    hide Shape;
    var k := |story| - 1;
    if p == Shape(story[k]) {
      m := story[k];
    } else {
      m := ShapeHasMove(story[..k], p);
    }
  }

  // What one recorded transaction does to a customer's metal: a trade by its order's figures,
  // a delivery something, everything else nothing.
  lemma TxnOnMetal(cfg: Config, s: State, k: nat, user: UserId, m: Metal)
    requires PlatformOk(cfg, s) && k < |s.log|
    ensures var a := Customer(user, Grams(m));
            var t := s.log[k];
            && (t.ref.PaymentRef? || t.ref.PayoutRef? || t.ref.CapitalRef? ==> PostingOn(a)(t.body) == 0)
            && (t.ref.OrderRef? ==>
                  && t.ref.i < |s.orders| && WellPriced(s.orders[t.ref.i].terms)
                  && PostingOn(a)(t.body) == if s.orders[t.ref.i].user == user && s.orders[t.ref.i].terms.metal == m
                                             then BoughtOn()(s.orders[t.ref.i].terms) else 0)
  {
    hide BooksOk, O.OrdersOk, Shape, PostingOn, PostingsOf, Shapes;
    var t := s.log[k];
    HistoryOf(cfg, s, t.ref);
    PostingIsRecorded(s.log, k);
    var move := ShapeHasMove(StoryOf(s, t.ref), t.body);
    ShapeNet(move, Customer(user, Grams(m)));
    if t.ref.PaymentRef? && t.ref.i < |s.payments| {
      DepositsMoveCents(s.payments[t.ref.i].user, s.payments[t.ref.i].moved, move);
      assert Customer(user, Grams(m)) !in {move.from, move.to};
    }
    if t.ref.OrderRef? {
      OrderIsPriced(cfg, s, t.ref.i);
    }
  }

  lemma HistoryOf(cfg: Config, s: State, ref: Ref)
    requires PlatformOk(cfg, s)
    ensures PostingsOf(s.log, ref) == Shapes(StoryOf(s, ref))
  {
    hide O.OrdersOk, Shapes, StoryOf, PostingsOf;
  }

  lemma OrderIsPriced(cfg: Config, s: State, i: nat)
    requires O.OrdersOk(cfg, s) && i < |s.orders|
    ensures WellPriced(s.orders[i].terms)
  {
    assert O.OrderMatches(s.quotes, s.orders[i]);
  }

  lemma NetAppend(log: seq<Txn>, t: Txn, table: Table, a: Account)
    ensures NetOf(log + [t], table, a) ==
              NetOf(log, table, a) + (if TableOf(t.ref) == table then PostingOn(a)(t.body) else 0)
  {
    SumAppend(log, t, TxnIn(table, a));
  }

  predicate IsTradeOf(t: Txn, orders: seq<Order>, user: UserId, m: Metal) {
    t.ref.OrderRef? && t.ref.i < |orders| && orders[t.ref.i].user == user && orders[t.ref.i].terms.metal == m
  }

  lemma TradesAppend(log: seq<Txn>, t: Txn, orders: seq<Order>, user: UserId, m: Metal)
    ensures TradesIn(log + [t], orders, user, m)
            == TradesIn(log, orders, user, m) + (if IsTradeOf(t, orders, user, m) then [orders[t.ref.i].terms] else [])
  {
    assert (log + [t])[..|log|] == log;
  }

  // One more transaction adds its trade, if it is one of this customer and metal.
  lemma TradesGrow(log: seq<Txn>, t: Txn, orders: seq<Order>, user: UserId, m: Metal)
    requires TradesOk(TradesIn(log, orders, user, m))
    requires IsTradeOf(t, orders, user, m) ==> WellPriced(orders[t.ref.i].terms)
    ensures TradesOk(TradesIn(log + [t], orders, user, m))
    ensures Sum(TradesIn(log + [t], orders, user, m), BoughtOn()) ==
            Sum(TradesIn(log, orders, user, m), BoughtOn())
            + (if IsTradeOf(t, orders, user, m) then BoughtOn()(orders[t.ref.i].terms) else 0)
  {
    hide TradesIn, WellPriced, Sum, BoughtOn;
    TradesAppend(log, t, orders, user, m);
    var before := TradesIn(log, orders, user, m);
    if IsTradeOf(t, orders, user, m) {
      SumAppend(before, orders[t.ref.i].terms, BoughtOn());
    } else {
      assert before + [] == before;
    }
  }

  // At every point of the log, trades explain the customer's metal up to deliveries.
  lemma {:induction false} TradesFollowLedger(cfg: Config, s: State, k: nat, user: UserId, m: Metal)
    requires PlatformOk(cfg, s) && k <= |s.log|
    ensures var a := Customer(user, Grams(m));
            var trades := TradesIn(s.log[..k], s.orders, user, m);
            && TradesOk(trades)
            && Sum(trades, BoughtOn()) == NetOf(s.log[..k], Orders, a)
            && Balance(s.log[..k], a) == NetOf(s.log[..k], Orders, a) + NetOf(s.log[..k], Deliveries, a)
    decreases k
  {
    if k == 0 {
      NothingTraded(s, user, m);
    } else {
      hide PlatformOk, BoughtOn, Balance, NetOf, PostingOn, TradesIn, TradesOk, WellPriced, Sum;
      TradesFollowLedger(cfg, s, k - 1, user, m);
      TxnOnMetal(cfg, s, k - 1, user, m);
      LogPrefix(s.log, k);
      var log, t := s.log[..k - 1], s.log[k - 1];
      var a := Customer(user, Grams(m));
      BalanceAppend(log, t, a);
      NetAppend(log, t, Orders, a);
      NetAppend(log, t, Deliveries, a);
      TradesGrow(log, t, s.orders, user, m);
    }
  }

  lemma LogPrefix(log: seq<Txn>, k: nat)
    requires 0 < k <= |log|
    ensures log[..k] == log[..k - 1] + [log[k - 1]]
  {
  }

  lemma NothingTraded(s: State, user: UserId, m: Metal)
    ensures TradesIn(s.log[..0], s.orders, user, m) == [] && Balance(s.log[..0], Customer(user, Grams(m))) == 0
    ensures NetOf(s.log[..0], Orders, Customer(user, Grams(m))) == 0
              && NetOf(s.log[..0], Deliveries, Customer(user, Grams(m))) == 0
  {
  }

  // In ledger order no sell exceeds what the trades before it hold, at any point of the log.
  lemma {:induction false} LedgerNeverOversells(cfg: Config, s: State, k: nat, user: UserId, m: Metal)
    requires PlatformOk(cfg, s) && k <= |s.log|
    ensures NeverOversold(TradesIn(s.log[..k], s.orders, user, m))
    decreases k
  {
    hide PlatformOk, BoughtOn, Replay, NetOf, Balance, Sum;
    if k > 0 {
      LedgerNeverOversells(cfg, s, k - 1, user, m);
      var before, after := TradesIn(s.log[..k - 1], s.orders, user, m), TradesIn(s.log[..k], s.orders, user, m);
      assert s.log[..k][..k - 1] == s.log[..k - 1];
      if after != before {
        var t := after[|after| - 1];
        assert after == before + [t];
        TradesFollowLedger(cfg, s, k - 1, user, m);
        TradesFollowLedger(cfg, s, k, user, m);
        HeldIsNetBought(before);
        SumAppend(before, t, BoughtOn());
        NetTradesNonNegative(cfg, s, k, user, m);
        SellTakes(t);
        forall j | 0 <= j < |after| && after[j].side == Sell ensures after[j].gramsMg <= Replay(after[..j]).heldMg {
          if j < |before| {
            assert after[..j] == before[..j] && after[j] == before[j];
          } else {
            assert after[..j] == before;
          }
        }
      }
    }
  }

  lemma SellTakes(t: Terms)
    ensures t.side == Sell ==> BoughtOn()(t) == -t.gramsMg
  {
  }

  lemma NetTradesNonNegative(cfg: Config, s: State, k: nat, user: UserId, m: Metal)
    requires PlatformOk(cfg, s) && k <= |s.log|
    ensures NetOf(s.log[..k], Orders, Customer(user, Grams(m))) >= 0
  {
    hide NetOf, Balance, O.OrdersOk, LogSound, History, Reconciled, Backed;
    TradesFollowLedger(cfg, s, k, user, m);
    assert Customer(user, Grams(m)).Customer? && Balance(s.log[..k], Customer(user, Grams(m))) >= 0;
    assert NetOf(s.log[..k], Deliveries, Customer(user, Grams(m))) <= 0;
  }

  // Grams of one customer and metal held for delivery or handed over.
  function TakenOut(user: UserId, m: Metal): Delivery -> int {
    (d: Delivery) => if d.user == user && d.metal == m && (H.IsHeld(d) || d.status.Delivered?) then -d.gramsMg else 0
  }

  lemma DeliveriesTakeOut(s: State, user: UserId, m: Metal)
    requires Reconciled(s)
    ensures NetOf(s.log, Deliveries, Customer(user, Grams(m))) == Sum(s.deliveries, TakenOut(user, m))
  {
    var a := Customer(user, Grams(m));
    assert NetOf(s.log, Deliveries, a) == Expected(s, Deliveries, a);
    forall i | 0 <= i < |s.deliveries| ensures DeliveryOn(a)(s.deliveries[i]) == TakenOut(user, m)(s.deliveries[i]) {
      DeliveryNet(s.deliveries[i], a);
    }
    SumEq(s.deliveries, DeliveryOn(a), TakenOut(user, m));
  }

  // After every run, of the trades in the order the ledger recorded them: no sell exceeds what is held, so the
  // oversell clamp is not taken; the replayed grams are the ledger balance plus what deliveries hold or have
  // handed over; and cost lies between nothing and everything spent, and is nothing when nothing is held. The
  // query's own order may differ: see CostOrder.
  lemma ReplayMatchesLedger(cfg: Config, s: State, user: UserId, m: Metal)
    requires ConfigOk(cfg) && Reachable(cfg, s)
    ensures var trades := TradesIn(s.log, s.orders, user, m);
            && NeverOversold(trades)
            && Replay(trades).heldMg == Balance(s.log, Customer(user, Grams(m))) - Sum(s.deliveries, TakenOut(user, m))
            && 0 <= Basis(trades) == Replay(trades).cents <= Sum(trades, SpentOn())
            && (Replay(trades).heldMg == 0 ==> Basis(trades) == 0)
  {
    hide Reachable, NetOf, Balance, Sum, Replay, TradesIn, O.OrdersOk, LogSound, History, AlwaysSolvent,
         DeliveriesOnlyTake, Backed, Reconciled, TradesOk, NeverOversold;
    ReachableIsOk(cfg, s);
    assert s.log[..|s.log|] == s.log;
    TradesFollowLedger(cfg, s, |s.log|, user, m);
    LedgerNeverOversells(cfg, s, |s.log|, user, m);
    var trades := TradesIn(s.log, s.orders, user, m);
    HeldIsNetBought(trades);
    CostIsBounded(trades);
    DeliveriesTakeOut(s, user, m);
  }
}
