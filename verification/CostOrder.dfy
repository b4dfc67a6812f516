/**
 * The cost replay in the order the query gives it: by settlement time, then creation time, both taken
 * when a transaction starts. The ledger records transactions as they commit, and the two orders may
 * differ. What the replay promises in every order, and exactly when it meets the ledger.
 */
module CostOrder {
  import opened Sums
  import opened Books
  import opened Journal
  import opened Platform
  import opened CostReplay
  import O = Orders

  // ---------------------------------------------------------------- the query

  predicate Counts(o: Order, user: UserId, m: Metal) {
    o.status.Settled? && o.user == user && o.terms.metal == m
  }

  predicate Earlier(a: Order, b: Order)
    requires a.status.Settled? && b.status.Settled?
  {
    a.status.at < b.status.at || (a.status.at == b.status.at && a.createdAt < b.createdAt)
  }

  ghost predicate Distinct(ids: seq<nat>) {
    forall j, k | 0 <= j < k < |ids| :: ids[j] != ids[k]
  }

  // The rows of the query, each once: the settled orders of the customer in the metal.
  ghost predicate Selects(ids: seq<nat>, orders: seq<Order>, user: UserId, m: Metal) {
    && Distinct(ids)
    && (forall k | 0 <= k < |ids| :: ids[k] < |orders| && Counts(orders[ids[k]], user, m))
    && (forall i | 0 <= i < |orders| && Counts(orders[i], user, m) :: i in ids)
  }

  // Sorted by (settledAt, createdAt); rows that tie on both may come either way round.
  ghost predicate IsQueryResult(ids: seq<nat>, orders: seq<Order>, user: UserId, m: Metal) {
    && Selects(ids, orders, user, m)
    && forall j, k | 0 <= j < k < |ids| :: !Earlier(orders[ids[k]], orders[ids[j]])
  }

  function TermsAt(ids: seq<nat>, orders: seq<Order>): (trades: seq<Terms>)
    requires forall k | 0 <= k < |ids| :: ids[k] < |orders|
    ensures |trades| == |ids| && forall k | 0 <= k < |ids| :: trades[k] == orders[ids[k]].terms
  {
    seq(|ids|, k requires 0 <= k < |ids| => orders[ids[k]].terms)
  }

  // ---------------------------------------------------------------- when a replay is never clamped

  ghost predicate PrefixesCovered(trades: seq<Terms>) {
    forall k | 0 <= k <= |trades| :: Sum(trades[..k], BoughtOn()) >= 0
  }

  // The clamp only ever adds grams: the replay holds at least the net of its trades, and holds exactly that
  // when and only when it was never clamped, which is when no prefix of its trades sells more than it buys.
  lemma {:induction false} NeverClampedExactlyWhen(trades: seq<Terms>)
    requires TradesOk(trades)
    ensures Replay(trades).heldMg >= Sum(trades, BoughtOn())
    ensures NeverOversold(trades) <==> Replay(trades).heldMg == Sum(trades, BoughtOn())
    ensures NeverOversold(trades) <==> PrefixesCovered(trades)
    decreases |trades|
  {
    if trades == [] {
      assert trades[..0] == [];
    } else {
      var n := |trades| - 1;
      var front, last := trades[..n], trades[n];
      assert WellPriced(last);
      NeverClampedExactlyWhen(front);
      CostIsBounded(front);
      OversoldStep(trades);
      PrefixStep(trades);
    }
  }

  lemma OversoldStep(trades: seq<Terms>)
    requires trades != []
    ensures var n := |trades| - 1;
            NeverOversold(trades) <==>
            NeverOversold(trades[..n]) && (trades[n].side == Sell ==> trades[n].gramsMg <= Replay(trades[..n]).heldMg)
  {
    hide Replay;
    var n := |trades| - 1;
    assert forall k | 0 <= k < n :: trades[..n][..k] == trades[..k] && trades[..n][k] == trades[k];
    if NeverOversold(trades[..n]) && (trades[n].side == Sell ==> trades[n].gramsMg <= Replay(trades[..n]).heldMg) {
      forall k | 0 <= k < |trades| && trades[k].side == Sell ensures trades[k].gramsMg <= Replay(trades[..k]).heldMg {
        if k < n {
          assert trades[..n][k].gramsMg <= Replay(trades[..n][..k]).heldMg;
        }
      }
    }
    if NeverOversold(trades) {
      forall k | 0 <= k < n && trades[..n][k].side == Sell
        ensures trades[..n][k].gramsMg <= Replay(trades[..n][..k]).heldMg
      {
        assert trades[k].gramsMg <= Replay(trades[..k]).heldMg;
      }
    }
  }

  lemma PrefixStep(trades: seq<Terms>)
    requires trades != []
    ensures PrefixesCovered(trades) <==>
            PrefixesCovered(trades[..|trades| - 1]) && Sum(trades, BoughtOn()) >= 0
  {
    hide Sum;
    var n := |trades| - 1;
    assert trades[..n + 1] == trades;
    assert forall k | 0 <= k <= n :: trades[..n][..k] == trades[..k];
    if PrefixesCovered(trades[..n]) && Sum(trades, BoughtOn()) >= 0 {
      forall k | 0 <= k <= |trades| ensures Sum(trades[..k], BoughtOn()) >= 0 {
        if k <= n {
          assert Sum(trades[..n][..k], BoughtOn()) >= 0;
        }
      }
    }
    if PrefixesCovered(trades) {
      forall k | 0 <= k <= n ensures Sum(trades[..n][..k], BoughtOn()) >= 0 {
        assert Sum(trades[..k], BoughtOn()) >= 0;
      }
    }
  }

  // ---------------------------------------------------------------- any order has the ledger's net

  function CountedGrams(user: UserId, m: Metal): Order -> int {
    (o: Order) => if Counts(o, user, m) then BoughtOn()(o.terms) else 0
  }

  lemma SumWithout<T>(rows: seq<T>, p: nat, f: T -> int)
    requires p < |rows|
    ensures Sum(rows, f) == Sum(rows[..p] + rows[p + 1..], f) + f(rows[p])
  {
    hide Sum;
    SumConcat(rows[..p], rows[p + 1..], f);
    SumConcat(rows[..p], rows[p..], f);
    SumConcat([rows[p]], rows[p + 1..], f);
    SumOne(rows[p], f);
    assert rows == rows[..p] + rows[p..] && rows[p..] == [rows[p]] + rows[p + 1..];
  }

  lemma FirstIsIn<T>(rows: seq<T>)
    requires |rows| > 0
    ensures rows[0] in rows
  {
  }

  lemma NoRows(ids: seq<nat>, user: UserId, m: Metal)
    requires Selects(ids, [], user, m)
    ensures ids == []
  {
    if |ids| > 0 {
      FirstIsIn(ids);
      assert false;
    }
  }

  // Whatever the order of the rows, their net is that of the orders table.
  lemma {:induction false} NetOfRows(ids: seq<nat>, orders: seq<Order>, user: UserId, m: Metal)
    requires Selects(ids, orders, user, m)
    ensures Sum(TermsAt(ids, orders), BoughtOn()) == Sum(orders, CountedGrams(user, m))
    decreases |orders|
  {
    if orders == [] {
      NoRows(ids, user, m);
    } else {
      hide Sum, BoughtOn;
      var n := |orders| - 1;
      var front, last := orders[..n], orders[n];
      assert orders == front + [last];
      SumAppend(front, last, CountedGrams(user, m));
      if Counts(last, user, m) {
        var p := PositionOf(ids, orders, user, m);
        RowsWithout(ids, orders, user, m, p);
        NetOfRows(ids[..p] + ids[p + 1..], front, user, m);
        SumWithout(TermsAt(ids, orders), p, BoughtOn());
        TermsWithout(ids, orders, p);
      } else {
        OtherRows(ids, orders, user, m);
        NetOfRows(ids, front, user, m);
      }
    }
  }

  lemma PositionOf(ids: seq<nat>, orders: seq<Order>, user: UserId, m: Metal) returns (p: nat)
    requires Selects(ids, orders, user, m) && orders != [] && Counts(orders[|orders| - 1], user, m)
    ensures p < |ids| && ids[p] == |orders| - 1
  {
    p :| p < |ids| && ids[p] == |orders| - 1;
  }

  lemma TermsWithout(ids: seq<nat>, orders: seq<Order>, p: nat)
    requires p < |ids| && forall k | 0 <= k < |ids| :: ids[k] < |orders|
    requires orders != [] && forall k | 0 <= k < |ids| && k != p :: ids[k] < |orders| - 1
    ensures var rest := ids[..p] + ids[p + 1..];
            && (forall k | 0 <= k < |rest| :: rest[k] < |orders| - 1)
            && TermsAt(ids, orders)[..p] + TermsAt(ids, orders)[p + 1..] == TermsAt(rest, orders[..|orders| - 1])
  {
    var rest := ids[..p] + ids[p + 1..];
    assert forall k | 0 <= k < |rest| :: rest[k] == if k < p then ids[k] else ids[k + 1];
  }

  lemma OtherRows(ids: seq<nat>, orders: seq<Order>, user: UserId, m: Metal)
    requires Selects(ids, orders, user, m) && orders != [] && !Counts(orders[|orders| - 1], user, m)
    ensures Selects(ids, orders[..|orders| - 1], user, m)
    ensures TermsAt(ids, orders) == TermsAt(ids, orders[..|orders| - 1])
  {
  }

  lemma StillIn(ids: seq<nat>, p: nat, i: nat)
    requires p < |ids| && i in ids && i != ids[p]
    ensures i in ids[..p] + ids[p + 1..]
  {
    assert ids == ids[..p] + [ids[p]] + ids[p + 1..];
  }

  lemma DistinctWithout(ids: seq<nat>, p: nat)
    requires Distinct(ids) && p < |ids|
    ensures var rest := ids[..p] + ids[p + 1..];
            && Distinct(rest)
            && forall k | 0 <= k < |rest| :: rest[k] in ids && rest[k] != ids[p]
  {
    var rest := ids[..p] + ids[p + 1..];
    assert forall k | 0 <= k < |rest| :: rest[k] == ids[if k < p then k else k + 1];
  }

  lemma RowsWithout(ids: seq<nat>, orders: seq<Order>, user: UserId, m: Metal, p: nat)
    requires Selects(ids, orders, user, m) && p < |ids| && ids[p] == |orders| - 1
    ensures Selects(ids[..p] + ids[p + 1..], orders[..|orders| - 1], user, m)
  {
    hide Distinct, Counts;
    var n := |orders| - 1;
    var rest := ids[..p] + ids[p + 1..];
    DistinctWithout(ids, p);
    forall i | 0 <= i < n && Counts(orders[..n][i], user, m) ensures i in rest {
      assert Counts(orders[i], user, m) && i in ids;
      StillIn(ids, p, i);
    }
  }

  lemma OrderGrams(o: Order, user: UserId, m: Metal)
    ensures OrderOn(Customer(user, Grams(m)))(o) == CountedGrams(user, m)(o)
  {
    var a := Customer(user, Grams(m));
    OrderNet(o, a);
    if Counts(o, user, m) {
      assert MoveNet(Trade(o.user, o.terms, o.status.reviewed), a) == BoughtOn()(o.terms);
    } else if o.status.Settled? {
      assert MoveNet(Trade(o.user, o.terms, o.status.reviewed), a) == 0;
    }
  }

  lemma NetOfTable(cfg: Config, s: State, user: UserId, m: Metal)
    requires PlatformOk(cfg, s)
    ensures Sum(s.orders, CountedGrams(user, m)) ==
            Balance(s.log, Customer(user, Grams(m))) - Sum(s.deliveries, TakenOut(user, m))
  {
    hide Balance, NetOf, O.OrdersOk, LogSound, History, AlwaysSolvent, DeliveriesOnlyTake, Backed, TradesIn, TradesOk;
    var a := Customer(user, Grams(m));
    assert s.log[..|s.log|] == s.log;
    TradesFollowLedger(cfg, s, |s.log|, user, m);
    DeliveriesTakeOut(s, user, m);
    assert NetOf(s.log, Journal.Table.Orders, a) == Expected(s, Journal.Table.Orders, a);
    forall i | 0 <= i < |s.orders| ensures OrderOn(a)(s.orders[i]) == CountedGrams(user, m)(s.orders[i]) {
      OrderGrams(s.orders[i], user, m);
    }
    SumEq(s.orders, OrderOn(a), CountedGrams(user, m));
  }

  lemma RowsArePriced(cfg: Config, s: State, user: UserId, m: Metal, ids: seq<nat>)
    requires PlatformOk(cfg, s) && Selects(ids, s.orders, user, m)
    ensures TradesOk(TermsAt(ids, s.orders))
  {
    hide BooksOk, O.OrdersOk;
    forall k | 0 <= k < |ids| ensures WellPriced(s.orders[ids[k]].terms) {
      OrderIsPriced(cfg, s, ids[k]);
    }
  }

  // In every reachable state and for every answer the query may give: cost lies between nothing and everything
  // spent, and is nothing when nothing is held; and the replayed grams are at least the ledger balance plus what
  // deliveries hold or have handed over, and equal to it exactly when no prefix of the rows sells more than
  // it buys, which is exactly when the oversell clamp is never taken.
  lemma ReplayMeetsLedgerExactlyWhen(cfg: Config, s: State, user: UserId, m: Metal, ids: seq<nat>)
    requires ConfigOk(cfg) && Reachable(cfg, s) && IsQueryResult(ids, s.orders, user, m)
    ensures var trades := TermsAt(ids, s.orders);
            var owned := Balance(s.log, Customer(user, Grams(m))) - Sum(s.deliveries, TakenOut(user, m));
            && 0 <= Basis(trades) == Replay(trades).cents <= Sum(trades, SpentOn())
            && (Replay(trades).heldMg == 0 ==> Basis(trades) == 0)
            && Replay(trades).heldMg >= owned
            && (Replay(trades).heldMg == owned <==> PrefixesCovered(trades))
            && (NeverOversold(trades) <==> PrefixesCovered(trades))
  {
    var trades := TermsAt(ids, s.orders);
    hide Reachable, Balance, Sum, Replay, Selects, TradesOk, NeverOversold, PrefixesCovered, PlatformOk;
    ReachableIsOk(cfg, s);
    RowsArePriced(cfg, s, user, m, ids);
    CostIsBounded(trades);
    NeverClampedExactlyWhen(trades);
    NetOfRows(ids, s.orders, user, m);
    NetOfTable(cfg, s, user, m);
  }

  // ---------------------------------------------------------------- when the query gives the ledger's order

  // The orders whose trades the ledger recorded, in its order.
  function TradeIds(log: seq<Txn>, orders: seq<Order>, user: UserId, m: Metal): (ids: seq<nat>)
    ensures forall k | 0 <= k < |ids| :: ids[k] < |orders| && orders[ids[k]].user == user
              && orders[ids[k]].terms.metal == m
  {
    if log == [] then []
    else
      var last := log[|log| - 1];
      TradeIds(log[..|log| - 1], orders, user, m) + (if IsTradeOf(last, orders, user, m) then [last.ref.i] else [])
  }

  lemma {:induction false} TradesAreTheirIds(log: seq<Txn>, orders: seq<Order>, user: UserId, m: Metal)
    ensures TradesIn(log, orders, user, m) == TermsAt(TradeIds(log, orders, user, m), orders)
    decreases |log|
  {
    if log != [] {
      TradesAreTheirIds(log[..|log| - 1], orders, user, m);
    }
  }

  // An order appears as often as the ledger holds transactions for it.
  lemma {:induction false} AppearsPerPosting(log: seq<Txn>, orders: seq<Order>, user: UserId, m: Metal, i: nat)
    requires i < |orders| && orders[i].user == user && orders[i].terms.metal == m
    ensures multiset(TradeIds(log, orders, user, m))[i] == |PostingsOf(log, OrderRef(i))|
    decreases |log|
  {
    if log != [] {
      var n := |log| - 1;
      AppearsPerPosting(log[..n], orders, user, m, i);
      var more := if IsTradeOf(log[n], orders, user, m) then [log[n].ref.i] else [];
      assert multiset(TradeIds(log, orders, user, m)) == multiset(TradeIds(log[..n], orders, user, m)) + multiset(more);
    }
  }

  lemma TwiceCountsTwo(ids: seq<nat>, j: nat, k: nat)
    requires j < k < |ids| && ids[j] == ids[k]
    ensures multiset(ids)[ids[j]] >= 2
  {
    assert ids == ids[..k] + ids[k..];
    assert multiset(ids) == multiset(ids[..k]) + multiset(ids[k..]);
    assert ids[..k][j] == ids[j] && ids[k..][0] == ids[k];
    assert ids[j] in ids[..k] && ids[j] in ids[k..];
  }

  // In a reachable state the ledger records each settled order once, and no other.
  lemma LedgerSelects(cfg: Config, s: State, user: UserId, m: Metal)
    requires PlatformOk(cfg, s)
    ensures Selects(TradeIds(s.log, s.orders, user, m), s.orders, user, m)
  {
    hide PlatformOk, TradeIds, PostingsOf, Shape;
    var ids := TradeIds(s.log, s.orders, user, m);
    forall i: nat | i < |s.orders| && s.orders[i].user == user && s.orders[i].terms.metal == m
      ensures multiset(ids)[i] == if s.orders[i].status.Settled? then 1 else 0
    {
      AppearsPerPosting(s.log, s.orders, user, m, i);
      HistoryOf(cfg, s, OrderRef(i));
    }
    forall j, k | 0 <= j < k < |ids| ensures ids[j] != ids[k] {
      if ids[j] == ids[k] {
        TwiceCountsTwo(ids, j, k);
      }
    }
    forall k | 0 <= k < |ids| ensures Counts(s.orders[ids[k]], user, m) {
      assert ids[k] in multiset(ids);
    }
    forall i | 0 <= i < |s.orders| && Counts(s.orders[i], user, m) ensures i in ids {
      assert i in multiset(ids);
    }
  }

  ghost predicate Settled(ids: seq<nat>, orders: seq<Order>) {
    forall k | 0 <= k < |ids| :: ids[k] < |orders| && orders[ids[k]].status.Settled?
  }

  ghost predicate Strict(ids: seq<nat>, orders: seq<Order>)
    requires Settled(ids, orders)
  {
    forall j, k | 0 <= j < k < |ids| :: Earlier(orders[ids[j]], orders[ids[k]])
  }

  ghost predicate Sorted(ids: seq<nat>, orders: seq<Order>)
    requires Settled(ids, orders)
  {
    forall j, k | 0 <= j < k < |ids| :: !Earlier(orders[ids[k]], orders[ids[j]])
  }

  lemma OthersAreEarlier(ids: seq<nat>, orders: seq<Order>, i: nat)
    requires Settled(ids, orders) && Strict(ids, orders) && i in ids
    ensures i < |orders| && orders[i].status.Settled?
    ensures i == ids[|ids| - 1] || Earlier(orders[i], orders[ids[|ids| - 1]])
  {
  }

  lemma OthersAreNotLater(ids: seq<nat>, orders: seq<Order>, i: nat)
    requires Settled(ids, orders) && Sorted(ids, orders) && i in ids
    ensures i < |orders| && orders[i].status.Settled?
    ensures i == ids[|ids| - 1] || !Earlier(orders[ids[|ids| - 1]], orders[i])
  {
  }

  // One sequence of rows in strict order, another of the same rows in some sorted order: they are the same.
  lemma {:induction false} StrictOrderIsUnique(a: seq<nat>, b: seq<nat>, orders: seq<Order>)
    requires Distinct(a) && Distinct(b) && forall i :: i in a <==> i in b
    requires Settled(a, orders) && Settled(b, orders) && Strict(a, orders) && Sorted(b, orders)
    ensures a == b
    decreases |a|
  {
    if a == [] {
      if |b| > 0 {
        FirstIsIn(b);
        assert false;
      }
    } else {
      var n, l := |a| - 1, |b| - 1;
      assert a[n] in b;
      OthersAreEarlier(a, orders, b[l]);
      OthersAreNotLater(b, orders, a[n]);
      forall i ensures i in a[..n] <==> i in b[..l] {
        DropLast(a, i);
        DropLast(b, i);
      }
      StrictOrderIsUnique(a[..n], b[..l], orders);
      assert a == a[..n] + [a[n]] && b == b[..l] + [b[l]];
    }
  }

  lemma DropLast(ids: seq<nat>, i: nat)
    requires Distinct(ids) && ids != []
    ensures i in ids[..|ids| - 1] <==> i in ids && i != ids[|ids| - 1]
  {
    if i in ids {
      var k :| 0 <= k < |ids| && ids[k] == i;
      if k < |ids| - 1 {
        assert ids[..|ids| - 1][k] == i;
      }
    }
  }

  // A customer's trades started in the order they committed.
  ghost predicate CommitsInOrder(s: State, user: UserId, m: Metal) {
    var ids := TradeIds(s.log, s.orders, user, m);
    Settled(ids, s.orders) && Strict(ids, s.orders)
  }

  // Then the query gives exactly the ledger's trades, the clamp is never taken, and the replayed grams are what
  // the ledger and the deliveries say.
  lemma InOrderReplayIsExact(cfg: Config, s: State, user: UserId, m: Metal, ids: seq<nat>)
    requires ConfigOk(cfg) && Reachable(cfg, s) && IsQueryResult(ids, s.orders, user, m)
    requires CommitsInOrder(s, user, m)
    ensures var trades := TermsAt(ids, s.orders);
            && trades == TradesIn(s.log, s.orders, user, m)
            && NeverOversold(trades)
            && Replay(trades).heldMg == Balance(s.log, Customer(user, Grams(m))) - Sum(s.deliveries, TakenOut(user, m))
  {
    hide Reachable, Balance, Sum, Replay, TradeIds, TradesIn, PlatformOk, NeverOversold;
    ReachableIsOk(cfg, s);
    var ledger := TradeIds(s.log, s.orders, user, m);
    LedgerSelects(cfg, s, user, m);
    forall i ensures i in ledger <==> i in ids {
      SameRows(ledger, ids, s.orders, user, m, i);
    }
    StrictOrderIsUnique(ledger, ids, s.orders);
    TradesAreTheirIds(s.log, s.orders, user, m);
    ReplayMatchesLedger(cfg, s, user, m);
  }

  lemma SameRows(a: seq<nat>, b: seq<nat>, orders: seq<Order>, user: UserId, m: Metal, i: nat)
    requires Selects(a, orders, user, m) && Selects(b, orders, user, m)
    ensures i in a <==> i in b
  {
  }
}
