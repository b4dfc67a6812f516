/**
 * A sell that starts before the buy it sells from commits. The ledger records buy, sell; both order
 * times are taken when the transaction starts, so the cost query gives sell, buy.
 */
module LateSell {
  import opened Options
  import opened Sums
  import opened Books
  import opened Platform
  import opened Calendar
  import opened CostReplay
  import opened CostOrder
  import OrderService
  import PaymentService
  import VaultServices
  import D = Payments
  import O = Orders
  import Q = Quotes

  // ---------------------------------------------------------------- what any late sell does

  // The only trades of the customer in the metal: a buy, and a sell of the same grams that started earlier.
  ghost predicate IsLateSell(orders: seq<Order>, user: UserId, m: Metal, buy: nat, sell: nat) {
    && buy < |orders| && sell < |orders| && buy != sell
    && Counts(orders[buy], user, m) && orders[buy].terms.side == Buy && WellPriced(orders[buy].terms)
    && Counts(orders[sell], user, m) && orders[sell].terms.side == Sell
    && orders[sell].terms.gramsMg == orders[buy].terms.gramsMg
    && orders[sell].status.at < orders[buy].status.at
    && forall i | 0 <= i < |orders| && Counts(orders[i], user, m) :: i == buy || i == sell
  }

  // The query has one answer, sell before buy; the sell is skipped and everything bought stays on the books.
  lemma LateSellIsClamped(orders: seq<Order>, user: UserId, m: Metal, buy: nat, sell: nat, ids: seq<nat>)
    requires IsLateSell(orders, user, m, buy, sell)
    ensures IsQueryResult(ids, orders, user, m) <==> ids == [sell, buy]
    ensures var trades := [orders[sell].terms, orders[buy].terms];
            && !NeverOversold(trades)
            && Replay(trades).heldMg == orders[buy].terms.gramsMg
            && Basis(trades) == orders[buy].terms.total
  {
    if IsQueryResult(ids, orders, user, m) {
      TwoRows(orders, user, m, buy, sell, ids);
    }
    var trades := [orders[sell].terms, orders[buy].terms];
    assert trades[..1] == [trades[0]] && trades[..1][..0] == [] && trades[..0] == [];
    assert Replay(trades[..1]) == Trade1(Replay([]), trades[0]);
  }

  lemma TwoRows(orders: seq<Order>, user: UserId, m: Metal, buy: nat, sell: nat, ids: seq<nat>)
    requires IsLateSell(orders, user, m, buy, sell) && IsQueryResult(ids, orders, user, m)
    ensures ids == [sell, buy]
  {
    assert buy in ids && sell in ids;
    var b :| 0 <= b < |ids| && ids[b] == buy;
    var s :| 0 <= s < |ids| && ids[s] == sell;
    assert Earlier(orders[sell], orders[buy]);
    var third := if b != 0 && s != 0 then 0 else if b != 1 && s != 1 then 1 else 2;
    if third < |ids| {
      RowIsOneOfTwo(orders, user, m, buy, sell, ids, third);
      assert false;
    }
  }

  lemma RowIsOneOfTwo(orders: seq<Order>, user: UserId, m: Metal, buy: nat, sell: nat, ids: seq<nat>, k: nat)
    requires IsLateSell(orders, user, m, buy, sell) && IsQueryResult(ids, orders, user, m) && k < |ids|
    ensures ids[k] == buy || ids[k] == sell
  {
  }

  // ---------------------------------------------------------------- one such state is reachable

  const CFG := Config(1_000_000, 1, 0, 1_000_000, 1, 1, 1, 1)
  const MARKET := Q.Market(100, 0, 0, false, 0, Q.FeeConfig(0, 0, 0, 0))
  const BUY := Terms(Buy, XAU, 1_000, 100, 0, 0, 0, 100)
  const SELL := Terms(Sell, XAU, 1_000, 100, 0, 0, 0, 100)
  const ANYONE := Standing(false, None, None, None)
  const WHO: UserId := 1

  lemma PriceIs(side: Side)
    ensures Q.Price(side, XAU, Q.InGrams(1_000), MARKET) == Q.Ok(if side == Buy then BUY else SELL)
  {
    hide Q.UnitPrice, Q.ComputeFees, Q.Subtotal;
    FiguresAre(side);
  }

  lemma FiguresAre(side: Side)
    ensures Q.UnitPrice(side, MARKET) == 100 && Q.Subtotal(100, 1_000) == 100
    ensures Q.ComputeFees(100, MARKET.fees) == Q.FeeBreakdown(0, 0, 0)
  {
  }

  lemma QuoteStep(s: State, side: Side)
    ensures Step(CFG, s, CreateQuote(WHO, side, XAU, Q.InGrams(1_000), MARKET, 10))
            == s.(quotes := s.quotes + [Quote(WHO, if side == Buy then BUY else SELL, Open, 10)])
  {
    hide Q.Price;
    PriceIs(side);
    assert s.log + [] == s.log;
  }

  function Funded(): State {
    var paid := Payment(WHO, 100, Credited, Some(0), [100], false);
    EMPTY.(quotes := [Quote(WHO, BUY, Open, 10), Quote(WHO, SELL, Open, 10)],
           vault := [VaultRow(XAU, Intake, 1_000)],
           payments := [paid],
           log := [Txn(PaymentRef(0), Shape(CreditMove(paid)))])
  }

  lemma FundedIsReachable()
    ensures Reachable(CFG, Funded())
  {
    hide Reachable, Shape, Step;
    EmptyIsReachable(CFG);
    var buyQuote := CreateQuote(WHO, Buy, XAU, Q.InGrams(1_000), MARKET, 10);
    var sellQuote := CreateQuote(WHO, Sell, XAU, Q.InGrams(1_000), MARKET, 10);
    var s0 := EMPTY;
    QuoteStep(s0, Buy);
    StepIsReachable(CFG, s0, buyQuote);
    var s1 := Step(CFG, s0, buyQuote);
    QuoteStep(s1, Sell);
    StepIsReachable(CFG, s1, sellQuote);
    var s2 := Step(CFG, s1, sellQuote);
    VaultServices.VaultStep(CFG, s2, XAU, Intake, 1_000);
    StepIsReachable(CFG, s2, Op.RecordVault(XAU, Intake, 1_000));
    var s3 := Step(CFG, s2, Op.RecordVault(XAU, Intake, 1_000));
    PaymentService.OpenStep(CFG, s3, WHO, 100, ANYONE);
    StepIsReachable(CFG, s3, OpenPayment(WHO, 100, ANYONE));
    var s4 := Step(CFG, s3, OpenPayment(WHO, 100, ANYONE));
    assert s4.payments == [Payment(WHO, 100, Initiated, None, [], false)];
    assert s4.payments[0].moved + [100] == [100];
    PaymentService.SettleStep(CFG, s4, 0, D.Success(true), 0);
    StepIsReachable(CFG, s4, SettlePayment(0, D.Success(true), 0));
    assert CreditMove(s4.payments[0]) == CreditMove(Funded().payments[0]);
    var s5 := Step(CFG, s4, SettlePayment(0, D.Success(true), 0));
    assert s2.quotes == Funded().quotes && s3.vault == Funded().vault && s4.quotes == s2.quotes && s4.vault == s3.vault;
    assert s5.payments == Funded().payments && s5.log == Funded().log;
    assert s5 == Funded();
  }

  const BUY_KEY := Key(WHO, "buy")
  const SELL_KEY := Key(WHO, "sell")

  function Bought(): State {
    Funded().(orders := [Order(0, WHO, BUY, BUY_KEY, Settled(2, false), 2)],
              quotes := [Quote(WHO, BUY, Consumed, 10), Quote(WHO, SELL, Open, 10)],
              log := Funded().log + [Txn(OrderRef(0), Shape(Trade(WHO, BUY, false)))])
  }

  function Sold(): State {
    Bought().(orders := Bought().orders + [Order(1, WHO, SELL, SELL_KEY, Settled(1, false), 1)],
              quotes := [Quote(WHO, BUY, Consumed, 10), Quote(WHO, SELL, Consumed, 10)],
              log := Bought().log + [Txn(OrderRef(1), Shape(Trade(WHO, SELL, false)))])
  }

  lemma FundedBalance(a: Account)
    ensures Balance(Funded().log, a) == MoveNet(CreditMove(Funded().payments[0]), a)
    ensures Physical(Funded().vault, XAU) == 1_000
  {
    hide Shape;
    var t := Funded().log[0];
    assert [] + [t] == Funded().log;
    BalanceAppend([], t, a);
    ShapeNet(CreditMove(Funded().payments[0]), a);
    SumOne(Funded().vault[0], StockOn(XAU));
  }

  lemma BoughtBalance(a: Account)
    ensures Balance(Bought().log, a) ==
              MoveNet(CreditMove(Funded().payments[0]), a) + MoveNet(Trade(WHO, BUY, false), a)
  {
    hide Shape, Balance, MoveNet;
    FundedBalance(a);
    BalanceAppend(Funded().log, Txn(OrderRef(0), Shape(Trade(WHO, BUY, false))), a);
    ShapeNet(Trade(WHO, BUY, false), a);
  }

  lemma BoughtIsReachable()
    ensures Reachable(CFG, Bought())
  {
    hide Reachable, Shape, Step, Balance, Physical, Filter, EatDayStartUtc;
    var s := Funded();
    FundedIsReachable();
    var op := Op.Execute(0, BUY_KEY, 2, ANYONE, 0);
    FundedBalance(Customer(WHO, ETB));
    FundedBalance(Vault(XAU));
    assert Sum<Order>([], O.TurnoverOn(WHO, EatDayStartUtc(2))) == 0;
    O.MoveIsPostable(Trade(WHO, BUY, false));
    assert O.Judge(CFG, s.quotes[0], O.ReadFor(s, s, WHO, XAU, 2), 0, ANYONE, 2) == O.Settle;
    OrderService.ExecuteStep(CFG, s, 0, BUY_KEY, 2, ANYONE, 0);
    StepIsReachable(CFG, s, op);
    var after := Step(CFG, s, op);
    assert after.orders == Bought().orders && after.quotes == Bought().quotes && after.log == Bought().log;
    assert after == Bought();
  }

  lemma SoldIsReachable()
    ensures Reachable(CFG, Sold())
  {
    hide Reachable, Shape, Step, Balance, Physical, Filter, EatDayStartUtc;
    var s, o := Bought(), Bought().orders[0];
    BoughtIsReachable();
    BoughtBalance(Customer(WHO, Grams(XAU)));
    BoughtBalance(Cash);
    var since := EatDayStartUtc(1);
    SumOne(o, O.TurnoverOn(WHO, since));
    SumOne(o, O.SettledOn(WHO, since));
    SumOne(o, O.SoldOn(since));
    var turnover := O.TurnoverSince(s.orders, WHO, since);
    assert O.IndexOfKey(s.orders, SELL_KEY).None? by {
      O.IndexOfKeyFinds(s.orders, SELL_KEY);
      assert BUY_KEY.client[0] != SELL_KEY.client[0];
    }
    O.MoveIsPostable(Trade(WHO, SELL, false));
    assert O.Judge(CFG, s.quotes[1], O.ReadFor(s, s, WHO, XAU, 1), turnover, ANYONE, 1) == O.Settle;
    OrderService.ExecuteStep(CFG, s, 1, SELL_KEY, 1, ANYONE, turnover);
    StepIsReachable(CFG, s, Op.Execute(1, SELL_KEY, 1, ANYONE, turnover));
    var after := Step(CFG, s, Op.Execute(1, SELL_KEY, 1, ANYONE, turnover));
    assert after.orders == Sold().orders && after.quotes == Sold().quotes && after.log == Sold().log;
    assert after == Sold();
  }

  // The customer holds nothing, the ledger's order replays to nothing, and the query's replay still shows the
  // thousand milligrams sold and the full price paid for them.
  lemma QueryOrderCanMissASell() returns (s: State)
    ensures ConfigOk(CFG) && Reachable(CFG, s) && IsLateSell(s.orders, WHO, XAU, 0, 1)
    ensures IsQueryResult([1, 0], s.orders, WHO, XAU) && !NeverOversold(TermsAt([1, 0], s.orders))
    ensures Replay(TermsAt([1, 0], s.orders)).heldMg == 1_000 && Basis(TermsAt([1, 0], s.orders)) == 100
    ensures Balance(s.log, Customer(WHO, Grams(XAU))) == 0 && s.deliveries == []
    ensures Replay(TermsAt([0, 1], s.orders)) == Cost(0, 0)
  {
    hide Reachable, Shape, Balance, MoveNet;
    s := Sold();
    SoldIsReachable();
    assert IsLateSell(s.orders, WHO, XAU, 0, 1);
    LateSellIsClamped(s.orders, WHO, XAU, 0, 1, [1, 0]);
    assert TermsAt([1, 0], s.orders) == [SELL, BUY] && TermsAt([0, 1], s.orders) == [BUY, SELL];
    assert [BUY, SELL][..1] == [BUY] && [BUY][..0] == [];
    assert Replay([BUY]) == Trade1(Replay([]), BUY) == Cost(1_000, 100);
    var a := Customer(WHO, Grams(XAU));
    BoughtBalance(a);
    BalanceAppend(Bought().log, Txn(OrderRef(1), Shape(Trade(WHO, SELL, false))), a);
    ShapeNet(Trade(WHO, SELL, false), a);
    TradeGrams();
  }

  lemma TradeGrams()
    ensures var a := Customer(WHO, Grams(XAU));
            && MoveNet(CreditMove(Funded().payments[0]), a) == 0
            && MoveNet(Trade(WHO, BUY, false), a) == 1_000 && MoveNet(Trade(WHO, SELL, false), a) == -1_000
  {
  }
}
