/**
 * Order execution and review, step by step on the database: claim the key by inserting the order, read balances
 * under the account locks, run the gates, post, settle. Each transaction is one step of the platform.
 */
module OrderService {
  import opened Options
  import opened Sums
  import opened Books
  import opened Calendar
  import opened Ledger
  import opened Platform
  import O = Orders
  import Q = Quotes
  import F = Footprints

  datatype Answer =
    | NotFound | Conflict | Forbidden | LedgerRefused
    | Replayed(order: nat)
    | RejectedAs(order: nat, code: Refusal)
    | Parked(order: nat)
    | Traded(order: nat)

  function StatusAfter(v: O.Verdict, now: int, reviewed: bool): OrderStatus {
    match v
    case Refuse(code, _) => Rejected(code)
    case Park => Review
    case Settle => Settled(now, reviewed)
  }

  function Placed(quoteId: nat, key: Key, t: Terms, now: int): Order {
    Order(quoteId, key.user, t, key, Created, now)
  }

  // The platform step of a first execute call on a known quote, by the verdict of the gates.
  lemma ExecuteStep(cfg: Config, s: State, quoteId: nat, key: Key, now: int, st: Standing, turnover: int)
    requires O.IndexOfKey(s.orders, key).None? && quoteId < |s.quotes| && s.quotes[quoteId].user == key.user
    ensures var q := s.quotes[quoteId];
            var t := q.terms;
            var v := O.Judge(cfg, q, O.ReadFor(s, s, key.user, t.metal, now), turnover, st, now);
            var placed := Placed(quoteId, key, t, now).(status := StatusAfter(v, now, false));
            var s' := Step(cfg, s, Execute(quoteId, key, now, st, turnover));
            match v
            case Refuse(_, expire) =>
              s' == s.(orders := s.orders + [placed],
                       quotes := if expire then s.quotes[quoteId := q.(status := Expired)] else s.quotes)
            case Park =>
              s' == s.(orders := s.orders + [placed], quotes := s.quotes[quoteId := q.(status := Consumed)])
            case Settle =>
              var m := Trade(key.user, t, false);
              s' == if Postable(EntriesOf(m)) then
                      s.(orders := s.orders + [placed], quotes := s.quotes[quoteId := q.(status := Consumed)],
                         log := s.log + [Txn(OrderRef(|s.orders|), Shape(m))])
                    else s
  {
    hide O.Judge, O.ReadFor, Postable, EntriesOf, Shape;
    assert s.log + [] == s.log;
  }

  lemma ApproveStep(cfg: Config, s: State, orderId: nat, actor: UserId, now: int, st: Standing)
    requires orderId < |s.orders| && s.orders[orderId].user != actor && s.orders[orderId].status == Review
    ensures var o := s.orders[orderId];
            var v := O.JudgeReview(cfg, o, O.ReadFor(s, s, o.user, o.terms.metal, now), st, now);
            var decided := s.orders[orderId := o.(status := StatusAfter(v, now, true))];
            var s' := Step(cfg, s, ApproveReview(orderId, actor, now, st));
            match v
            case Refuse(_, _) => s' == s.(orders := decided)
            case Park => false
            case Settle =>
              var m := Trade(o.user, o.terms, true);
              s' == if Postable(EntriesOf(m)) then
                      s.(orders := decided, log := s.log + [Txn(OrderRef(orderId), Shape(m))])
                    else s
  {
    hide O.ReadFor, O.TierGate, O.MoneyGate, Postable, EntriesOf, Shape;
    assert s.log + [] == s.log;
  }

  // One order more, at the figures of its quote, the quote marked, and what was posted.
  ghost predicate Wrote(s: State, s': State, quoteId: nat, key: Key, now: int, status: OrderStatus,
                        mark: QuoteStatus, posted: seq<Txn>)
    requires quoteId < |s.quotes|
  {
    var q := s.quotes[quoteId];
    s' == s.(orders := s.orders + [Order(quoteId, key.user, q.terms, key, status, now)],
             quotes := s.quotes[quoteId := q.(status := mark)], log := s.log + posted)
  }

  // What each answer to an execute call leaves behind.
  ghost predicate ExecutedRight(s: State, s': State, quoteId: nat, key: Key, now: int, answer: Answer) {
    match answer
    case Traded(o) =>
      && o == |s.orders| && quoteId < |s.quotes|
      && Wrote(s, s', quoteId, key, now, Settled(now, false), Consumed,
               [Txn(OrderRef(o), Shape(Trade(key.user, s.quotes[quoteId].terms, false)))])
    case Parked(o) =>
      o == |s.orders| && quoteId < |s.quotes| && Wrote(s, s', quoteId, key, now, Review, Consumed, [])
    case RejectedAs(o, code) =>
      && o == |s.orders| && quoteId < |s.quotes|
      && var q := s.quotes[quoteId];
         Wrote(s, s', quoteId, key, now, Rejected(code),
               if q.status != Consumed && q.expiresAt <= now then Expired else q.status, [])
    case _ => s' == s
  }

  // What each answer to a review decision leaves behind.
  ghost predicate ResolvedRight(s: State, s': State, orderId: nat, now: int, answer: Answer) {
    match answer
    case Traded(id) =>
      && id == orderId < |s.orders|
      && var o := s.orders[orderId];
         s' == s.(orders := s.orders[orderId := o.(status := Settled(now, true))],
                  log := s.log + [Txn(OrderRef(orderId), Shape(Trade(o.user, o.terms, true)))])
    case RejectedAs(id, code) =>
      && id == orderId < |s.orders|
      && s' == s.(orders := s.orders[orderId := s.orders[orderId].(status := Rejected(code))])
    case _ => s' == s
  }

  // A row that contributes nothing to a total does not change it.
  lemma SumWithOrder(orders: seq<Order>, o: Order, f: Order -> int)
    requires f(o) == 0
    ensures Sum(orders + [o], f) == Sum(orders, f)
  {
    SumAppend(orders, o, f);
  }

  class QuotesService {
    const db: Database
    const cfg: Config

    constructor (db: Database, cfg: Config)
      ensures this.db == db && this.cfg == cfg
    {
      this.db, this.cfg := db, cfg;
    }

    // Price the request and keep the figures for 30 seconds; a request that cannot be priced leaves no row.
    method Create(user: UserId, side: Side, metal: Metal, amount: Q.Amount, market: Q.Market, now: int)
        returns (id: Option<nat>)
      requires ConfigOk(cfg) && Reachable(cfg, db.View())
      modifies db`quotes
      ensures Reachable(cfg, db.View())
      ensures db.View() == Step(cfg, old(db.View()),
                                CreateQuote(user, side, metal, amount, market, now + Q.QUOTE_TTL_MS))
      ensures id.Some? <==> |db.quotes| > |old(db.quotes)|
      ensures match id
              case None =>
                db.quotes == old(db.quotes)
                && (market.ageSeconds <= market.maxAgeSeconds && !market.suspect ==>
                      !exists unit: nat, t: Terms :: Q.PricedRight(unit, t, side, metal, amount, market))
              case Some(i) =>
                && i == |old(db.quotes)| && market.ageSeconds <= market.maxAgeSeconds && !market.suspect
                && |db.quotes| == i + 1 && db.quotes[..i] == old(db.quotes)
                && db.quotes[i] == Quote(user, db.quotes[i].terms, Open, now + 30_000)
                && exists unit: nat :: Q.PricedRight(unit, db.quotes[i].terms, side, metal, amount, market)
    {
      hide Reachable, Q.Price, Q.PricedRight;
      StepIsReachable(cfg, db.View(), CreateQuote(user, side, metal, amount, market, now + Q.QUOTE_TTL_MS));
      assert db.log + [] == db.log;
      forall t: Terms {
        Q.PriceIsExactly(side, metal, amount, market, t);
      }
      match Q.Price(side, metal, amount, market) {
        case Err(_) => return None;
        case Ok(terms) =>
          db.quotes := db.quotes + [Quote(user, terms, Open, now + Q.QUOTE_TTL_MS)];
          return Some(|db.quotes| - 1);
      }
    }
  }

  class OrdersService {
    const db: Database
    const ledger: LedgerService
    const cfg: Config

    constructor (db: Database, ledger: LedgerService, cfg: Config)
      ensures this.db == db && this.ledger == ledger && this.cfg == cfg
    {
      this.db, this.ledger, this.cfg := db, ledger, cfg;
    }

    ghost predicate Linked() { ledger.db == db }

    ghost predicate Valid()
      reads db
    {
      Linked() && ConfigOk(cfg) && Reachable(cfg, db.View())
    }

    method FindByKey(key: Key) returns (found: Option<nat>)
      ensures found == O.IndexOfKey(db.orders, key)
    {
      var k := |db.orders|;
      assert db.orders[..k] == db.orders;
      while k > 0
        invariant 0 <= k <= |db.orders|
        invariant O.IndexOfKey(db.orders, key) == O.IndexOfKey(db.orders[..k], key)
      {
        assert db.orders[..k][..k - 1] == db.orders[..k - 1];
        if db.orders[k - 1].key == key {
          return Some(k - 1);
        }
        k := k - 1;
      }
      return None;
    }

    // Today's traded total of one customer, settled and parked.
    method TurnoverToday(user: UserId, now: int) returns (total: int)
      ensures total == O.TurnoverSince(db.orders, user, EatDayStartUtc(now))
    {
      var since := EatDayStartUtc(now);
      total := 0;
      var k := 0;
      while k < |db.orders|
        invariant 0 <= k <= |db.orders| && total == Sum(db.orders[..k], O.TurnoverOn(user, since))
      {
        NextRow(db.orders, k, O.TurnoverOn(user, since));
        var o := db.orders[k];
        if o.user == user && (o.status.Settled? || o.status.Review?) && o.createdAt >= since {
          total := total + o.terms.total;
        }
        k := k + 1;
      }
      assert db.orders[..k] == db.orders;
    }

    method SettledToday(user: UserId, now: int) returns (total: int)
      ensures total == Sum(db.orders, O.SettledOn(user, EatDayStartUtc(now)))
    {
      var since := EatDayStartUtc(now);
      total := 0;
      var k := 0;
      while k < |db.orders|
        invariant 0 <= k <= |db.orders| && total == Sum(db.orders[..k], O.SettledOn(user, since))
      {
        NextRow(db.orders, k, O.SettledOn(user, since));
        var o := db.orders[k];
        if o.user == user && o.status.Settled? && o.status.at >= since {
          total := total + o.terms.total;
        }
        k := k + 1;
      }
      assert db.orders[..k] == db.orders;
    }

    method DailySellbackUsed(now: int) returns (total: int)
      ensures total == Sum(db.orders, O.SoldOn(EatDayStartUtc(now)))
    {
      var since := EatDayStartUtc(now);
      total := 0;
      var k := 0;
      while k < |db.orders|
        invariant 0 <= k <= |db.orders| && total == Sum(db.orders[..k], O.SoldOn(since))
      {
        NextRow(db.orders, k, O.SoldOn(since));
        var o := db.orders[k];
        if o.terms.side == Sell && o.status.Settled? && o.status.at >= since {
          total := total + o.terms.total;
        }
        k := k + 1;
      }
      assert db.orders[..k] == db.orders;
    }

    method PhysicalVaultMg(metal: Metal) returns (mg: int)
      ensures mg == Physical(db.vault, metal)
    {
      mg := 0;
      var k := 0;
      while k < |db.vault|
        invariant 0 <= k <= |db.vault| && mg == Physical(db.vault[..k], metal)
      {
        NextRow(db.vault, k, StockOn(metal));
        var v := db.vault[k];
        if v.metal == metal {
          mg := if v.kind == Intake then mg + v.gramsMg else mg - v.gramsMg;
        }
        k := k + 1;
      }
      assert db.vault[..k] == db.vault;
    }

    method CheckTierCaps(user: UserId, total: int, st: Standing, now: int) returns (code: Option<Refusal>)
      ensures forall r: O.Reads | r.settledToday == Sum(db.orders, O.SettledOn(user, EatDayStartUtc(now))) ::
                code == O.TierGate(total, r, st)
    {
      if st.perTxnCap.Some? && total > st.perTxnCap.value {
        return Some(TierTxnCap);
      }
      if st.dailyCap.Some? {
        var usedToday := SettledToday(user, now);
        if usedToday + total > st.dailyCap.value {
          return Some(TierDailyCap);
        }
      }
      return None;
    }

    // The last gates before money moves: tier caps, funds, then the reserve on a buy, or the float and the
    // sell-back ceiling on a sell.
    method MoneyGates(user: UserId, t: Terms, balances: map<Account, int>, st: Standing, now: int)
        returns (code: Option<Refusal>)
      requires Customer(user, ETB) in balances && Customer(user, Grams(t.metal)) in balances
      requires Cash in balances && Vault(t.metal) in balances
      requires forall a | a in balances :: balances[a] == Balance(db.log, a)
      ensures O.TierThenMoney(cfg, t, O.ReadFor(db.View(), db.View(), user, t.metal, now), st)
              == if code.Some? then O.Refuse(code.value, false) else O.Settle
    {
      hide Balance, Sum, O.TierGate;
      code := CheckTierCaps(user, t.total, st, now);
      assert code == O.TierGate(t.total, O.ReadFor(db.View(), db.View(), user, t.metal, now), st);
      if code.Some? {
        return;
      }
      if t.side == Buy {
        if balances[Customer(user, ETB)] < t.total {
          return Some(InsufficientBalance);
        }
        var physical := PhysicalVaultMg(t.metal);
        if physical + balances[Vault(t.metal)] < t.gramsMg {
          return Some(ReserveHalt);
        }
      } else {
        if balances[Customer(user, Grams(t.metal))] < t.gramsMg {
          return Some(InsufficientMetal);
        }
        if balances[Cash] - t.subtotal < cfg.halt {
          return Some(FloatHalt);
        }
        var usedToday := DailySellbackUsed(now);
        if usedToday + t.total > cfg.sellbackCeiling {
          return Some(SellbackCeiling);
        }
      }
      return None;
    }

    function LockIds(user: UserId, t: Terms): (ids: seq<Account>)
      ensures Customer(user, ETB) in ids && Customer(user, Grams(t.metal)) in ids && Cash in ids
                && Vault(t.metal) in ids
    {
      [Customer(user, ETB), Customer(user, Grams(t.metal)), Cash, Vault(t.metal)]
      + (if t.fee > 0 then [Fees] else [])
      + (if t.tax > 0 then [Tax] else [])
      + (if t.reforest > 0 then [Reforestation] else [])
    }

    // The accounts locked are those the transaction's footprint names.
    lemma LocksTheFootprint(user: UserId, t: Terms)
      ensures forall a :: a in LockIds(user, t) <==> F.Acct(a) in F.TradeAccounts(user, t)
    {
    }

    // The double entries of a trade.
    method PostTrade(order: nat, user: UserId, t: Terms, reviewed: bool) returns (ok: bool)
      requires Linked()
      modifies db`log
      ensures var m := Trade(user, t, reviewed);
              && (ok <==> Postable(EntriesOf(m)))
              && db.log == if ok then old(db.log) + [Txn(OrderRef(order), Shape(m))] else old(db.log)
    {
      hide Postable, Filter;
      var metal := Grams(t.metal);
      var entries;
      if t.side == Buy {
        entries := [Entry(Customer(user, ETB), ETB, -t.total), Entry(Cash, ETB, t.subtotal),
                    Entry(Fees, ETB, t.fee), Entry(Tax, ETB, t.tax), Entry(Reforestation, ETB, t.reforest),
                    Entry(Customer(user, metal), metal, t.gramsMg), Entry(Vault(t.metal), metal, -t.gramsMg)];
      } else {
        entries := [Entry(Cash, ETB, -t.subtotal), Entry(Customer(user, ETB), ETB, t.total),
                    Entry(Fees, ETB, t.fee), Entry(Tax, ETB, t.tax), Entry(Reforestation, ETB, t.reforest),
                    Entry(Customer(user, metal), metal, -t.gramsMg), Entry(Vault(t.metal), metal, t.gramsMg)];
      }
      ok := ledger.PostTransaction(OrderRef(order), if t.side == Buy then BuyTxn else SellTxn,
                                   if reviewed then ReviewApproved else NoNote, entries);
    }

    // The order stays on record with its reason: a business rejection commits.
    method Reject(order: nat, code: Refusal)
      requires order < |db.orders|
      modifies db`orders
      ensures db.orders == old(db.orders)[order := old(db.orders)[order].(status := Rejected(code))]
    {
      db.orders := db.orders[order := db.orders[order].(status := Rejected(code))];
    }

    // The transaction of `execute`, on an order just inserted as created. It throws only when the ledger refuses.
    method Settle(order: nat, quoteId: nat, st: Standing, now: int) returns (answer: Answer)
      requires Linked() && order < |db.orders| && quoteId < |db.quotes|
      requires db.orders[order] == Placed(quoteId, db.orders[order].key, db.quotes[quoteId].terms, now)
      modifies db`orders, db`quotes, db`log
      ensures
        var key, q := old(db.orders)[order].key, old(db.quotes)[quoteId];
        var seen := old(O.ReadFor(db.View(), db.View(), key.user, db.quotes[quoteId].terms.metal, now));
        var v := O.Judge(cfg, q, seen, old(O.TurnoverSince(db.orders, key.user, EatDayStartUtc(now))), st, now);
        var m := Trade(key.user, q.terms, false);
        && (answer == LedgerRefused <==> v.Settle? && !Postable(EntriesOf(m)))
        && (answer != LedgerRefused ==>
              && db.orders == old(db.orders)[order := old(db.orders)[order].(status := StatusAfter(v, now, false))]
              && db.quotes == (if v.Refuse? && !v.expire then old(db.quotes)
                               else old(db.quotes)[quoteId := q.(status := if v.Refuse? then Expired else Consumed)])
              && db.log == (if v.Settle? then old(db.log) + [Txn(OrderRef(order), Shape(m))] else old(db.log))
              && answer == (match v
                            case Refuse(code, _) => RejectedAs(order, code)
                            case Park => Parked(order)
                            case Settle => Traded(order)))
    {
      hide Balance, Sum, Physical, EatDayStartUtc, Postable, EntriesOf, Shape, O.TierGate, O.MoneyGate;
      var user := db.orders[order].user;
      ghost var seen := O.ReadFor(db.View(), db.View(), user, db.quotes[quoteId].terms.metal, now);
      var balances := ledger.LockAndReadBalances(LockIds(user, db.quotes[quoteId].terms));
      var quote := db.quotes[quoteId];
      if quote.status == Consumed {
        Reject(order, QuoteConsumed);
        return RejectedAs(order, QuoteConsumed);
      }
      if quote.status == Expired || quote.expiresAt <= now {
        db.quotes := db.quotes[quoteId := quote.(status := Expired)];
        Reject(order, QuoteExpired);
        return RejectedAs(order, QuoteExpired);
      }
      if st.frozen {
        Reject(order, AccountFrozen);
        return RejectedAs(order, AccountFrozen);
      }
      if st.gate.Some? {
        Reject(order, st.gate.value);
        return RejectedAs(order, st.gate.value);
      }
      if quote.terms.side == Buy && balances[Customer(user, ETB)] < quote.terms.total {
        Reject(order, InsufficientBalance);
        return RejectedAs(order, InsufficientBalance);
      }
      if quote.terms.side == Sell && balances[Customer(user, Grams(quote.terms.metal))] < quote.terms.gramsMg {
        Reject(order, InsufficientMetal);
        return RejectedAs(order, InsufficientMetal);
      }
      var turnover := TurnoverToday(user, now);
      if quote.terms.total >= cfg.reviewThreshold || turnover + quote.terms.total >= cfg.reviewThreshold {
        db.quotes := db.quotes[quoteId := quote.(status := Consumed)];
        db.orders := db.orders[order := db.orders[order].(status := Review)];
        return Parked(order);
      }
      var refused := MoneyGates(user, quote.terms, balances, st, now);
      if refused.Some? {
        Reject(order, refused.value);
        return RejectedAs(order, refused.value);
      }
      var posted := PostTrade(order, user, quote.terms, false);
      if !posted {
        return LedgerRefused;
      }
      db.quotes := db.quotes[quoteId := quote.(status := Consumed)];
      db.orders := db.orders[order := db.orders[order].(status := Settled(now, false))];
      return Traded(order);
    }

    // The money transaction: claim the key by inserting the order first, then settle it; a throw rolls back.
    method Transact(quoteId: nat, key: Key, st: Standing, now: int) returns (answer: Answer)
      requires Linked() && O.IndexOfKey(db.orders, key).None? && quoteId < |db.quotes|
                && db.quotes[quoteId].user == key.user
      modifies db
      ensures db.View() == Step(cfg, old(db.View()),
                                Op.Execute(quoteId, key, now, st,
                                           old(O.TurnoverSince(db.orders, key.user, EatDayStartUtc(now)))))
      ensures !answer.Replayed? && (answer.Traded? <==> |db.log| > |old(db.log)|)
      ensures var s, q := old(db.View()), old(db.quotes)[quoteId];
              var v := O.Judge(cfg, q, O.ReadFor(s, s, key.user, q.terms.metal, now),
                               O.TurnoverSince(s.orders, key.user, EatDayStartUtc(now)), st, now);
              && (answer.Parked? <==> v.Park?)
              && (answer.Traded? <==> v.Settle? && Postable(EntriesOf(Trade(key.user, q.terms, false))))
              && (answer.RejectedAs? <==> v.Refuse?)
      ensures !answer.NotFound? && !answer.Conflict?
      ensures ExecutedRight(old(db.View()), db.View(), quoteId, key, now, answer)
    {
      hide Balance, Sum, Physical, EatDayStartUtc, Postable, EntriesOf, Shape, O.Judge, O.IndexOfKey;
      var begun := db.View();
      var order := |db.orders|;
      var placed := Order(quoteId, key.user, db.quotes[quoteId].terms, key, Created, now);
      ExecuteStep(cfg, begun, quoteId, key, now, st, O.TurnoverSince(db.orders, key.user, EatDayStartUtc(now)));
      InsertedOrderIsUnseen(begun, placed, key.user, placed.terms.metal, now);
      O.RefusalsNameTheirReason(cfg, db.quotes[quoteId], placed,
                                O.ReadFor(db.View(), db.View(), key.user, placed.terms.metal, now),
                                O.TurnoverSince(db.orders, key.user, EatDayStartUtc(now)), st, now);
      assert begun.log + [] == begun.log;
      hide Step, O.MoneyReason, O.JudgeReview;
      db.orders := db.orders + [placed];
      answer := Settle(order, quoteId, st, now);
      if answer == LedgerRefused {
        db.Rollback(begun);
      }
    }

    lemma QuoteIsPostable(quoteId: nat, user: UserId)
      requires Valid() && quoteId < |db.quotes|
      ensures Postable(EntriesOf(Trade(user, db.quotes[quoteId].terms, false)))
    {
      hide Reachable, Postable, EntriesOf;
      ReachableIsOk(cfg, db.View());
      O.MoveIsPostable(Trade(user, db.quotes[quoteId].terms, false));
    }

    // A new key on an own quote that is open and in time, by someone who may trade and holds what it takes.
    ghost predicate Starts(s: State, quoteId: nat, key: Key, st: Standing, now: int) {
      && quoteId < |s.quotes| && s.quotes[quoteId].user == key.user
      && (forall j | 0 <= j < |s.orders| :: s.orders[j].key != key)
      && s.quotes[quoteId].status == Open && now < s.quotes[quoteId].expiresAt
      && !st.frozen && st.gate.None? && O.HasFunds(s, key.user, s.quotes[quoteId].terms)
    }

    // One execute call is one platform step, at the turnover it read itself; a replay or a refusal to start
    // changes nothing.
    method Execute(quoteId: nat, key: Key, st: Standing, now: int) returns (answer: Answer)
      requires Valid()
      modifies db
      ensures Valid()
      ensures db.View() == Step(cfg, old(db.View()),
                                Op.Execute(quoteId, key, now, st,
                                           old(O.TurnoverSince(db.orders, key.user, EatDayStartUtc(now)))))
      ensures answer.Replayed? ==> answer.order < |db.orders| && db.orders[answer.order].key == key
                                   && db.orders[answer.order].quote == quoteId
      ensures answer.Traded? <==> |db.log| > |old(db.log)|
      ensures answer.Parked? <==> Starts(old(db.View()), quoteId, key, st, now)
                                  && old(O.ReachesLine(cfg, db.View(), key.user, db.quotes[quoteId].terms, now))
      ensures answer.Traded? <==> Starts(old(db.View()), quoteId, key, st, now)
                                  && !old(O.ReachesLine(cfg, db.View(), key.user, db.quotes[quoteId].terms, now))
                                  && old(O.ClearsGates(cfg, db.View(), key.user, db.quotes[quoteId].terms, st, now))
      ensures answer.Replayed? || answer.Conflict? <==>
                exists j | 0 <= j < |old(db.orders)| :: old(db.orders)[j].key == key
      ensures answer.NotFound? <==>
                && (quoteId >= |old(db.quotes)| || old(db.quotes)[quoteId].user != key.user)
                && forall j | 0 <= j < |old(db.orders)| :: old(db.orders)[j].key != key
      ensures ExecutedRight(old(db.View()), db.View(), quoteId, key, now, answer)
    {
      hide Balance, Sum, EatDayStartUtc, O.Judge, O.IndexOfKey, O.ReachesLine, O.ClearsGates, O.HasFunds, O.ReadFor,
           O.TurnoverSince, EntriesOf, Postable, Reachable, Shape, Wrote;
      StepIsReachable(cfg, db.View(),
                        Op.Execute(quoteId, key, now, st, O.TurnoverSince(db.orders, key.user, EatDayStartUtc(now))));
      var found := FindByKey(key);
      O.IndexOfKeyFinds(db.orders, key);
      if found.Some? {
        if db.orders[found.value].quote != quoteId {
          return Conflict;
        }
        return Replayed(found.value);
      }
      if quoteId >= |db.quotes| || db.quotes[quoteId].user != key.user {
        return NotFound;
      }
      hide Step;
      O.ExecuteVerdictIs(cfg, db.View(), key.user, db.quotes[quoteId], st, now);
      QuoteIsPostable(quoteId, key.user);
      answer := Transact(quoteId, key, st, now);
    }

    // A row still in created changes none of the totals the gates read.
    lemma InsertedOrderIsUnseen(s: State, placed: Order, user: UserId, metal: Metal, now: int)
      requires placed.status.Created?
      ensures var s' := s.(orders := s.orders + [placed]);
              && O.ReadFor(s', s', user, metal, now) == O.ReadFor(s, s, user, metal, now)
              && O.TurnoverSince(s'.orders, user, EatDayStartUtc(now)) ==
                  O.TurnoverSince(s.orders, user, EatDayStartUtc(now))
    {
      hide Balance, Physical, Sum;
      var since := EatDayStartUtc(now);
      SumWithOrder(s.orders, placed, O.SettledOn(user, since));
      SumWithOrder(s.orders, placed, O.SoldOn(since));
      SumWithOrder(s.orders, placed, O.TurnoverOn(user, since));
    }

    // A parked order that is recent enough, of a customer who may trade, holds what it takes and clears the gates.
    ghost predicate Approvable(s: State, orderId: nat, st: Standing, now: int)
      requires orderId < |s.orders|
    {
      var o := s.orders[orderId];
      && o.status == Review && now - o.createdAt <= cfg.reviewMaxAgeMs && !st.frozen && st.gate.None?
      && O.HasFunds(s, o.user, o.terms) && O.ClearsGates(cfg, s, o.user, o.terms, st, now)
    }

    // The exit from the review queue: a rejection is one conditional update; an approval runs every gate again
    // and settles at the original figures.
    method ResolveReview(orderId: nat, actor: UserId, approve: bool, st: Standing, now: int) returns (answer: Answer)
      requires Valid()
      modifies db
      ensures Valid()
      ensures db.View() == Step(cfg, old(db.View()),
                                if approve then ApproveReview(orderId, actor, now, st)
                                    else RejectReview(orderId, actor))
      ensures answer.Traded? <==> |db.log| > |old(db.log)|
      ensures answer.Traded? <==>
              && approve && orderId < |old(db.orders)| && old(db.orders)[orderId].user != actor
              && old(Approvable(db.View(), orderId, st, now))
      ensures answer.RejectedAs? <==>
              && orderId < |old(db.orders)| && old(db.orders)[orderId].user != actor
              && old(db.orders)[orderId].status == Review && !(approve && old(Approvable(db.View(), orderId, st, now)))
      ensures answer.RejectedAs? && !approve ==> answer.code == ComplianceRejected
      ensures ResolvedRight(old(db.View()), db.View(), orderId, now, answer)
    {
      hide Balance, Sum, Physical, EatDayStartUtc, Postable, EntriesOf, Shape, O.TierGate, O.MoneyGate, Reachable,
           O.HasFunds, O.ClearsGates, O.ReadFor;
      StepIsReachable(cfg, db.View(), RejectReview(orderId, actor));
      if orderId >= |db.orders| {
        return NotFound;
      }
      if db.orders[orderId].user == actor {
        return Forbidden;
      }
      if approve {
        O.ReviewVerdictIs(cfg, db.View(), db.orders[orderId], st, now);
        OrderIsPostable(orderId);
        answer := Approve(orderId, actor, st, now);
        return;
      }
      if db.orders[orderId].status != Review {
        return Conflict;
      }
      assert db.log + [] == db.log;
      Reject(orderId, ComplianceRejected);
      return RejectedAs(orderId, ComplianceRejected);
    }

    lemma OrderIsPostable(orderId: nat)
      requires Valid() && orderId < |db.orders|
      ensures Postable(EntriesOf(Trade(db.orders[orderId].user, db.orders[orderId].terms, true)))
    {
      hide Reachable, Postable, EntriesOf;
      ReachableIsOk(cfg, db.View());
      assert O.OrderMatches(db.quotes, db.orders[orderId]);
      O.MoveIsPostable(Trade(db.orders[orderId].user, db.orders[orderId].terms, true));
    }

    // A review too old, a customer who may no longer trade, and the money gates again.
    method ReviewGates(order: Order, balances: map<Account, int>, st: Standing, now: int)
        returns (code: Option<Refusal>)
      requires Customer(order.user, ETB) in balances && Customer(order.user, Grams(order.terms.metal)) in balances
      requires Cash in balances && Vault(order.terms.metal) in balances
      requires forall a | a in balances :: balances[a] == Balance(db.log, a)
      ensures var seen := O.ReadFor(db.View(), db.View(), order.user, order.terms.metal, now);
              O.JudgeReview(cfg, order, seen, st, now)
              == if code.Some? then O.Refuse(code.value, false) else O.Settle
    {
      hide O.ReadFor, O.TierThenMoney;
      if now - order.createdAt > cfg.reviewMaxAgeMs {
        return Some(ReviewExpired);
      }
      if st.frozen {
        return Some(AccountFrozen);
      }
      if st.gate.Some? {
        return st.gate;
      }
      code := MoneyGates(order.user, order.terms, balances, st, now);
    }

    // Settle a parked order of another customer, if every gate still allows it.
    method Approve(orderId: nat, actor: UserId, st: Standing, now: int) returns (answer: Answer)
      requires Valid() && orderId < |db.orders| && db.orders[orderId].user != actor
      modifies db
      ensures Valid()
      ensures db.View() == Step(cfg, old(db.View()), ApproveReview(orderId, actor, now, st))
      ensures answer.Traded? <==> |db.log| > |old(db.log)|
      ensures var s, o := old(db.View()), old(db.orders)[orderId];
              answer.Traded? <==>
              && o.status == Review && Postable(EntriesOf(Trade(o.user, o.terms, true)))
              && O.JudgeReview(cfg, o, O.ReadFor(s, s, o.user, o.terms.metal, now), st, now).Settle?
      ensures answer.RejectedAs? || answer.Traded? || answer.LedgerRefused? || answer.Conflict?
      ensures answer.Conflict? <==> old(db.orders)[orderId].status != Review
      ensures answer.LedgerRefused? ==> !Postable(EntriesOf(Trade(old(db.orders)[orderId].user,
                                                                  old(db.orders)[orderId].terms, true)))
      ensures ResolvedRight(old(db.View()), db.View(), orderId, now, answer)
    {
      hide Balance, Postable, EntriesOf, Shape, O.JudgeReview, O.ReadFor, Reachable;
      StepIsReachable(cfg, db.View(), ApproveReview(orderId, actor, now, st));
      var begun := db.View();
      var order := db.orders[orderId];
      if order.status != Review {
        return Conflict;
      }
      ApproveStep(cfg, begun, orderId, actor, now, st);
      hide Step;
      var balances := ledger.LockAndReadBalances(LockIds(order.user, order.terms));
      var refused := ReviewGates(order, balances, st, now);
      if refused.Some? {
        Reject(orderId, refused.value);
        return RejectedAs(orderId, refused.value);
      }
      var posted := PostTrade(orderId, order.user, order.terms, true);
      if !posted {
        db.Rollback(begun);
        return LedgerRefused;
      }
      db.orders := db.orders[orderId := order.(status := Settled(now, true))];
      return Traded(orderId);
    }
  }
}
