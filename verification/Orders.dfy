/** Order execution and compliance review. */
module Orders {
  import opened Options
  import opened Sums
  import opened Books
  import opened Journal
  import opened Calendar

  // ---------------------------------------------------------------- daily totals

  // Settled and parked orders created in the window (createdAt).
  function TurnoverOn(user: UserId, since: int): Order -> int {
    (o: Order) =>
      if o.user == user && (o.status.Settled? || o.status.Review?) && o.createdAt >= since then o.terms.total else 0
  }

  function TurnoverSince(orders: seq<Order>, user: UserId, since: int): int {
    Sum(orders, TurnoverOn(user, since))
  }

  // Orders of one customer settled in the window (settledAt), for the tier's daily cap.
  function SettledOn(user: UserId, since: int): Order -> int {
    (o: Order) => if o.user == user && o.status.Settled? && o.status.at >= since then o.terms.total else 0
  }

  // Platform-wide sells settled in the window.
  function SoldOn(since: int): Order -> int {
    (o: Order) => if o.terms.side == Sell && o.status.Settled? && o.status.at >= since then o.terms.total else 0
  }

  function IndexOfKey(orders: seq<Order>, key: Key): Option<nat> {
    if orders == [] then None
    else if orders[|orders| - 1].key == key then Some(|orders| - 1)
    else IndexOfKey(orders[..|orders| - 1], key)
  }

  lemma {:induction false} IndexOfKeyFinds(orders: seq<Order>, key: Key)
    ensures match IndexOfKey(orders, key)
            case Some(i) => i < |orders| && orders[i].key == key
            case None => forall i :: 0 <= i < |orders| ==> orders[i].key != key
    decreases |orders|
  {
    if orders != [] {
      IndexOfKeyFinds(orders[..|orders| - 1], key);
    }
  }

  // ---------------------------------------------------------------- the gates

  // Everything a trade decision reads besides the quote, the clock and the customer's standing.
  datatype Reads = Reads(etb: int, metal: int, cash: int, vault: int, physical: int, settledToday: int, soldToday: int)

  // `b` is the database at the moment balances are read, `g` when everything else is.
  function ReadFor(b: State, g: State, user: UserId, m: Metal, now: int): Reads {
    Reads(Balance(b.log, Customer(user, ETB)), Balance(b.log, Customer(user, Grams(m))),
          Balance(b.log, Cash), Balance(b.log, Vault(m)),
          Physical(g.vault, m),
          Sum(g.orders, SettledOn(user, EatDayStartUtc(now))),
          Sum(g.orders, SoldOn(EatDayStartUtc(now))))
  }

  function TierGate(total: int, r: Reads, st: Standing): Option<Refusal> {
    if st.perTxnCap.Some? && total > st.perTxnCap.value then Some(TierTxnCap)
    else if st.dailyCap.Some? && r.settledToday + total > st.dailyCap.value then Some(TierDailyCap)
    else None
  }

  // Funds, reserve, float and sell-back ceiling.
  function MoneyGate(cfg: Config, t: Terms, r: Reads): Option<Refusal> {
    if t.side == Buy then
      if r.etb < t.total then Some(InsufficientBalance)
      else if r.physical + r.vault < t.gramsMg then Some(ReserveHalt)
      else None
    else
      if r.metal < t.gramsMg then Some(InsufficientMetal)
      else if r.cash - t.subtotal < cfg.halt then Some(FloatHalt)
      else if r.soldToday + t.total > cfg.sellbackCeiling then Some(SellbackCeiling)
      else None
  }

  function StandingGate(st: Standing): Option<Refusal> {
    if st.frozen then Some(AccountFrozen) else st.gate
  }

  datatype Verdict = Refuse(code: Refusal, expire: bool) | Park | Settle

  function TierThenMoney(cfg: Config, t: Terms, r: Reads, st: Standing): Verdict {
    match TierGate(t.total, r, st)
    case Some(code) => Refuse(code, false)
    case None =>
      match MoneyGate(cfg, t, r)
      case Some(code) => Refuse(code, false)
      case None => Settle
  }

  // The decision on a live order, in the order the gates are applied.
  function Judge(cfg: Config, q: Quote, r: Reads, turnover: int, st: Standing, now: int): Verdict {
    if q.status == Consumed then Refuse(QuoteConsumed, false)
    else if q.status == Expired || q.expiresAt <= now then Refuse(QuoteExpired, true)
    else if StandingGate(st).Some? then Refuse(StandingGate(st).value, false)
    else if q.terms.side == Buy && r.etb < q.terms.total then Refuse(InsufficientBalance, false)
    else if q.terms.side == Sell && r.metal < q.terms.gramsMg then Refuse(InsufficientMetal, false)
    else if q.terms.total >= cfg.reviewThreshold || turnover + q.terms.total >= cfg.reviewThreshold then Park
    else TierThenMoney(cfg, q.terms, r, st)
  }

  // The decision on approving a parked order: every gate again, at the quote's figures.
  function JudgeReview(cfg: Config, o: Order, r: Reads, st: Standing, now: int): Verdict {
    if now - o.createdAt > cfg.reviewMaxAgeMs then Refuse(ReviewExpired, false)
    else if StandingGate(st).Some? then Refuse(StandingGate(st).value, false)
    else TierThenMoney(cfg, o.terms, r, st)
  }

  predicate WithinCap(cap: Option<int>, amount: int) {
    cap.Some? ==> amount <= cap.value
  }

  // What an order must meet to move money at once, as one condition.
  predicate MoneyConditions(cfg: Config, t: Terms, r: Reads, st: Standing) {
    && !st.frozen && st.gate.None?
    && WithinCap(st.perTxnCap, t.total) && WithinCap(st.dailyCap, r.settledToday + t.total)
    && (t.side == Buy ==> r.etb >= t.total && r.physical + r.vault >= t.gramsMg)
    && (t.side == Sell ==>
          r.metal >= t.gramsMg && r.cash - t.subtotal >= cfg.halt && r.soldToday + t.total <= cfg.sellbackCeiling)
  }

  // An order settles at once exactly when its quote is open and in time, every money condition is met, and neither
  // it nor the day's turnover with it reaches the review line.
  lemma SettlesExactlyWhen(cfg: Config, q: Quote, r: Reads, turnover: int, st: Standing, now: int)
    ensures Judge(cfg, q, r, turnover, st, now) == Settle <==>
            && q.status == Open && q.expiresAt > now
            && MoneyConditions(cfg, q.terms, r, st)
            && q.terms.total < cfg.reviewThreshold && turnover + q.terms.total < cfg.reviewThreshold
  {
  }

  // An approved review settles exactly when it is recent enough and every money condition is met now.
  lemma ReviewSettlesExactlyWhen(cfg: Config, o: Order, r: Reads, st: Standing, now: int)
    ensures JudgeReview(cfg, o, r, st, now) == Settle <==>
            now - o.createdAt <= cfg.reviewMaxAgeMs && MoneyConditions(cfg, o.terms, r, st)
  {
  }

  // ---------------------------------------------------------------- the gates, in the customer's own terms

  // Of one customer: orders placed on the day or later that trade or wait for review.
  function PlacedFrom(user: UserId, day: int): Order -> int {
    (o: Order) =>
      match o.status
      case Created => 0
      case Rejected(_) => 0
      case Review => if o.user == user && Day(o.createdAt) >= day then o.terms.total else 0
      case Settled(_, _) => if o.user == user && Day(o.createdAt) >= day then o.terms.total else 0
  }

  // Orders of one customer, and sells of all, that settled on the day or later.
  function SettledFrom(user: UserId, day: int): Order -> int {
    (o: Order) =>
      match o.status
      case Settled(at, _) => if o.user == user && Day(at) >= day then o.terms.total else 0
      case _ => 0
  }

  function SoldFrom(day: int): Order -> int {
    (o: Order) =>
      match o.status
      case Settled(at, _) => if o.terms.side == Sell && Day(at) >= day then o.terms.total else 0
      case _ => 0
  }

  lemma WindowSums(orders: seq<Order>, user: UserId, now: int)
    ensures TurnoverSince(orders, user, EatDayStartUtc(now)) == Sum(orders, PlacedFrom(user, Day(now)))
    ensures Sum(orders, SettledOn(user, EatDayStartUtc(now))) == Sum(orders, SettledFrom(user, Day(now)))
    ensures Sum(orders, SoldOn(EatDayStartUtc(now))) == Sum(orders, SoldFrom(Day(now)))
  {
    hide EatDayStartUtc, Day;
    forall t: int ensures t >= EatDayStartUtc(now) <==> Day(t) >= Day(now) {
      WindowIsDayOrLater(t, now);
    }
    SumEq(orders, TurnoverOn(user, EatDayStartUtc(now)), PlacedFrom(user, Day(now)));
    SumEq(orders, SettledOn(user, EatDayStartUtc(now)), SettledFrom(user, Day(now)));
    SumEq(orders, SoldOn(EatDayStartUtc(now)), SoldFrom(Day(now)));
  }

  // The customer holds what the trade takes from them.
  predicate HasFunds(s: State, user: UserId, t: Terms) {
    if t.side == Buy then Balance(s.log, Customer(user, ETB)) >= t.total
    else Balance(s.log, Customer(user, Grams(t.metal))) >= t.gramsMg
  }

  // Alone, or with what was placed that day, the order reaches the review line.
  predicate ReachesLine(cfg: Config, s: State, user: UserId, t: Terms, now: int) {
    || t.total >= cfg.reviewThreshold
    || Sum(s.orders, PlacedFrom(user, Day(now))) + t.total >= cfg.reviewThreshold
  }

  // The tier's caps, then metal behind a buy, or float and sell-back ceiling behind a sell.
  predicate ClearsGates(cfg: Config, s: State, user: UserId, t: Terms, st: Standing, now: int) {
    && (st.perTxnCap.Some? ==> t.total <= st.perTxnCap.value)
    && (st.dailyCap.Some? ==> Sum(s.orders, SettledFrom(user, Day(now))) + t.total <= st.dailyCap.value)
    && (t.side == Buy ==> Physical(s.vault, t.metal) + Balance(s.log, Vault(t.metal)) >= t.gramsMg)
    && (t.side == Sell ==>
          && Balance(s.log, Cash) - t.subtotal >= cfg.halt
          && Sum(s.orders, SoldFrom(Day(now))) + t.total <= cfg.sellbackCeiling)
  }

  lemma ExecuteVerdictIs(cfg: Config, s: State, user: UserId, q: Quote, st: Standing, now: int)
    ensures var v := Judge(cfg, q, ReadFor(s, s, user, q.terms.metal, now),
                           TurnoverSince(s.orders, user, EatDayStartUtc(now)), st, now);
            var goes := q.status == Open && now < q.expiresAt && !st.frozen && st.gate.None?
                        && HasFunds(s, user, q.terms);
            && (v.Park? <==> goes && ReachesLine(cfg, s, user, q.terms, now))
            && (v.Settle? <==>
                  goes && !ReachesLine(cfg, s, user, q.terms, now) && ClearsGates(cfg, s, user, q.terms, st, now))
  {
    hide Sum, Balance, Physical, EatDayStartUtc, Day, TurnoverSince;
    WindowSums(s.orders, user, now);
  }

  lemma ReviewVerdictIs(cfg: Config, s: State, o: Order, st: Standing, now: int)
    ensures JudgeReview(cfg, o, ReadFor(s, s, o.user, o.terms.metal, now), st, now).Settle? <==>
            && now - o.createdAt <= cfg.reviewMaxAgeMs && !st.frozen && st.gate.None?
            && HasFunds(s, o.user, o.terms) && ClearsGates(cfg, s, o.user, o.terms, st, now)
  {
    hide Sum, Balance, Physical, EatDayStartUtc, Day;
    WindowSums(s.orders, o.user, now);
  }

  // A refusal of the money gates names a condition that fails.
  predicate MoneyReason(cfg: Config, t: Terms, r: Reads, st: Standing, code: Refusal) {
    || (!st.frozen && st.gate == Some(code))
    || match code
    case InsufficientBalance => t.side == Buy && r.etb < t.total
    case InsufficientMetal => t.side == Sell && r.metal < t.gramsMg
    case TierTxnCap => st.perTxnCap.Some? && t.total > st.perTxnCap.value
    case TierDailyCap => st.dailyCap.Some? && r.settledToday + t.total > st.dailyCap.value
    case ReserveHalt => t.side == Buy && r.physical + r.vault < t.gramsMg
    case FloatHalt => t.side == Sell && r.cash - t.subtotal < cfg.halt
    case SellbackCeiling => t.side == Sell && r.soldToday + t.total > cfg.sellbackCeiling
    case AccountFrozen => st.frozen
    case _ => false
  }

  // A quote is refused as consumed or expired exactly when it is, before anything else is looked at, and only an
  // expired one is marked; every other refusal names a condition that fails.
  lemma RefusalsNameTheirReason(cfg: Config, q: Quote, o: Order, r: Reads, turnover: int, st: Standing, now: int)
    ensures var v := Judge(cfg, q, r, turnover, st, now);
            && (q.status == Consumed ==> v == Refuse(QuoteConsumed, false))
            && (q.status != Consumed && (q.status == Expired || q.expiresAt <= now) ==> v == Refuse(QuoteExpired, true))
            && (v.Refuse? && v.expire ==> q.status != Consumed && (q.status == Expired || q.expiresAt <= now))
            && (v.Refuse? && q.status == Open && q.expiresAt > now ==> MoneyReason(cfg, q.terms, r, st, v.code))
    ensures var v := JudgeReview(cfg, o, r, st, now);
            && (now - o.createdAt > cfg.reviewMaxAgeMs ==> v == Refuse(ReviewExpired, false))
            && (v.Refuse? && now - o.createdAt <= cfg.reviewMaxAgeMs ==> MoneyReason(cfg, o.terms, r, st, v.code))
  {
  }

  // ---------------------------------------------------------------- transactions

  // Execute a quote. None: nothing is written (replay, conflict, unknown quote, ledger refusal).
  function Execute(cfg: Config, b: State, g: State, quoteId: nat, key: Key, now: int, st: Standing, turnover: int)
    : (c: Option<Change>)
    ensures c.Some? ==>
              ChangeFits(g, c.value) && c.value.row.WriteOrder? && c.value.row.oslot == New
              && c.value.stock.None? && c.value.spends.None?
  {
    if IndexOfKey(g.orders, key).Some? || quoteId >= |g.quotes| || g.quotes[quoteId].user != key.user then None
    else
      var q := g.quotes[quoteId];
      var t := q.terms;
      var placed := Order(quoteId, key.user, t, key, Created, now);
      var r := ReadFor(b, g, key.user, t.metal, now);
      match Judge(cfg, q, r, turnover, st, now)
      case Refuse(code, expire) =>
        Some(Change(WriteOrder(New, placed.(status := Rejected(code))), None,
                    if expire then Some((quoteId, Expired)) else None, None, None))
      case Park =>
        Some(Change(WriteOrder(New, placed.(status := Review)), None, Some((quoteId, Consumed)), None, None))
      case Settle =>
        var m := Trade(key.user, t, false);
        if Postable(EntriesOf(m)) then
          Some(Change(WriteOrder(New, placed.(status := Settled(now, false))), Some(m), Some((quoteId, Consumed)),
                      None, None))
        else None
  }

  // Approve a parked order; a failing gate records a rejection.
  function ApproveReview(cfg: Config, b: State, g: State, orderId: nat, actor: UserId, now: int, st: Standing)
    : (c: Option<Change>)
    ensures c.Some? ==>
              ChangeFits(g, c.value) && c.value.row.WriteOrder?
              && c.value == Change(c.value.row, c.value.post, None, None, None)
  {
    if orderId >= |g.orders| || g.orders[orderId].user == actor || g.orders[orderId].status != Review then None
    else
      var o := g.orders[orderId];
      var r := ReadFor(b, g, o.user, o.terms.metal, now);
      match JudgeReview(cfg, o, r, st, now)
      case Refuse(code, _) => Some(RowOnly(WriteOrder(At(orderId), o.(status := Rejected(code)))))
      case Park => None
      case Settle =>
        var m := Trade(o.user, o.terms, true);
        if Postable(EntriesOf(m)) then
          Some(RowAndPost(WriteOrder(At(orderId), o.(status := Settled(now, true))), m))
        else None
  }

  function RejectReview(g: State, orderId: nat, actor: UserId): (c: Option<Change>)
    ensures c.Some? ==>
              ChangeFits(g, c.value) && c.value.row.WriteOrder?
              && c.value == RowOnly(c.value.row)
  {
    if orderId >= |g.orders| || g.orders[orderId].user == actor || g.orders[orderId].status != Review then None
    else Some(RowOnly(WriteOrder(At(orderId), g.orders[orderId].(status := Rejected(ComplianceRejected)))))
  }

  // ---------------------------------------------------------------- invariants of quotes and orders

  ghost predicate QuotesOk(quotes: seq<Quote>) {
    forall i :: 0 <= i < |quotes| ==> WellPriced(quotes[i].terms)
  }

  // Parked or settled: the order has used its quote.
  predicate Live(o: Order) { o.status.Review? || o.status.Settled? }

  ghost predicate OrderMatches(quotes: seq<Quote>, o: Order) {
    && o.quote < |quotes|
    && quotes[o.quote].user == o.user == o.key.user
    && quotes[o.quote].terms == o.terms
    && WellPriced(o.terms)
    && !o.status.Created?
    && (Live(o) ==> quotes[o.quote].status == Consumed)
  }

  ghost predicate OrdersMatch(quotes: seq<Quote>, orders: seq<Order>) {
    forall i :: 0 <= i < |orders| ==> OrderMatches(quotes, orders[i])
  }

  // At most one order per quote ever reaches review or settled.
  ghost predicate OneLivePerQuote(orders: seq<Order>) {
    forall i, j | 0 <= i < |orders| && 0 <= j < |orders| && Live(orders[i]) && Live(orders[j]) ::
      orders[i].quote == orders[j].quote ==> i == j
  }

  // Each idempotency key owns at most one order.
  ghost predicate OneOrderPerKey(orders: seq<Order>) {
    forall i, j | 0 <= i < |orders| && 0 <= j < |orders| :: orders[i].key == orders[j].key ==> i == j
  }

  // Orders of one customer created on one EAT day that settled without review.
  function DirectOn(user: UserId, day: int): Order -> int {
    (o: Order) =>
      if o.user == user && o.status.Settled? && !o.status.reviewed && Day(o.createdAt) == day then o.terms.total else 0
  }

  // What the day's review line counts: orders of one customer placed on the day that trade or wait for review.
  function PlacedOn(user: UserId, day: int): Order -> int {
    (o: Order) =>
      match o.status
      case Created => 0
      case Rejected(_) => 0
      case Review => if o.user == user && Day(o.createdAt) == day then o.terms.total else 0
      case Settled(_, _) => if o.user == user && Day(o.createdAt) == day then o.terms.total else 0
  }

  function SoldOnDay(day: int): Order -> int {
    (o: Order) => if o.terms.side == Sell && o.status.Settled? && Day(o.status.at) == day then o.terms.total else 0
  }

  ghost predicate UnderReviewLine(cfg: Config, orders: seq<Order>) {
    forall user: UserId, day: int :: Sum(orders, DirectOn(user, day)) < cfg.reviewThreshold
  }

  // An order that settled without review stayed below the line together with every order the customer had placed
  // before it that day and that trades or waits for review.
  ghost predicate NoneSlipsUnder(cfg: Config, orders: seq<Order>) {
    forall i :: 0 <= i < |orders| && orders[i].status.Settled? && !orders[i].status.reviewed ==>
      Sum(orders[..i], PlacedOn(orders[i].user, Day(orders[i].createdAt))) + orders[i].terms.total < cfg.reviewThreshold
  }

  ghost predicate UnderSellback(cfg: Config, orders: seq<Order>) {
    forall day: int :: Sum(orders, SoldOnDay(day)) <= cfg.sellbackCeiling
  }

  ghost predicate OrdersOk(cfg: Config, s: State) {
    && QuotesOk(s.quotes)
    && OrdersMatch(s.quotes, s.orders)
    && OneLivePerQuote(s.orders)
    && OneOrderPerKey(s.orders)
    && UnderReviewLine(cfg, s.orders)
    && NoneSlipsUnder(cfg, s.orders)
    && UnderSellback(cfg, s.orders)
  }

  // ---------------------------------------------------------------- the changes are lawful

  lemma MoveIsPostable(m: Move)
    requires MoveOk(m)
    ensures Postable(EntriesOf(m))
  {
    hide EntriesOf;
    ShapeSound(m);
  }

  // A settled trade passed the money gate on the committed balances.
  lemma TradeLawful(cfg: Config, s: State, c: Change, user: UserId, t: Terms, reviewed: bool, now: int)
    requires ChangeFits(s, c) && c.post == Some(Trade(user, t, reviewed)) && c.stock.None?
    requires TellsStory(s, c) && WellPriced(t)
    requires MoneyGate(cfg, t, ReadFor(s, s, user, t.metal, now)).None?
    ensures Lawful(cfg.halt, s, c)
  {
    hide TellsStory, Balance, Physical, Sum;
  }

  lemma ExecuteLawful(cfg: Config, s: State, quoteId: nat, key: Key, now: int, st: Standing, turnover: int)
    requires QuotesOk(s.quotes)
    ensures var c := Execute(cfg, s, s, quoteId, key, now, st, turnover);
            c.Some? ==> Lawful(cfg.halt, s, c.value)
  {
    hide Balance, Physical, Sum, EntriesOf, Postable, MoneyGate, IndexOfKey, StandingGate, TierGate, EatDayStartUtc;
    var c := Execute(cfg, s, s, quoteId, key, now, st, turnover);
    if c.Some? && c.value.post.Some? {
      TradeLawful(cfg, s, c.value, key.user, s.quotes[quoteId].terms, false, now);
    }
  }

  lemma ApproveReviewLawful(cfg: Config, s: State, orderId: nat, actor: UserId, now: int, st: Standing)
    requires OrdersMatch(s.quotes, s.orders)
    ensures var c := ApproveReview(cfg, s, s, orderId, actor, now, st);
            c.Some? ==> Lawful(cfg.halt, s, c.value)
  {
    hide Balance, Physical, Sum, EntriesOf, Postable, MoneyGate, StandingGate, TierGate, EatDayStartUtc;
    var c := ApproveReview(cfg, s, s, orderId, actor, now, st);
    if c.Some? && c.value.post.Some? {
      var o := s.orders[orderId];
      assert OrderMatches(s.quotes, o);
      TradeLawful(cfg, s, c.value, o.user, o.terms, true, now);
    }
  }

  lemma RejectReviewLawful(cfg: Config, s: State, orderId: nat, actor: UserId)
    ensures var c := RejectReview(s, orderId, actor);
            c.Some? ==> Lawful(cfg.halt, s, c.value)
  {
  }

  // ---------------------------------------------------------------- the changes keep the order invariants

  // The day's direct orders are among the turnover the review rule reads.
  lemma DirectWithinTurnover(quotes: seq<Quote>, orders: seq<Order>, user: UserId, now: int)
    requires OrdersMatch(quotes, orders)
    ensures Sum(orders, DirectOn(user, Day(now))) <= TurnoverSince(orders, user, EatDayStartUtc(now))
  {
    forall i | 0 <= i < |orders|
      ensures DirectOn(user, Day(now))(orders[i]) <= TurnoverOn(user, EatDayStartUtc(now))(orders[i])
    {
      assert OrderMatches(quotes, orders[i]);
      WindowIsDayOrLater(orders[i].createdAt, now);
    }
    SumLe(orders, DirectOn(user, Day(now)), TurnoverOn(user, EatDayStartUtc(now)));
  }

  lemma SoldTodayWithinWindow(quotes: seq<Quote>, orders: seq<Order>, now: int)
    requires OrdersMatch(quotes, orders)
    ensures Sum(orders, SoldOnDay(Day(now))) <= Sum(orders, SoldOn(EatDayStartUtc(now)))
  {
    forall i | 0 <= i < |orders|
      ensures SoldOnDay(Day(now))(orders[i]) <= SoldOn(EatDayStartUtc(now))(orders[i])
    {
      assert OrderMatches(quotes, orders[i]);
      if orders[i].status.Settled? {
        WindowIsDayOrLater(orders[i].status.at, now);
      }
    }
    SumLe(orders, SoldOnDay(Day(now)), SoldOn(EatDayStartUtc(now)));
  }

  lemma PlacedWithinTurnover(orders: seq<Order>, user: UserId, now: int)
    requires forall i :: 0 <= i < |orders| ==> WellPriced(orders[i].terms)
    ensures Sum(orders, PlacedOn(user, Day(now))) <= TurnoverSince(orders, user, EatDayStartUtc(now))
  {
    forall i | 0 <= i < |orders|
      ensures PlacedOn(user, Day(now))(orders[i]) <= TurnoverOn(user, EatDayStartUtc(now))(orders[i])
    {
      WindowIsDayOrLater(orders[i].createdAt, now);
    }
    SumLe(orders, PlacedOn(user, Day(now)), TurnoverOn(user, EatDayStartUtc(now)));
  }

  lemma PlacedOrderStaysUnder(cfg: Config, s: State, o: Order, now: int, turnover: int)
    requires OrdersOk(cfg, s)
    requires o.status.Settled? ==>
               && o.createdAt == now && turnover >= TurnoverSince(s.orders, o.user, EatDayStartUtc(now))
               && turnover + o.terms.total < cfg.reviewThreshold
    ensures NoneSlipsUnder(cfg, s.orders + [o])
  {
    hide Sum, EatDayStartUtc, Day, PlacedOn, OneLivePerQuote, OneOrderPerKey, UnderReviewLine, UnderSellback,
         TurnoverSince;
    var orders' := s.orders + [o];
    forall i | 0 <= i < |orders'| && orders'[i].status.Settled? && !orders'[i].status.reviewed
      ensures Sum(orders'[..i], PlacedOn(orders'[i].user, Day(orders'[i].createdAt))) + orders'[i].terms.total
              < cfg.reviewThreshold
    {
      if i < |s.orders| {
        assert orders'[..i] == s.orders[..i];
      } else {
        assert orders'[..i] == s.orders;
        forall j | 0 <= j < |s.orders| ensures WellPriced(s.orders[j].terms) {
          assert OrderMatches(s.quotes, s.orders[j]);
        }
        PlacedWithinTurnover(s.orders, o.user, now);
      }
    }
  }

  // Deciding a parked order settles nothing directly, and takes nothing into the day's count.
  lemma DecidedOrderStaysUnder(cfg: Config, s: State, k: nat, status: OrderStatus)
    requires OrdersOk(cfg, s) && k < |s.orders| && s.orders[k].status.Review?
    requires status.Rejected? || (status.Settled? && status.reviewed)
    ensures NoneSlipsUnder(cfg, s.orders[k := s.orders[k].(status := status)])
  {
    hide Sum, EatDayStartUtc, Day, OneLivePerQuote, OneOrderPerKey, UnderReviewLine, UnderSellback;
    var orders' := s.orders[k := s.orders[k].(status := status)];
    assert OrderMatches(s.quotes, s.orders[k]);
    forall i | 0 <= i < |orders'| && orders'[i].status.Settled? && !orders'[i].status.reviewed
      ensures Sum(orders'[..i], PlacedOn(orders'[i].user, Day(orders'[i].createdAt))) + orders'[i].terms.total
              < cfg.reviewThreshold
    {
      assert i != k && orders'[i] == s.orders[i];
      SumRowsLe(orders'[..i], s.orders[..i], PlacedOn(orders'[i].user, Day(orders'[i].createdAt)));
    }
  }

  // Writing one order keeps both daily limits when the order itself passed them.
  lemma LimitsAfterWrite(cfg: Config, s: State, slot: Slot, o: Order, now: int, turnover: int)
    requires OrdersOk(cfg, s) && Fits(s.orders, slot)
    requires slot.At? ==> !s.orders[slot.i].status.Settled?
    requires o.status.Settled? ==> o.status.at == now
    requires o.status.Settled? && !o.status.reviewed ==>
               o.createdAt == now && turnover >= TurnoverSince(s.orders, o.user, EatDayStartUtc(now))
               && turnover + o.terms.total < cfg.reviewThreshold
    requires o.status.Settled? && o.terms.side == Sell ==>
               Sum(s.orders, SoldOn(EatDayStartUtc(now))) + o.terms.total <= cfg.sellbackCeiling
    ensures UnderReviewLine(cfg, Put(s.orders, slot, o))
    ensures UnderSellback(cfg, Put(s.orders, slot, o))
  {
    hide OrdersMatch, OneLivePerQuote, OneOrderPerKey, QuotesOk, Sum, Put, EatDayStartUtc, Day;
    var orders' := Put(s.orders, slot, o);
    forall user: UserId, day: int ensures Sum(orders', DirectOn(user, day)) < cfg.reviewThreshold {
      SumPut(s.orders, slot, o, DirectOn(user, day));
      DirectWithinTurnover(s.quotes, s.orders, user, now);
    }
    forall day: int ensures Sum(orders', SoldOnDay(day)) <= cfg.sellbackCeiling {
      SumPut(s.orders, slot, o, SoldOnDay(day));
      SoldTodayWithinWindow(s.quotes, s.orders, now);
    }
  }

  lemma ExecuteKeepsRows(cfg: Config, s: State, quoteId: nat, key: Key, now: int, st: Standing, turnover: int)
    requires OrdersOk(cfg, s)
    ensures var c := Execute(cfg, s, s, quoteId, key, now, st, turnover);
            c.Some? ==>
              && ChangeFits(s, c.value)
              && var s' := Apply(s, c.value);
                 QuotesOk(s'.quotes) && OrdersMatch(s'.quotes, s'.orders) && OneLivePerQuote(s'.orders)
                     && OneOrderPerKey(s'.orders)
  {
    hide Sum, EntriesOf, Postable, MoneyGate, StandingGate, TierGate, EatDayStartUtc, ReadFor, IndexOfKey,
         UnderReviewLine, NoneSlipsUnder, UnderSellback, Shape;
    var c := Execute(cfg, s, s, quoteId, key, now, st, turnover);
    IndexOfKeyFinds(s.orders, key);
    if c.Some? {
      var s' := Apply(s, c.value);
      var o := c.value.row.order;
      assert s'.orders == s.orders + [o];
      forall i | 0 <= i < |s'.orders| ensures OrderMatches(s'.quotes, s'.orders[i]) {
        if i < |s.orders| {
          assert OrderMatches(s.quotes, s.orders[i]);
        }
      }
      forall i | 0 <= i < |s.orders| && Live(s.orders[i]) && Live(o) ensures s.orders[i].quote != quoteId {
        assert OrderMatches(s.quotes, s.orders[i]);
      }
    }
  }

  lemma PutsLast(orders: seq<Order>, o: Order)
    ensures Put(orders, New, o) == orders + [o]
  {
  }

  // Executing a quote keeps every order invariant, whatever turnover it read that is not below the committed one.
  lemma ExecuteKeepsOrders(cfg: Config, s: State, quoteId: nat, key: Key, now: int, st: Standing, turnover: int)
    requires OrdersOk(cfg, s) && turnover >= TurnoverSince(s.orders, key.user, EatDayStartUtc(now))
    ensures var c := Execute(cfg, s, s, quoteId, key, now, st, turnover);
            c.Some? ==> ChangeFits(s, c.value) && OrdersOk(cfg, Apply(s, c.value))
  {
    hide Sum, EntriesOf, Postable, StandingGate, TierGate, EatDayStartUtc, IndexOfKey, OrdersMatch, OneLivePerQuote,
         OneOrderPerKey, QuotesOk, UnderReviewLine, NoneSlipsUnder, UnderSellback, Shape, Balance, Physical, Put;
    ExecuteKeepsRows(cfg, s, quoteId, key, now, st, turnover);
    var c := Execute(cfg, s, s, quoteId, key, now, st, turnover);
    if c.Some? {
      LimitsAfterWrite(cfg, s, New, c.value.row.order, now, turnover);
      PlacedOrderStaysUnder(cfg, s, c.value.row.order, now, turnover);
      PutsLast(s.orders, c.value.row.order);
    }
  }

  lemma DecideKeepsRows(cfg: Config, s: State, orderId: nat, status: OrderStatus)
    requires OrdersOk(cfg, s) && orderId < |s.orders| && s.orders[orderId].status.Review? && !status.Created?
    ensures var orders' := s.orders[orderId := s.orders[orderId].(status := status)];
            OrdersMatch(s.quotes, orders') && OneLivePerQuote(orders') && OneOrderPerKey(orders')
  {
    hide Sum, UnderReviewLine, NoneSlipsUnder, UnderSellback;
    var orders' := s.orders[orderId := s.orders[orderId].(status := status)];
    assert forall i :: 0 <= i < |orders'| ==> orders'[i].quote == s.orders[i].quote && orders'[i].key == s.orders[i].key
                                              && (Live(orders'[i]) ==> Live(s.orders[i]));
    forall i | 0 <= i < |orders'| ensures OrderMatches(s.quotes, orders'[i]) {
      assert OrderMatches(s.quotes, s.orders[i]);
    }
  }

  lemma ApproveReviewKeepsOrders(cfg: Config, s: State, orderId: nat, actor: UserId, now: int, st: Standing)
    requires OrdersOk(cfg, s)
    ensures var c := ApproveReview(cfg, s, s, orderId, actor, now, st);
            c.Some? ==> ChangeFits(s, c.value) && OrdersOk(cfg, Apply(s, c.value))
  {
    hide Sum, EntriesOf, Postable, StandingGate, TierGate, EatDayStartUtc, OrdersMatch, OneLivePerQuote, OneOrderPerKey,
         QuotesOk, UnderReviewLine, NoneSlipsUnder, UnderSellback, Shape, Balance, Physical;
    var c := ApproveReview(cfg, s, s, orderId, actor, now, st);
    if c.Some? {
      DecideKeepsRows(cfg, s, orderId, c.value.row.order.status);
      LimitsAfterWrite(cfg, s, At(orderId), c.value.row.order, now, 0);
      DecidedOrderStaysUnder(cfg, s, orderId, c.value.row.order.status);
    }
  }

  lemma RejectReviewKeepsOrders(cfg: Config, s: State, orderId: nat, actor: UserId)
    requires OrdersOk(cfg, s)
    ensures var c := RejectReview(s, orderId, actor);
            c.Some? ==> ChangeFits(s, c.value) && OrdersOk(cfg, Apply(s, c.value))
  {
    hide Sum, EatDayStartUtc, OrdersMatch, OneLivePerQuote, OneOrderPerKey, QuotesOk, UnderReviewLine, NoneSlipsUnder,
         UnderSellback, Shape;
    var c := RejectReview(s, orderId, actor);
    if c.Some? {
      DecideKeepsRows(cfg, s, orderId, Rejected(ComplianceRejected));
      LimitsAfterWrite(cfg, s, At(orderId), c.value.row.order, 0, 0);
      DecidedOrderStaysUnder(cfg, s, orderId, Rejected(ComplianceRejected));
    }
  }
}
