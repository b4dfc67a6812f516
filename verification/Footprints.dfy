/**
 * Which locks and rows each transaction takes, and why holding them is enough: nothing a
 * transaction decides on can change while it holds its footprint.
 */
module Footprints {
  import opened Options
  import opened Sums
  import opened Books
  import opened Journal
  import opened Platform
  import O = Orders
  import P = Payouts
  import D = Payments
  import H = PhysicalDelivery
  import E = EmailCodes

  // An account row lock, a business row locked by its conditional update or FOR UPDATE, a unique
  // idempotency key claimed by inserting first, or the one confirm call that consumed a code.
  datatype Resource =
    | Acct(a: Account)
    | QuoteRow(i: nat) | OrderRow(i: nat) | PaymentRow(i: nat) | PayoutRow(i: nat) | DeliveryRow(i: nat)
    | OrderKey(key: Key) | PayoutKey(key: Key)
    | Confirm(i: nat)

  function TradeAccounts(user: UserId, t: Terms): (locks: set<Resource>)
    ensures forall r :: r in locks ==> r.Acct?
  {
    {Acct(Customer(user, ETB)), Acct(Customer(user, Grams(t.metal))), Acct(Cash), Acct(Vault(t.metal))}
    + (if t.fee > 0 then {Acct(Fees)} else {})
    + (if t.tax > 0 then {Acct(Tax)} else {})
    + (if t.reforest > 0 then {Acct(Reforestation)} else {})
  }

  // The rows the handler has already seen exist.
  predicate RowsExist(s: State, op: Op) {
    match op
    case Execute(q, key, _, _, _) => q < |s.quotes| && s.quotes[q].user == key.user
    case ApproveReview(i, _, _, _) => i < |s.orders| && s.orders[i].quote < |s.quotes|
    case RejectReview(i, _) => i < |s.orders|
    case WriteWebhook(i) => i < |s.payments|
    case SettlePayment(i, _, _) => i < |s.payments|
    case ReversePayment(i, _) => i < |s.payments|
    case ClosePayment(i, _) => i < |s.payments|
    case CloseStalePayment(i) => i < |s.payments|
    case RequestPayout(i, _, _, _) => i < |s.codes| && s.codes[i].consumedAt.Some?
    case ClaimTransfer(i, _, _) => i < |s.payouts|
    case SettlePayout(i) => i < |s.payouts|
    case RefundPayout(i, _) => i < |s.payouts|
    case ApproveDelivery(i, _, _) => i < |s.deliveries|
    case ScheduleDelivery(i, _) => i < |s.deliveries|
    case Deliver(i, _) => i < |s.deliveries|
    case RejectDelivery(i, _, _) => i < |s.deliveries|
    case _ => true
  }

  // Everything a transaction locks or claims. It is known before the transaction opens, from
  // columns that never change.
  function Footprint(s: State, op: Op): set<Resource>
    requires RowsExist(s, op)
  {
    match op
    case Execute(q, key, _, _, _) => {OrderKey(key), QuoteRow(q)} + TradeAccounts(key.user, s.quotes[q].terms)
    case ApproveReview(i, _, _, _) =>
      var o := s.orders[i];
      {OrderRow(i), QuoteRow(o.quote)} + TradeAccounts(o.user, o.terms)
    case RejectReview(i, _) => {OrderRow(i)}
    case WriteWebhook(i) => {PaymentRow(i)}
    case SettlePayment(i, answer, _) =>
      {PaymentRow(i)}
      + (if answer == D.Success(true) then {Acct(Customer(s.payments[i].user, ETB)), Acct(External)} else {})
    case ReversePayment(i, _) => {PaymentRow(i), Acct(Customer(s.payments[i].user, ETB)), Acct(External)}
    case ClosePayment(i, _) => {PaymentRow(i)}
    case CloseStalePayment(i) => {PaymentRow(i)}
    case RequestPayout(i, key, _, _) => {Confirm(i), PayoutKey(key), Acct(Customer(key.user, ETB)), Acct(PayoutHold)}
    case ClaimTransfer(i, _, _) => {PayoutRow(i)}
    case SettlePayout(i) => {PayoutRow(i), Acct(PayoutHold), Acct(External)}
    case RefundPayout(i, _) => {PayoutRow(i), Acct(PayoutHold), Acct(Customer(s.payouts[i].user, ETB))}
    case ApproveDelivery(i, _, _) =>
      var d := s.deliveries[i];
      {DeliveryRow(i), Acct(Customer(d.user, Grams(d.metal))), Acct(DeliveryHold(d.metal))}
    case ScheduleDelivery(i, _) => {DeliveryRow(i)}
    case Deliver(i, _) =>
      var m := s.deliveries[i].metal;
      {DeliveryRow(i), Acct(DeliveryHold(m)), Acct(Vault(m))}
    case RejectDelivery(i, _, held) =>
      var d := s.deliveries[i];
      {DeliveryRow(i)} + (if held then {Acct(Customer(d.user, Grams(d.metal))), Acct(DeliveryHold(d.metal))} else {})
    case RecordVault(m, _, _) => {Acct(Vault(m))}
    case RecordCapital(_, _) => {Acct(Cash), Acct(External)}
    case _ => {}
  }

  // ---------------------------------------------------------------- what a resource protects

  // Between `s` and the later `s'`, nothing guarded by `r` has changed. Turnover is the exception:
  // rejecting a review takes no account lock, so it may have dropped.
  ghost predicate Same(r: Resource, s: State, s': State) {
    match r
    case Acct(a) => SameAccount(a, s, s')
    case QuoteRow(i) => i < |s.quotes| ==> i < |s'.quotes| && s'.quotes[i] == s.quotes[i]
    case OrderRow(i) => i < |s.orders| ==> i < |s'.orders| && s'.orders[i] == s.orders[i]
    case PaymentRow(i) => i < |s.payments| ==> i < |s'.payments| && s'.payments[i] == s.payments[i]
    case PayoutRow(i) => i < |s.payouts| ==> i < |s'.payouts| && s'.payouts[i] == s.payouts[i]
    case DeliveryRow(i) => i < |s.deliveries| ==> i < |s'.deliveries| && s'.deliveries[i] == s.deliveries[i]
    case OrderKey(key) => O.IndexOfKey(s.orders, key) == O.IndexOfKey(s'.orders, key)
    case PayoutKey(key) => P.IndexOfKey(s.payouts, key) == P.IndexOfKey(s'.payouts, key)
    case Confirm(i) =>
      i < |s.codes| && s.codes[i].consumedAt.Some? ==>
        && i < |s'.codes| && s'.codes[i].consumedAt.Some? && SameRequest(s.codes[i], s'.codes[i])
        && (i in s.confirming <==> i in s'.confirming)
  }

  predicate SameRequest(c: Code, c': Code) {
    c.user == c'.user && c.amount == c'.amount && c.dest == c'.dest
  }

  ghost predicate SameAccount(a: Account, s: State, s': State) {
    && Balance(s'.log, a) == Balance(s.log, a)
    && (a.Vault? ==> Physical(s'.vault, a.metal) == Physical(s.vault, a.metal))
    && (a.Cash? ==> SameSells(s.orders, s'.orders))
    && (a.Customer? && a.asset == ETB ==> SameTotals(a.user, s, s'))
  }

  ghost predicate SameSells(orders: seq<Order>, orders': seq<Order>) {
    forall since: int :: Sum(orders', O.SoldOn(since)) == Sum(orders, O.SoldOn(since))
  }

  // The customer's daily totals, all serialized by the customer's ETB account lock.
  ghost predicate SameTotals(user: UserId, s: State, s': State) {
    forall since: int ::
      && Sum(s'.orders, O.SettledOn(user, since)) == Sum(s.orders, O.SettledOn(user, since))
      && O.TurnoverSince(s'.orders, user, since) <= O.TurnoverSince(s.orders, user, since)
      && Sum(s'.payouts, P.AmountSince(user, since)) == Sum(s.payouts, P.AmountSince(user, since))
      && Sum(s'.payouts, P.NumberSince(user, since)) == Sum(s.payouts, P.NumberSince(user, since))
  }

  lemma SameReflexive(r: Resource, s: State)
    ensures Same(r, s, s)
  {
    hide Balance, Sum, Physical, O.IndexOfKey, P.IndexOfKey;
  }

  lemma SameTransitive(r: Resource, s: State, m: State, e: State)
    requires Same(r, s, m) && Same(r, m, e)
    ensures Same(r, s, e)
  {
    hide Balance, Sum, Physical, O.IndexOfKey, P.IndexOfKey, O.SettledOn, O.SoldOn, O.TurnoverOn, P.AmountSince,
         P.NumberSince;
  }

  // ---------------------------------------------------------------- what each transaction may change

  // The accounts a movement can change.
  function Touched(m: Move): set<Resource> {
    match m
    case Shift(_, _, from, to, _) => {Acct(from), Acct(to)}
    case Trade(user, t, _) => TradeAccounts(user, t)
  }

  lemma MovesOnlyTouched(m: Move, a: Account)
    requires m.Trade? ==> WellPriced(m.terms)
    requires Acct(a) !in Touched(m)
    ensures MoveNet(m, a) == 0
  {
  }

  lemma MovesAreLocked(cfg: Config, s: State, op: Op)
    requires RowsExist(s, op)
    requires op.ApproveReview? ==> O.OrderMatches(s.quotes, s.orders[op.orderId])
    ensures var c := Effect(cfg, op, s, s);
            c.Some? ==>
              && (c.value.post.Some? ==> Touched(c.value.post.value) <= Footprint(s, op))
              && (c.value.post.Some? && c.value.post.value.Trade? ==>
                    exists q: nat :: q < |s.quotes| && s.quotes[q].terms == c.value.post.value.terms)
              && (c.value.stock.Some? ==> Acct(Vault(c.value.stock.value.metal)) in Footprint(s, op))
  {
    hide Sum, Balance, Physical, Postable, EntriesOf, Shape, Apply, O.Judge, O.JudgeReview, O.ReadFor, O.IndexOfKey,
         P.IndexOfKey, P.DailyLimit, MoveNet, TradeAccounts;
  }

  // Every account a transaction posts a non-zero amount to is among the accounts it locks, and it
  // moves physical stock only under that vault's lock.
  lemma PostsWithinLocks(cfg: Config, s: State, op: Op, a: Account)
    requires O.QuotesOk(s.quotes) && O.OrdersMatch(s.quotes, s.orders)
    requires RowsExist(s, op) && Acct(a) !in Footprint(s, op)
    ensures var c := Effect(cfg, op, s, s);
            c.Some? ==> PostNet(c.value, a) == 0 && (a.Vault? ==> StockNet(c.value, a.metal) == 0)
  {
    hide Effect, Footprint, Touched, MoveNet;
    if op.ApproveReview? {
      assert O.OrderMatches(s.quotes, s.orders[op.orderId]);
    }
    MovesAreLocked(cfg, s, op);
    var c := Effect(cfg, op, s, s);
    if c.Some? && c.value.post.Some? {
      MovesOnlyTouched(c.value.post.value, a);
    }
  }

  lemma {:induction false} OrderKeysDecide(orders: seq<Order>, orders': seq<Order>, key: Key)
    requires |orders| == |orders'| && forall i :: 0 <= i < |orders| ==> orders'[i].key == orders[i].key
    ensures O.IndexOfKey(orders', key) == O.IndexOfKey(orders, key)
    decreases |orders|
  {
    if orders != [] {
      OrderKeysDecide(orders[..|orders| - 1], orders'[..|orders| - 1], key);
    }
  }

  lemma {:induction false} PayoutKeysDecide(payouts: seq<Payout>, payouts': seq<Payout>, key: Key)
    requires |payouts| == |payouts'| && forall i :: 0 <= i < |payouts| ==> payouts'[i].key == payouts[i].key
    ensures P.IndexOfKey(payouts', key) == P.IndexOfKey(payouts, key)
    decreases |payouts|
  {
    if payouts != [] {
      PayoutKeysDecide(payouts[..|payouts| - 1], payouts'[..|payouts| - 1], key);
    }
  }

  // How a transaction may write the orders table: append one, or decide a parked one.
  ghost predicate OrderWrite(s: State, c: Change) {
    c.row.WriteOrder? ==>
      && ChangeFits(s, c)
      && (c.row.oslot.At? ==>
            && s.orders[c.row.oslot.i].status.Review?
            && !c.row.order.status.Review?
            && c.row.order == s.orders[c.row.oslot.i].(status := c.row.order.status))
  }

  // How a transaction may write the payouts table: append one, or move one forward.
  ghost predicate PayoutWrite(s: State, c: Change) {
    c.row.WritePayout? ==>
      && ChangeFits(s, c)
      && (c.row.wslot.At? ==>
            && P.Counted(s.payouts[c.row.wslot.i])
            && c.row.payout == s.payouts[c.row.wslot.i].(status := c.row.payout.status))
  }

  // The status writes and the locks that cover them.
  lemma WritesWithinLocks(cfg: Config, s: State, op: Op)
    requires RowsExist(s, op)
    ensures var c := Effect(cfg, op, s, s);
            c.Some? ==>
              && OrderWrite(s, c.value) && PayoutWrite(s, c.value)
              && (c.value.row.WriteOrder? && !c.value.row.order.status.Rejected? ==>
                    Acct(Customer(c.value.row.order.user, ETB)) in Footprint(s, op) && Acct(Cash) in Footprint(s, op))
              && (c.value.row.WritePayout? && (c.value.row.wslot.New? || c.value.row.payout.status.Refused?) ==>
                    Acct(Customer(c.value.row.payout.user, ETB)) in Footprint(s, op))
              && (c.value.row.WriteOrder? && c.value.row.oslot.New? ==>
                    OrderKey(c.value.row.order.key) in Footprint(s, op))
              && (c.value.row.WritePayout? && c.value.row.wslot.New? ==>
                    PayoutKey(c.value.row.payout.key) in Footprint(s, op))
  {
    hide Sum, Balance, Physical, Postable, EntriesOf, Shape, Apply, O.Judge, O.JudgeReview, O.ReadFor, O.IndexOfKey,
         P.IndexOfKey, P.DailyLimit;
  }

  lemma FrameSells(s: State, c: Change)
    requires ChangeFits(s, c) && OrderWrite(s, c)
    requires c.row.WriteOrder? ==> c.row.order.status.Rejected?
    ensures SameSells(s.orders, Apply(s, c).orders)
  {
    hide Sum, Shape, Put, Balance;
    if c.row.WriteOrder? {
      forall since: int ensures Sum(Apply(s, c).orders, O.SoldOn(since)) == Sum(s.orders, O.SoldOn(since)) {
        SumPut(s.orders, c.row.oslot, c.row.order, O.SoldOn(since));
      }
    }
  }

  lemma FrameTotals(cfg: Config, s: State, c: Change, user: UserId)
    requires ChangeFits(s, c) && OrderWrite(s, c) && PayoutWrite(s, c) && O.OrdersMatch(s.quotes, s.orders)
    requires c.row.WriteOrder? && !c.row.order.status.Rejected? ==> c.row.order.user != user
    requires c.row.WritePayout? && (c.row.wslot.New? || c.row.payout.status.Refused?) ==> c.row.payout.user != user
    ensures SameTotals(user, s, Apply(s, c))
  {
    hide Sum, Shape, Put, Balance;
    forall since: int
      ensures Sum(Apply(s, c).orders, O.SettledOn(user, since)) == Sum(s.orders, O.SettledOn(user, since))
      ensures O.TurnoverSince(Apply(s, c).orders, user, since) <= O.TurnoverSince(s.orders, user, since)
    {
      if c.row.WriteOrder? {
        if c.row.oslot.At? {
          assert O.OrderMatches(s.quotes, s.orders[c.row.oslot.i]);
        }
        SumPut(s.orders, c.row.oslot, c.row.order, O.SettledOn(user, since));
        SumPut(s.orders, c.row.oslot, c.row.order, O.TurnoverOn(user, since));
      }
    }
    forall since: int
      ensures Sum(Apply(s, c).payouts, P.AmountSince(user, since)) == Sum(s.payouts, P.AmountSince(user, since))
      ensures Sum(Apply(s, c).payouts, P.NumberSince(user, since)) == Sum(s.payouts, P.NumberSince(user, since))
    {
      if c.row.WritePayout? {
        SumPut(s.payouts, c.row.wslot, c.row.payout, P.AmountSince(user, since));
        SumPut(s.payouts, c.row.wslot, c.row.payout, P.NumberSince(user, since));
      }
    }
  }

  lemma FrameAccount(cfg: Config, s: State, op: Op, a: Account)
    requires PlatformOk(cfg, s) && RowsExist(s, op) && Acct(a) !in Footprint(s, op)
    ensures SameAccount(a, s, Step(cfg, s, op))
  {
    hide BooksOk, P.PayoutsOk, D.PaymentsOk, H.DeliveriesOk, O.UnderReviewLine, O.NoneSlipsUnder, O.UnderSellback,
         O.OneLivePerQuote,
         O.OneOrderPerKey, O.QuotesOk, O.OrdersMatch;
    hide Sum, Balance, Physical, Effect, Apply, Footprint, O.SettledOn, O.SoldOn, O.TurnoverOn, O.TurnoverSince,
         P.AmountSince, P.NumberSince, MoveNet, SameSells, SameTotals, OrderWrite, PayoutWrite;
    var c := Effect(cfg, op, s, s);
    if c.Some? && ChangeFits(s, c.value) {
      PostsWithinLocks(cfg, s, op, a);
      WritesWithinLocks(cfg, s, op);
      ApplyBalance(s, c.value, a);
      if a.Vault? {
        ApplyPhysical(s, c.value, a.metal);
      }
      if a.Cash? {
        FrameSells(s, c.value);
      }
      if a.Customer? && a.asset == ETB {
        FrameTotals(cfg, s, c.value, a.user);
      }
    } else {
      SameReflexive(Acct(a), s);
    }
  }

  // The row a change updates, and the quote it marks.
  function Written(w: RowWrite): Option<Resource> {
    match w
    case WriteOrder(At(i), _) => Some(OrderRow(i))
    case WritePayment(At(i), _) => Some(PaymentRow(i))
    case WritePayout(At(i), _) => Some(PayoutRow(i))
    case WriteDelivery(At(i), _) => Some(DeliveryRow(i))
    case _ => None
  }

  lemma RowsWrittenAreLocked(cfg: Config, s: State, op: Op)
    requires RowsExist(s, op)
    ensures var c := Effect(cfg, op, s, s);
            c.Some? ==>
              && (Written(c.value.row).Some? ==> Written(c.value.row).value in Footprint(s, op))
              && (c.value.quoteSet.Some? ==> QuoteRow(c.value.quoteSet.value.0) in Footprint(s, op))
  {
    hide Sum, Balance, Physical, Postable, EntriesOf, Shape, Apply, O.Judge, O.JudgeReview, O.ReadFor, O.IndexOfKey,
         P.IndexOfKey, P.DailyLimit, TradeAccounts;
  }

  lemma ApplyLeavesRow(s: State, c: Change, r: Resource)
    requires ChangeFits(s, c) && Written(c.row) != Some(r)
    requires c.quoteSet.Some? ==> QuoteRow(c.quoteSet.value.0) != r
    requires r.QuoteRow? || r.OrderRow? || r.PaymentRow? || r.PayoutRow? || r.DeliveryRow?
    ensures Same(r, s, Apply(s, c))
  {
    hide Shape, E.Retire;
  }

  // Rows and keys outside the footprint are left alone.
  lemma FrameRow(cfg: Config, s: State, op: Op, r: Resource)
    requires RowsExist(s, op) && r !in Footprint(s, op)
    requires r.QuoteRow? || r.OrderRow? || r.PaymentRow? || r.PayoutRow? || r.DeliveryRow?
    ensures Same(r, s, Step(cfg, s, op))
  {
    hide Effect, Footprint, RowsExist, Apply, Written;
    var c := Effect(cfg, op, s, s);
    if c.Some? && ChangeFits(s, c.value) {
      RowsWrittenAreLocked(cfg, s, op);
      ApplyLeavesRow(s, c.value, r);
    }
  }

  lemma FrameKey(cfg: Config, s: State, op: Op, r: Resource)
    requires RowsExist(s, op) && r !in Footprint(s, op)
    requires r.OrderKey? || r.PayoutKey?
    ensures Same(r, s, Step(cfg, s, op))
  {
    hide Effect, Footprint, O.IndexOfKey, P.IndexOfKey, Shape;
    var c := Effect(cfg, op, s, s);
    if c.Some? && ChangeFits(s, c.value) {
      WritesWithinLocks(cfg, s, op);
      if r.OrderKey? {
        FrameOrderKey(s, c.value, r.key);
      } else {
        FramePayoutKey(s, c.value, r.key);
      }
    }
  }

  lemma FrameOrderKey(s: State, c: Change, key: Key)
    requires ChangeFits(s, c) && OrderWrite(s, c)
    requires c.row.WriteOrder? && c.row.oslot.New? ==> c.row.order.key != key
    ensures O.IndexOfKey(Apply(s, c).orders, key) == O.IndexOfKey(s.orders, key)
  {
    hide Shape;
    if c.row.WriteOrder? {
      if c.row.oslot.New? {
        assert Apply(s, c).orders[..|s.orders|] == s.orders;
      } else {
        OrderKeysDecide(s.orders, Apply(s, c).orders, key);
      }
    }
  }

  lemma FramePayoutKey(s: State, c: Change, key: Key)
    requires ChangeFits(s, c) && PayoutWrite(s, c)
    requires c.row.WritePayout? && c.row.wslot.New? ==> c.row.payout.key != key
    ensures P.IndexOfKey(Apply(s, c).payouts, key) == P.IndexOfKey(s.payouts, key)
  {
    hide Shape;
    if c.row.WritePayout? {
      if c.row.wslot.New? {
        assert Apply(s, c).payouts[..|s.payouts|] == s.payouts;
      } else {
        PayoutKeysDecide(s.payouts, Apply(s, c).payouts, key);
      }
    }
  }

  // Only a request ends a confirm call.
  lemma OnlyRequestsSpend(cfg: Config, s: State, op: Op)
    ensures var c := Effect(cfg, op, s, s);
            c.Some? && c.value.spends.Some? ==> op.RequestPayout? && c.value.spends.value == op.codeId
  {
    hide Sum, Balance, Physical, Postable, EntriesOf, Shape, Apply, O.Judge, O.JudgeReview, O.ReadFor, O.IndexOfKey,
         P.IndexOfKey, P.DailyLimit;
  }

  lemma ApplyLeavesConfirm(s: State, c: Change, i: nat)
    requires ChangeFits(s, c) && c.spends != Some(i)
    ensures Same(Confirm(i), s, Apply(s, c))
  {
    hide Shape, E.Retire;
    if c.row.WriteCodes? {
      E.RunKeepsRequests(s.codes, c.row.stmt);
    }
  }

  // No statement on codes needs a lock for this: once a code is consumed, none of them touches its call.
  lemma FrameConfirm(cfg: Config, s: State, op: Op, i: nat)
    requires RowsExist(s, op) && Confirm(i) !in Footprint(s, op)
    ensures Same(Confirm(i), s, Step(cfg, s, op))
  {
    hide Effect, Apply, TradeAccounts;
    OnlyRequestsSpend(cfg, s, op);
    var c := Effect(cfg, op, s, s);
    if c.Some? && ChangeFits(s, c.value) {
      ApplyLeavesConfirm(s, c.value, i);
    }
  }

  // The frame theorem: one transaction leaves everything outside its footprint as it was.
  lemma Frame(cfg: Config, s: State, op: Op, r: Resource)
    requires PlatformOk(cfg, s) && RowsExist(s, op) && r !in Footprint(s, op)
    ensures Same(r, s, Step(cfg, s, op))
  {
    hide PlatformOk, Step, Footprint;
    if r.Acct? {
      FrameAccount(cfg, s, op, r.a);
    } else if r.OrderKey? || r.PayoutKey? {
      FrameKey(cfg, s, op, r);
    } else if r.Confirm? {
      FrameConfirm(cfg, s, op, r.i);
    } else {
      FrameRow(cfg, s, op, r);
    }
  }
}
