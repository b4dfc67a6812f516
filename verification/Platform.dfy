/**
 * The platform as one state machine: every step is one committed database transaction, or one
 * statement that ran outside any.
 * The invariants of the books and of each table hold after every run of honest steps.
 */
module Platform {
  import opened Options
  import opened Sums
  import opened Books
  import opened Journal
  import Q = Quotes
  import O = Orders
  import P = Payouts
  import D = Payments
  import H = PhysicalDelivery
  import T = TreasuryEntries
  import E = EmailCodes
  import opened Calendar

  datatype Op =
    | CreateQuote(quser: UserId, side: Side, qmetal: Metal, qamount: Q.Amount, market: Q.Market, expiresAt: int)
    | Execute(quoteId: nat, key: Key, now: int, st: Standing, turnover: int)
    | ApproveReview(orderId: nat, actor: UserId, now: int, st: Standing)
    | RejectReview(orderId: nat, actor: UserId)
    | OpenPayment(user: UserId, amount: int, st: Standing)
    | WriteWebhook(paymentId: nat)
    | SettlePayment(paymentId: nat, answer: D.Answer, now: int)
    | ReversePayment(paymentId: nat, answer: D.Answer)
    | ClosePayment(paymentId: nat, takenBack: bool)
    | CloseStalePayment(paymentId: nat)
    | WriteCodes(stmt: E.Statement)
    | RequestPayout(codeId: nat, key: Key, now: int, st: Standing)
    | ClaimTransfer(payoutId: nat, approver: Option<UserId>, st: Standing)
    | SettlePayout(payoutId: nat)
    | RefundPayout(payoutId: nat, from: P.From)
    | RequestDelivery(user: UserId, metal: Metal, gramsMg: int, admitted: bool)
    | ApproveDelivery(deliveryId: nat, officer: UserId, st: Standing)
    | ScheduleDelivery(deliveryId: nat, officer: UserId)
    | Deliver(deliveryId: nat, officer: UserId)
    | RejectDelivery(deliveryId: nat, officer: UserId, held: bool)
    | RecordVault(metal: Metal, kind: VaultKind, gramsMg: int)
    | RecordCapital(direction: T.Direction, amount: int)

  function QuoteChange(op: Op): (c: Option<Change>)
    requires op.CreateQuote?
    ensures c.Some? ==>
              c.value.row.WriteQuote? && WellPriced(c.value.row.quote.terms) && c.value == RowOnly(c.value.row)
  {
    match Q.Price(op.side, op.qmetal, op.qamount, op.market)
    case Ok(terms) => Some(RowOnly(WriteQuote(Quote(op.quser, terms, Open, op.expiresAt))))
    case Err(_) => None
  }

  // What a transaction writes, given the database when it read balances (`b`) and when it read the rest (`g`).
  function Effect(cfg: Config, op: Op, b: State, g: State): Option<Change> {
    match op
    case CreateQuote(_, _, _, _, _, _) => QuoteChange(op)
    case Execute(quoteId, key, now, st, turnover) => O.Execute(cfg, b, g, quoteId, key, now, st, turnover)
    case ApproveReview(orderId, actor, now, st) => O.ApproveReview(cfg, b, g, orderId, actor, now, st)
    case RejectReview(orderId, actor) => O.RejectReview(g, orderId, actor)
    case OpenPayment(user, amount, st) => D.Open(cfg, user, amount, st)
    case WriteWebhook(i) => D.WriteWebhook(g, i)
    case SettlePayment(i, answer, now) => D.SettleByTxRef(g, i, answer, now)
    case ReversePayment(i, answer) => D.ReverseCredited(b, g, i, answer)
    case ClosePayment(i, takenBack) => D.CloseUncredited(g, i, takenBack)
    case CloseStalePayment(i) => D.CloseStale(g, i)
    case WriteCodes(stmt) => Some(RowOnly(RowWrite.WriteCodes(stmt)))
    case RequestPayout(codeId, key, now, st) => P.Request(cfg, b, g, codeId, key, now, st)
    case ClaimTransfer(i, approver, st) => P.ClaimTransfer(g, i, approver, st)
    case SettlePayout(i) => P.SettleLedger(g, i)
    case RefundPayout(i, from) => P.RefundIfStatus(g, i, from)
    case RequestDelivery(user, metal, gramsMg, admitted) => H.Request(user, metal, gramsMg, admitted)
    case ApproveDelivery(i, officer, st) => H.Approve(b, g, i, officer, st)
    case ScheduleDelivery(i, officer) => H.Schedule(g, i, officer)
    case Deliver(i, officer) => H.Deliver(g, i, officer)
    case RejectDelivery(i, officer, held) => H.Reject(g, i, officer, held)
    case RecordVault(metal, kind, gramsMg) => T.RecordVault(b, g, metal, kind, gramsMg)
    case RecordCapital(direction, amount) => T.RecordCapital(cfg, b, direction, amount)
  }

  function Commit(s: State, c: Option<Change>): State {
    if c.Some? && ChangeFits(s, c.value) then Apply(s, c.value) else s
  }

  function Step(cfg: Config, s: State, op: Op): State {
    Commit(s, Effect(cfg, op, s, s))
  }

  // What is asked of the world: the turnover an order reads is not below the committed one (a review rejected
  // meanwhile can only have lowered it). Of the payment provider nothing is asked.
  predicate Honest(s: State, op: Op) {
    op.Execute? ==> op.turnover >= O.TurnoverSince(s.orders, op.key.user, EatDayStartUtc(op.now))
  }

  ghost predicate PlatformOk(cfg: Config, s: State) {
    && BooksOk(s)
    && O.OrdersOk(cfg, s)
    && P.PayoutsOk(cfg, s)
    && D.PaymentsOk(s.payments)
    && H.DeliveriesOk(s.deliveries)
  }

  // ---------------------------------------------------------------- one step

  lemma EmptyOk(cfg: Config)
    requires ConfigOk(cfg)
    ensures PlatformOk(cfg, EMPTY)
  {
    forall m: Metal ensures Physical(EMPTY.vault, m) + Balance(EMPTY.log, Vault(m)) == 0 {
    }
  }

  lemma StepLawful(cfg: Config, s: State, op: Op)
    requires ConfigOk(cfg) && PlatformOk(cfg, s) && Honest(s, op)
    ensures var c := Effect(cfg, op, s, s);
            c.Some? ==> Lawful(cfg.halt, s, c.value)
                        && D.PaymentsOk(Apply(s, c.value).payments) && H.DeliveriesOk(Apply(s, c.value).deliveries)
  {
    hide BooksOk, Lawful, O.OrdersOk, P.PayoutsOk, D.PaymentsOk, H.DeliveriesOk, QuoteChange;
    hide StoryBefore, StoryAfter, Shape;
    hide Q.Price, O.Execute, O.ApproveReview, O.RejectReview, D.Open, D.WriteWebhook, D.SettleByTxRef,
         D.ReverseCredited, D.CloseUncredited, D.CloseStale;
    hide P.Request, P.ClaimTransfer, P.SettleLedger, P.RefundIfStatus;
    hide H.Request, H.Approve, H.Schedule, H.Deliver, H.Reject, T.RecordVault, T.RecordCapital;
    match op
    case CreateQuote(_, _, _, _, _, _) => RowOnlyLawful(cfg, s, op);
    case Execute(quoteId, key, now, st, turnover) =>
      OrdersParts(cfg, s);
      O.ExecuteLawful(cfg, s, quoteId, key, now, st, turnover);
    case ApproveReview(orderId, actor, now, st) =>
      OrdersParts(cfg, s);
      O.ApproveReviewLawful(cfg, s, orderId, actor, now, st);
    case RejectReview(orderId, actor) => O.RejectReviewLawful(cfg, s, orderId, actor);
    case OpenPayment(user, amount, st) => D.OpenLawful(cfg, s, user, amount, st);
    case WriteWebhook(i) => D.RowChangesLawful(cfg, s, i, false);
    case SettlePayment(i, answer, now) => D.SettleLawful(cfg, s, i, answer, now);
    case ReversePayment(i, answer) => D.ReverseLawful(cfg, s, i, answer);
    case ClosePayment(i, takenBack) => D.RowChangesLawful(cfg, s, i, takenBack);
    case CloseStalePayment(i) => D.RowChangesLawful(cfg, s, i, false);
    case WriteCodes(_) => RowOnlyLawful(cfg, s, op);
    case RequestPayout(codeId, key, now, st) => P.RequestLawful(cfg, s, codeId, key, now, st);
    case ClaimTransfer(i, approver, st) => P.ClaimTransferLawful(cfg, s, i, approver, st);
    case SettlePayout(i) =>
      PayoutsParts(cfg, s);
      P.SettleLawful(cfg, s, i);
    case RefundPayout(i, from) =>
      PayoutsParts(cfg, s);
      P.RefundLawful(cfg, s, i, from);
    case RequestDelivery(user, metal, gramsMg, admitted) => H.RequestLawful(cfg, s, user, metal, gramsMg, admitted);
    case ApproveDelivery(i, officer, st) => H.ApproveLawful(cfg, s, i, officer, st);
    case ScheduleDelivery(i, officer) => H.ScheduleLawful(cfg, s, i, officer);
    case Deliver(i, officer) => H.DeliverLawful(cfg, s, i, officer);
    case RejectDelivery(i, officer, held) => H.RejectLawful(cfg, s, i, officer, held);
    case RecordVault(metal, kind, gramsMg) => T.RecordVaultLawful(cfg, s, metal, kind, gramsMg);
    case RecordCapital(direction, amount) => T.RecordCapitalLawful(cfg, s, direction, amount);
  }

  lemma OrdersParts(cfg: Config, s: State)
    requires O.OrdersOk(cfg, s)
    ensures O.QuotesOk(s.quotes) && O.OrdersMatch(s.quotes, s.orders)
  {
  }

  lemma PayoutsParts(cfg: Config, s: State)
    requires P.PayoutsOk(cfg, s)
    ensures P.PayoutsMatch(s)
  {
  }

  lemma RowOnlyLawful(cfg: Config, s: State, op: Op)
    requires op.CreateQuote? || op.WriteCodes?
    ensures var c := Effect(cfg, op, s, s);
            c.Some? ==> Lawful(cfg.halt, s, c.value)
  {
    hide Q.Price, Balance, Physical, Sum;
  }

  lemma OrdersUntouched(cfg: Config, s: State, c: Change)
    requires O.OrdersOk(cfg, s) && ChangeFits(s, c)
    requires !c.row.WriteOrder? && !c.row.WriteQuote? && c.quoteSet.None?
    ensures O.OrdersOk(cfg, Apply(s, c))
  {
    hide O.QuotesOk, O.OrdersMatch, O.OneLivePerQuote, O.OneOrderPerKey, O.UnderReviewLine, O.NoneSlipsUnder,
         O.UnderSellback, Shape;
  }

  lemma QuoteAdded(cfg: Config, s: State, c: Change)
    requires O.OrdersOk(cfg, s) && c == RowOnly(c.row) && c.row.WriteQuote? && WellPriced(c.row.quote.terms)
    ensures O.OrdersOk(cfg, Apply(s, c))
  {
    hide O.OneLivePerQuote, O.OneOrderPerKey, O.UnderReviewLine, O.NoneSlipsUnder, O.UnderSellback, Shape;
    var s' := Apply(s, c);
    assert s'.quotes == s.quotes + [c.row.quote];
    forall i | 0 <= i < |s'.orders| ensures O.OrderMatches(s'.quotes, s'.orders[i]) {
      assert O.OrderMatches(s.quotes, s.orders[i]);
    }
  }

  lemma StepKeepsOrders(cfg: Config, s: State, op: Op)
    requires O.OrdersOk(cfg, s) && Honest(s, op)
    ensures var c := Effect(cfg, op, s, s);
            c.Some? ==> ChangeFits(s, c.value) && O.OrdersOk(cfg, Apply(s, c.value))
  {
    hide O.OrdersOk, Apply, QuoteChange, Shape;
    hide O.Execute, O.ApproveReview, O.RejectReview, D.Open, D.WriteWebhook, D.SettleByTxRef, D.ReverseCredited,
         D.CloseUncredited, D.CloseStale;
    hide P.Request, P.ClaimTransfer, P.SettleLedger, P.RefundIfStatus;
    hide H.Request, H.Approve, H.Schedule, H.Deliver, H.Reject, T.RecordVault, T.RecordCapital;
    var c := Effect(cfg, op, s, s);
    if c.Some? {
      match op
      case CreateQuote(_, _, _, _, _, _) => QuoteAdded(cfg, s, c.value);
      case Execute(quoteId, key, now, st, turnover) => O.ExecuteKeepsOrders(cfg, s, quoteId, key, now, st, turnover);
      case ApproveReview(orderId, actor, now, st) => O.ApproveReviewKeepsOrders(cfg, s, orderId, actor, now, st);
      case RejectReview(orderId, actor) => O.RejectReviewKeepsOrders(cfg, s, orderId, actor);
      case _ => OrdersUntouched(cfg, s, c.value);
    }
  }

  lemma PayoutsUntouched(cfg: Config, s: State, c: Change)
    requires P.PayoutsOk(cfg, s) && ChangeFits(s, c)
    requires !c.row.WritePayout? && !c.row.WriteCodes? && c.spends.None?
    ensures P.PayoutsOk(cfg, Apply(s, c))
  {
    hide P.OnePayoutPerCode, P.OnePayoutPerKey, P.WithinDailyLimits, Shape;
    forall i | 0 <= i < |s.payouts| ensures P.PayoutMatches(Apply(s, c), s.payouts[i]) {
      assert P.PayoutMatches(s, s.payouts[i]);
    }
  }

  // Whatever statement runs on the codes, every payout keeps its own consumed code.
  lemma CodesKeepPayouts(cfg: Config, s: State, stmt: E.Statement)
    requires P.PayoutsOk(cfg, s)
    ensures P.PayoutsOk(cfg, Apply(s, RowOnly(RowWrite.WriteCodes(stmt))))
  {
    hide P.OnePayoutPerCode, P.OnePayoutPerKey, P.WithinDailyLimits, E.Retire;
    E.RunKeepsRequests(s.codes, stmt);
    var s' := Apply(s, RowOnly(RowWrite.WriteCodes(stmt)));
    forall i | 0 <= i < |s.payouts| ensures P.PayoutMatches(s', s.payouts[i]) {
      assert P.PayoutMatches(s, s.payouts[i]);
    }
  }

  lemma StepKeepsPayouts(cfg: Config, s: State, op: Op)
    requires ConfigOk(cfg) && P.PayoutsOk(cfg, s)
    ensures var c := Effect(cfg, op, s, s);
            c.Some? ==> ChangeFits(s, c.value) && P.PayoutsOk(cfg, Apply(s, c.value))
  {
    hide P.PayoutsOk, Apply, QuoteChange, Shape;
    hide O.Execute, O.ApproveReview, O.RejectReview, D.Open, D.WriteWebhook, D.SettleByTxRef, D.ReverseCredited,
         D.CloseUncredited, D.CloseStale;
    hide P.Request;
    hide H.Request, H.Approve, H.Schedule, H.Deliver, H.Reject, T.RecordVault, T.RecordCapital;
    var c := Effect(cfg, op, s, s);
    if c.Some? {
      match op
      case WriteCodes(stmt) => CodesKeepPayouts(cfg, s, stmt);
      case RequestPayout(codeId, key, now, st) => P.RequestKeepsPayouts(cfg, s, codeId, key, now, st);
      case ClaimTransfer(i, approver, st) => P.StatusKeepsPayouts(cfg, s, i, Processing, c.value);
      case SettlePayout(i) => P.StatusKeepsPayouts(cfg, s, i, PaidOut, c.value);
      case RefundPayout(i, from) => P.StatusKeepsPayouts(cfg, s, i, Refused(true), c.value);
      case _ => PayoutsUntouched(cfg, s, c.value);
    }
  }

  // One honest step keeps every invariant, and keeps cash at or above the halt threshold.
  lemma StepKeepsPlatform(cfg: Config, s: State, op: Op)
    requires ConfigOk(cfg) && PlatformOk(cfg, s) && Honest(s, op)
    ensures PlatformOk(cfg, Step(cfg, s, op))
    ensures Balance(s.log, Cash) >= cfg.halt ==> Balance(Step(cfg, s, op).log, Cash) >= cfg.halt
  {
    hide BooksOk, Lawful, Effect, O.OrdersOk, P.PayoutsOk, D.PaymentsOk, Apply, Balance;
    StepLawful(cfg, s, op);
    StepKeepsOrders(cfg, s, op);
    StepKeepsPayouts(cfg, s, op);
    var c := Effect(cfg, op, s, s);
    if c.Some? {
      LawfulKeepsBooks(cfg.halt, s, c.value);
    }
  }

  // ---------------------------------------------------------------- runs

  // The state after a run that starts from empty tables.
  function Run(cfg: Config, ops: seq<Op>): State {
    if ops == [] then EMPTY else Step(cfg, Run(cfg, ops[..|ops| - 1]), ops[|ops| - 1])
  }

  ghost predicate HonestRun(cfg: Config, ops: seq<Op>) {
    forall k :: 0 <= k < |ops| ==> Honest(Run(cfg, ops[..k]), ops[k])
  }

  lemma HonestPrefix(cfg: Config, ops: seq<Op>, n: nat)
    requires HonestRun(cfg, ops) && n <= |ops|
    ensures HonestRun(cfg, ops[..n])
  {
    forall k | 0 <= k < n ensures Honest(Run(cfg, ops[..n][..k]), ops[..n][k]) {
      assert ops[..n][..k] == ops[..k];
    }
  }

  // ---------------------------------------------------------------- reachable states

  ghost predicate HonestStep(cfg: Config, s: State, s': State) {
    exists op: Op :: Honest(s, op) && s' == Step(cfg, s, op)
  }

  // From empty tables, each state one honest step after the one before.
  ghost predicate Trace(cfg: Config, t: seq<State>) {
    t != [] && t[0] == EMPTY && forall k: nat | k + 1 < |t| :: HonestStep(cfg, t[k], t[k + 1])
  }

  ghost predicate Reachable(cfg: Config, s: State) {
    exists t: seq<State> :: Trace(cfg, t) && s == t[|t| - 1]
  }

  lemma {:induction false} TraceIsOk(cfg: Config, t: seq<State>, k: nat)
    requires ConfigOk(cfg) && Trace(cfg, t) && k < |t|
    ensures PlatformOk(cfg, t[k])
    decreases k
  {
    hide PlatformOk, Step, Honest;
    if k == 0 {
      EmptyOk(cfg);
    } else {
      TraceIsOk(cfg, t, k - 1);
      assert HonestStep(cfg, t[k - 1], t[k - 1 + 1]);
      var op: Op :| Honest(t[k - 1], op) && t[k] == Step(cfg, t[k - 1], op);
      StepKeepsPlatform(cfg, t[k - 1], op);
    }
  }

  lemma ReachableIsOk(cfg: Config, s: State)
    requires ConfigOk(cfg) && Reachable(cfg, s)
    ensures PlatformOk(cfg, s)
  {
    hide PlatformOk, HonestStep;
    var t: seq<State> :| Trace(cfg, t) && s == t[|t| - 1];
    TraceIsOk(cfg, t, |t| - 1);
  }

  // Honest steps lead from reachable states to reachable states, and empty tables are one.
  lemma StepIsReachable(cfg: Config, s: State, op: Op)
    requires Reachable(cfg, s) && Honest(s, op)
    ensures Reachable(cfg, Step(cfg, s, op))
  {
    hide Step, Honest;
    var t: seq<State> :| Trace(cfg, t) && s == t[|t| - 1];
    var longer := t + [Step(cfg, s, op)];
    forall k: nat | k + 1 < |longer| ensures HonestStep(cfg, longer[k], longer[k + 1]) {
      if k + 1 < |t| {
        assert HonestStep(cfg, t[k], t[k + 1]);
      }
    }
    assert Trace(cfg, longer);
  }

  lemma EmptyIsReachable(cfg: Config)
    ensures Reachable(cfg, EMPTY)
  {
    assert Trace(cfg, [EMPTY]);
  }

  // A step appends at most one ledger transaction.
  lemma StepGrowsLog(cfg: Config, s: State, op: Op)
    ensures var log := Step(cfg, s, op).log;
            s.log <= log && |log| <= |s.log| + 1
  {
    hide Effect, Shape;
  }

  lemma {:induction false} PrefixInTrace(cfg: Config, t: seq<State>, j: nat, k: nat) returns (i: nat)
    requires Trace(cfg, t) && j < |t| && k <= |t[j].log|
    ensures i < |t| && t[i].log == t[j].log[..k]
    decreases j
  {
    hide Step, Honest;
    if k == |t[j].log| {
      i := j;
      assert t[j].log[..k] == t[j].log;
    } else {
      assert j > 0;
      assert HonestStep(cfg, t[j - 1], t[j - 1 + 1]);
      var op: Op :| Honest(t[j - 1], op) && t[j] == Step(cfg, t[j - 1], op);
      StepGrowsLog(cfg, t[j - 1], op);
      i := PrefixInTrace(cfg, t, j - 1, k);
      assert t[j].log[..k] == t[j - 1].log[..k];
    }
  }

  // Every prefix of a reachable state's ledger is the ledger of a reachable state.
  lemma LogPrefixIsReachable(cfg: Config, s: State, k: nat) returns (earlier: State)
    requires Reachable(cfg, s) && k <= |s.log|
    ensures Reachable(cfg, earlier) && earlier.log == s.log[..k]
  {
    hide HonestStep;
    var t: seq<State> :| Trace(cfg, t) && s == t[|t| - 1];
    var i := PrefixInTrace(cfg, t, |t| - 1, k);
    earlier := t[i];
    var front := t[..i + 1];
    forall k: nat | k + 1 < |front| ensures HonestStep(cfg, front[k], front[k + 1]) {
      assert HonestStep(cfg, t[k], t[k + 1]);
    }
    assert Trace(cfg, front);
  }

  // The states honest runs lead to are reachable.
  lemma {:induction false} RunIsReachable(cfg: Config, ops: seq<Op>)
    requires HonestRun(cfg, ops)
    ensures Reachable(cfg, Run(cfg, ops))
    decreases |ops|
  {
    hide Step, Honest, Reachable;
    if ops == [] {
      EmptyIsReachable(cfg);
    } else {
      var n := |ops| - 1;
      HonestPrefix(cfg, ops, n);
      RunIsReachable(cfg, ops[..n]);
      assert Honest(Run(cfg, ops[..n]), ops[n]);
      StepIsReachable(cfg, Run(cfg, ops[..n]), ops[n]);
    }
  }

  // Once cash is at or above the halt threshold it stays there for the rest of the run.
  lemma {:induction false} CashStaysAboveHalt(cfg: Config, ops: seq<Op>, n: nat)
    requires ConfigOk(cfg) && HonestRun(cfg, ops) && n <= |ops|
    requires Balance(Run(cfg, ops[..n]).log, Cash) >= cfg.halt
    ensures Balance(Run(cfg, ops).log, Cash) >= cfg.halt
    decreases |ops|
  {
    hide PlatformOk, Step, Honest, Balance, Reachable;
    if n == |ops| {
      assert ops[..n] == ops;
    } else {
      var k := |ops| - 1;
      HonestPrefix(cfg, ops, k);
      assert ops[..k][..n] == ops[..n];
      CashStaysAboveHalt(cfg, ops[..k], n);
      RunIsReachable(cfg, ops[..k]);
      ReachableIsOk(cfg, Run(cfg, ops[..k]));
      assert Honest(Run(cfg, ops[..k]), ops[k]);
      StepKeepsPlatform(cfg, Run(cfg, ops[..k]), ops[k]);
    }
  }
}
