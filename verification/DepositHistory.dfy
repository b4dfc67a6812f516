/**
 * When a deposit's history is exactly what its status says. Two things can spoil it: a webhook's update that hits
 * a row credited since the webhook read it, and a success claimed for a row already recorded as taken back.
 */
module DepositHistory {
  import opened Options
  import opened Sums
  import opened Books
  import opened Platform
  import PaymentService
  import D = Payments
  import G = Guarantees

  // ---------------------------------------------------------------- what a step does to one deposit

  predicate OnDeposit(op: Op, i: nat) {
    match op
    case WriteWebhook(j) => j == i
    case SettlePayment(j, _, _) => j == i
    case ReversePayment(j, _) => j == i
    case ClosePayment(j, _) => j == i
    case CloseStalePayment(j) => j == i
    case _ => false
  }

  function TakenBackRow(p: Payment, available: int): Payment {
    var debited := PaymentService.Available(available, p.amount);
    if !p.status.Credited? then p
    else p.(status := Reversed, takenBack := true, moved := p.moved + (if debited > 0 then [-debited] else []))
  }

  function Closed(p: Payment, takenBack: bool): Payment {
    if p.status.Credited? then p else p.(status := Failed, takenBack := p.takenBack || takenBack)
  }

  function RowAfter(s: State, op: Op, i: nat): Payment
    requires i < |s.payments|
  {
    var p := s.payments[i];
    if !OnDeposit(op, i) then p
    else match op {
      case WriteWebhook(_) => p.(status := WebhookReceived)
      case SettlePayment(_, answer, now) => PaymentService.SettledRow(p, answer, now)
      case ReversePayment(_, answer) =>
        if answer == D.TakenBack then TakenBackRow(p, Balance(s.log, Customer(p.user, ETB))) else p
      case ClosePayment(_, takenBack) => Closed(p, takenBack)
      case CloseStalePayment(_) =>
        if p.status.Initiated? || p.status.WebhookReceived? then p.(status := Failed) else p
      case _ => p
    }
  }

  ghost predicate Opened(p: Payment) {
    p == Payment(p.user, p.amount, Initiated, None, [], false)
  }

  // A step changes a deposit by one of its own statements only; a new one is as `create` opens it.
  lemma StepOnDeposit(cfg: Config, s: State, op: Op, i: nat)
    ensures var s' := Step(cfg, s, op);
            && |s.payments| <= |s'.payments| <= |s.payments| + 1
            && (i < |s.payments| ==> s'.payments[i] == RowAfter(s, op, i))
            && (|s.payments| <= i < |s'.payments| ==> Opened(s'.payments[i]))
  {
    hide RowAfter;
    if i < |s.payments| && OnDeposit(op, i) {
      OwnStep(cfg, s, op, i);
    } else {
      OtherStep(cfg, s, op, i);
    }
  }

  lemma OwnStep(cfg: Config, s: State, op: Op, i: nat)
    requires i < |s.payments| && OnDeposit(op, i)
    ensures Step(cfg, s, op).payments == s.payments[i := RowAfter(s, op, i)]
  {
    hide Step, Shape, Balance;
    match op
    case SettlePayment(_, answer, now) => PaymentService.SettleStep(cfg, s, i, answer, now);
    case ReversePayment(_, answer) => PaymentService.ReverseStep(cfg, s, i, answer);
    case ClosePayment(_, takenBack) => PaymentService.RowSteps(cfg, s, i, takenBack);
    case _ => PaymentService.RowSteps(cfg, s, i, false);
  }

  lemma OtherStep(cfg: Config, s: State, op: Op, i: nat)
    requires i >= |s.payments| || !OnDeposit(op, i)
    ensures var s' := Step(cfg, s, op);
            && |s.payments| <= |s'.payments| <= |s.payments| + 1
            && (i < |s.payments| ==> s'.payments[i] == s.payments[i] == RowAfter(s, op, i))
            && (|s.payments| <= i < |s'.payments| ==> Opened(s'.payments[i]))
  {
    hide Shape, Balance, Sum;
  }

  // ---------------------------------------------------------------- orderly runs

  // What may spoil a deposit: a webhook's update on a row that was credited (its read saw `initiated`, so the
  // credit was committed in between), and a success claimed for a row recorded as taken back.
  predicate Orderly(s: State, op: Op, i: nat) {
    i < |s.payments| ==>
      && (op == Op.WriteWebhook(i) ==> s.payments[i].creditedAt.None?)
      && (op.SettlePayment? && op.paymentId == i && op.answer == D.Success(true) ==> !s.payments[i].takenBack)
  }

  ghost predicate OrderlyRun(cfg: Config, ops: seq<Op>, i: nat) {
    forall k :: 0 <= k < |ops| ==> Orderly(Run(cfg, ops[..k]), ops[k], i)
  }

  // One credit, kept while the status is credited; after a confirmed take-back one debit at most.
  predicate Regular(p: Payment) {
    p.creditedAt.Some? ==>
      if p.status.Credited? then p.moved == [p.amount] && !p.takenBack
      else
        && (p.status.Reversed? || p.status.Failed?) && p.takenBack
        && (p.moved == [p.amount] || (|p.moved| == 2 && p.moved[0] == p.amount && -p.amount <= p.moved[1] < 0))
  }

  function Debited(p: Payment): int { if |p.moved| == 2 then -p.moved[1] else 0 }

  lemma StepKeepsRegular(cfg: Config, s: State, op: Op, i: nat)
    requires D.PaymentsOk(s.payments) && Orderly(s, op, i) && (i < |s.payments| ==> Regular(s.payments[i]))
    ensures i < |Step(cfg, s, op).payments| ==> Regular(Step(cfg, s, op).payments[i])
  {
    hide Step, Balance;
    StepOnDeposit(cfg, s, op, i);
    if i < |s.payments| {
      assert D.PaymentOk(s.payments[i]);
    }
  }

  lemma {:induction false} StaysRegular(cfg: Config, ops: seq<Op>, i: nat)
    requires ConfigOk(cfg) && HonestRun(cfg, ops) && OrderlyRun(cfg, ops, i)
    ensures i < |Run(cfg, ops).payments| ==> Regular(Run(cfg, ops).payments[i])
    decreases |ops|
  {
    hide Step, Honest, Orderly, Regular, Reachable;
    if ops != [] {
      var n := |ops| - 1;
      HonestPrefix(cfg, ops, n);
      OrderlyPrefix(cfg, ops, n, i);
      StaysRegular(cfg, ops[..n], i);
      RunIsReachable(cfg, ops[..n]);
      DepositsAreOk(cfg, Run(cfg, ops[..n]));
      assert Orderly(Run(cfg, ops[..n]), ops[n], i);
      StepKeepsRegular(cfg, Run(cfg, ops[..n]), ops[n], i);
    }
  }

  lemma DepositsAreOk(cfg: Config, s: State)
    requires ConfigOk(cfg) && Reachable(cfg, s)
    ensures D.PaymentsOk(s.payments)
  {
    hide Reachable;
    ReachableIsOk(cfg, s);
  }

  lemma OrderlyPrefix(cfg: Config, ops: seq<Op>, n: nat, i: nat)
    requires OrderlyRun(cfg, ops, i) && n <= |ops|
    ensures OrderlyRun(cfg, ops[..n], i)
  {
    hide Orderly, Run;
    forall k | 0 <= k < n ensures Orderly(Run(cfg, ops[..n][..k]), ops[..n][k], i) {
      assert ops[..n][..k] == ops[..k];
    }
  }

  // In an orderly run a deposit is credited at most once, for exactly its amount; what a reversal took back is at
  // most that and is its only other posting, and the status says which.
  lemma CreditedAtMostOnce(cfg: Config, ops: seq<Op>, i: nat)
    requires ConfigOk(cfg) && HonestRun(cfg, ops) && OrderlyRun(cfg, ops, i) && i < |Run(cfg, ops).payments|
    ensures var s := Run(cfg, ops);
            var p := s.payments[i];
            var posted := PostingsOf(s.log, PaymentRef(i));
            && 0 <= Debited(p) <= p.amount
            && (p.creditedAt.None? ==> posted == [])
            && (p.creditedAt.Some? && Debited(p) == 0 ==> posted == [Shape(CreditMove(p))])
            && (p.creditedAt.Some? && Debited(p) > 0 ==>
                  posted == [Shape(CreditMove(p)), Shape(DebitMove(p, Debited(p)))])
            && (p.status.Credited? ==> posted == [Shape(CreditMove(p))])
            && (p.creditedAt.Some? && !p.status.Credited? ==> p.takenBack && (p.status.Reversed? || p.status.Failed?))
  {
    hide Run, HonestRun, OrderlyRun, Reachable, PostingsOf, Shape, Shapes;
    StaysRegular(cfg, ops, i);
    RunIsReachable(cfg, ops);
    var s := Run(cfg, ops);
    DepositsAreOk(cfg, s);
    assert D.PaymentOk(s.payments[i]);
    G.DepositHistoryIsExact(cfg, s, i);
    StoryOfRegular(s.payments[i]);
    G.TwoShapes(PaymentStory(s.payments[i]));
  }

  lemma StoryOfRegular(p: Payment)
    requires Regular(p) && D.PaymentOk(p)
    ensures PaymentStory(p) == if p.creditedAt.None? then []
                               else if Debited(p) == 0 then [CreditMove(p)]
                               else [CreditMove(p), DebitMove(p, Debited(p))]
    ensures Kept(p) == if p.creditedAt.None? then 0 else p.amount - Debited(p)
  {
    if |p.moved| > 0 {
      DepositMovesAppend(p.user, [], p.moved[0]);
      SumOne(p.moved[0], Cents());
      assert [] + [p.moved[0]] == [p.moved[0]];
      if |p.moved| == 2 {
        DepositMovesAppend(p.user, [p.moved[0]], p.moved[1]);
        SumTwo(p.moved[0], p.moved[1], Cents());
        assert [p.moved[0]] + [p.moved[1]] == p.moved;
      }
    }
  }

  // What the outside owes for a deposit credited once.
  function KeptOnce(): Payment -> int { (p: Payment) => if p.creditedAt.None? then 0 else p.amount - Debited(p) }

  // When every deposit's run is orderly, the external account is payouts sent, less each credited deposit once
  // and what its reversal did not take back, less capital.
  lemma OutsideHoldsEachDepositOnce(cfg: Config, ops: seq<Op>)
    requires ConfigOk(cfg) && HonestRun(cfg, ops) && forall i: nat :: OrderlyRun(cfg, ops, i)
    ensures var s := Run(cfg, ops);
            Balance(s.log, External)
            == Sum(s.payouts, G.Sent()) - Sum(s.payments, KeptOnce()) - Sum(s.capital, G.Amount())
  {
    hide Run, HonestRun, OrderlyRun, Reachable, Sum, Balance, Kept, Regular, Debited;
    var s := Run(cfg, ops);
    RunIsReachable(cfg, ops);
    DepositsAreOk(cfg, s);
    G.OutsideIsExact(cfg, s, XAU);
    forall i | 0 <= i < |s.payments| ensures G.KeptDeposit()(s.payments[i]) == KeptOnce()(s.payments[i]) {
      StaysRegular(cfg, ops, i);
      assert D.PaymentOk(s.payments[i]);
      StoryOfRegular(s.payments[i]);
    }
    SumEq(s.payments, G.KeptDeposit(), KeptOnce());
  }
}
