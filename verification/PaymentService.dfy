/**
 * Deposits step by step on the database: the checkout, webhooks, the verified credit, the confirmed reversal and
 * the sweep over checkouts that never heard back. Each statement or transaction that writes is one step of the
 * platform, at whatever has become of the row since it was read; the handlers here run with nobody in between, and
 * `DepositRaces` interleaves them.
 */
module PaymentService {
  import opened Options
  import opened Books
  import opened Ledger
  import opened Platform
  import D = Payments

  lemma RowSteps(cfg: Config, s: State, i: nat, takenBack: bool)
    requires i < |s.payments|
    ensures var p := s.payments[i];
            && Step(cfg, s, Op.WriteWebhook(i)) ==
               s.(payments := s.payments[i := p.(status := WebhookReceived)])
            && Step(cfg, s, ClosePayment(i, takenBack)) ==
               (if p.status.Credited? then s
                else s.(payments := s.payments[i := p.(status := Failed, takenBack := p.takenBack || takenBack)]))
            && Step(cfg, s, CloseStalePayment(i)) ==
               (if !p.status.Initiated? && !p.status.WebhookReceived? then s
                else s.(payments := s.payments[i := p.(status := Failed)]))
  {
    assert s.log + [] == s.log;
  }

  lemma OpenStep(cfg: Config, s: State, user: UserId, amount: int, st: Standing)
    ensures Step(cfg, s, OpenPayment(user, amount, st)) ==
            if !MayMoveMoney(st) || amount < cfg.depositMin then s
            else s.(payments := s.payments + [Payment(user, amount, Initiated, None, [], false)])
  {
    assert s.log + [] == s.log;
  }

  lemma SettleStep(cfg: Config, s: State, i: nat, answer: D.Answer, now: int)
    requires i < |s.payments|
    ensures var p := s.payments[i];
            Step(cfg, s, SettlePayment(i, answer, now)) ==
            if !D.Creditable(p) then s
            else match answer {
              case VerifiedFailed => s.(payments := s.payments[i := p.(status := Failed)])
              case Success(true) =>
                s.(payments := s.payments[i := p.(status := Credited, creditedAt := Some(now),
                                                  moved := p.moved + [p.amount])],
                   log := s.log + [Txn(PaymentRef(i), Shape(CreditMove(p)))])
              case _ => s
            }
  {
    hide Shape;
    assert s.log + [] == s.log;
  }

  function Available(balance: int, amount: int): int {
    if balance >= amount then amount else if balance > 0 then balance else 0
  }

  lemma ReverseStep(cfg: Config, s: State, i: nat, answer: D.Answer)
    requires i < |s.payments|
    ensures var p := s.payments[i];
            var debited := Available(Balance(s.log, Customer(p.user, ETB)), p.amount);
            Step(cfg, s, ReversePayment(i, answer)) ==
            if !p.status.Credited? || answer != D.TakenBack then s
            else s.(payments := s.payments[i := p.(status := Reversed, takenBack := true,
                                                   moved := p.moved + (if debited > 0 then [-debited] else []))],
                    log := if debited > 0 then s.log + [Txn(PaymentRef(i), Shape(DebitMove(p, debited)))] else s.log)
  {
    hide Shape, Balance;
    assert s.log + [] == s.log && s.payments[i].moved + [] == s.payments[i].moved;
  }

  // A reversal notice, once verify has answered.
  function AfterReversal(cfg: Config, s: State, i: nat, answer: D.Answer): State {
    if i >= |s.payments| || answer != D.TakenBack then s
    else if s.payments[i].status.Credited? then Step(cfg, s, ReversePayment(i, answer))
    else Step(cfg, s, ClosePayment(i, true))
  }

  datatype ChargeEvent = TakenBackEvent | ChargeEvent | OtherEvent

  function AfterCharge(cfg: Config, s: State, i: nat, event: ChargeEvent, answer: D.Answer, now: int): State {
    var noted := if i < |s.payments| && s.payments[i].status.Initiated? then Step(cfg, s, Op.WriteWebhook(i)) else s;
    match event
    case TakenBackEvent => AfterReversal(cfg, noted, i, answer)
    case ChargeEvent => Step(cfg, noted, SettlePayment(i, answer, now))
    case OtherEvent => noted
  }

  // Re-verify each open checkout; one older than three days that is still not settled is closed.
  function AfterSweep(cfg: Config, s: State, open: seq<nat>, answers: map<nat, D.Answer>, overThreeDays: set<nat>,
                      now: int): State
    decreases |open|
  {
    if open == [] then s
    else
      var i := open[0];
      var s1 := if i in answers then Step(cfg, s, SettlePayment(i, answers[i], now)) else s;
      var s2 := if i in answers && i in overThreeDays then Step(cfg, s1, CloseStalePayment(i)) else s1;
      AfterSweep(cfg, s2, open[1..], answers, overThreeDays, now)
  }

  // ---------------------------------------------------------------- what the handlers owe, in money

  // What a settle makes of a deposit: credited for a matching success, closed when verify says failed, and only
  // while it is neither credited nor reversed.
  function SettledRow(p: Payment, answer: D.Answer, now: int): Payment {
    if p.status.Credited? || p.status.Reversed? then p
    else if answer == D.Success(true) then
      p.(status := Credited, creditedAt := Some(now), moved := p.moved + [p.amount])
    else if answer == D.VerifiedFailed then p.(status := Failed)
    else p
  }

  function SettledPosts(p: Payment, answer: D.Answer): seq<Posting> {
    if answer == D.Success(true) && !p.status.Credited? && !p.status.Reversed? then [Shape(CreditMove(p))] else []
  }

  // The customer gets exactly the deposit when it is credited, and nothing otherwise.
  ghost predicate SettledRight(s: State, s': State, i: nat, answer: D.Answer, now: int)
    requires i < |s.payments|
  {
    var p := s.payments[i];
    var credited := answer == D.Success(true) && !p.status.Credited? && !p.status.Reversed?;
    && s'.payments == s.payments[i := SettledRow(p, answer, now)]
    && s'.log == s.log + (if credited then [Txn(PaymentRef(i), Shape(CreditMove(p)))] else [])
    && Balance(s'.log, Customer(p.user, ETB)) ==
       Balance(s.log, Customer(p.user, ETB)) + (if credited then p.amount else 0)
  }

  // A credited deposit is reversed, and the customer debited the smaller of the deposit and what is there, never
  // below zero; any other is closed and nothing moves.
  ghost predicate TookBack(s: State, s': State, i: nat)
    requires i < |s.payments|
  {
    var p := s.payments[i];
    var there := Balance(s.log, Customer(p.user, ETB));
    var less := if there < p.amount then there else p.amount;
    if p.status.Credited? then
      && s'.payments == s.payments[i := p.(status := Reversed, takenBack := true,
                                           moved := p.moved + (if less > 0 then [-less] else []))]
      && s'.log == s.log + (if less > 0 then [Txn(PaymentRef(i), Shape(DebitMove(p, less)))] else [])
      && Balance(s'.log, Customer(p.user, ETB)) == there - less >= 0
    else
      s'.payments == s.payments[i := p.(status := Failed, takenBack := true)] && s'.log == s.log
  }

  lemma SettleIsRight(cfg: Config, s: State, i: nat, answer: D.Answer, now: int)
    requires i < |s.payments| && D.PaymentOk(s.payments[i])
    ensures SettledRight(s, Step(cfg, s, SettlePayment(i, answer, now)), i, answer, now)
  {
    hide Shape, Balance, Step;
    SettleStep(cfg, s, i, answer, now);
    var p := s.payments[i];
    BalanceAppend(s.log, Txn(PaymentRef(i), Shape(CreditMove(p))), Customer(p.user, ETB));
    ShapeNet(CreditMove(p), Customer(p.user, ETB));
    assert s.log + [] == s.log && s.payments[i := p] == s.payments;
  }

  lemma TakeBackIsRight(cfg: Config, s: State, i: nat)
    requires i < |s.payments| && D.PaymentOk(s.payments[i])
    requires Balance(s.log, Customer(s.payments[i].user, ETB)) >= 0
    ensures TookBack(s, AfterReversal(cfg, s, i, D.TakenBack), i)
  {
    hide Shape, Balance, Step;
    var p := s.payments[i];
    var there := Balance(s.log, Customer(p.user, ETB));
    var less := if there < p.amount then there else p.amount;
    ReverseStep(cfg, s, i, D.TakenBack);
    RowSteps(cfg, s, i, true);
    BalanceAppend(s.log, Txn(PaymentRef(i), Shape(DebitMove(p, less))), Customer(p.user, ETB));
    ShapeNet(DebitMove(p, less), Customer(p.user, ETB));
    assert s.log + [] == s.log;
  }

  // One deposit of a sweep: verified by its answer, and closed when it is over three days old and still open.
  function SweptDeposit(p: Payment, answer: Option<D.Answer>, aged: bool, now: int): Payment {
    match answer
    case None => p
    case Some(a) =>
      var p1 := SettledRow(p, a, now);
      if aged && (p1.status.Initiated? || p1.status.WebhookReceived?) then p1.(status := Failed) else p1
  }

  ghost predicate SweptRow(s: State, s': State, i: nat, answer: Option<D.Answer>, aged: bool, now: int)
    requires i < |s.payments| && i < |s'.payments|
  {
    && s'.payments[i] == SweptDeposit(s.payments[i], answer, aged, now)
    && PostingsOf(s'.log, PaymentRef(i)) ==
       PostingsOf(s.log, PaymentRef(i)) + (if answer.Some? then SettledPosts(s.payments[i], answer.value) else [])
  }

  function AnswerTo(open: seq<nat>, answers: map<nat, D.Answer>, i: nat): Option<D.Answer> {
    if i in open && i in answers then Some(answers[i]) else None
  }

  ghost predicate SweptRight(s: State, s': State, open: seq<nat>, answers: map<nat, D.Answer>,
                             overThreeDays: set<nat>, now: int)
  {
    && |s'.payments| == |s.payments|
    && s' == s.(payments := s'.payments, log := s'.log)
    && (forall i | 0 <= i < |s.payments| :: SweptRow(s, s', i, AnswerTo(open, answers, i), i in overThreeDays, now))
    && (forall ref: Ref :: !ref.PaymentRef? ==> PostingsOf(s'.log, ref) == PostingsOf(s.log, ref))
  }

  function SweptOne(cfg: Config, s: State, i: nat, answer: D.Answer, aged: bool, now: int): State {
    var s1 := Step(cfg, s, SettlePayment(i, answer, now));
    if aged then Step(cfg, s1, CloseStalePayment(i)) else s1
  }

  lemma SweptOneIs(cfg: Config, s: State, i: nat, answer: D.Answer, aged: bool, now: int, ref: Ref)
    requires i < |s.payments| && D.PaymentOk(s.payments[i])
    ensures var s' := SweptOne(cfg, s, i, answer, aged, now);
            && |s'.payments| == |s.payments| && s' == s.(payments := s'.payments, log := s'.log)
            && (forall j | 0 <= j < |s.payments| && j != i :: s'.payments[j] == s.payments[j])
            && SweptRow(s, s', i, Some(answer), aged, now)
            && (ref != PaymentRef(i) ==> PostingsOf(s'.log, ref) == PostingsOf(s.log, ref))
  {
    hide Shape, Step, PostingsOf;
    var p := s.payments[i];
    SettleStep(cfg, s, i, answer, now);
    RowSteps(cfg, Step(cfg, s, SettlePayment(i, answer, now)), i, false);
    PostingsAppend(s.log, Txn(PaymentRef(i), Shape(CreditMove(p))), PaymentRef(i));
    PostingsAppend(s.log, Txn(PaymentRef(i), Shape(CreditMove(p))), ref);
    assert PostingsOf(s.log, PaymentRef(i)) + [] == PostingsOf(s.log, PaymentRef(i));
    assert PostingsOf(s.log, ref) + [] == PostingsOf(s.log, ref);
  }

  lemma {:induction false} SweepIsRight(cfg: Config, s: State, open: seq<nat>, answers: map<nat, D.Answer>,
                                        overThreeDays: set<nat>, now: int)
    requires D.PaymentsOk(s.payments)
    requires forall k | 0 <= k < |open| :: open[k] < |s.payments|
    requires forall k, l | 0 <= k < l < |open| :: open[k] != open[l]
    ensures SweptRight(s, AfterSweep(cfg, s, open, answers, overThreeDays, now), open, answers, overThreeDays, now)
    decreases |open|
  {
    hide D.PaymentOk, PostingsOf, Step, SweptDeposit, SettledPosts;
    if open == [] {
      forall i | 0 <= i < |s.payments| ensures SweptRow(s, s, i, None, i in overThreeDays, now) {
        NotSwept(s, i, i in overThreeDays, now);
      }
    } else {
      var i, rest := open[0], open[1..];
      var s1 := if i in answers then SweptOne(cfg, s, i, answers[i], i in overThreeDays, now) else s;
      if i in answers {
        assert D.PaymentOk(s.payments[i]);
        forall ref: Ref ensures ref != PaymentRef(i) ==> PostingsOf(s1.log, ref) == PostingsOf(s.log, ref) {
          SweptOneIs(cfg, s, i, answers[i], i in overThreeDays, now, ref);
        }
        SweptOneIs(cfg, s, i, answers[i], i in overThreeDays, now, PaymentRef(i));
        SweptStaysOk(cfg, s, i, answers[i], i in overThreeDays, now);
      }
      SweepIsRight(cfg, s1, rest, answers, overThreeDays, now);
      var s' := AfterSweep(cfg, s, open, answers, overThreeDays, now);
      assert s' == AfterSweep(cfg, s1, rest, answers, overThreeDays, now);
      assert i !in rest;
      forall j | 0 <= j < |s.payments|
        ensures SweptRow(s, s', j, AnswerTo(open, answers, j), j in overThreeDays, now)
      {
        assert SweptRow(s1, s', j, AnswerTo(rest, answers, j), j in overThreeDays, now);
        assert j in open <==> j == i || j in rest;
        NotSwept(s1, j, j in overThreeDays, now);
        NoAnswer(s1.payments[j], j in overThreeDays, now);
      }
    }
  }

  lemma NoAnswer(p: Payment, aged: bool, now: int)
    ensures SweptDeposit(p, None, aged, now) == p
  {
  }

  lemma NotSwept(s: State, i: nat, aged: bool, now: int)
    requires i < |s.payments|
    ensures SweptRow(s, s, i, None, aged, now)
  {
    hide PostingsOf;
    assert PostingsOf(s.log, PaymentRef(i)) + [] == PostingsOf(s.log, PaymentRef(i));
  }

  lemma SweptDepositOk(p: Payment, answer: D.Answer, aged: bool, now: int)
    requires D.PaymentOk(p)
    ensures D.PaymentOk(SweptDeposit(p, Some(answer), aged, now))
  {
    D.CreditedRow(p, now);
  }

  lemma SweptStaysOk(cfg: Config, s: State, i: nat, answer: D.Answer, aged: bool, now: int)
    requires D.PaymentsOk(s.payments) && i < |s.payments|
    ensures D.PaymentsOk(SweptOne(cfg, s, i, answer, aged, now).payments)
  {
    hide SweptOne, SweptDeposit, D.PaymentOk, PostingsOf;
    assert D.PaymentOk(s.payments[i]);
    SweptOneIs(cfg, s, i, answer, aged, now, PaymentRef(i));
    SweptDepositOk(s.payments[i], answer, aged, now);
  }

  class PaymentsService {
    const db: Database
    const ledger: LedgerService
    const cfg: Config

    constructor (db: Database, ledger: LedgerService, cfg: Config)
      ensures this.db == db && this.ledger == ledger && this.cfg == cfg
    {
      this.db, this.ledger, this.cfg := db, ledger, cfg;
    }

    ghost predicate Valid()
      reads db
    {
      ledger.db == db && ConfigOk(cfg) && Reachable(cfg, db.View())
    }

    lemma IsOk(i: nat)
      requires Valid() && i < |db.payments|
      ensures D.PaymentOk(db.payments[i])
    {
      ReachableIsOk(cfg, db.View());
    }

    // Open a checkout; when the provider would not create it, the row is closed so it cannot be taken for one
    // still to be paid.
    method Create(user: UserId, amount: int, st: Standing, checkoutCreated: bool) returns (id: Option<nat>)
      requires Valid()
      modifies db`payments
      ensures Valid()
      ensures var checkout := Step(cfg, old(db.View()), OpenPayment(user, amount, st));
              db.View() == if |checkout.payments| > |old(db.payments)| && !checkoutCreated
                           then Step(cfg, checkout, ClosePayment(|old(db.payments)|, false)) else checkout
      ensures var asked := !st.frozen && st.gate.None? && amount >= cfg.depositMin;
              && id == (if asked && checkoutCreated then Some(|old(db.payments)|) else None)
              && db.payments == old(db.payments)
                 + (if !asked then []
                    else [Payment(user, amount, if checkoutCreated then Initiated else Failed, None, [], false)])
    {
      hide Reachable;
      OpenStep(cfg, db.View(), user, amount, st);
      StepIsReachable(cfg, db.View(), OpenPayment(user, amount, st));
      hide Step;
      if !MayMoveMoney(st) {
        return None;
      }
      if amount < cfg.depositMin {
        return None;
      }
      var i := |db.payments|;
      db.payments := db.payments + [Payment(user, amount, Initiated, None, [], false)];
      if !checkoutCreated {
        RowSteps(cfg, db.View(), i, false);
        StepIsReachable(cfg, db.View(), ClosePayment(i, false));
        if !db.payments[i].status.Credited? {
          db.payments := db.payments[i := db.payments[i].(status := Failed)];
        }
        return None;
      }
      return Some(i);
    }

    lemma CanBeTakenBack(i: nat)
      requires Valid() && i < |db.payments|
      ensures D.PaymentOk(db.payments[i]) && Balance(db.log, Customer(db.payments[i].user, ETB)) >= 0
    {
      IsOk(i);
      NobodyOwes(db.View(), Customer(db.payments[i].user, ETB));
    }

    lemma NobodyOwes(s: State, a: Account)
      requires ConfigOk(cfg) && Reachable(cfg, s) && a.Customer?
      ensures Balance(s.log, a) >= 0
    {
      hide Reachable, Balance;
      ReachableIsOk(cfg, s);
      assert s.log[..|s.log|] == s.log;
      assert Balance(s.log[..|s.log|], a) >= 0;
    }

    // The transaction that credits, at whatever has become of the row since verify answered: only one call wins the
    // conditional update.
    method Claim(i: nat, answer: D.Answer, now: int)
      requires Valid() && i < |db.payments|
      modifies db`payments, db`log
      ensures Valid()
      ensures db.View() == Step(cfg, old(db.View()), SettlePayment(i, answer, now))
                && |db.payments| == |old(db.payments)|
    {
      hide Reachable, Shape, Balance;
      StepIsReachable(cfg, db.View(), SettlePayment(i, answer, now));
      SettleStep(cfg, db.View(), i, answer, now);
      IsOk(i);
      hide Step;
      var p := db.payments[i];
      if !D.Creditable(p) {
        return;
      }
      if answer.VerifiedFailed? {
        db.payments := db.payments[i := p.(status := Failed)];
        return;
      }
      if !answer.Success? || !answer.matches {
        return;
      }
      db.payments := db.payments[i := p.(status := Credited, creditedAt := Some(now), moved := p.moved + [p.amount])];
      ledger.PostTransfer(PaymentRef(i), DepositTxn, ChapaDeposit, External, Customer(p.user, ETB), p.amount);
    }

    // The only code that credits a deposit: read, verify, then claim.
    method SettleByTxRef(i: nat, answer: D.Answer, now: int)
      requires Valid()
      modifies db`payments, db`log
      ensures Valid()
      ensures db.View() == Step(cfg, old(db.View()), SettlePayment(i, answer, now))
                && |db.payments| == |old(db.payments)|
      ensures if i < |old(db.payments)| then SettledRight(old(db.View()), db.View(), i, answer, now)
              else db.View() == old(db.View())
    {
      if i < |db.payments| {
        IsOk(i);
        SettleIsRight(cfg, db.View(), i, answer, now);
      }
      hide Reachable, Step, SettledRight;
      NoDeposit(i, answer, now);
      if i >= |db.payments| {
        return;
      }
      if db.payments[i].status.Credited? || db.payments[i].status.Reversed? {
        SettleStep(cfg, db.View(), i, answer, now);
        return;
      }
      Claim(i, answer, now);
    }

    lemma NoDeposit(i: nat, answer: D.Answer, now: int)
      ensures i >= |db.payments| ==> Step(cfg, db.View(), SettlePayment(i, answer, now)) == db.View()
    {
    }

    // The closing update of a row whose read was not credited; by now it may be.
    method Close(i: nat, takenBack: bool)
      requires Valid() && i < |db.payments|
      modifies db`payments
      ensures Valid()
      ensures db.View() == Step(cfg, old(db.View()), ClosePayment(i, takenBack))
    {
      hide Reachable;
      RowSteps(cfg, db.View(), i, takenBack);
      StepIsReachable(cfg, db.View(), ClosePayment(i, takenBack));
      hide Step;
      var p := db.payments[i];
      if !p.status.Credited? {
        db.payments := db.payments[i := p.(status := Failed, takenBack := p.takenBack || takenBack)];
      }
    }

    // The transaction that takes a credited deposit back: debit what is still there, never below zero.
    method TakeBack(i: nat)
      requires Valid() && i < |db.payments|
      modifies db`payments, db`log
      ensures Valid()
      ensures db.View() == Step(cfg, old(db.View()), ReversePayment(i, D.TakenBack))
    {
      hide Reachable, Shape, Balance;
      ReverseStep(cfg, db.View(), i, D.TakenBack);
      StepIsReachable(cfg, db.View(), ReversePayment(i, D.TakenBack));
      IsOk(i);
      hide Step;
      var p := db.payments[i];
      if !p.status.Credited? {
        return;
      }
      var accounts := [Customer(p.user, ETB), External];
      var balances := ledger.LockAndReadBalances(accounts);
      assert accounts[0] in accounts;
      var available := balances[accounts[0]];
      var debited := if available >= p.amount then p.amount else if available > 0 then available else 0;
      db.payments := db.payments[i := p.(status := Reversed, takenBack := true,
                                         moved := p.moved + (if debited > 0 then [-debited] else []))];
      if debited > 0 {
        ledger.PostTransfer(PaymentRef(i), DepositTxn, DepositReversed, Customer(p.user, ETB), External, debited);
      }
    }

    // The provider took a deposit back, and verify confirms it: a credited one is debited, any other only closed.
    method HandleReversal(i: nat, answer: D.Answer)
      requires Valid()
      modifies db`payments, db`log
      ensures Valid()
      ensures db.View() == AfterReversal(cfg, old(db.View()), i, answer)
      ensures if i < |old(db.payments)| && answer.TakenBack? then TookBack(old(db.View()), db.View(), i)
              else db.View() == old(db.View())
    {
      if i < |db.payments| {
        CanBeTakenBack(i);
        TakeBackIsRight(cfg, db.View(), i);
      }
      hide Reachable, Step, TookBack;
      if i >= |db.payments| || !answer.TakenBack? {
        return;
      }
      if db.payments[i].status.Credited? {
        TakeBack(i);
      } else {
        Close(i, true);
      }
    }

    // The update that records a webhook, keyed by id alone: a row read as initiated is moved forward whatever it
    // has become.
    method RecordWebhook(i: nat, seen: PaymentStatus)
      requires Valid() && i < |db.payments|
      modifies db`payments
      ensures Valid() && |db.payments| == |old(db.payments)|
      ensures db.View() == if seen.Initiated? then Step(cfg, old(db.View()), Op.WriteWebhook(i)) else old(db.View())
    {
      hide Reachable;
      RowSteps(cfg, db.View(), i, false);
      StepIsReachable(cfg, db.View(), Op.WriteWebhook(i));
      hide Step;
      if seen.Initiated? {
        db.payments := db.payments[i := db.payments[i].(status := WebhookReceived)];
      }
    }

    // A webhook records itself and prompts a check; the verify answer, not the event, moves money.
    method HandleChargeEvent(i: nat, event: ChargeEvent, answer: D.Answer, now: int)
      requires Valid()
      modifies db`payments, db`log
      ensures Valid()
      ensures db.View() == if i < |old(db.payments)| then AfterCharge(cfg, old(db.View()), i, event, answer, now)
                else old(db.View())
      ensures i < |old(db.payments)| ==>
                var s, p := old(db.View()), old(db.payments)[i];
                var noted := if p.status.Initiated? then s.(payments := s.payments[i := p.(status := WebhookReceived)])
                             else s;
                match event
                case TakenBackEvent =>
                  if answer.TakenBack? then TookBack(s, db.View(), i) else db.View() == noted
                case ChargeEvent => SettledRight(noted, db.View(), i, answer, now)
                case OtherEvent => db.View() == noted
    {
      hide Reachable, Step, SettledRight;
      if i >= |db.payments| {
        return;
      }
      RowSteps(cfg, db.View(), i, false);
      RecordWebhook(i, db.payments[i].status);
      match event {
        case TakenBackEvent => HandleReversal(i, answer);
        case ChargeEvent => SettleByTxRef(i, answer, now);
        case OtherEvent =>
      }
    }

    lemma SweepOwes(open: seq<nat>, answers: map<nat, D.Answer>, overThreeDays: set<nat>, now: int)
      requires Valid() && forall k | 0 <= k < |open| :: open[k] < |db.payments|
      requires forall k, l | 0 <= k < l < |open| :: open[k] != open[l]
      ensures var s := db.View();
              SweptRight(s, AfterSweep(cfg, s, open, answers, overThreeDays, now), open, answers, overThreeDays, now)
    {
      hide Reachable, SweptRight;
      ReachableIsOk(cfg, db.View());
      SweepIsRight(cfg, db.View(), open, answers, overThreeDays, now);
    }

    // Lost-webhook recovery over the open checkouts the query returned; a verify that throws skips its row.
    method Sweep(open: seq<nat>, answers: map<nat, D.Answer>, overThreeDays: set<nat>, now: int)
      requires Valid() && forall k | 0 <= k < |open| :: open[k] < |db.payments|
      requires forall k, l | 0 <= k < l < |open| :: open[k] != open[l]
      modifies db`payments, db`log
      ensures Valid()
      ensures db.View() == AfterSweep(cfg, old(db.View()), open, answers, overThreeDays, now)
      ensures SweptRight(old(db.View()), db.View(), open, answers, overThreeDays, now)
    {
      hide Reachable, SweptRight, SettledRight;
      SweepOwes(open, answers, overThreeDays, now);
      var k := 0;
      while k < |open|
        modifies db`payments, db`log
        invariant 0 <= k <= |open| && Valid() && |db.payments| == |old(db.payments)|
        invariant AfterSweep(cfg, old(db.View()), open, answers, overThreeDays, now)
                  == AfterSweep(cfg, db.View(), open[k..], answers, overThreeDays, now)
      {
        var i := open[k];
        assert open[k..][1..] == open[k + 1..];
        if i in answers {
          SettleByTxRef(i, answers[i], now);
          if i in overThreeDays {
            RowSteps(cfg, db.View(), i, false);
            StepIsReachable(cfg, db.View(), CloseStalePayment(i));
            if db.payments[i].status.Initiated? || db.payments[i].status.WebhookReceived? {
              db.payments := db.payments[i := db.payments[i].(status := Failed)];
            }
          }
        }
        k := k + 1;
      }
    }
  }
}
