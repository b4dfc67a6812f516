/**
 * One deposit under any number of webhooks, settles, reversals and sweeps at once, beside everything else the
 * platform does. Each call reads the row, may ask the provider, and writes later, at whatever the row has become.
 * The provider is consistent: verify answers what is so when it is asked, and a deposit taken back stays so.
 */
module DepositRaces {
  import opened Options
  import opened Sums
  import opened Books
  import opened Platform
  import opened DepositHistory
  import PaymentService
  import D = Payments
  import I = Interleaving

  // A call between its statements, with the row it read or the answer it holds.
  datatype Call =
    | Noting(seen: Payment)
    | Asking | Claiming(answer: D.Answer)
    | AskingBack(seen: Payment) | TakingBack(seen: Payment)
    | Finished

  // `provider` is what verify would answer now.
  datatype World = World(db: State, calls: seq<Call>, provider: D.Answer)

  datatype Action =
    | Other(op: Op)
    | ProviderSays(answer: D.Answer)
    | Webhook | Settle | Reversal
    | Verify(call: nat, lost: bool)
    | Write(call: nat, now: int)
    | CloseStale | CheckoutFails

  const FRESH := World(EMPTY, [], D.NotKnown)

  predicate Possible(i: nat, w: World, a: Action) {
    match a
    case Other(op) => Honest(w.db, op) && !OnDeposit(op, i)
    case ProviderSays(answer) => w.provider != D.TakenBack && answer != D.NoAnswer
    case Verify(c, _) => c < |w.calls| && (w.calls[c].Asking? || w.calls[c].AskingBack?)
    case Write(c, _) => c < |w.calls| && (w.calls[c].Noting? || w.calls[c].Claiming? || w.calls[c].TakingBack?)
    case _ => i < |w.db.payments|
  }

  // The statement or transaction an action runs on the platform.
  function OpOf(i: nat, w: World, a: Action): Option<Op>
    requires Possible(i, w, a)
  {
    match a
    case Other(op) => Some(op)
    case CloseStale => Some(CloseStalePayment(i))
    case CheckoutFails => Some(ClosePayment(i, false))
    case Write(c, now) =>
      (match w.calls[c]
       case Noting(seen) => if seen.status.Initiated? then Some(Op.WriteWebhook(i)) else None
       case Claiming(answer) => Some(SettlePayment(i, answer, now))
       case TakingBack(seen) =>
         if seen.status.Credited? then Some(ReversePayment(i, D.TakenBack)) else Some(ClosePayment(i, true))
       case _ => None)
    case _ => None
  }

  function CallsAfter(i: nat, w: World, a: Action): seq<Call>
    requires Possible(i, w, a)
  {
    match a
    case Webhook => w.calls + [Noting(w.db.payments[i])]
    case Settle =>
      var status := w.db.payments[i].status;
      w.calls + [if status.Credited? || status.Reversed? then Finished else Asking]
    case Reversal => w.calls + [AskingBack(w.db.payments[i])]
    case Verify(c, lost) =>
      var answer := if lost then D.NoAnswer else w.provider;
      (match w.calls[c]
       case AskingBack(seen) => w.calls[c := if answer == D.TakenBack then TakingBack(seen) else Finished]
       case _ => w.calls[c := Claiming(answer)])
    case Write(c, _) => w.calls[c := Finished]
    case _ => w.calls
  }

  function Act(cfg: Config, i: nat, w: World, a: Action): World
    requires Possible(i, w, a)
  {
    var op := OpOf(i, w, a);
    World(if op.Some? then Step(cfg, w.db, op.value) else w.db, CallsAfter(i, w, a),
          if a.ProviderSays? then a.answer else w.provider)
  }

  predicate Legal(cfg: Config, i: nat, run: seq<Action>)
    decreases |run|, 0
  {
    run == [] ||
    (Legal(cfg, i, run[..|run| - 1]) && Possible(i, After(cfg, i, run[..|run| - 1]), run[|run| - 1]))
  }

  function After(cfg: Config, i: nat, run: seq<Action>): World
    requires Legal(cfg, i, run)
    decreases |run|, 1
  {
    if run == [] then FRESH else Act(cfg, i, After(cfg, i, run[..|run| - 1]), run[|run| - 1])
  }

  lemma {:induction false} LegalPrefix(cfg: Config, i: nat, run: seq<Action>, k: nat)
    requires Legal(cfg, i, run) && k <= |run|
    ensures Legal(cfg, i, run[..k])
    ensures k < |run| ==> Possible(i, After(cfg, i, run[..k]), run[k])
    decreases |run|
  {
    if k < |run| {
      assert run[..|run| - 1][..k] == run[..k];
      LegalPrefix(cfg, i, run[..|run| - 1], k);
    } else {
      assert run[..k] == run;
    }
  }

  // ---------------------------------------------------------------- races are runs of the platform

  function Ops(cfg: Config, i: nat, run: seq<Action>): seq<Op>
    requires Legal(cfg, i, run)
    decreases |run|
  {
    if run == [] then []
    else
      var op := OpOf(i, After(cfg, i, run[..|run| - 1]), run[|run| - 1]);
      Ops(cfg, i, run[..|run| - 1]) + (if op.Some? then [op.value] else [])
  }

  // Every race is an honest run of the platform, so all guarantees hold of it.
  lemma {:induction false} RaceIsPlatformRun(cfg: Config, i: nat, run: seq<Action>)
    requires Legal(cfg, i, run)
    ensures HonestRun(cfg, Ops(cfg, i, run)) && Run(cfg, Ops(cfg, i, run)) == After(cfg, i, run).db
    ensures Reachable(cfg, After(cfg, i, run).db)
    decreases |run|
  {
    hide Step, Honest, Reachable, HonestRun, Run;
    if run == [] {
      NoSteps(cfg);
    } else {
      var n := |run| - 1;
      RaceIsPlatformRun(cfg, i, run[..n]);
      var w := After(cfg, i, run[..n]);
      var op := OpOf(i, w, run[n]);
      assert Ops(cfg, i, run[..n]) + [] == Ops(cfg, i, run[..n]);
      if op.Some? {
        HonestOps(i, w, run[n]);
        I.ExtendRun(cfg, Ops(cfg, i, run[..n]), op.value);
      }
      RunIsReachable(cfg, Ops(cfg, i, run));
    }
  }

  lemma NoSteps(cfg: Config)
    ensures HonestRun(cfg, []) && Run(cfg, []) == EMPTY && Reachable(cfg, EMPTY)
  {
    EmptyIsReachable(cfg);
  }

  lemma HonestOps(i: nat, w: World, a: Action)
    requires Possible(i, w, a) && OpOf(i, w, a).Some?
    ensures Honest(w.db, OpOf(i, w, a).value)
    ensures OnDeposit(OpOf(i, w, a).value, i) || a.Other?
  {
  }

  // ---------------------------------------------------------------- what every race keeps

  ghost predicate CallOk(i: nat, w: World, c: Call) {
    match c
    case Noting(seen) => i < |w.db.payments| && SeenBefore(seen, w.db.payments[i])
    case AskingBack(seen) => i < |w.db.payments| && SeenBefore(seen, w.db.payments[i])
    case TakingBack(seen) =>
      i < |w.db.payments| && SeenBefore(seen, w.db.payments[i]) && w.provider == D.TakenBack
    case Asking => i < |w.db.payments|
    case Claiming(_) => i < |w.db.payments|
    case Finished => true
  }

  // The row read is an earlier version of the row: its ledger transactions come first.
  ghost predicate SeenBefore(seen: Payment, p: Payment) {
    && seen.user == p.user && seen.amount == p.amount && seen.moved <= p.moved
    && D.PaymentOk(seen)
  }

  ghost predicate Ok(i: nat, w: World) {
    && D.PaymentsOk(w.db.payments)
    && (forall c :: 0 <= c < |w.calls| ==> CallOk(i, w, w.calls[c]))
    && (i < |w.db.payments| && w.db.payments[i].takenBack ==> w.provider == D.TakenBack)
  }

  // The row after an action, when it was there before.
  lemma ActOnDeposit(cfg: Config, i: nat, w: World, a: Action)
    requires Possible(i, w, a)
    ensures var n := Act(cfg, i, w, a).db.payments;
            var op := OpOf(i, w, a);
            && |w.db.payments| <= |n|
            && (i < |w.db.payments| ==> n[i] == if op.Some? then RowAfter(w.db, op.value, i) else w.db.payments[i])
            && (|w.db.payments| <= i < |n| ==> Opened(n[i]))
  {
    hide Step, RowAfter;
    var op := OpOf(i, w, a);
    if op.Some? {
      StepOnDeposit(cfg, w.db, op.value, i);
    }
  }

  lemma RowGrows(s: State, op: Op, i: nat)
    requires i < |s.payments|
    ensures var p, p' := s.payments[i], RowAfter(s, op, i);
            && p'.user == p.user && p'.amount == p.amount && p.moved <= p'.moved
            && (p'.takenBack ==>
                  p.takenBack || (op.ReversePayment? && op.answer == D.TakenBack) || (op.ClosePayment? && op.takenBack))
  {
    hide Balance;
  }

  lemma ActKeepsOk(cfg: Config, i: nat, w: World, a: Action)
    requires ConfigOk(cfg) && Ok(i, w) && Possible(i, w, a) && D.PaymentsOk(Act(cfg, i, w, a).db.payments)
    ensures Ok(i, Act(cfg, i, w, a))
  {
    hide Step, RowAfter, D.PaymentOk, Honest;
    ActOnDeposit(cfg, i, w, a);
    var op := OpOf(i, w, a);
    if i < |w.db.payments| && op.Some? {
      RowGrows(w.db, op.value, i);
    }
    if a.Write? {
      assert CallOk(i, w, w.calls[a.call]);
    }
    if a.Other? && i < |w.db.payments| {
      OthersLeaveIt(w.db, a.op, i);
    }
    var n := Act(cfg, i, w, a);
    forall c | 0 <= c < |n.calls| ensures CallOk(i, n, n.calls[c]) {
      if c < |w.calls| {
        assert CallOk(i, w, w.calls[c]);
      }
    }
  }

  lemma OthersLeaveIt(s: State, op: Op, i: nat)
    requires i < |s.payments| && !OnDeposit(op, i)
    ensures RowAfter(s, op, i) == s.payments[i]
  {
  }

  lemma {:induction false} EveryRaceIsOk(cfg: Config, i: nat, run: seq<Action>)
    requires ConfigOk(cfg) && Legal(cfg, i, run)
    ensures Ok(i, After(cfg, i, run))
    decreases |run|
  {
    hide Act, Ok, Possible, Reachable;
    if run == [] {
      FreshIsOk(i);
    } else {
      var n := |run| - 1;
      EveryRaceIsOk(cfg, i, run[..n]);
      RaceIsPlatformRun(cfg, i, run);
      DepositsAreOk(cfg, After(cfg, i, run).db);
      ActKeepsOk(cfg, i, After(cfg, i, run[..n]), run[n]);
    }
  }

  lemma FreshIsOk(i: nat)
    ensures Ok(i, FRESH)
  {
  }

  // ---------------------------------------------------------------- when a deposit is credited twice

  function CreditOn(): int -> int { (cents: int) => if cents > 0 then 1 else 0 }

  function Credits(p: Payment): int { Sum(p.moved, CreditOn()) }

  // How often deposit i has been credited.
  function TimesCredited(i: nat, w: World): int {
    if i < |w.db.payments| then Credits(w.db.payments[i]) else 0
  }

  // A settle claims a creditable row for a matching success.
  ghost predicate Claims(i: nat, w: World, a: Action) {
    && a.Write? && a.call < |w.calls| && w.calls[a.call] == Claiming(D.Success(true))
    && i < |w.db.payments| && D.Creditable(w.db.payments[i])
  }

  // A webhook that read `initiated` writes on a row credited since, and so puts it back to webhook_received.
  ghost predicate Regresses(i: nat, w: World, a: Action) {
    && a.Write? && a.call < |w.calls| && w.calls[a.call].Noting? && i < |w.db.payments|
    && w.calls[a.call].seen.status.Initiated? && Credits(w.calls[a.call].seen) < Credits(w.db.payments[i])
    && !D.Creditable(w.db.payments[i])
  }

  // A reversed row is closed as failed.
  ghost predicate ClosesReversed(i: nat, w: World, a: Action) {
    && i < |w.db.payments| && w.db.payments[i].status.Reversed?
    && (a.CheckoutFails?
        || (a.Write? && a.call < |w.calls| && w.calls[a.call].TakingBack?
            && !w.calls[a.call].seen.status.Credited?))
  }

  lemma CreditsAppend(moved: seq<int>, cents: int)
    ensures Sum(moved + [cents], CreditOn()) == Sum(moved, CreditOn()) + CreditOn()(cents)
  {
    SumAppend(moved, cents, CreditOn());
  }

  // A row was credited before exactly when its history holds a credit.
  lemma CreditedBefore(p: Payment)
    requires D.PaymentOk(p)
    ensures Credits(p) >= 0 && (Credits(p) >= 1 <==> p.creditedAt.Some?)
  {
    SumNonNeg(p.moved, CreditOn());
    if p.moved != [] {
      assert p.moved == [p.moved[0]] + p.moved[1..];
      SumConcat([p.moved[0]], p.moved[1..], CreditOn());
      SumOne(p.moved[0], CreditOn());
      SumNonNeg(p.moved[1..], CreditOn());
    }
  }

  lemma RowCredits(s: State, op: Op, i: nat)
    requires i < |s.payments| && D.PaymentOk(s.payments[i])
    ensures Credits(RowAfter(s, op, i)) == Credits(s.payments[i])
              + (if op.SettlePayment? && op.paymentId == i && op.answer == D.Success(true)
                    && D.Creditable(s.payments[i]) then 1 else 0)
  {
    hide Balance, Sum;
    var p := s.payments[i];
    CreditsAppend(p.moved, p.amount);
    CreditsAppend(p.moved, -PaymentService.Available(Balance(s.log, Customer(p.user, ETB)), p.amount));
    assert p.moved + [] == p.moved;
  }

  lemma NothingMoved(p: Payment)
    requires p.moved == []
    ensures Credits(p) == 0
  {
  }

  // Each claim credits once, and nothing else credits.
  lemma StepCredits(cfg: Config, i: nat, w: World, a: Action)
    requires Ok(i, w) && Possible(i, w, a)
    ensures TimesCredited(i, Act(cfg, i, w, a)) == TimesCredited(i, w) + (if Claims(i, w, a) then 1 else 0)
  {
    hide Step, RowAfter, Credits, D.PaymentOk, Honest, CallOk;
    ActOnDeposit(cfg, i, w, a);
    var op := OpOf(i, w, a);
    var n := Act(cfg, i, w, a).db.payments;
    if i < |w.db.payments| {
      if op.Some? {
        RowCredits(w.db, op.value, i);
      }
    } else if i < |n| {
      NothingMoved(n[i]);
    }
    if a.Write? {
      assert CallOk(i, w, w.calls[a.call]);
      InTable(i, w, w.calls[a.call]);
    }
  }

  lemma InTable(i: nat, w: World, c: Call)
    requires CallOk(i, w, c) && !c.Finished?
    ensures i < |w.db.payments|
  {
  }

  // Credited before, and creditable again.
  ghost predicate Reopened(i: nat, w: World) {
    i < |w.db.payments| && w.db.payments[i].creditedAt.Some? && D.Creditable(w.db.payments[i])
  }

  // Only those two steps reopen a credited row.
  lemma StepReopensExactlyWhen(cfg: Config, i: nat, w: World, a: Action)
    requires Ok(i, w) && Possible(i, w, a) && !Reopened(i, w)
    ensures Reopened(i, Act(cfg, i, w, a)) <==> Regresses(i, w, a) || ClosesReversed(i, w, a)
  {
    hide Step, Credits, Honest, Balance;
    ActOnDeposit(cfg, i, w, a);
    if i < |w.db.payments| {
      assert D.PaymentOk(w.db.payments[i]);
      CreditedBefore(w.db.payments[i]);
      if a.Write? && w.calls[a.call].Noting? {
        assert CallOk(i, w, w.calls[a.call]);
        CreditedBefore(w.calls[a.call].seen);
      }
    }
  }

  // ---------------------------------------------------------------- over whole runs

  ghost predicate ReopensAt(cfg: Config, i: nat, run: seq<Action>, j: nat) {
    && j < |run| && Legal(cfg, i, run[..j])
    && (Regresses(i, After(cfg, i, run[..j]), run[j]) || ClosesReversed(i, After(cfg, i, run[..j]), run[j]))
  }

  ghost predicate ClaimsAt(cfg: Config, i: nat, run: seq<Action>, k: nat) {
    k < |run| && Legal(cfg, i, run[..k]) && Claims(i, After(cfg, i, run[..k]), run[k])
  }

  lemma PrefixesAlike(cfg: Config, i: nat, run: seq<Action>, n: nat, j: nat)
    requires j < n <= |run|
    ensures ReopensAt(cfg, i, run[..n], j) <==> ReopensAt(cfg, i, run, j)
    ensures ClaimsAt(cfg, i, run[..n], j) <==> ClaimsAt(cfg, i, run, j)
  {
    hide Legal, After, Regresses, ClosesReversed, Claims;
    assert run[..n][..j] == run[..j];
  }

  lemma LastStep(cfg: Config, i: nat, run: seq<Action>)
    requires ConfigOk(cfg) && Legal(cfg, i, run) && run != []
    ensures var n := |run| - 1;
            && Legal(cfg, i, run[..n]) && Possible(i, After(cfg, i, run[..n]), run[n])
            && Ok(i, After(cfg, i, run[..n]))
            && After(cfg, i, run) == Act(cfg, i, After(cfg, i, run[..n]), run[n])
  {
    hide Act, Possible, Ok;
    EveryRaceIsOk(cfg, i, run[..|run| - 1]);
  }

  lemma {:induction false} CreditsGrow(cfg: Config, i: nat, run: seq<Action>, k: nat)
    requires ConfigOk(cfg) && Legal(cfg, i, run) && k <= |run|
    ensures Legal(cfg, i, run[..k]) && TimesCredited(i, After(cfg, i, run[..k])) <= TimesCredited(i, After(cfg, i, run))
    decreases |run|
  {
    hide Act, Possible, Ok, TimesCredited, Claims, After;
    LegalPrefix(cfg, i, run, k);
    if k < |run| {
      var n := |run| - 1;
      LastStep(cfg, i, run);
      CreditsGrow(cfg, i, run[..n], k);
      assert run[..n][..k] == run[..k];
      StepCredits(cfg, i, After(cfg, i, run[..n]), run[n]);
    } else {
      assert run[..k] == run;
    }
  }

  // A row found reopened was reopened by some step.
  lemma {:induction false} FindsReopening(cfg: Config, i: nat, run: seq<Action>) returns (j: nat)
    requires ConfigOk(cfg) && Legal(cfg, i, run) && Reopened(i, After(cfg, i, run))
    ensures ReopensAt(cfg, i, run, j)
    decreases |run|
  {
    hide Act, Possible, Ok, Regresses, ClosesReversed, D.Creditable;
    if run == [] {
      assert false;
    } else {
      var n := |run| - 1;
      LastStep(cfg, i, run);
      var w := After(cfg, i, run[..n]);
      if Reopened(i, w) {
        j := FindsReopening(cfg, i, run[..n]);
        PrefixesAlike(cfg, i, run, n, j);
      } else {
        StepReopensExactlyWhen(cfg, i, w, run[n]);
        j := n;
      }
    }
  }

  lemma {:induction false} FindsSecondCredit(cfg: Config, i: nat, run: seq<Action>) returns (j: nat, k: nat)
    requires ConfigOk(cfg) && Legal(cfg, i, run) && TimesCredited(i, After(cfg, i, run)) >= 2
    ensures j < k && ReopensAt(cfg, i, run, j) && ClaimsAt(cfg, i, run, k)
    decreases |run|
  {
    hide Act, Possible, Ok, Claims, Reopened, ReopensAt, TimesCredited;
    if run == [] {
      NoCredits(i);
      assert false;
    } else {
      var n := |run| - 1;
      LastStep(cfg, i, run);
      var w := After(cfg, i, run[..n]);
      StepCredits(cfg, i, w, run[n]);
      if TimesCredited(i, w) >= 2 {
        j, k := FindsSecondCredit(cfg, i, run[..n]);
        PrefixesAlike(cfg, i, run, n, k);
      } else {
        ClaimedAgain(i, w, run[n]);
        j := FindsReopening(cfg, i, run[..n]);
        k := n;
        ReopenedEarlier(cfg, i, run[..n], j);
      }
      PrefixesAlike(cfg, i, run, n, j);
    }
  }

  lemma NoCredits(i: nat)
    ensures TimesCredited(i, FRESH) == 0
  {
  }

  lemma ReopenedEarlier(cfg: Config, i: nat, run: seq<Action>, j: nat)
    requires ReopensAt(cfg, i, run, j)
    ensures j < |run|
  {
  }

  lemma ClaimedAgain(i: nat, w: World, a: Action)
    requires Ok(i, w) && Claims(i, w, a) && TimesCredited(i, w) >= 1
    ensures Reopened(i, w)
  {
    hide Credits;
    assert D.PaymentOk(w.db.payments[i]);
    CreditedBefore(w.db.payments[i]);
  }

  // A step that reopens finds the deposit credited.
  lemma ReopensCredited(i: nat, w: World, a: Action)
    requires Ok(i, w) && (Regresses(i, w, a) || ClosesReversed(i, w, a))
    ensures TimesCredited(i, w) >= 1
  {
    hide Credits;
    assert D.PaymentOk(w.db.payments[i]);
    CreditedBefore(w.db.payments[i]);
    if Regresses(i, w, a) {
      assert CallOk(i, w, w.calls[a.call]);
      CreditedBefore(w.calls[a.call].seen);
    }
  }

  // A deposit is credited twice exactly when a settle that holds a matching success claims the row after it was
  // reopened: by a webhook that read `initiated` before the row was credited and wrote after, or by closing a
  // reversed row.
  lemma CreditedTwiceExactlyWhen(cfg: Config, i: nat, run: seq<Action>)
    requires ConfigOk(cfg) && Legal(cfg, i, run)
    ensures TimesCredited(i, After(cfg, i, run)) >= 2 <==>
            exists j: nat, k: nat :: j < k && ReopensAt(cfg, i, run, j) && ClaimsAt(cfg, i, run, k)
  {
    hide Act, Possible, Ok, Claims, Reopened, ReopensAt, ClaimsAt, TimesCredited, After, Legal;
    if TimesCredited(i, After(cfg, i, run)) >= 2 {
      var j, k := FindsSecondCredit(cfg, i, run);
    }
    if j: nat, k: nat :| j < k && ReopensAt(cfg, i, run, j) && ClaimsAt(cfg, i, run, k) {
      CreditsAgain(cfg, i, run, j, k);
    }
  }

  lemma CreditsAgain(cfg: Config, i: nat, run: seq<Action>, j: nat, k: nat)
    requires ConfigOk(cfg) && Legal(cfg, i, run)
    requires j < k && ReopensAt(cfg, i, run, j) && ClaimsAt(cfg, i, run, k)
    ensures TimesCredited(i, After(cfg, i, run)) >= 2
  {
    hide Act, Possible, Ok, Claims, Regresses, ClosesReversed, TimesCredited, After, Legal;
    EveryRaceIsOk(cfg, i, run[..j]);
    ReopensCredited(i, After(cfg, i, run[..j]), run[j]);
    LegalPrefix(cfg, i, run, k);
    LegalPrefix(cfg, i, run, k + 1);
    CreditsGrow(cfg, i, run[..k], j);
    assert run[..k][..j] == run[..j] && run[..k + 1][..k] == run[..k];
    LastStep(cfg, i, run[..k + 1]);
    StepCredits(cfg, i, After(cfg, i, run[..k]), run[k]);
    CreditsGrow(cfg, i, run, k + 1);
  }

  // ---------------------------------------------------------------- when calls do not overlap

  // Some webhook has read `initiated` and not written yet.
  ghost predicate NotePending(w: World) {
    exists c :: 0 <= c < |w.calls| && w.calls[c].Noting? && w.calls[c].seen.status.Initiated?
  }

  // Some settle was told a matching success and has not claimed yet.
  ghost predicate SuccessHeld(w: World) {
    exists c :: 0 <= c < |w.calls| && w.calls[c] == Claiming(D.Success(true))
  }

  // No credit commits between a webhook's read and its write.
  ghost predicate NotesApart(cfg: Config, i: nat, run: seq<Action>)
    requires Legal(cfg, i, run)
    decreases |run|
  {
    run == [] ||
    (var n := |run| - 1;
     var w := After(cfg, i, run[..n]);
     NotesApart(cfg, i, run[..n]) && (Claims(i, w, run[n]) ==> !NotePending(w)))
  }

  // The provider takes nothing back between a settle's verify and its claim.
  ghost predicate AnswersFresh(cfg: Config, i: nat, run: seq<Action>)
    requires Legal(cfg, i, run)
    decreases |run|
  {
    run == [] ||
    (var n := |run| - 1;
     var w := After(cfg, i, run[..n]);
     AnswersFresh(cfg, i, run[..n]) && (run[n] == ProviderSays(D.TakenBack) ==> !SuccessHeld(w)))
  }

  // What keeping webhooks apart gives: a pending one's row was never credited, and a row reopened was taken back.
  ghost predicate ApartOk(i: nat, w: World) {
    && (NotePending(w) ==> i < |w.db.payments| && w.db.payments[i].creditedAt.None?)
    && (Reopened(i, w) ==> w.db.payments[i].takenBack)
  }

  lemma ActKeepsApart(cfg: Config, i: nat, w: World, a: Action)
    requires Ok(i, w) && Possible(i, w, a) && ApartOk(i, w) && (Claims(i, w, a) ==> !NotePending(w))
    ensures ApartOk(i, Act(cfg, i, w, a))
  {
    hide Step, Honest, Balance, D.MovesOk;
    ActOnDeposit(cfg, i, w, a);
    if i < |w.db.payments| {
      assert D.PaymentOk(w.db.payments[i]);
    }
    var n := Act(cfg, i, w, a);
    if a.Write? {
      assert CallOk(i, w, w.calls[a.call]);
      assert w.calls[a.call].Noting? && w.calls[a.call].seen.status.Initiated? ==> NotePending(w);
    }
    if c :| 0 <= c < |n.calls| && n.calls[c].Noting? && n.calls[c].seen.status.Initiated? {
      assert c < |w.calls| ==> w.calls[c] == n.calls[c];
      assert c < |w.calls| ==> CallOk(i, w, w.calls[c]);
    }
  }

  lemma {:induction false} StaysApart(cfg: Config, i: nat, run: seq<Action>)
    requires ConfigOk(cfg) && Legal(cfg, i, run) && NotesApart(cfg, i, run)
    ensures ApartOk(i, After(cfg, i, run))
    decreases |run|
  {
    hide Act, Possible, Ok, Claims, NotePending, Reopened;
    if run == [] {
      FreshIsApart(i);
    } else {
      var n := |run| - 1;
      LastStep(cfg, i, run);
      StaysApart(cfg, i, run[..n]);
      ActKeepsApart(cfg, i, After(cfg, i, run[..n]), run[n]);
    }
  }

  lemma FreshIsApart(i: nat)
    ensures ApartOk(i, FRESH)
  {
  }

  // With webhooks apart, only an answer older than the take-back can credit again: at such a claim the provider
  // already says taken back.
  lemma SecondCreditIsStale(cfg: Config, i: nat, run: seq<Action>, a: Action)
    requires ConfigOk(cfg) && Legal(cfg, i, run) && NotesApart(cfg, i, run)
    requires Claims(i, After(cfg, i, run), a) && TimesCredited(i, After(cfg, i, run)) >= 1
    ensures After(cfg, i, run).provider == D.TakenBack
  {
    hide Legal, After, NotesApart, Claims, NotePending, TimesCredited;
    EveryRaceIsOk(cfg, i, run);
    StaysApart(cfg, i, run);
    ClaimedAgain(i, After(cfg, i, run), a);
  }

  lemma {:induction false} StaysFresh(cfg: Config, i: nat, run: seq<Action>)
    requires Legal(cfg, i, run) && AnswersFresh(cfg, i, run)
    ensures After(cfg, i, run).provider == D.TakenBack ==> !SuccessHeld(After(cfg, i, run))
    decreases |run|
  {
    hide Step, Honest;
    if run != [] {
      var n := |run| - 1;
      StaysFresh(cfg, i, run[..n]);
      var w, after := After(cfg, i, run[..n]), After(cfg, i, run);
      if c :| 0 <= c < |after.calls| && after.calls[c] == Claiming(D.Success(true)) {
        assert c < |w.calls| && w.calls[c] == Claiming(D.Success(true)) ==> SuccessHeld(w);
      }
    }
  }

  // Races whose webhooks are apart and whose answers are fresh are orderly runs of the platform.
  lemma {:induction false} CalmRaceIsOrderly(cfg: Config, i: nat, run: seq<Action>)
    requires ConfigOk(cfg) && Legal(cfg, i, run) && NotesApart(cfg, i, run) && AnswersFresh(cfg, i, run)
    ensures OrderlyRun(cfg, Ops(cfg, i, run), i)
    decreases |run|
  {
    hide Act, Possible, Ok, Claims, NotePending, Run, OrderlyRun, OpOf, HonestRun, Reachable, Orderly;
    if run == [] {
      NothingToOrder(cfg, i);
    } else {
      var n := |run| - 1;
      CalmRaceIsOrderly(cfg, i, run[..n]);
      LastStep(cfg, i, run);
      RaceIsPlatformRun(cfg, i, run[..n]);
      StaysApart(cfg, i, run[..n]);
      StaysFresh(cfg, i, run[..n]);
      var w := After(cfg, i, run[..n]);
      var ops, op := Ops(cfg, i, run[..n]), OpOf(i, w, run[n]);
      assert ops + [] == ops;
      if op.Some? {
        StepIsOrderly(i, w, run[n]);
        ExtendOrderly(cfg, ops, op.value, i);
      }
    }
  }

  lemma NothingToOrder(cfg: Config, i: nat)
    ensures OrderlyRun(cfg, [], i)
  {
  }

  lemma StepIsOrderly(i: nat, w: World, a: Action)
    requires Ok(i, w) && ApartOk(i, w) && (w.provider == D.TakenBack ==> !SuccessHeld(w))
    requires Possible(i, w, a) && OpOf(i, w, a).Some?
    ensures Orderly(w.db, OpOf(i, w, a).value, i)
  {
    hide Honest, Reopened;
    if a.Write? {
      assert w.calls[a.call] == Claiming(D.Success(true)) ==> SuccessHeld(w);
      assert w.calls[a.call].Noting? && w.calls[a.call].seen.status.Initiated? ==> NotePending(w);
    }
  }

  lemma ExtendOrderly(cfg: Config, ops: seq<Op>, op: Op, i: nat)
    requires OrderlyRun(cfg, ops, i) && Orderly(Run(cfg, ops), op, i)
    ensures OrderlyRun(cfg, ops + [op], i)
  {
    hide Run, Orderly;
    forall k | 0 <= k < |ops + [op]| ensures Orderly(Run(cfg, (ops + [op])[..k]), (ops + [op])[k], i) {
      if k < |ops| {
        assert (ops + [op])[..k] == ops[..k];
      } else {
        assert (ops + [op])[..k] == ops;
      }
    }
  }

  // So in such a race the deposit's ledger transactions are exactly what its status says, one credit at most.
  lemma CalmRaceCreditsOnce(cfg: Config, i: nat, run: seq<Action>)
    requires ConfigOk(cfg) && Legal(cfg, i, run) && NotesApart(cfg, i, run) && AnswersFresh(cfg, i, run)
    requires i < |After(cfg, i, run).db.payments|
    ensures var s := After(cfg, i, run).db;
            var p := s.payments[i];
            PostingsOf(s.log, PaymentRef(i)) ==
            if p.creditedAt.None? then []
            else if Debited(p) == 0 then [Shape(CreditMove(p))]
            else [Shape(CreditMove(p)), Shape(DebitMove(p, Debited(p)))]
  {
    hide Legal, After, NotesApart, AnswersFresh, Ops, Run, HonestRun, OrderlyRun, Reachable, PostingsOf, Shape;
    RaceIsPlatformRun(cfg, i, run);
    CalmRaceIsOrderly(cfg, i, run);
    CreditedAtMostOnce(cfg, Ops(cfg, i, run), i);
  }

  // ---------------------------------------------------------------- and when they do

  lemma Extend(cfg: Config, i: nat, run: seq<Action>, a: Action) returns (longer: seq<Action>)
    requires Legal(cfg, i, run) && Possible(i, After(cfg, i, run), a)
    ensures longer == run + [a] && Legal(cfg, i, longer)
    ensures After(cfg, i, longer) == Act(cfg, i, After(cfg, i, run), a)
  {
    longer := run + [a];
    assert longer[..|run|] == run;
  }

  // A claim on a creditable row credits it and posts the deposit.
  lemma ClaimPosts(cfg: Config, i: nat, w: World, c: nat, now: int)
    requires c < |w.calls| && w.calls[c] == Claiming(D.Success(true))
    requires i < |w.db.payments| && D.Creditable(w.db.payments[i])
    ensures var n, p := Act(cfg, i, w, Write(c, now)), w.db.payments[i];
            && n.db.log == w.db.log + [Txn(PaymentRef(i), Shape(CreditMove(p)))]
            && PostingsOf(n.db.log, PaymentRef(i)) == PostingsOf(w.db.log, PaymentRef(i)) + [Shape(CreditMove(p))]
            && n.db.payments ==
               w.db.payments[i := p.(status := Credited, creditedAt := Some(now), moved := p.moved + [p.amount])]
            && n.calls == w.calls[c := Finished] && n.provider == w.provider
  {
    hide Step, Shape;
    PaymentService.SettleStep(cfg, w.db, i, D.Success(true), now);
    PostingsAppend(w.db.log, Txn(PaymentRef(i), Shape(CreditMove(w.db.payments[i]))), PaymentRef(i));
  }

  // A settle that starts on a creditable row while the provider says success, and runs to its end.
  lemma SettleThrough(cfg: Config, i: nat, run: seq<Action>) returns (longer: seq<Action>)
    requires Legal(cfg, i, run)
    requires var w := After(cfg, i, run);
             i < |w.db.payments| && D.Creditable(w.db.payments[i]) && w.provider == D.Success(true)
    ensures Legal(cfg, i, longer) && run <= longer
    ensures var w, n := After(cfg, i, run), After(cfg, i, longer);
            var p := w.db.payments[i];
            && PostingsOf(n.db.log, PaymentRef(i)) == PostingsOf(w.db.log, PaymentRef(i)) + [Shape(CreditMove(p))]
            && n.db.payments ==
               w.db.payments[i := p.(status := Credited, creditedAt := Some(0), moved := p.moved + [p.amount])]
            && n.calls == w.calls + [Finished] && n.provider == D.Success(true)
  {
    hide Step, Shape, PostingsOf, Legal;
    var w := After(cfg, i, run);
    var asking := Extend(cfg, i, run, Settle);
    var held := Extend(cfg, i, asking, Verify(|w.calls|, false));
    assert After(cfg, i, held) == w.(calls := w.calls + [Claiming(D.Success(true))]);
    ClaimPosts(cfg, i, After(cfg, i, held), |w.calls|, 0);
    longer := Extend(cfg, i, held, Write(|w.calls|, 0));
    assert (w.calls + [Claiming(D.Success(true))])[|w.calls| := Finished] == w.calls + [Finished];
  }

  // Wherever a webhook that read `initiated` is pending on a row credited meanwhile, and the provider truthfully
  // goes on saying success, the deposit can be credited again: the webhook writes, and its own settle claims.
  lemma OverlapCreditsAgain(cfg: Config, i: nat, run: seq<Action>, c: nat) returns (longer: seq<Action>)
    requires Legal(cfg, i, run)
    requires var w := After(cfg, i, run);
             && c < |w.calls| && w.calls[c].Noting? && w.calls[c].seen.status.Initiated?
             && i < |w.db.payments| && w.db.payments[i].status.Credited? && w.provider == D.Success(true)
    ensures Legal(cfg, i, longer) && run <= longer
    ensures var w, n := After(cfg, i, run), After(cfg, i, longer);
            var p := w.db.payments[i];
            && PostingsOf(n.db.log, PaymentRef(i)) == PostingsOf(w.db.log, PaymentRef(i)) + [Shape(CreditMove(p))]
            && n.db.payments == w.db.payments[i := p.(creditedAt := Some(0), moved := p.moved + [p.amount])]
            && n.provider == D.Success(true)
  {
    hide Step, Shape, PostingsOf, Legal;
    var w := After(cfg, i, run);
    PaymentService.RowSteps(cfg, w.db, i, false);
    var noted := Extend(cfg, i, run, Write(c, 0));
    assert CreditMove(After(cfg, i, noted).db.payments[i]) == CreditMove(w.db.payments[i]);
    longer := SettleThrough(cfg, i, noted);
  }

  // A confirmed reversal that finds the row not credited only closes it and debits nothing: a deposit that was
  // credited and put back by an overlapping webhook keeps its credit though the provider took the money back.
  lemma RefundOfRegressedIsLost(cfg: Config, i: nat, run: seq<Action>) returns (longer: seq<Action>)
    requires Legal(cfg, i, run)
    requires var w := After(cfg, i, run);
             i < |w.db.payments| && !w.db.payments[i].status.Credited? && w.provider == D.TakenBack
    ensures Legal(cfg, i, longer) && run <= longer
    ensures var w, n := After(cfg, i, run), After(cfg, i, longer);
            && n.db == w.db.(payments := w.db.payments[i := w.db.payments[i].(status := Failed, takenBack := true)])
            && n.calls == w.calls + [Finished] && n.provider == D.TakenBack
  {
    hide Step, Legal;
    var w := After(cfg, i, run);
    var notice := Extend(cfg, i, run, Reversal);
    var confirmed := Extend(cfg, i, notice, Verify(|w.calls|, false));
    assert After(cfg, i, confirmed).calls == w.calls + [TakingBack(w.db.payments[i])];
    PaymentService.RowSteps(cfg, w.db, i, true);
    longer := Extend(cfg, i, confirmed, Write(|w.calls|, 0));
    assert After(cfg, i, longer).calls == w.calls + [Finished];
  }

  // Wherever a settle still holds a success and the row is reversed by now, the deposit can be credited again,
  // though every answer was true when given: a second notice closes the row, and the held success claims it.
  lemma HeldSuccessCreditsAgain(cfg: Config, i: nat, run: seq<Action>, c: nat) returns (longer: seq<Action>)
    requires ConfigOk(cfg) && Legal(cfg, i, run)
    requires var w := After(cfg, i, run);
             && c < |w.calls| && w.calls[c] == Claiming(D.Success(true))
             && i < |w.db.payments| && w.db.payments[i].status.Reversed?
    ensures Legal(cfg, i, longer) && run <= longer
    ensures var w, n := After(cfg, i, run), After(cfg, i, longer);
            var p := w.db.payments[i];
            && PostingsOf(n.db.log, PaymentRef(i)) == PostingsOf(w.db.log, PaymentRef(i)) + [Shape(CreditMove(p))]
            && n.db.payments ==
               w.db.payments[i := p.(status := Credited, creditedAt := Some(0), moved := p.moved + [p.amount])]
  {
    hide Step, Shape, PostingsOf, Legal;
    EveryRaceIsOk(cfg, i, run);
    var p := After(cfg, i, run).db.payments[i];
    assert D.PaymentOk(p);
    var closed := RefundOfRegressedIsLost(cfg, i, run);
    assert CreditMove(After(cfg, i, closed).db.payments[i]) == CreditMove(p);
    ClaimPosts(cfg, i, After(cfg, i, closed), c, 0);
    longer := Extend(cfg, i, closed, Write(c, 0));
  }

  // ---------------------------------------------------------------- such races exist, in every configuration

  // A deposit opened, and paid at the provider.
  lemma Paid(cfg: Config, user: UserId) returns (run: seq<Action>)
    requires ConfigOk(cfg)
    ensures Legal(cfg, 0, run)
    ensures After(cfg, 0, run) ==
            World(EMPTY.(payments := [Payment(user, cfg.depositMin, Initiated, None, [], false)]), [], D.Success(true))
  {
    hide Step;
    var st := Standing(false, None, None, None);
    var p := Payment(user, cfg.depositMin, Initiated, None, [], false);
    PaymentService.OpenStep(cfg, EMPTY, user, cfg.depositMin, st);
    var created := Extend(cfg, 0, [], Other(OpenPayment(user, cfg.depositMin, st)));
    assert [] + [p] == [p];
    run := Extend(cfg, 0, created, ProviderSays(D.Success(true)));
  }

  // A provider that says the truth throughout, and a deposit credited twice: the return page settles between a
  // webhook's read and its write.
  lemma OverlappedWebhookCreditsTwice(cfg: Config, user: UserId) returns (run: seq<Action>)
    requires ConfigOk(cfg)
    ensures Legal(cfg, 0, run) && After(cfg, 0, run).provider == D.Success(true)
    ensures var s := After(cfg, 0, run).db;
            && Reachable(cfg, s)
            && s.payments == [Payment(user, cfg.depositMin, Credited, Some(0), [cfg.depositMin, cfg.depositMin], false)]
            && PostingsOf(s.log, PaymentRef(0)) == [Shape(CreditMove(s.payments[0])), Shape(CreditMove(s.payments[0]))]
  {
    hide Step, Shape, Legal, Reachable;
    var paid := Paid(cfg, user);
    var p := After(cfg, 0, paid).db.payments[0];
    var read := Extend(cfg, 0, paid, Webhook);
    assert After(cfg, 0, read) == After(cfg, 0, paid).(calls := [Noting(p)]);
    assert PostingsOf([], PaymentRef(0)) == [];
    hide After, PostingsOf;
    var settled := SettleThrough(cfg, 0, read);
    assert After(cfg, 0, settled).calls[0] == Noting(p);
    assert [] + [cfg.depositMin] == [cfg.depositMin];
    run := OverlapCreditsAgain(cfg, 0, settled, 0);
    assert [cfg.depositMin] + [cfg.depositMin] == [cfg.depositMin, cfg.depositMin];
    RaceIsPlatformRun(cfg, 0, run);
  }

  // One settle holds a success while another credits the deposit.
  lemma HeldWhileSettled(cfg: Config, user: UserId) returns (run: seq<Action>)
    requires ConfigOk(cfg)
    ensures Legal(cfg, 0, run)
    ensures var w := After(cfg, 0, run);
            && w.calls == [Claiming(D.Success(true)), Finished] && w.provider == D.Success(true)
            && w.db.payments == [Payment(user, cfg.depositMin, Credited, Some(0), [cfg.depositMin], false)]
  {
    hide Step, Shape, Legal, PostingsOf, Balance;
    var paid := Paid(cfg, user);
    var asked := Extend(cfg, 0, paid, Settle);
    var held := Extend(cfg, 0, asked, Verify(0, false));
    assert After(cfg, 0, held) == After(cfg, 0, paid).(calls := [Claiming(D.Success(true))]);
    hide After;
    assert [] + [cfg.depositMin] == [cfg.depositMin];
    run := SettleThrough(cfg, 0, held);
  }

  // Every answer true when it was given, and a deposit taken back credited again by a success held all along.
  lemma HeldSuccessCreditsTwice(cfg: Config, user: UserId) returns (run: seq<Action>)
    requires ConfigOk(cfg)
    ensures Legal(cfg, 0, run)
    ensures var w := After(cfg, 0, run);
            && Reachable(cfg, w.db) && |w.db.payments| == 1
            && w.db.payments[0].status.Credited? && TimesCredited(0, w) == 2
  {
    hide After, Shape, Legal, Reachable, PostingsOf, Balance;
    var settled := HeldWhileSettled(cfg, user);
    var reversed := TakeBackThrough(cfg, 0, settled);
    assert After(cfg, 0, reversed).calls[0] == Claiming(D.Success(true));
    run := HeldSuccessCreditsAgain(cfg, 0, reversed, 0);
    RaceIsPlatformRun(cfg, 0, run);
    CountsTwo(Payment(user, cfg.depositMin, Initiated, None, [], false), After(cfg, 0, settled).db, After(cfg, 0, run));
  }

  // The provider takes a credited deposit back, and a reversal notice runs to its end.
  lemma TakeBackThrough(cfg: Config, i: nat, run: seq<Action>) returns (longer: seq<Action>)
    requires Legal(cfg, i, run)
    requires var w := After(cfg, i, run);
             i < |w.db.payments| && w.db.payments[i].status.Credited? && w.provider != D.TakenBack
    ensures Legal(cfg, i, longer) && run <= longer
    ensures var w, n := After(cfg, i, run), After(cfg, i, longer);
            var p := w.db.payments[i];
            && n.provider == D.TakenBack && n.calls == w.calls + [Finished]
            && n.db.payments == w.db.payments[i := TakenBackRow(p, Balance(w.db.log, Customer(p.user, ETB)))]
  {
    hide Step, Shape, Legal, Balance, TakenBackRow;
    var w := After(cfg, i, run);
    var taken := Extend(cfg, i, run, ProviderSays(D.TakenBack));
    var notice := Extend(cfg, i, taken, Reversal);
    var confirmed := Extend(cfg, i, notice, Verify(|w.calls|, false));
    assert After(cfg, i, confirmed).calls == w.calls + [TakingBack(w.db.payments[i])];
    OwnStep(cfg, w.db, ReversePayment(i, D.TakenBack), i);
    longer := Extend(cfg, i, confirmed, Write(|w.calls|, 0));
    assert After(cfg, i, longer).calls == w.calls + [Finished];
  }

  lemma CountsTwo(p: Payment, credited: State, w: World)
    requires p.moved == [] && p.amount > 0 && |credited.payments| == |w.db.payments| == 1
    requires credited.payments[0] == p.(status := Credited, creditedAt := Some(0), moved := p.moved + [p.amount])
    requires var r := TakenBackRow(credited.payments[0], Balance(credited.log, Customer(p.user, ETB)));
             w.db.payments[0].moved == r.moved + [p.amount]
    ensures TimesCredited(0, w) == 2
  {
    hide Sum, Balance;
    NothingMoved(p);
    CreditsAppend(p.moved, p.amount);
    var available := PaymentService.Available(Balance(credited.log, Customer(p.user, ETB)), p.amount);
    var first := credited.payments[0].moved;
    CreditsAppend(first, -available);
    assert first + [] == first;
    CreditsAppend(TakenBackRow(credited.payments[0], Balance(credited.log, Customer(p.user, ETB))).moved, p.amount);
  }

  // ---------------------------------------------------------------- when a refund is lost

  // A confirmed reversal posts a debit exactly when its read saw the row credited, the row still is, and something
  // is left in the account.
  lemma ReversalDebitsExactlyWhen(cfg: Config, i: nat, w: World, c: nat, now: int)
    requires Ok(i, w) && c < |w.calls| && w.calls[c].TakingBack?
    ensures var p := w.db.payments[i];
            Act(cfg, i, w, Write(c, now)).db.log != w.db.log <==>
            w.calls[c].seen.status.Credited? && p.status.Credited? && Balance(w.db.log, Customer(p.user, ETB)) > 0
  {
    hide Step, Shape, Balance;
    assert CallOk(i, w, w.calls[c]);
    assert D.PaymentOk(w.db.payments[i]);
    PaymentService.ReverseStep(cfg, w.db, i, D.TakenBack);
    PaymentService.RowSteps(cfg, w.db, i, true);
  }
}
