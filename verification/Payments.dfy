/**
 * Deposits, one statement or transaction at a time. What a handler read, and what verify told it, may be out of
 * date by the time it writes: the writes here ask no more of the row than their own conditions do.
 */
module Payments {
  import opened Options
  import opened Sums
  import opened Books
  import opened Journal

  // What the provider's verify call says. `Success` carries whether amount, currency and mode match.
  datatype Answer = NotKnown | Pending | VerifiedFailed | Success(matches: bool) | TakenBack | NoAnswer

  predicate Creditable(p: Payment) {
    p.status.Initiated? || p.status.WebhookReceived? || p.status.Verified? || p.status.Failed?
  }

  // ---------------------------------------------------------------- transactions

  function Open(cfg: Config, user: UserId, amount: int, st: Standing): (c: Option<Change>)
    ensures c.Some? ==> c.value.row.WritePayment? && c.value.row.pslot == New && c.value == RowOnly(c.value.row)
  {
    if !MayMoveMoney(st) || amount < cfg.depositMin then None
    else Some(RowOnly(WritePayment(New, Payment(user, amount, Initiated, None, [], false))))
  }

  function Recorded(g: State, i: nat, p: Payment): Option<Change> {
    Some(RowOnly(WritePayment(At(i), p)))
  }

  // The update of a webhook whose read saw `initiated`. It is keyed by id alone: whatever the status is by now.
  function WriteWebhook(g: State, i: nat): (c: Option<Change>)
    ensures c.Some? ==>
              ChangeFits(g, c.value) && c.value.row.WritePayment?
              && c.value == Change(c.value.row, c.value.post, None, None, None)
  {
    if i >= |g.payments| then None else Recorded(g, i, g.payments[i].(status := WebhookReceived))
  }

  // Act on a clear verify answer, new or old. The update to `credited` is the mutex.
  function SettleByTxRef(g: State, i: nat, answer: Answer, now: int): (c: Option<Change>)
    ensures c.Some? ==>
              ChangeFits(g, c.value) && c.value.row.WritePayment?
              && c.value == Change(c.value.row, c.value.post, None, None, None)
  {
    if i >= |g.payments| || !Creditable(g.payments[i]) then None
    else
      var p := g.payments[i];
      match answer
      case VerifiedFailed => Recorded(g, i, p.(status := Failed))
      case Success(true) =>
        var credited := p.(status := Credited, creditedAt := Some(now), moved := p.moved + [p.amount]);
        Some(RowAndPost(WritePayment(At(i), credited), CreditMove(p)))
      case _ => None
  }

  // A confirmed refund or reversal of a credited deposit: debit what is still there.
  function ReverseCredited(b: State, g: State, i: nat, answer: Answer): (c: Option<Change>)
    ensures c.Some? ==>
              ChangeFits(g, c.value) && c.value.row.WritePayment?
              && c.value == Change(c.value.row, c.value.post, None, None, None)
  {
    if i >= |g.payments| || !g.payments[i].status.Credited? || answer != TakenBack then None
    else
      var p := g.payments[i];
      var available := Balance(b.log, Customer(p.user, ETB));
      var debited := if available >= p.amount then p.amount else if available > 0 then available else 0;
      var reversed := p.(status := Reversed, takenBack := true);
      Some(if debited > 0 then
             RowAndPost(WritePayment(At(i), reversed.(moved := p.moved + [-debited])), DebitMove(p, debited))
           else RowOnly(WritePayment(At(i), reversed)))
  }

  // Close a row that is not credited: after a confirmed reversal, or when checkout creation failed.
  // Nothing but `credited` stops it, so a reversed row becomes failed.
  function CloseUncredited(g: State, i: nat, takenBack: bool): (c: Option<Change>)
    ensures c.Some? ==>
              ChangeFits(g, c.value) && c.value.row.WritePayment?
              && c.value == Change(c.value.row, c.value.post, None, None, None)
  {
    if i >= |g.payments| || g.payments[i].status.Credited? then None
    else
      var p := g.payments[i];
      Recorded(g, i, p.(status := Failed, takenBack := p.takenBack || takenBack))
  }

  // The sweep closes a checkout nobody paid for.
  function CloseStale(g: State, i: nat): (c: Option<Change>)
    ensures c.Some? ==>
              ChangeFits(g, c.value) && c.value.row.WritePayment?
              && c.value == Change(c.value.row, c.value.post, None, None, None)
  {
    if i >= |g.payments| || !(g.payments[i].status.Initiated? || g.payments[i].status.WebhookReceived?) then None
    else Recorded(g, i, g.payments[i].(status := Failed))
  }

  // ---------------------------------------------------------------- invariants

  // Every credit is of exactly the initialised amount, a debit is of at most that and follows a credit directly.
  predicate MovesOk(amount: int, moved: seq<int>) {
    forall k | 0 <= k < |moved| ::
      moved[k] == amount || (-amount <= moved[k] < 0 && k > 0 && moved[k - 1] == amount)
  }

  predicate PaymentOk(p: Payment) {
    && p.amount > 0 && !p.status.Verified?
    && MovesOk(p.amount, p.moved)
    && (p.creditedAt.Some? <==> p.moved != [])
    && (p.status.Initiated? ==> p.creditedAt.None? && !p.takenBack)
    && (p.status.Credited? ==> p.moved != [] && p.moved[|p.moved| - 1] == p.amount)
    && (p.status.Reversed? ==> p.moved != [] && p.takenBack)
  }

  ghost predicate PaymentsOk(payments: seq<Payment>) {
    forall i :: 0 <= i < |payments| ==> PaymentOk(payments[i])
  }

  // A credit is the next line of the row's story, and so is a debit.
  lemma CreditedRow(p: Payment, now: int)
    requires PaymentOk(p)
    ensures var p' := p.(status := Credited, creditedAt := Some(now), moved := p.moved + [p.amount]);
            PaymentOk(p') && PaymentStory(p') == PaymentStory(p) + [CreditMove(p)]
  {
    DepositMovesAppend(p.user, p.moved, p.amount);
  }

  lemma ReversedRow(p: Payment, debited: int)
    requires PaymentOk(p) && p.status.Credited? && 0 < debited <= p.amount
    ensures var p' := p.(status := Reversed, takenBack := true, moved := p.moved + [-debited]);
            PaymentOk(p') && PaymentStory(p') == PaymentStory(p) + [DebitMove(p, debited)]
  {
    DepositMovesAppend(p.user, p.moved, -debited);
  }

  lemma SettleLawful(cfg: Config, s: State, i: nat, answer: Answer, now: int)
    requires PaymentsOk(s.payments)
    ensures var c := SettleByTxRef(s, i, answer, now);
            c.Some? ==> Lawful(cfg.halt, s, c.value) && PaymentsOk(Apply(s, c.value).payments)
  {
    hide Balance, Sum, Shape, DepositMoves, MovesOk;
    if i < |s.payments| {
      CreditedRow(s.payments[i], now);
    }
  }

  lemma ReverseLawful(cfg: Config, s: State, i: nat, answer: Answer)
    requires PaymentsOk(s.payments)
    ensures var c := ReverseCredited(s, s, i, answer);
            c.Some? ==> Lawful(cfg.halt, s, c.value) && PaymentsOk(Apply(s, c.value).payments)
  {
    hide Balance, Sum, Shape, DepositMoves, MovesOk;
    if i < |s.payments| && s.payments[i].status.Credited? {
      var p := s.payments[i];
      var available := Balance(s.log, Customer(p.user, ETB));
      if available > 0 {
        ReversedRow(p, if available >= p.amount then p.amount else available);
      }
    }
  }

  lemma RowChangesLawful(cfg: Config, s: State, i: nat, takenBack: bool)
    requires PaymentsOk(s.payments)
    ensures forall c | c in {WriteWebhook(s, i), CloseUncredited(s, i, takenBack), CloseStale(s, i)} && c.Some? ::
              Lawful(cfg.halt, s, c.value) && PaymentsOk(Apply(s, c.value).payments)
  {
    hide Balance, Sum, Shape, DepositMoves, MovesOk;
  }

  lemma OpenLawful(cfg: Config, s: State, user: UserId, amount: int, st: Standing)
    requires ConfigOk(cfg) && PaymentsOk(s.payments)
    ensures var c := Open(cfg, user, amount, st);
            c.Some? ==> Lawful(cfg.halt, s, c.value) && PaymentsOk(Apply(s, c.value).payments)
  {
    hide Balance, Sum, Shape;
  }

  // ---------------------------------------------------------------- a second credit

  // A settle credits a second time exactly when the row was credited before, is by now failed or put back to
  // webhook_received, and the answer held is a matching success.
  lemma CreditsTwiceExactlyWhen(s: State, i: nat, answer: Answer, now: int)
    requires PaymentsOk(s.payments) && i < |s.payments| && s.payments[i].creditedAt.Some?
    ensures SettleByTxRef(s, i, answer, now).Some? && SettleByTxRef(s, i, answer, now).value.post.Some?
            <==> (s.payments[i].status.Failed? || s.payments[i].status.WebhookReceived?) && answer == Success(true)
  {
  }
}
