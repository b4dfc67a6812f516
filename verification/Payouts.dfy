/** Withdrawals: a confirmed request holds the money; approval sends it; a refusal puts it back. */
module Payouts {
  import opened Options
  import opened Sums
  import opened Books
  import opened Journal
  import opened Calendar

  // Everything not refused counts toward the daily limits.
  predicate Counted(p: Payout) { !p.status.Refused? }
  predicate InFlight(p: Payout) { p.status.Approved? || p.status.Processing? }
  predicate Held(p: Payout) { p.status.Requested? || InFlight(p) }

  function AmountSince(user: UserId, since: int): Payout -> int {
    (p: Payout) => if p.user == user && Counted(p) && p.createdAt >= since then p.amount else 0
  }

  function NumberSince(user: UserId, since: int): Payout -> int {
    (p: Payout) => if p.user == user && Counted(p) && p.createdAt >= since then 1 else 0
  }

  function DailyLimit(cfg: Config, payouts: seq<Payout>, user: UserId, amount: int, now: int): Option<Refusal> {
    var since := EatDayStartUtc(now);
    if Sum(payouts, NumberSince(user, since)) + 1 > cfg.payoutDailyCount then Some(PayoutDailyCount)
    else if Sum(payouts, AmountSince(user, since)) + amount > cfg.payoutDailyMax then Some(PayoutDailyLimit)
    else None
  }

  // Payouts of one customer asked for on the day or later and not refused: their cents, and their number.
  function CentsFrom(user: UserId, day: int): Payout -> int {
    (p: Payout) =>
      match p.status
      case Refused(_) => 0
      case _ => if p.user == user && Day(p.createdAt) >= day then p.amount else 0
  }

  function NumberFrom(user: UserId, day: int): Payout -> int {
    (p: Payout) =>
      match p.status
      case Refused(_) => 0
      case _ => if p.user == user && Day(p.createdAt) >= day then 1 else 0
  }

  // One more payout fits the day's number, and its cents the day's sum.
  predicate FitsTheDay(cfg: Config, payouts: seq<Payout>, user: UserId, amount: int, now: int) {
    && Sum(payouts, NumberFrom(user, Day(now))) + 1 <= cfg.payoutDailyCount
    && Sum(payouts, CentsFrom(user, Day(now))) + amount <= cfg.payoutDailyMax
  }

  lemma DailyLimitIs(cfg: Config, payouts: seq<Payout>, user: UserId, amount: int, now: int)
    ensures DailyLimit(cfg, payouts, user, amount, now).None? <==> FitsTheDay(cfg, payouts, user, amount, now)
    ensures DailyLimit(cfg, payouts, user, amount, now) == Some(PayoutDailyCount) <==>
            Sum(payouts, NumberFrom(user, Day(now))) + 1 > cfg.payoutDailyCount
    ensures DailyLimit(cfg, payouts, user, amount, now) in {None, Some(PayoutDailyCount), Some(PayoutDailyLimit)}
  {
    hide EatDayStartUtc, Day;
    forall t: int ensures t >= EatDayStartUtc(now) <==> Day(t) >= Day(now) {
      WindowIsDayOrLater(t, now);
    }
    SumEq(payouts, NumberSince(user, EatDayStartUtc(now)), NumberFrom(user, Day(now)));
    SumEq(payouts, AmountSince(user, EatDayStartUtc(now)), CentsFrom(user, Day(now)));
  }

  function IndexOfKey(payouts: seq<Payout>, key: Key): Option<nat> {
    if payouts == [] then None
    else if payouts[|payouts| - 1].key == key then Some(|payouts| - 1)
    else IndexOfKey(payouts[..|payouts| - 1], key)
  }

  lemma {:induction false} IndexOfKeyFinds(payouts: seq<Payout>, key: Key)
    ensures match IndexOfKey(payouts, key)
            case Some(i) => i < |payouts| && payouts[i].key == key
            case None => forall i :: 0 <= i < |payouts| ==> payouts[i].key != key
    decreases |payouts|
  {
    if payouts != [] {
      IndexOfKeyFinds(payouts[..|payouts| - 1], key);
    }
  }

  // ---------------------------------------------------------------- transactions

  // The payout transaction of a confirm call whose code has been consumed. A business refusal is
  // recorded; an exception or a lost key race only ends the call.
  function Request(cfg: Config, b: State, g: State, codeId: nat, key: Key, now: int, st: Standing): (c: Option<Change>)
    ensures c.Some? ==>
              ChangeFits(g, c.value) && (c.value.row.WritePayout? || c.value.row.WriteNothing?)
              && c.value == Change(c.value.row, c.value.post, None, None, Some(codeId))
  {
    if codeId !in g.confirming || codeId >= |g.codes| || g.codes[codeId].user != key.user then None
    else
      var code := g.codes[codeId];
      if !MayMoveMoney(st) || code.amount < cfg.payoutMin || IndexOfKey(g.payouts, key).Some? then
        Some(Change(WriteNothing, None, None, None, Some(codeId)))
      else
        var p := Payout(key.user, code.amount, code.dest, key, codeId, Requested, now);
        var refusal := if Balance(b.log, Customer(key.user, ETB)) < code.amount then Some(InsufficientBalance)
                       else DailyLimit(cfg, g.payouts, key.user, code.amount, now);
        if refusal.Some? then
          Some(Change(WritePayout(New, p.(status := Refused(false))), None, None, None, Some(codeId)))
        else
          Some(Change(WritePayout(New, p), Some(HoldMove(p)), None, None, Some(codeId)))
  }

  // requested -> processing: the mutex before the provider is called.
  function ClaimTransfer(g: State, payoutId: nat, actor: Option<UserId>, st: Standing): (c: Option<Change>)
    ensures c.Some? ==>
              ChangeFits(g, c.value) && c.value.row.WritePayout?
              && c.value == Change(c.value.row, c.value.post, None, None, None)
  {
    if payoutId >= |g.payouts| || actor == Some(g.payouts[payoutId].user) || !MayMoveMoney(st)
       || !g.payouts[payoutId].status.Requested? then None
    else Some(RowOnly(WritePayout(At(payoutId), g.payouts[payoutId].(status := Processing))))
  }

  function SettleLedger(g: State, payoutId: nat): (c: Option<Change>)
    ensures c.Some? ==>
              ChangeFits(g, c.value) && c.value.row.WritePayout?
              && c.value == Change(c.value.row, c.value.post, None, None, None)
  {
    if payoutId >= |g.payouts| || !InFlight(g.payouts[payoutId]) then None
    else
      var p := g.payouts[payoutId];
      Some(RowAndPost(WritePayout(At(payoutId), p.(status := PaidOut)), SendMove(p)))
  }

  datatype From = FromRequested | FromInFlight

  function RefundIfStatus(g: State, payoutId: nat, from: From): (c: Option<Change>)
    ensures c.Some? ==>
              ChangeFits(g, c.value) && c.value.row.WritePayout?
              && c.value == Change(c.value.row, c.value.post, None, None, None)
  {
    if payoutId >= |g.payouts| then None
    else
      var p := g.payouts[payoutId];
      if (if from.FromRequested? then p.status.Requested? else InFlight(p)) then
        Some(RowAndPost(WritePayout(At(payoutId), p.(status := Refused(true))), RefundMove(p)))
      else None
  }

  // ---------------------------------------------------------------- invariants

  ghost predicate PayoutMatches(s: State, p: Payout) {
    && p.amount > 0
    && p.code < |s.codes| && p.code !in s.confirming
    && s.codes[p.code].consumedAt.Some?
    && s.codes[p.code].user == p.user == p.key.user
    && s.codes[p.code].amount == p.amount
    && s.codes[p.code].dest == p.dest
  }

  // Every payout carries the request stored with its own consumed code.
  ghost predicate PayoutsMatch(s: State) {
    forall i :: 0 <= i < |s.payouts| ==> PayoutMatches(s, s.payouts[i])
  }

  ghost predicate OnePayoutPerCode(payouts: seq<Payout>) {
    forall i, j | 0 <= i < |payouts| && 0 <= j < |payouts| :: payouts[i].code == payouts[j].code ==> i == j
  }

  ghost predicate OnePayoutPerKey(payouts: seq<Payout>) {
    forall i, j | 0 <= i < |payouts| && 0 <= j < |payouts| :: payouts[i].key == payouts[j].key ==> i == j
  }

  ghost predicate ConfirmingOk(s: State) {
    forall c :: c in s.confirming ==> c < |s.codes| && s.codes[c].consumedAt.Some?
  }

  function AmountOnDay(user: UserId, day: int): Payout -> int {
    (p: Payout) => if p.user == user && Counted(p) && Day(p.createdAt) == day then p.amount else 0
  }

  function NumberOnDay(user: UserId, day: int): Payout -> int {
    (p: Payout) => if p.user == user && Counted(p) && Day(p.createdAt) == day then 1 else 0
  }

  ghost predicate WithinDailyLimits(cfg: Config, payouts: seq<Payout>) {
    forall user: UserId, day: int ::
      && Sum(payouts, AmountOnDay(user, day)) <= cfg.payoutDailyMax
      && Sum(payouts, NumberOnDay(user, day)) <= cfg.payoutDailyCount
  }

  ghost predicate PayoutsOk(cfg: Config, s: State) {
    && PayoutsMatch(s)
    && OnePayoutPerCode(s.payouts)
    && OnePayoutPerKey(s.payouts)
    && ConfirmingOk(s)
    && WithinDailyLimits(cfg, s.payouts)
  }

  // ---------------------------------------------------------------- the changes are lawful

  lemma RequestLawful(cfg: Config, s: State, codeId: nat, key: Key, now: int, st: Standing)
    requires ConfigOk(cfg)
    ensures var c := Request(cfg, s, s, codeId, key, now, st);
            c.Some? ==> Lawful(cfg.halt, s, c.value)
  {
    hide Balance, Sum, DailyLimit, IndexOfKey;
  }

  lemma ClaimTransferLawful(cfg: Config, s: State, payoutId: nat, actor: Option<UserId>, st: Standing)
    ensures var c := ClaimTransfer(s, payoutId, actor, st);
            c.Some? ==> Lawful(cfg.halt, s, c.value)
  {
  }

  lemma SettleLawful(cfg: Config, s: State, payoutId: nat)
    requires PayoutsMatch(s)
    ensures var c := SettleLedger(s, payoutId);
            c.Some? ==> Lawful(cfg.halt, s, c.value)
  {
    if payoutId < |s.payouts| {
      assert PayoutMatches(s, s.payouts[payoutId]);
    }
  }

  lemma RefundLawful(cfg: Config, s: State, payoutId: nat, from: From)
    requires PayoutsMatch(s)
    ensures var c := RefundIfStatus(s, payoutId, from);
            c.Some? ==> Lawful(cfg.halt, s, c.value)
  {
    if payoutId < |s.payouts| {
      assert PayoutMatches(s, s.payouts[payoutId]);
    }
  }

  // ---------------------------------------------------------------- the changes keep the payout invariants

  lemma DayWithinWindow(payouts: seq<Payout>, user: UserId, now: int)
    requires forall i :: 0 <= i < |payouts| ==> payouts[i].amount > 0
    ensures Sum(payouts, AmountOnDay(user, Day(now))) <= Sum(payouts, AmountSince(user, EatDayStartUtc(now)))
    ensures Sum(payouts, NumberOnDay(user, Day(now))) <= Sum(payouts, NumberSince(user, EatDayStartUtc(now)))
  {
    forall i | 0 <= i < |payouts|
      ensures AmountOnDay(user, Day(now))(payouts[i]) <= AmountSince(user, EatDayStartUtc(now))(payouts[i])
      ensures NumberOnDay(user, Day(now))(payouts[i]) <= NumberSince(user, EatDayStartUtc(now))(payouts[i])
    {
      WindowIsDayOrLater(payouts[i].createdAt, now);
    }
    SumLe(payouts, AmountOnDay(user, Day(now)), AmountSince(user, EatDayStartUtc(now)));
    SumLe(payouts, NumberOnDay(user, Day(now)), NumberSince(user, EatDayStartUtc(now)));
  }

  lemma RequestKeepsLimits(cfg: Config, s: State, codeId: nat, key: Key, now: int, st: Standing)
    requires ConfigOk(cfg) && PayoutsMatch(s) && WithinDailyLimits(cfg, s.payouts)
    ensures var c := Request(cfg, s, s, codeId, key, now, st);
            c.Some? ==> ChangeFits(s, c.value) && WithinDailyLimits(cfg, Apply(s, c.value).payouts)
  {
    hide Balance, Sum, Shape, IndexOfKey, EatDayStartUtc, Day;
    var c := Request(cfg, s, s, codeId, key, now, st);
    if c.Some? && c.value.row.WritePayout? {
      var s', p := Apply(s, c.value), c.value.row.payout;
      assert s'.payouts == s.payouts + [p];
      forall i | 0 <= i < |s.payouts| ensures s.payouts[i].amount > 0 {
        assert PayoutMatches(s, s.payouts[i]);
      }
      forall user: UserId, day: int
        ensures Sum(s'.payouts, AmountOnDay(user, day)) <= cfg.payoutDailyMax
        ensures Sum(s'.payouts, NumberOnDay(user, day)) <= cfg.payoutDailyCount
      {
        SumAppend(s.payouts, p, AmountOnDay(user, day));
        SumAppend(s.payouts, p, NumberOnDay(user, day));
        DayWithinWindow(s.payouts, user, now);
      }
    }
  }

  lemma RequestKeepsPayouts(cfg: Config, s: State, codeId: nat, key: Key, now: int, st: Standing)
    requires ConfigOk(cfg) && PayoutsOk(cfg, s)
    ensures var c := Request(cfg, s, s, codeId, key, now, st);
            c.Some? ==> ChangeFits(s, c.value) && PayoutsOk(cfg, Apply(s, c.value))
  {
    RequestKeepsLimits(cfg, s, codeId, key, now, st);
    hide Balance, Shape, IndexOfKey, DailyLimit, WithinDailyLimits;
    var c := Request(cfg, s, s, codeId, key, now, st);
    IndexOfKeyFinds(s.payouts, key);
    if c.Some? {
      var s' := Apply(s, c.value);
      forall i | 0 <= i < |s.payouts| ensures PayoutMatches(s', s.payouts[i]) && s.payouts[i].code != codeId {
        assert PayoutMatches(s, s.payouts[i]);
      }
      assert c.value.row.WritePayout? ==> s'.payouts == s.payouts + [c.value.row.payout];
      assert PayoutsMatch(s');
    }
  }

  // Moving a payout forward never makes it count more.
  lemma StatusKeepsPayouts(cfg: Config, s: State, payoutId: nat, status: PayoutStatus, c: Change)
    requires PayoutsOk(cfg, s) && payoutId < |s.payouts| && ChangeFits(s, c)
    requires c.row == WritePayout(At(payoutId), s.payouts[payoutId].(status := status))
    requires c.quoteSet.None? && c.spends.None?
    requires !status.Refused? ==> Counted(s.payouts[payoutId])
    ensures PayoutsOk(cfg, Apply(s, c))
  {
    hide Sum, Day, Shape;
    var s', p := Apply(s, c), c.row.payout;
    assert PayoutMatches(s, s.payouts[payoutId]);
    forall i | 0 <= i < |s'.payouts| ensures PayoutMatches(s', s'.payouts[i]) {
      assert PayoutMatches(s, s.payouts[i]);
    }
    forall user: UserId, day: int
      ensures Sum(s'.payouts, AmountOnDay(user, day)) <= cfg.payoutDailyMax
      ensures Sum(s'.payouts, NumberOnDay(user, day)) <= cfg.payoutDailyCount
    {
      SumUpdate(s.payouts, payoutId, p, AmountOnDay(user, day));
      SumUpdate(s.payouts, payoutId, p, NumberOnDay(user, day));
    }
  }
}
