/**
 * Withdrawals step by step on the database: the emailed code, the held request, the transfer with its provider
 * answers, and the sweep over payouts still in flight. Each transaction is one step of the platform.
 */
module PayoutService {
  import opened Options
  import opened Sums
  import opened Books
  import opened Journal
  import opened Calendar
  import opened Ledger
  import T = TransferProtocol
  import opened Platform
  import E = EmailCodes
  import P = Payouts

  const SWEEP_AGE_MS: int := 5 * 60_000
  const SWEEP_LIMIT: nat := 50

  datatype Answer =
    | NotFound | Conflict | Forbidden | Throws | CodeRefused(why: E.Answer)
    | Replayed(payout: nat)
    | RefusedAs(payout: nat, code: Refusal)
    | Held(payout: nat)

  // ---------------------------------------------------------------- the steps, as updates of the tables

  lemma CodesStep(cfg: Config, s: State, stmt: E.Statement)
    ensures Step(cfg, s, Op.WriteCodes(stmt)) == s.(codes := E.Run(s.codes, stmt), confirming := Confirming(s, stmt))
  {
    hide E.Run;
    assert s.log + [] == s.log;
  }

  // An issue and a presentation with nobody in between, as steps.
  function AfterIssue(cfg: Config, s: State, user: UserId, amount: int, dest: Destination, secret: nat,
                      now: int): State {
    if E.RateLimited(s.codes, user, now) then s
    else Step(cfg, Step(cfg, s, Op.WriteCodes(E.RetireLive(user, now))),
              Op.WriteCodes(E.InsertCode(user, amount, dest, secret, now)))
  }

  function AfterTry(cfg: Config, s: State, user: UserId, id: nat, guess: nat, now: int): State {
    match E.CheckGuess(s.codes, user, id, guess, now)
    case Refuse(_) => s
    case Wrong => Step(cfg, s, Op.WriteCodes(E.CountWrong(id)))
    case Right => Step(cfg, s, Op.WriteCodes(E.ConsumeCode(id, now)))
  }

  // What the confirmed request may not be.
  function RequestRefusal(cfg: Config, s: State, codeId: nat, key: Key, now: int): Option<Refusal>
    requires codeId < |s.codes|
  {
    var code := s.codes[codeId];
    if Balance(s.log, Customer(key.user, ETB)) < code.amount then Some(InsufficientBalance)
    else P.DailyLimit(cfg, s.payouts, key.user, code.amount, now)
  }

  lemma RequestStep(cfg: Config, s: State, codeId: nat, key: Key, now: int, st: Standing)
    requires codeId in s.confirming && codeId < |s.codes| && s.codes[codeId].user == key.user
    ensures var s' := Step(cfg, s, RequestPayout(codeId, key, now, st));
            var code, ended := s.codes[codeId], s.confirming - {codeId};
            var p := Payout(key.user, code.amount, code.dest, key, codeId, Requested, now);
            s' == if !MayMoveMoney(st) || code.amount < cfg.payoutMin || P.IndexOfKey(s.payouts, key).Some? then
                    s.(confirming := ended)
                  else if RequestRefusal(cfg, s, codeId, key, now).Some? then
                    s.(confirming := ended, payouts := s.payouts + [p.(status := Refused(false))])
                  else
                    s.(confirming := ended, payouts := s.payouts + [p],
                       log := s.log + [Txn(PayoutRef(|s.payouts|), Shape(HoldMove(p)))])
  {
    hide Balance, P.DailyLimit, P.IndexOfKey, Shape;
    assert s.log + [] == s.log;
  }

  // A request holds the money exactly when its customer may move money, the amount is not too small, the key is new,
  // the account covers it and the day has room for it; a new payout is refused on record, with nothing moved, when
  // only the last two fail.
  lemma RequestHoldsExactlyWhen(cfg: Config, s: State, codeId: nat, key: Key, now: int, st: Standing)
    requires codeId in s.confirming && codeId < |s.codes| && s.codes[codeId].user == key.user
    ensures var code, s' := s.codes[codeId], Step(cfg, s, RequestPayout(codeId, key, now, st));
            var asked := !st.frozen && st.gate.None? && code.amount >= cfg.payoutMin
                         && forall j | 0 <= j < |s.payouts| :: s.payouts[j].key != key;
            var fits := Balance(s.log, Customer(key.user, ETB)) >= code.amount
                        && P.FitsTheDay(cfg, s.payouts, key.user, code.amount, now);
            var p := Payout(key.user, code.amount, code.dest, key, codeId, Requested, now);
            && s'.payouts == s.payouts + (if !asked then [] else if fits then [p] else [p.(status := Refused(false))])
            && s'.log == s.log + (if asked && fits then [Txn(PayoutRef(|s.payouts|), Shape(HoldMove(p)))] else [])
  {
    hide Step, Balance, P.DailyLimit, P.FitsTheDay, P.IndexOfKey, Shape;
    RequestStep(cfg, s, codeId, key, now, st);
    P.IndexOfKeyFinds(s.payouts, key);
    P.DailyLimitIs(cfg, s.payouts, key.user, s.codes[codeId].amount, now);
  }

  lemma ClaimStep(cfg: Config, s: State, i: nat, actor: Option<UserId>, st: Standing)
    requires i < |s.payouts|
    ensures var p := s.payouts[i];
            Step(cfg, s, ClaimTransfer(i, actor, st)) ==
            if actor == Some(p.user) || !MayMoveMoney(st) || !p.status.Requested? then s
            else s.(payouts := s.payouts[i := p.(status := Processing)])
  {
    assert s.log + [] == s.log;
  }

  lemma SettleStep(cfg: Config, s: State, i: nat)
    requires i < |s.payouts|
    ensures var p := s.payouts[i];
            Step(cfg, s, SettlePayout(i)) ==
            if !P.InFlight(p) then s
            else s.(payouts := s.payouts[i := p.(status := PaidOut)],
                    log := s.log + [Txn(PayoutRef(i), Shape(SendMove(p)))])
  {
    hide Shape;
  }

  predicate Refundable(p: Payout, from: P.From) {
    if from.FromRequested? then p.status.Requested? else P.InFlight(p)
  }

  lemma RefundStep(cfg: Config, s: State, i: nat, from: P.From)
    requires i < |s.payouts|
    ensures var p := s.payouts[i];
            Step(cfg, s, RefundPayout(i, from)) ==
            if !Refundable(p, from) then s
            else s.(payouts := s.payouts[i := p.(status := Refused(true))],
                    log := s.log + [Txn(PayoutRef(i), Shape(RefundMove(p)))])
  {
    hide Shape;
  }

  // ---------------------------------------------------------------- several steps in one handler

  // What a verify answer makes of a payout.
  function AfterVerify(cfg: Config, s: State, i: nat, http: T.Http, status: T.TransferStatus): State {
    match T.ResolveByVerify(http, status)
    case Clear(true) => Step(cfg, s, SettlePayout(i))
    case Clear(false) => Step(cfg, s, RefundPayout(i, P.FromInFlight))
    case Unclear => s
  }

  predicate Claims(s: State, i: nat, actor: Option<UserId>, st: Standing) {
    i < |s.payouts| && actor != Some(s.payouts[i].user) && MayMoveMoney(st) && s.payouts[i].status.Requested?
  }

  // Claim, call the provider, and act on what it answered: refund only on a definitive refusal, nothing on an
  // ambiguous one, otherwise verify.
  function AfterTransfer(cfg: Config, s: State, i: nat, actor: Option<UserId>, st: Standing,
                         call: T.Http, verify: T.Http, status: T.TransferStatus): State
  {
    if !Claims(s, i, actor, st) then s
    else
      var s1 := Step(cfg, s, ClaimTransfer(i, actor, st));
      match T.RequestRaw(call)
      case ChapaError(_, true) => Step(cfg, s1, RefundPayout(i, P.FromInFlight))
      case Envelope => AfterVerify(cfg, s1, i, verify, status)
      case _ => s1
  }

  // ---------------------------------------------------------------- what the handlers owe, in the provider's words

  predicate Underway(p: Payout) { p.status.Approved? || p.status.Processing? }

  function Sent(s: State, i: nat): State
    requires i < |s.payouts|
  {
    var p := s.payouts[i];
    s.(payouts := s.payouts[i := p.(status := PaidOut)], log := s.log + [Txn(PayoutRef(i), Shape(SendMove(p)))])
  }

  function PutBack(s: State, i: nat): State
    requires i < |s.payouts|
  {
    var p := s.payouts[i];
    s.(payouts := s.payouts[i := p.(status := Refused(true))],
       log := s.log + [Txn(PayoutRef(i), Shape(RefundMove(p)))])
  }

  // A payout in flight is sent when the provider's envelope says success, put back when it says failed or
  // cancelled, and left alone by every other answer; any other payout is left alone.
  ghost predicate VerifiedRight(s: State, s': State, i: nat, http: T.Http, status: T.TransferStatus)
    requires i < |s.payouts|
  {
    if Underway(s.payouts[i]) && T.Confirms(http) && status.Succeeded? then s' == Sent(s, i)
    else if Underway(s.payouts[i]) && T.Confirms(http) && status.FailedOrCancelled? then s' == PutBack(s, i)
    else s' == s
  }

  // A requested payout of someone else who may move money is claimed; it is put back when the call is definitively
  // refused, verified when it is confirmed, and otherwise stays in processing. Any other payout is left alone.
  ghost predicate TransferredRight(s: State, s': State, i: nat, actor: Option<UserId>, st: Standing, call: T.Http,
                                   verify: T.Http, status: T.TransferStatus)
  {
    if i >= |s.payouts| || actor == Some(s.payouts[i].user) || st.frozen || st.gate.Some?
       || !s.payouts[i].status.Requested? then s' == s
    else
      var claimed := s.(payouts := s.payouts[i := s.payouts[i].(status := Processing)]);
      if T.Refuses(call) then s' == PutBack(claimed, i)
      else if T.Confirms(call) then VerifiedRight(claimed, s', i, verify, status)
      else s' == claimed
  }

  lemma VerifyIsRight(cfg: Config, s: State, i: nat, http: T.Http, status: T.TransferStatus)
    requires i < |s.payouts|
    ensures VerifiedRight(s, AfterVerify(cfg, s, i, http, status), i, http, status)
  {
    hide Step, Shape;
    SettleStep(cfg, s, i);
    RefundStep(cfg, s, i, P.FromInFlight);
  }

  lemma TransferIsRight(cfg: Config, s: State, i: nat, actor: Option<UserId>, st: Standing, call: T.Http,
                        verify: T.Http, status: T.TransferStatus)
    ensures TransferredRight(s, AfterTransfer(cfg, s, i, actor, st, call, verify, status), i, actor, st, call, verify,
                             status)
  {
    hide Step, Shape, AfterVerify, VerifiedRight;
    if i < |s.payouts| {
      ClaimStep(cfg, s, i, actor, st);
      var claimed := Step(cfg, s, ClaimTransfer(i, actor, st));
      RefundStep(cfg, claimed, i, P.FromInFlight);
      VerifyIsRight(cfg, claimed, i, verify, status);
    }
  }

  predicate IsStale(p: Payout, now: int) {
    P.InFlight(p) && p.createdAt < now - SWEEP_AGE_MS
  }

  function AfterSweep(cfg: Config, s: State, ids: seq<nat>, answers: map<nat, (T.Http, T.TransferStatus)>): State
    decreases |ids|
  {
    if ids == [] then s
    else
      var i := ids[0];
      var s1 := if i in answers then AfterVerify(cfg, s, i, answers[i].0, answers[i].1) else s;
      AfterSweep(cfg, s1, ids[1..], answers)
  }

  // One payout of a sweep: its row, and what the ledger holds for it.
  function VerifiedRow(p: Payout, http: T.Http, status: T.TransferStatus): Payout {
    if Underway(p) && T.Confirms(http) && status.Succeeded? then p.(status := PaidOut)
    else if Underway(p) && T.Confirms(http) && status.FailedOrCancelled? then p.(status := Refused(true))
    else p
  }

  function VerifiedPosts(p: Payout, http: T.Http, status: T.TransferStatus): seq<Posting> {
    if Underway(p) && T.Confirms(http) && status.Succeeded? then [Shape(SendMove(p))]
    else if Underway(p) && T.Confirms(http) && status.FailedOrCancelled? then [Shape(RefundMove(p))]
    else []
  }

  ghost predicate SweptRow(s: State, s': State, i: nat, verified: Option<(T.Http, T.TransferStatus)>)
    requires i < |s.payouts| && i < |s'.payouts|
  {
    var p, posted := s.payouts[i], PostingsOf(s.log, PayoutRef(i));
    match verified
    case None => s'.payouts[i] == p && PostingsOf(s'.log, PayoutRef(i)) == posted
    case Some(a) =>
      && s'.payouts[i] == VerifiedRow(p, a.0, a.1)
      && PostingsOf(s'.log, PayoutRef(i)) == posted + VerifiedPosts(p, a.0, a.1)
  }

  function AnswerTo(ids: seq<nat>, answers: map<nat, (T.Http, T.TransferStatus)>, i: nat)
    : Option<(T.Http, T.TransferStatus)>
  {
    if i in ids && i in answers then Some(answers[i]) else None
  }

  // Each payout of the list gets what its own answer says, every other is left alone, and nothing else is posted.
  ghost predicate SweptRight(s: State, s': State, ids: seq<nat>, answers: map<nat, (T.Http, T.TransferStatus)>) {
    && |s'.payouts| == |s.payouts|
    && s' == s.(payouts := s'.payouts, log := s'.log)
    && (forall i | 0 <= i < |s.payouts| :: SweptRow(s, s', i, AnswerTo(ids, answers, i)))
    && (forall ref: Ref :: !ref.PayoutRef? ==> PostingsOf(s'.log, ref) == PostingsOf(s.log, ref))
  }

  lemma VerifyRow(s: State, s': State, i: nat, http: T.Http, status: T.TransferStatus, ref: Ref)
    requires i < |s.payouts| && VerifiedRight(s, s', i, http, status)
    ensures |s'.payouts| == |s.payouts| && s' == s.(payouts := s'.payouts, log := s'.log)
    ensures forall j | 0 <= j < |s.payouts| && j != i :: s'.payouts[j] == s.payouts[j]
    ensures SweptRow(s, s', i, Some((http, status)))
    ensures ref != PayoutRef(i) ==> PostingsOf(s'.log, ref) == PostingsOf(s.log, ref)
  {
    hide Shape, PostingsOf;
    var p := s.payouts[i];
    PostingsAppend(s.log, Txn(PayoutRef(i), Shape(SendMove(p))), PayoutRef(i));
    PostingsAppend(s.log, Txn(PayoutRef(i), Shape(RefundMove(p))), PayoutRef(i));
    PostingsAppend(s.log, Txn(PayoutRef(i), Shape(SendMove(p))), ref);
    PostingsAppend(s.log, Txn(PayoutRef(i), Shape(RefundMove(p))), ref);
    assert PostingsOf(s.log, PayoutRef(i)) + [] == PostingsOf(s.log, PayoutRef(i));
    assert PostingsOf(s.log, ref) + [] == PostingsOf(s.log, ref);
  }

  lemma {:induction false} SweepIsRight(cfg: Config, s: State, ids: seq<nat>,
                                        answers: map<nat, (T.Http, T.TransferStatus)>)
    requires forall k | 0 <= k < |ids| :: ids[k] < |s.payouts|
    requires forall k, l | 0 <= k < l < |ids| :: ids[k] != ids[l]
    ensures SweptRight(s, AfterSweep(cfg, s, ids, answers), ids, answers)
    decreases |ids|
  {
    hide VerifiedRight, VerifiedRow, VerifiedPosts, AfterVerify, PostingsOf;
    if ids != [] {
      var i := ids[0];
      var rest := ids[1..];
      var s1 := if i in answers then AfterVerify(cfg, s, i, answers[i].0, answers[i].1) else s;
      if i in answers {
        VerifyIsRight(cfg, s, i, answers[i].0, answers[i].1);
        forall ref: Ref ensures ref != PayoutRef(i) ==> PostingsOf(s1.log, ref) == PostingsOf(s.log, ref) {
          VerifyRow(s, s1, i, answers[i].0, answers[i].1, ref);
        }
        VerifyRow(s, s1, i, answers[i].0, answers[i].1, PayoutRef(i));
      }
      SweepIsRight(cfg, s1, rest, answers);
      var s' := AfterSweep(cfg, s, ids, answers);
      assert i !in rest;
      forall j | 0 <= j < |s.payouts| ensures SweptRow(s, s', j, AnswerTo(ids, answers, j)) {
        assert SweptRow(s1, s', j, AnswerTo(rest, answers, j));
        assert j in ids <==> j == i || j in rest;
      }
    }
  }

  class EmailCodesService {
    const db: Database
    const cfg: Config

    constructor (db: Database, cfg: Config)
      ensures this.db == db && this.cfg == cfg
    {
      this.db, this.cfg := db, cfg;
    }

    ghost predicate Valid()
      reads db
    {
      ConfigOk(cfg) && Reachable(cfg, db.View())
    }

    method IssuedSince(user: UserId, since: int) returns (n: int)
      ensures n == Sum(db.codes, E.IssuedOn(user, since))
    {
      n := 0;
      var k := 0;
      while k < |db.codes|
        invariant 0 <= k <= |db.codes| && n == Sum(db.codes[..k], E.IssuedOn(user, since))
      {
        NextRow(db.codes, k, E.IssuedOn(user, since));
        if db.codes[k].user == user && db.codes[k].createdAt > since {
          n := n + 1;
        }
        k := k + 1;
      }
      assert db.codes[..k] == db.codes;
    }

    // Every live code of the customer expires now.
    method RetireLive(user: UserId, now: int)
      modifies db`codes
      ensures db.codes == E.Retire(old(db.codes), user, now)
    {
      hide E.Retire;
      var k := 0;
      while k < |db.codes|
        modifies db`codes
        invariant 0 <= k <= |db.codes| == |old(db.codes)|
        invariant forall j | 0 <= j < k :: db.codes[j] == E.Retire(old(db.codes), user, now)[j]
        invariant forall j | k <= j < |db.codes| :: db.codes[j] == old(db.codes)[j]
      {
        var c := db.codes[k];
        if E.IsLive(c, user, now) {
          db.codes := db.codes[k := c.(expiresAt := now)];
        }
        k := k + 1;
      }
    }

    // Count the recent issues, retire the live codes, insert the new one: three statements, nothing held.
    method Issue(user: UserId, amount: int, dest: Destination, secret: nat, now: int) returns (id: Option<nat>)
      requires Valid()
      modifies db
      ensures Valid()
      ensures db.View() == AfterIssue(cfg, old(db.View()), user, amount, dest, secret, now)
      ensures Some(db.codes) == E.Issue(old(db.codes), user, amount, dest, secret, now)
                || (id.None? && db.View() == old(db.View()))
      ensures id == if old(E.RateLimited(db.codes, user, now)) then None else Some(|old(db.codes)|)
      ensures id.Some? <==> |E.RecentIds(old(db.codes), user, now)| < 5
      ensures id.Some? ==>
                && |db.codes| == |old(db.codes)| + 1
                && db.codes[|old(db.codes)|] == Code(user, amount, dest, secret, 0, now, now + 600_000, None)
                && forall k | 0 <= k < |old(db.codes)| ::
                     var c := old(db.codes)[k];
                     db.codes[k] == if c.user == user && c.consumedAt.None? && now < c.expiresAt
                                    then c.(expiresAt := now) else c
    {
      E.RateIs(db.codes, user, now);
      hide Reachable, Sum, E.Retire;
      var recent := IssuedSince(user, now - E.ISSUE_WINDOW_MS);
      if recent >= E.ISSUE_LIMIT {
        return None;
      }
      var retire, insert := E.RetireLive(user, now), E.InsertCode(user, amount, dest, secret, now);
      CodesStep(cfg, db.View(), retire);
      StepIsReachable(cfg, db.View(), Op.WriteCodes(retire));
      CodesStep(cfg, Step(cfg, db.View(), Op.WriteCodes(retire)), insert);
      StepIsReachable(cfg, Step(cfg, db.View(), Op.WriteCodes(retire)), Op.WriteCodes(insert));
      hide Step;
      RetireLive(user, now);
      db.codes := db.codes + [E.NewCode(user, amount, dest, secret, now)];
      return Some(|db.codes| - 1);
    }

    // Check a guess against the row as read, then count it or consume the code.
    method Consume(user: UserId, id: nat, guess: nat, now: int) returns (answer: E.Answer)
      requires Valid()
      modifies db
      ensures Valid()
      ensures db.View() == AfterTry(cfg, old(db.View()), user, id, guess, now)
      ensures (db.codes, answer) == E.Consume(old(db.codes), user, id, guess, now)
      ensures var open := id < |old(db.codes)| && old(db.codes)[id].user == user && old(db.codes)[id].consumedAt.None?
                          && now < old(db.codes)[id].expiresAt && old(db.codes)[id].attempts < 5;
              && (answer.Accepted? <==> open && guess == old(db.codes)[id].secret)
              && db.codes ==
                 if !open then old(db.codes)
                 else if guess == old(db.codes)[id].secret then
                   old(db.codes)[id := old(db.codes)[id].(consumedAt := Some(now))]
                 else old(db.codes)[id := old(db.codes)[id].(attempts := old(db.codes)[id].attempts + 1)]
      ensures var standing := id < |old(db.codes)| && old(db.codes)[id].user == user
                              && old(db.codes)[id].consumedAt.None?;
              && (answer.CodeExpired? <==> standing && old(db.codes)[id].expiresAt <= now)
              && (answer.CodeLocked? <==> standing && now < old(db.codes)[id].expiresAt && db.codes[id].attempts >= 5
                                          && db.codes[id].consumedAt.None?)
      ensures answer.Accepted? ==>
                id < |db.codes| && db.codes[id].user == user && db.codes[id].consumedAt.Some? && id in db.confirming
    {
      hide Reachable;
      CodesStep(cfg, db.View(), E.CountWrong(id));
      CodesStep(cfg, db.View(), E.ConsumeCode(id, now));
      StepIsReachable(cfg, db.View(), Op.WriteCodes(E.CountWrong(id)));
      StepIsReachable(cfg, db.View(), Op.WriteCodes(E.ConsumeCode(id, now)));
      hide Step;
      if id >= |db.codes| || db.codes[id].user != user || db.codes[id].consumedAt.Some? {
        return E.CodeInvalid;
      }
      var row := db.codes[id];
      if row.expiresAt <= now {
        return E.CodeExpired;
      }
      if row.attempts >= E.MAX_ATTEMPTS {
        return E.CodeLocked;
      }
      if guess != row.secret {
        db.codes := db.codes[id := row.(attempts := db.codes[id].attempts + 1)];
        return if db.codes[id].attempts >= E.MAX_ATTEMPTS then E.CodeLocked else E.CodeInvalid;
      }
      if db.codes[id].consumedAt.Some? {
        return E.CodeInvalid;
      }
      db.codes := db.codes[id := db.codes[id].(consumedAt := Some(now))];
      db.confirming := db.confirming + {id};
      return E.Accepted;
    }
  }

  class PayoutsService {
    const db: Database
    const ledger: LedgerService
    const emailCodes: EmailCodesService
    const cfg: Config

    constructor (db: Database, ledger: LedgerService, emailCodes: EmailCodesService, cfg: Config)
      ensures this.db == db && this.ledger == ledger && this.emailCodes == emailCodes && this.cfg == cfg
    {
      this.db, this.ledger, this.emailCodes, this.cfg := db, ledger, emailCodes, cfg;
    }

    ghost predicate Valid()
      reads db
    {
      ledger.db == db && emailCodes.db == db && emailCodes.cfg == cfg && ConfigOk(cfg) && Reachable(cfg, db.View())
    }

    method FindByKey(key: Key) returns (found: Option<nat>)
      ensures found == P.IndexOfKey(db.payouts, key)
    {
      var k := |db.payouts|;
      assert db.payouts[..k] == db.payouts;
      while k > 0
        invariant 0 <= k <= |db.payouts|
        invariant P.IndexOfKey(db.payouts, key) == P.IndexOfKey(db.payouts[..k], key)
      {
        assert db.payouts[..k][..k - 1] == db.payouts[..k - 1];
        if db.payouts[k - 1].key == key {
          return Some(k - 1);
        }
        k := k - 1;
      }
      return None;
    }

    // Today's amount and number of payouts not refused, leaving out one row.
    method DayTotals(user: UserId, now: int, exclude: nat) returns (amount: int, count: int)
      requires exclude < |db.payouts|
      ensures var since := EatDayStartUtc(now);
              && amount == Sum(db.payouts, P.AmountSince(user, since)) - P.AmountSince(user, since)(db.payouts[exclude])
              && count == Sum(db.payouts, P.NumberSince(user, since)) - P.NumberSince(user, since)(db.payouts[exclude])
    {
      hide EatDayStartUtc;
      var since := EatDayStartUtc(now);
      amount, count := 0, 0;
      var k := 0;
      while k < |db.payouts|
        invariant 0 <= k <= |db.payouts|
        invariant amount == Sum(db.payouts[..k], P.AmountSince(user, since))
                            - (if exclude < k then P.AmountSince(user, since)(db.payouts[exclude]) else 0)
        invariant count == Sum(db.payouts[..k], P.NumberSince(user, since))
                           - (if exclude < k then P.NumberSince(user, since)(db.payouts[exclude]) else 0)
      {
        NextRow(db.payouts, k, P.AmountSince(user, since));
        NextRow(db.payouts, k, P.NumberSince(user, since));
        var p := db.payouts[k];
        if p.user == user && !p.status.Refused? && p.createdAt >= since && k != exclude {
          amount, count := amount + p.amount, count + 1;
        }
        k := k + 1;
      }
      assert db.payouts[..k] == db.payouts;
    }

    // The limits are read with the new row already in the table, and left out of the count.
    method DailyLimitCode(user: UserId, amount: int, now: int, exclude: nat) returns (code: Option<Refusal>)
      requires exclude < |db.payouts| && exclude == |db.payouts| - 1
      ensures code == P.DailyLimit(cfg, db.payouts[..exclude], user, amount, now)
    {
      hide EatDayStartUtc, Sum;
      var since := EatDayStartUtc(now);
      var sum, count := DayTotals(user, now, exclude);
      NextRow(db.payouts, exclude, P.AmountSince(user, since));
      NextRow(db.payouts, exclude, P.NumberSince(user, since));
      assert db.payouts[..exclude + 1] == db.payouts;
      if count + 1 > cfg.payoutDailyCount {
        return Some(PayoutDailyCount);
      }
      if sum + amount > cfg.payoutDailyMax {
        return Some(PayoutDailyLimit);
      }
      return None;
    }

    // Funds, then the day's limits, read under the account lock.
    method RefusalUnderLock(user: UserId, amount: int, now: int, payout: nat) returns (code: Option<Refusal>)
      requires ledger.db == db && payout < |db.payouts| && payout == |db.payouts| - 1
      ensures code == if Balance(db.log, Customer(user, ETB)) < amount then Some(InsufficientBalance)
                      else P.DailyLimit(cfg, db.payouts[..payout], user, amount, now)
    {
      hide Balance, P.DailyLimit;
      var accounts := [Customer(user, ETB), PayoutHold];
      var balances := ledger.LockAndReadBalances(accounts);
      assert accounts[0] in accounts;
      if balances[accounts[0]] < amount {
        return Some(InsufficientBalance);
      }
      code := DailyLimitCode(user, amount, now, payout);
    }

    // Insert the payout of a consumed code; under the customer's account lock it is refused, or its cents are held.
    method ClaimAndHold(codeId: nat, key: Key, now: int) returns (answer: Answer)
      requires ledger.db == db && codeId < |db.codes| && db.codes[codeId].user == key.user
      requires db.codes[codeId].amount > 0
      modifies db`payouts, db`log
      ensures var code, payout := db.codes[codeId], |old(db.payouts)|;
              var p := Payout(key.user, code.amount, code.dest, key, codeId, Requested, now);
              match RequestRefusal(cfg, old(db.View()), codeId, key, now)
              case Some(why) =>
                && answer == RefusedAs(payout, why) && db.log == old(db.log)
                && db.payouts == old(db.payouts) + [p.(status := Refused(false))]
              case None =>
                && answer == Held(payout) && db.payouts == old(db.payouts) + [p]
                && db.log == old(db.log) + [Txn(PayoutRef(payout), Shape(HoldMove(p)))]
    {
      hide Balance, Sum, P.DailyLimit, Shape, Postable, Filter;
      var code, payout := db.codes[codeId], |db.payouts|;
      var p := Payout(key.user, code.amount, code.dest, key, codeId, Requested, now);
      db.payouts := db.payouts + [p];
      assert db.payouts[..payout] == old(db.payouts);
      var refusal := RefusalUnderLock(p.user, p.amount, now, payout);
      if refusal.Some? {
        db.payouts := db.payouts[payout := p.(status := Refused(false))];
        return RefusedAs(payout, refusal.value);
      }
      ledger.PostTransfer(PayoutRef(payout), WithdrawalTxn, PayoutHeld, Customer(p.user, ETB), PayoutHold, p.amount);
      return Held(payout);
    }

    lemma SameRefusal(codeId: nat, key: Key, now: int, s: State, s': State)
      requires codeId < |s.codes| && s'.codes == s.codes && s'.log == s.log && s'.payouts == s.payouts
      ensures RequestRefusal(cfg, s', codeId, key, now) == RequestRefusal(cfg, s, codeId, key, now)
    {
    }

    // The request transaction of a confirm call that has consumed its code.
    method Request(codeId: nat, key: Key, st: Standing, now: int) returns (answer: Answer)
      requires Valid() && codeId in db.confirming && codeId < |db.codes| && db.codes[codeId].user == key.user
      modifies db
      ensures Valid()
      ensures db.View() == Step(cfg, old(db.View()), RequestPayout(codeId, key, now, st))
      ensures answer.Held? <==> |db.log| > |old(db.log)|
      ensures answer.Held? || answer.RefusedAs? || answer.Throws? || answer.Replayed?
      ensures answer.Held? || answer.RefusedAs? ==> answer.payout == |old(db.payouts)| == |db.payouts| - 1
      ensures answer.Held? || answer.RefusedAs? <==> |db.payouts| > |old(db.payouts)|
    {
      hide Reachable, Balance, Sum, P.IndexOfKey, Shape, RequestRefusal, HoldMove;
      ghost var begun := db.View();
      RequestStep(cfg, begun, codeId, key, now, st);
      StepIsReachable(cfg, begun, RequestPayout(codeId, key, now, st));
      hide Step;
      var spec := db.codes[codeId];
      db.confirming := db.confirming - {codeId};
      assert RequestRefusal(cfg, db.View(), codeId, key, now) == RequestRefusal(cfg, begun, codeId, key, now) by {
        SameRefusal(codeId, key, now, begun, db.View());
      }
      if !MayMoveMoney(st) {
        return Throws;
      }
      if spec.amount < cfg.payoutMin {
        return Throws;
      }
      var taken := FindByKey(key);
      if taken.Some? {
        return Replayed(taken.value);
      }
      answer := ClaimAndHold(codeId, key, now);
    }

    // A code refused to the loser of a double submit: by now the winner may have created the payout.
    method AnswerRefusedCode(key: Key, why: E.Answer) returns (answer: Answer)
      ensures match P.IndexOfKey(db.payouts, key)
              case Some(i) => answer == Replayed(i)
              case None => answer == CodeRefused(why)
    {
      var again := FindByKey(key);
      if again.Some? {
        return Replayed(again.value);
      }
      return CodeRefused(why);
    }

    // Step 2 of a withdrawal: a replay answers at once; otherwise the code is tried, and an accepted code turns
    // into exactly one request. A refused code looks once more for the payout of a rival with the same key.
    method Confirm(codeId: nat, guess: nat, key: Key, st: Standing, now: int) returns (answer: Answer)
      requires Valid()
      modifies db
      ensures Valid()
      ensures var s := old(db.View());
              var tried := AfterTry(cfg, s, key.user, codeId, guess, now);
              var check := E.CheckGuess(s.codes, key.user, codeId, guess, now);
              match P.IndexOfKey(s.payouts, key)
              case Some(i) => db.View() == s && answer == Replayed(i)
              case None =>
                if check.Right? then
                  && db.View() == Step(cfg, tried, RequestPayout(codeId, key, now, st))
                  && !answer.CodeRefused? && (answer.Held? <==> |db.log| > |s.log|)
                else db.View() == tried && answer == CodeRefused(E.Consume(s.codes, key.user, codeId, guess, now).1)
    {
      hide Reachable, Step, P.IndexOfKey;
      var replayed := FindByKey(key);
      if replayed.Some? {
        return Replayed(replayed.value);
      }
      TryKeepsRest(db.View(), key.user, codeId, guess, now);
      var tried := emailCodes.Consume(key.user, codeId, guess, now);
      if !tried.Accepted? {
        answer := AnswerRefusedCode(key, tried);
        return;
      }
      answer := Request(codeId, key, st, now);
    }

    lemma TryKeepsRest(s: State, user: UserId, id: nat, guess: nat, now: int)
      ensures AfterTry(cfg, s, user, id, guess, now).payouts == s.payouts
      ensures AfterTry(cfg, s, user, id, guess, now).log == s.log
    {
      CodesStep(cfg, s, E.CountWrong(id));
      CodesStep(cfg, s, E.ConsumeCode(id, now));
    }

    lemma PayoutIsPositive(i: nat)
      requires Valid() && i < |db.payouts|
      ensures db.payouts[i].amount > 0
    {
      ReachableIsOk(cfg, db.View());
      assert P.PayoutMatches(db.View(), db.payouts[i]);
    }

    // Money out of the hold and the row settled, in one transaction; a row no longer in flight is left alone.
    method SettleLedger(i: nat)
      requires Valid() && i < |db.payouts|
      modifies db`payouts, db`log
      ensures Valid()
      ensures db.View() == Step(cfg, old(db.View()), SettlePayout(i)) && |db.payouts| == |old(db.payouts)|
    {
      hide Reachable, Shape, Filter;
      PayoutIsPositive(i);
      SettleStep(cfg, db.View(), i);
      StepIsReachable(cfg, db.View(), SettlePayout(i));
      hide Step;
      if !P.InFlight(db.payouts[i]) {
        return;
      }
      var p := db.payouts[i];
      db.payouts := db.payouts[i := p.(status := PaidOut)];
      ledger.PostTransfer(PayoutRef(i), WithdrawalTxn, PayoutSent, PayoutHold, External, p.amount);
    }

    // Status change and refund in one transaction, and only from the given statuses.
    method RefundIfStatus(i: nat, from: P.From) returns (refunded: bool)
      requires Valid() && i < |db.payouts|
      modifies db`payouts, db`log
      ensures Valid()
      ensures db.View() == Step(cfg, old(db.View()), RefundPayout(i, from)) && |db.payouts| == |old(db.payouts)|
      ensures refunded <==> |db.log| > |old(db.log)|
    {
      hide Reachable, Shape, Filter, Balance;
      PayoutIsPositive(i);
      RefundStep(cfg, db.View(), i, from);
      StepIsReachable(cfg, db.View(), RefundPayout(i, from));
      hide Step;
      var p := db.payouts[i];
      if !Refundable(p, from) {
        return false;
      }
      db.payouts := db.payouts[i := p.(status := Refused(true))];
      ledger.PostTransfer(PayoutRef(i), WithdrawalTxn, PayoutRefund, PayoutHold, Customer(p.user, ETB), p.amount);
      return true;
    }

    // Finance says no before the transfer was claimed.
    method RejectRequest(i: nat) returns (answer: Answer)
      requires Valid()
      modifies db
      ensures Valid()
      ensures db.View() == Step(cfg, old(db.View()), RefundPayout(i, P.FromRequested))
      ensures answer.Held? <==> i < |old(db.payouts)| && old(db.payouts)[i].status.Requested?
      ensures db.View() == if answer.Held? then PutBack(old(db.View()), i) else old(db.View())
    {
      if i < |db.payouts| {
        RefundStep(cfg, db.View(), i, P.FromRequested);
      }
      if i >= |db.payouts| {
        NoPayout(db.View(), i, P.FromRequested);
        return NotFound;
      }
      hide Reachable, Step;
      var refunded := RefundIfStatus(i, P.FromRequested);
      return if refunded then Held(i) else Conflict;
    }

    lemma NoPayout(s: State, i: nat, from: P.From)
      requires i >= |s.payouts|
      ensures Step(cfg, s, RefundPayout(i, from)) == s
    {
    }

    // Ask the provider what happened to a transfer, and act only on a clear answer.
    method ResolveByVerify(i: nat, http: T.Http, status: T.TransferStatus)
      requires Valid() && i < |db.payouts|
      modifies db`payouts, db`log
      ensures Valid()
      ensures db.View() == AfterVerify(cfg, old(db.View()), i, http, status) && |db.payouts| == |old(db.payouts)|
      ensures VerifiedRight(old(db.View()), db.View(), i, http, status)
    {
      VerifyIsRight(cfg, db.View(), i, http, status);
      hide Reachable, Step, VerifiedRight;
      if !T.RequestRaw(http).Envelope? {
        return;
      }
      if status.Succeeded? {
        SettleLedger(i);
      } else if status.FailedOrCancelled? {
        var refunded := RefundIfStatus(i, P.FromInFlight);
      }
    }

    // The approval and transfer sequence, shared by finance approval and the instant path.
    method ExecuteTransfer(i: nat, actor: Option<UserId>, st: Standing, call: T.Http, verify: T.Http,
                           status: T.TransferStatus)
        returns (answer: Answer)
      requires Valid()
      modifies db
      ensures Valid()
      ensures db.View() == AfterTransfer(cfg, old(db.View()), i, actor, st, call, verify, status)
      ensures TransferredRight(old(db.View()), db.View(), i, actor, st, call, verify, status)
    {
      TransferIsRight(cfg, db.View(), i, actor, st, call, verify, status);
      hide Reachable, T.RequestRaw, TransferredRight, VerifiedRight;
      if i >= |db.payouts| {
        return NotFound;
      }
      if actor == Some(db.payouts[i].user) {
        return Forbidden;
      }
      if !MayMoveMoney(st) {
        return Throws;
      }
      if !db.payouts[i].status.Requested? {
        return Conflict;
      }
      ClaimStep(cfg, db.View(), i, actor, st);
      StepIsReachable(cfg, db.View(), ClaimTransfer(i, actor, st));
      hide Step;
      db.payouts := db.payouts[i := db.payouts[i].(status := Processing)];
      var r := T.RequestRaw(call);
      if !r.Envelope? {
        if r.ChapaError? && r.definitive {
          var refunded := RefundIfStatus(i, P.FromInFlight);
        }
        return Held(i);
      }
      ResolveByVerify(i, verify, status);
      return Held(i);
    }

    // A webhook is a prompt to check, never state.
    method HandleTransferEvent(i: nat, http: T.Http, status: T.TransferStatus)
      requires Valid()
      modifies db`payouts, db`log
      ensures Valid()
      ensures db.View() == if i < |old(db.payouts)| && P.InFlight(old(db.payouts)[i])
                           then AfterVerify(cfg, old(db.View()), i, http, status) else old(db.View())
      ensures if i < |old(db.payouts)| then VerifiedRight(old(db.View()), db.View(), i, http, status)
              else db.View() == old(db.View())
    {
      hide Reachable, Step;
      if i >= |db.payouts| || !P.InFlight(db.payouts[i]) {
        return;
      }
      ResolveByVerify(i, http, status);
    }

    // Payouts still in flight after five minutes, the oldest fifty of them.
    method StaleInFlight(now: int) returns (ids: seq<nat>)
      ensures |ids| <= SWEEP_LIMIT && forall k | 0 <= k < |ids| ::
                ids[k] < |db.payouts| && IsStale(db.payouts[ids[k]], now)
      ensures forall i | 0 <= i < |db.payouts| && IsStale(db.payouts[i], now) ::
                i in ids || |ids| == SWEEP_LIMIT
      ensures forall k, l | 0 <= k < l < |ids| :: ids[k] < ids[l]
    {
      ids := [];
      var i := 0;
      while i < |db.payouts| && |ids| < SWEEP_LIMIT
        invariant 0 <= i <= |db.payouts| && |ids| <= SWEEP_LIMIT
        invariant forall k | 0 <= k < |ids| ::
                    ids[k] < i && IsStale(db.payouts[ids[k]], now)
        invariant forall j | 0 <= j < i && IsStale(db.payouts[j], now) :: j in ids
        invariant forall k, l | 0 <= k < l < |ids| :: ids[k] < ids[l]
      {
        var p := db.payouts[i];
        if IsStale(p, now) {
          ids := ids + [i];
        }
        i := i + 1;
      }
    }

    // Background reconciliation: each payout left in flight is verified; nothing is refunded on a guess.
    method Sweep(now: int, answers: map<nat, (T.Http, T.TransferStatus)>) returns (ids: seq<nat>)
      requires Valid()
      modifies db`payouts, db`log
      ensures Valid()
      ensures db.View() == AfterSweep(cfg, old(db.View()), ids, answers)
      ensures |ids| <= SWEEP_LIMIT && forall k, l | 0 <= k < l < |ids| :: ids[k] < ids[l]
      ensures forall i | i in ids ::
                i < |old(db.payouts)| && Underway(old(db.payouts)[i]) && old(db.payouts)[i].createdAt + 300_000 < now
      ensures forall i | 0 <= i < |old(db.payouts)| ::
                Underway(old(db.payouts)[i]) && old(db.payouts)[i].createdAt + 300_000 < now ==>
                  i in ids || |ids| == 50
      ensures SweptRight(old(db.View()), db.View(), ids, answers)
    {
      hide Reachable, AfterVerify, SweptRight;
      ids := StaleInFlight(now);
      SweepIsRight(cfg, db.View(), ids, answers);
      var k := 0;
      while k < |ids|
        modifies db`payouts, db`log
        invariant 0 <= k <= |ids| && Valid() && |db.payouts| == |old(db.payouts)|
        invariant AfterSweep(cfg, old(db.View()), ids, answers) == AfterSweep(cfg, db.View(), ids[k..], answers)
      {
        var i := ids[k];
        assert ids[k..][1..] == ids[k + 1..];
        if i in answers {
          ResolveByVerify(i, answers[i].0, answers[i].1);
        }
        k := k + 1;
      }
    }
  }
}
