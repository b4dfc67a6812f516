// The notification outbox of apps/worker/src/dispatcher.ts: one row carries an email, a browser push and a
// Telegram delivery, each with its own status; a pass tries what is still queued, retries with backoff and
// gives up after MAX_ATTEMPTS passes that met an error.
module Outbox {

  const BATCH: nat := 20
  const MAX_ATTEMPTS: nat := 5
  const LEASE_SECONDS: nat := 120

  datatype Status = Queued | Sent | Failed | Skipped

  // Times are in seconds.
  datatype Row = Row(hasUser: bool, email: Status, push: Status, telegram: Status, attempts: nat, nextAttemptAt: int)

  // What the transports would answer if this pass called them.
  datatype EmailAnswer = NoSmtpHost | MailAccepted | MailError
  datatype PushAnswer = PushOff | PushSent | NoSubscription | PushError
  datatype TelegramAnswer = CannotMessage | TelegramOk | Blocked | BadRequest | Retryable(retryAfterSec: nat)
  datatype Answers = Answers(email: EmailAnswer, push: PushAnswer, telegram: TelegramAnswer)

  predicate Open(r: Row) {
    r.email.Queued? || r.push.Queued? || r.telegram.Queued?
  }

  predicate Due(r: Row, now: int) {
    Open(r) && r.nextAttemptAt <= now
  }

  // Some channel of the row still waits to be tried.
  predicate Waits(r: Row) {
    !(r.email != Queued && r.push != Queued && r.telegram != Queued)
  }

  function EmailAfter(s: Status, a: EmailAnswer): Status {
    if !s.Queued? then s
    else match a { case NoSmtpHost => Skipped case MailAccepted => Sent case MailError => Queued }
  }

  function PushAfter(s: Status, a: PushAnswer): Status {
    if !s.Queued? then s
    else match a { case PushSent => Sent case PushError => Queued case _ => Skipped }
  }

  function TelegramAfter(s: Status, a: TelegramAnswer): Status {
    if !s.Queued? then s
    else match a {
      case TelegramOk => Sent
      case BadRequest => Failed
      case Retryable(_) => Queued
      case _ => Skipped
    }
  }

  function GiveUp(s: Status): Status {
    if s.Queued? then Failed else s
  }

  function Pow2(n: nat): (p: nat)
    ensures p >= 1
  {
    if n == 0 then 1 else 2 * Pow2(n - 1)
  }

  function Min(a: nat, b: nat): nat { if a < b then a else b }

  function Max(a: nat, b: nat): nat { if a < b then b else a }

  // 2, 4, 8 ... minutes, or Telegram's retry_after rounded up to minutes, whichever is longer.
  function BackoffMinutes(attempts: nat, retryAfterSec: nat): nat {
    Max(Pow2(Min(attempts, 6)), (retryAfterSec + 59) / 60)
  }

  function RetryAfter(r: Row, a: Answers): nat {
    if r.telegram.Queued? && a.telegram.Retryable? then a.telegram.retryAfterSec else 0
  }

  // One completed pass over one row: what is still queued after the attempts is what met an error.
  function Attempt(r: Row, a: Answers, now: int): Row {
    var email, push, telegram := EmailAfter(r.email, a.email), PushAfter(r.push, a.push),
        TelegramAfter(r.telegram, a.telegram);
    if !(email.Queued? || push.Queued? || telegram.Queued?) then
      r.(email := email, push := push, telegram := telegram, nextAttemptAt := now)
    else if r.attempts + 1 >= MAX_ATTEMPTS then
      r.(email := GiveUp(email), push := GiveUp(push), telegram := GiveUp(telegram),
         attempts := r.attempts + 1, nextAttemptAt := now)
    else
      r.(email := email, push := push, telegram := telegram, attempts := r.attempts + 1,
         nextAttemptAt := now + 60 * BackoffMinutes(r.attempts + 1, RetryAfter(r, a)))
  }

  // A claimed row is leased first; a row whose user is gone is dropped by the join and keeps only its lease.
  function Pass(r: Row, a: Answers, now: int): Row {
    var leased := r.(nextAttemptAt := now + LEASE_SECONDS);
    if r.hasUser then Attempt(leased, a, now) else leased
  }

  function Passes(r: Row, passes: seq<(Answers, int)>): Row
    decreases |passes|
  {
    if passes == [] then r else Passes(Pass(r, passes[0].0, passes[0].1), passes[1..])
  }

  // How many more passes a row can stay open for.
  function Remaining(r: Row): nat {
    if !Open(r) then 0 else if r.attempts >= MAX_ATTEMPTS then 1 else MAX_ATTEMPTS - r.attempts
  }

  /* ---- one row ---- */

  // Each completed pass over a row with a user leaves nothing queued or raises attempts by exactly one.
  lemma PassMakesProgress(r: Row, a: Answers, now: int)
    requires r.hasUser && Open(r)
    ensures var s := Pass(r, a, now);
            && (!Open(s) || s.attempts == r.attempts + 1 < MAX_ATTEMPTS)
            && Remaining(s) < Remaining(r)
            && s.hasUser
  {
  }

  // What each transport's answer makes of its channel when a pass completes: an answer that settles the matter does so
  // at once, and an error leaves the channel queued, until the fifth pass with an error gives it up.
  lemma StatusFollowsAnswer(r: Row, a: Answers, now: int)
    requires r.hasUser
    ensures var s := Pass(r, a, now);
            && (r.email.Queued? ==>
                  && (a.email.MailAccepted? <==> s.email.Sent?) && (a.email.NoSmtpHost? <==> s.email.Skipped?)
                  && (a.email.MailError? ==> s.email == if r.attempts + 1 >= 5 then Failed else Queued))
            && (r.push.Queued? ==>
                  && (a.push.PushSent? <==> s.push.Sent?)
                  && (a.push.PushOff? || a.push.NoSubscription? <==> s.push.Skipped?)
                  && (a.push.PushError? ==> s.push == if r.attempts + 1 >= 5 then Failed else Queued))
            && (r.telegram.Queued? ==>
                  && (a.telegram.TelegramOk? <==> s.telegram.Sent?)
                  && (a.telegram.CannotMessage? || a.telegram.Blocked? <==> s.telegram.Skipped?)
                  && (a.telegram.BadRequest? ==> s.telegram.Failed?)
                  && (a.telegram.Retryable? ==> s.telegram == if r.attempts + 1 >= 5 then Failed else Queued))
            && (!r.email.Queued? ==> s.email == r.email) && (!r.push.Queued? ==> s.push == r.push)
            && (!r.telegram.Queued? ==> s.telegram == r.telegram)
  {
  }

  // Five passes finish any row of a user, whatever the transports answer; without a user, none ever does.
  lemma {:induction false} FivePassesFinishExactlyWhen(r: Row, passes: seq<(Answers, int)>)
    requires Open(r) && |passes| >= Remaining(r)
    ensures !Open(Passes(r, passes)) <==> r.hasUser
    decreases |passes|
  {
    var s := Pass(r, passes[0].0, passes[0].1);
    if r.hasUser {
      PassMakesProgress(r, passes[0].0, passes[0].1);
      if Open(s) {
        FivePassesFinishExactlyWhen(s, passes[1..]);
      } else {
        ClosedStaysClosed(s, passes[1..]);
      }
    } else {
      UserlessStaysOpen(r, passes);
    }
  }

  lemma {:induction false} UserlessStaysOpen(r: Row, passes: seq<(Answers, int)>)
    requires Open(r) && !r.hasUser
    ensures Open(Passes(r, passes)) && Passes(r, passes).attempts == r.attempts
    decreases |passes|
  {
    if passes != [] {
      UserlessStaysOpen(Pass(r, passes[0].0, passes[0].1), passes[1..]);
    }
  }

  // A finished row is never delivered again: its three statuses are final.
  lemma {:induction false} ClosedStaysClosed(r: Row, passes: seq<(Answers, int)>)
    requires !Open(r)
    ensures var s := Passes(r, passes);
            !Open(s) && s.email == r.email && s.push == r.push && s.telegram == r.telegram && s.attempts == r.attempts
    decreases |passes|
  {
    if passes != [] {
      ClosedStaysClosed(Pass(r, passes[0].0, passes[0].1), passes[1..]);
    }
  }

  // A status that is no longer queued is final.
  lemma {:induction false} FinalStaysFinal(r: Row, passes: seq<(Answers, int)>)
    ensures !r.email.Queued? ==> Passes(r, passes).email == r.email
    ensures !r.push.Queued? ==> Passes(r, passes).push == r.push
    decreases |passes|
  {
    if passes != [] {
      FinalStaysFinal(Pass(r, passes[0].0, passes[0].1), passes[1..]);
    }
  }

  /* ---- passes that are interrupted ---- */

  // How far an interrupted pass came: the transports are called in this order, and the row is written last.
  datatype Reached = NoneCalled | CalledMail | CalledPush | CalledTelegram

  // A restart, or any throw between the sends and the write, leaves only the lease behind.
  datatype Event = Completed(answers: Answers, now: int) | Interrupted(answers: Answers, reached: Reached, now: int)

  function After(r: Row, e: Event): Row {
    match e
    case Completed(a, now) => Pass(r, a, now)
    case Interrupted(_, _, now) => r.(nextAttemptAt := now + LEASE_SECONDS)
  }

  function AfterAll(r: Row, events: seq<Event>): Row
    decreases |events|
  {
    if events == [] then r else AfterAll(After(r, events[0]), events[1..])
  }

  predicate Mails(r: Row, e: Event) {
    r.hasUser && r.email.Queued? && e.answers.email.MailAccepted? && (e.Completed? || !e.reached.NoneCalled?)
  }

  predicate Chats(r: Row, e: Event) {
    r.hasUser && r.telegram.Queued? && e.answers.telegram.TelegramOk? && (e.Completed? || e.reached.CalledTelegram?)
  }

  function One(b: bool): nat { if b then 1 else 0 }

  // How often the mail server accepted this row's message, and how many of those acceptances were not recorded.
  function MailsAccepted(r: Row, events: seq<Event>): nat
    decreases |events|
  {
    if events == [] then 0 else One(Mails(r, events[0])) + MailsAccepted(After(r, events[0]), events[1..])
  }

  function MailsForgotten(r: Row, events: seq<Event>): nat
    decreases |events|
  {
    if events == [] then 0
    else One(Mails(r, events[0]) && events[0].Interrupted?) + MailsForgotten(After(r, events[0]), events[1..])
  }

  function ChatsAccepted(r: Row, events: seq<Event>): nat
    decreases |events|
  {
    if events == [] then 0 else One(Chats(r, events[0])) + ChatsAccepted(After(r, events[0]), events[1..])
  }

  function ChatsForgotten(r: Row, events: seq<Event>): nat
    decreases |events|
  {
    if events == [] then 0
    else One(Chats(r, events[0]) && events[0].Interrupted?) + ChatsForgotten(After(r, events[0]), events[1..])
  }

  // A queued message is accepted once for each pass that sent it and was then interrupted, and once more when the
  // row ends up saying sent.
  lemma {:induction false} AcceptedIsForgottenPlusSent(r: Row, events: seq<Event>)
    ensures MailsAccepted(r, events) ==
            MailsForgotten(r, events) + One(r.email.Queued? && AfterAll(r, events).email.Sent?)
    ensures ChatsAccepted(r, events) ==
            ChatsForgotten(r, events) + One(r.telegram.Queued? && AfterAll(r, events).telegram.Sent?)
    ensures !r.email.Queued? ==> AfterAll(r, events).email == r.email
    ensures !r.telegram.Queued? ==> AfterAll(r, events).telegram == r.telegram
    decreases |events|
  {
    if events != [] {
      AcceptedIsForgottenPlusSent(After(r, events[0]), events[1..]);
    }
  }

  // A row that ends up sent was sent once exactly when no pass that got its message accepted was interrupted.
  lemma SentOnceExactlyWhen(r: Row, events: seq<Event>)
    ensures r.email.Queued? && AfterAll(r, events).email.Sent? ==>
              (MailsAccepted(r, events) == 1 <==> MailsForgotten(r, events) == 0)
    ensures r.telegram.Queued? && AfterAll(r, events).telegram.Sent? ==>
              (ChatsAccepted(r, events) == 1 <==> ChatsForgotten(r, events) == 0)
    ensures MailsForgotten(r, events) == 0 ==> MailsAccepted(r, events) <= 1
    ensures ChatsForgotten(r, events) == 0 ==> ChatsAccepted(r, events) <= 1
  {
    AcceptedIsForgottenPlusSent(r, events);
  }

  // Any row with a mail due can be sent twice: accepted, interrupted, and due again when the lease ends.
  lemma InterruptedMailIsSentAgain(r: Row, a: Answers, now: int) returns (events: seq<Event>)
    requires r.hasUser && r.email.Queued? && Due(r, now) && a.email.MailAccepted?
    ensures |events| == 2 && events[0] == Interrupted(a, CalledMail, now)
    ensures Due(After(r, events[0]), events[1].now) && events[1].now == now + LEASE_SECONDS
    ensures MailsAccepted(r, events) == 2 && AfterAll(r, events).email.Sent?
  {
    var first, second := Interrupted(a, CalledMail, now), Completed(a, now + LEASE_SECONDS);
    events := [first, second];
    assert events[1..] == [second] && [second][1..] == [];
    var leased := After(r, first);
    assert MailsAccepted(leased, [second]) == 1;
    assert AfterAll(leased, [second]) == AfterAll(After(leased, second), []) == After(leased, second);
    assert AfterAll(r, events) == AfterAll(leased, [second]);
  }

  /* ---- completed passes ---- */

  // How many of these passes met an error.
  function ErrorPasses(r: Row, passes: seq<(Answers, int)>): nat
    decreases |passes|
  {
    if passes == [] then 0
    else
      (if r.hasUser && (EmailAfter(r.email, passes[0].0.email).Queued?
                        || PushAfter(r.push, passes[0].0.push).Queued?
                        || TelegramAfter(r.telegram, passes[0].0.telegram).Queued?) then 1 else 0)
      + ErrorPasses(Pass(r, passes[0].0, passes[0].1), passes[1..])
  }

  // A mail or a push is only given up after five passes over the row met an error.
  lemma {:induction false} GivenUpOnlyAfterFiveErrors(r: Row, passes: seq<(Answers, int)>)
    ensures var s := Passes(r, passes);
            && s.attempts == r.attempts + ErrorPasses(r, passes)
            && ((r.email.Queued? && s.email.Failed?) || (r.push.Queued? && s.push.Failed?) ==>
                  s.attempts >= MAX_ATTEMPTS)
            && (!r.push.Queued? ==> s.push == r.push)
    decreases |passes|
  {
    if passes != [] {
      FinalStaysFinal(Pass(r, passes[0].0, passes[0].1), passes[1..]);
      GivenUpOnlyAfterFiveErrors(Pass(r, passes[0].0, passes[0].1), passes[1..]);
    }
  }

  // A flood wait from Telegram is never cut short. The wait doubles from 2 minutes to 16 with each pass that met an
  // error, or is the flood wait rounded up to minutes when that is longer: the row is given up before the backoff
  // could reach the 64 minutes its comment speaks of.
  lemma BackoffHonoursRetryAfter(r: Row, a: Answers, now: int)
    requires r.hasUser && Open(Pass(r, a, now))
    ensures var wait := Pass(r, a, now).nextAttemptAt - now;
            var asked := if r.telegram.Queued? && a.telegram.Retryable? then a.telegram.retryAfterSec else 0;
            var base := 60 * [2, 4, 8, 16][r.attempts];
            && r.attempts < 4 && wait % 60 == 0
            && wait >= base && wait >= asked && (wait == base || wait < asked + 60)
  {
    var n := r.attempts + 1;
    assert 1 <= n <= 4;
    assert Pow2(1) == 2 && Pow2(2) == 4 && Pow2(3) == 8 && Pow2(4) == 16;
  }

  /* ---- the whole outbox ---- */

  function DueCount(rows: seq<Row>, now: int): (n: nat)
    ensures n <= |rows|
  {
    if rows == [] then 0 else DueCount(rows[..|rows| - 1], now) + (if Due(rows[|rows| - 1], now) then 1 else 0)
  }

  // Rows stand in order of creation; a pass takes the first BATCH that are due.
  predicate Claimed(rows: seq<Row>, k: nat, now: int)
    requires k < |rows|
  {
    Due(rows[k], now) && DueCount(rows[..k], now) < BATCH
  }

  // How many more completed passes the first n rows can take up.
  function WorkUpTo(rows: seq<Row>, n: nat): nat
    requires n <= |rows|
  {
    if n == 0 then 0 else WorkUpTo(rows, n - 1) + Remaining(rows[n - 1])
  }

  lemma DueCountStep(rows: seq<Row>, k: nat, now: int)
    requires k < |rows|
    ensures DueCount(rows[..k + 1], now) == DueCount(rows[..k], now) + (if Due(rows[k], now) then 1 else 0)
  {
    assert rows[..k + 1][..k] == rows[..k];
  }

  lemma {:induction false} DueCountGrows(rows: seq<Row>, j: nat, k: nat, now: int)
    requires j <= k <= |rows|
    ensures DueCount(rows[..j], now) <= DueCount(rows[..k], now)
    decreases k
  {
    if j < k {
      DueCountGrows(rows, j, k - 1, now);
      DueCountStep(rows, k - 1, now);
    }
  }

  // What is taken is due, and a due row is only left for a full batch of rows before it.
  lemma FirstDueAreTaken(rows: seq<Row>, ids: seq<nat>, now: int)
    requires |ids| == Min(BATCH, DueCount(rows, now)) && forall k | k in ids :: k < |rows|
    requires forall k | 0 <= k < |rows| :: k in ids <==> Claimed(rows, k, now)
    ensures |ids| <= 20 && forall k | k in ids :: Waits(rows[k]) && rows[k].nextAttemptAt <= now
    ensures forall k | 0 <= k < |rows| ::
              Waits(rows[k]) && rows[k].nextAttemptAt <= now ==>
                k in ids || (|ids| == 20 && forall j | j in ids :: j < k)
  {
    assert rows[..|rows|] == rows;
    forall k | 0 <= k < |rows| && Due(rows[k], now) && k !in ids
      ensures |ids| == 20 && forall j | j in ids :: j < k
    {
      DueCountGrows(rows, k, |rows|, now);
      forall j | j in ids ensures j < k {
        if j >= k {
          DueCountGrows(rows, k, j, now);
        }
      }
    }
  }

  class NotificationDispatcher {
    var rows: seq<Row>

    constructor (rows: seq<Row>)
      ensures this.rows == rows
    {
      this.rows := rows;
    }

    // The claim: lease the first BATCH due rows and remember which they are.
    method Claim(now: int) returns (ids: seq<nat>)
      modifies this
      ensures |rows| == |old(rows)| && |ids| == Min(BATCH, DueCount(old(rows), now))
      ensures forall i, j | 0 <= i < j < |ids| :: ids[i] < ids[j]
      ensures |ids| <= 20
      ensures forall k | k in ids :: k < |rows| && Waits(old(rows)[k]) && old(rows)[k].nextAttemptAt <= now
      ensures forall k | 0 <= k < |rows| ::
                Waits(old(rows)[k]) && old(rows)[k].nextAttemptAt <= now ==>
                  k in ids || (|ids| == 20 && forall j | j in ids :: j < k)
      ensures forall k | k in ids :: rows[k].nextAttemptAt == now + 120
      ensures forall k | 0 <= k < |rows| :: k in ids <==> Claimed(old(rows), k, now)
      ensures forall i | 0 <= i < |ids| :: ids[i] < |rows|
      ensures forall k | 0 <= k < |rows| ::
                rows[k] == if k in ids then old(rows)[k].(nextAttemptAt := now + LEASE_SECONDS) else old(rows)[k]
    {
      hide Due, Waits, DueCount;
      ids := [];
      var k := 0;
      while k < |rows|
        invariant 0 <= k <= |rows| == |old(rows)|
        invariant |ids| == Min(BATCH, DueCount(old(rows)[..k], now))
        invariant forall i | 0 <= i < |ids| :: ids[i] < k
        invariant forall i, j | 0 <= i < j < |ids| :: ids[i] < ids[j]
        invariant forall j | 0 <= j < k :: j in ids <==> Claimed(old(rows), j, now)
        invariant forall j | 0 <= j < |rows| ::
                    rows[j] == if j in ids then old(rows)[j].(nextAttemptAt := now + LEASE_SECONDS) else old(rows)[j]
      {
        DueCountStep(old(rows), k, now);
        assert k !in ids;
        if Due(rows[k], now) && |ids| < BATCH {
          rows := rows[k := rows[k].(nextAttemptAt := now + LEASE_SECONDS)];
          ids := ids + [k];
        }
        k := k + 1;
      }
      assert old(rows)[..k] == old(rows);
      FirstDueAreTaken(old(rows), ids, now);
    }

    // One claimed row; the join has dropped a row without a user.
    method Handle(id: nat, answers: Answers, now: int)
      requires id < |rows|
      modifies this
      ensures rows == old(rows)[id := if old(rows)[id].hasUser then Attempt(old(rows)[id], answers, now)
                else old(rows)[id]]
    {
      if rows[id].hasUser {
        rows := rows[id := Attempt(rows[id], answers, now)];
      }
    }

    // One pass over the claimed rows.
    method RunOnce(now: int, answers: seq<Answers>) returns (handled: nat)
      requires |answers| == |rows|
      modifies this
      ensures |rows| == |old(rows)| && handled == Min(BATCH, DueCount(old(rows), now))
      ensures forall k | 0 <= k < |rows| ::
                rows[k] == if Claimed(old(rows), k, now) then Pass(old(rows)[k], answers[k], now) else old(rows)[k]
      ensures (forall k | 0 <= k < |rows| :: old(rows)[k].hasUser) ==>
                WorkUpTo(rows, |rows|) + handled <= WorkUpTo(old(rows), |old(rows)|)
    {
      hide DueCount, Claimed, Due, WorkUpTo;
      var ids := Claim(now);
      ghost var claimed := rows;
      hide Attempt;
      var i := 0;
      while i < |ids|
        invariant 0 <= i <= |ids| && |rows| == |old(rows)|
        invariant forall k | 0 <= k < |rows| ::
                    rows[k] == if k in ids[..i] then Pass(old(rows)[k], answers[k], now) else claimed[k]
      {
        var id := ids[i];
        assert id !in ids[..i] && id in ids;
        Handle(id, answers[id], now);
        assert ids[..i + 1] == ids[..i] + [id];
        i := i + 1;
      }
      assert ids[..i] == ids;
      handled := |ids|;
      if forall k | 0 <= k < |rows| :: old(rows)[k].hasUser {
        PassDrains(old(rows), rows, answers, now, |rows|);
        assert old(rows)[..|rows|] == old(rows);
      }
    }
  }

  // The work a completed pass leaves: at least one less for every row handled, when every row has a user. An
  // outbox nobody adds to drains.
  lemma {:induction false} PassDrains(before: seq<Row>, after: seq<Row>, answers: seq<Answers>, now: int, n: nat)
    requires n <= |before| == |after| == |answers| && forall k | 0 <= k < |before| :: before[k].hasUser
    requires forall k | 0 <= k < |before| ::
               after[k] == if Claimed(before, k, now) then Pass(before[k], answers[k], now) else before[k]
    ensures WorkUpTo(after, n) + Min(BATCH, DueCount(before[..n], now)) <= WorkUpTo(before, n)
    decreases n
  {
    hide Pass, Remaining, Due;
    if n > 0 {
      PassDrains(before, after, answers, now, n - 1);
      DueCountStep(before, n - 1, now);
      if Claimed(before, n - 1, now) {
        DueIsOpen(before[n - 1], now);
        PassMakesProgress(before[n - 1], answers[n - 1], now);
      }
    }
  }

  lemma DueIsOpen(r: Row, now: int)
    ensures Due(r, now) ==> Open(r)
  {
  }
}
