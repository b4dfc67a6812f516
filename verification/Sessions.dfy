// Device sessions: refresh-token rotation under concurrent presentations, revocation, and what the access guard
// still lets through afterwards (apps/api/src/auth/sessions.service.ts, apps/api/src/auth/auth.guard.ts).
//
// Only a hash of the secret is stored; hashing is taken as injective, so the model compares secrets.
// Times are in milliseconds.
module Sessions {
  import opened Options

  type Secret = nat
  type UserId = nat

  const ROTATION_GRACE_MS: int := 60_000

  datatype Session = Session(
    user: UserId, refresh: Secret, previous: Option<Secret>, rotatedAt: Option<int>,
    telegram: bool, expiresAt: int, revokedAt: Option<int>)

  datatype Verdict = Refuse | Exchange | Grace | Reuse

  // The checks of `rotate` on the row it selected, up to its first write.
  function Judge(found: Option<Session>, secret: Secret, telegram: bool, now: int): Verdict {
    if found.None? || found.value.revokedAt.Some? || found.value.expiresAt <= now then Refuse
    else if found.value.telegram != telegram then Refuse
    else if secret == found.value.refresh then Exchange
    else if found.value.previous == Some(secret) && found.value.rotatedAt.Some?
            && now - found.value.rotatedAt.value < ROTATION_GRACE_MS then Grace
    else Reuse
  }

  // The conditional update: it only writes where the hash read is still the stored one, and does not look at revokedAt.
  function Rotated(s: Session, seen: Secret, next: Secret, now: int): Session {
    if s.refresh == seen then s.(refresh := next, previous := Some(seen), rotatedAt := Some(now)) else s
  }

  function Revoked(s: Session, now: int): Session {
    if s.revokedAt.None? then s.(revokedAt := Some(now)) else s
  }

  /* ---- the access guard ---- */

  // An access token says the second it was minted in plus the lifetime; it is expired from that second on
  // (section 4.1.4 of RFC 7519).
  function Expiry(mintedAt: int, ttlSec: int): int {
    mintedAt / 1000 + ttlSec
  }

  // Redis drops the marker this long after it was written.
  function MarkerUntil(markedAt: int, ttlSec: int): int {
    markedAt + (ttlSec + 60) * 1000
  }

  predicate Accepts(mintedAt: int, markerUntil: Option<int>, ttlSec: int, now: int) {
    now / 1000 < Expiry(mintedAt, ttlSec) && !(markerUntil.Some? && now < markerUntil.value)
  }

  // After a revocation marker is written, a token of that session is accepted at some later time exactly when
  // the second it was minted in starts more than 60 s after the marker.
  lemma AcceptedAfterMarkerExactlyWhen(mintedAt: int, markedAt: int, ttlSec: nat)
    ensures (exists now: int :: now >= markedAt && Accepts(mintedAt, Some(MarkerUntil(markedAt, ttlSec)), ttlSec, now))
            <==> mintedAt / 1000 * 1000 > markedAt + 60_000
  {
    var until := MarkerUntil(markedAt, ttlSec);
    if mintedAt / 1000 * 1000 > markedAt + 60_000 {
      assert until >= markedAt && Accepts(mintedAt, Some(until), ttlSec, until);
    }
  }

  /* ---- one session, presented to by any number of clients at once ---- */

  // A rotate call between its steps: read the row, write, sign the access token. Won calls know which exchange
  // of the session's history they were.
  datatype Call =
    | Turned
    | Graced
    | Waiting(seen: Secret)
    | Lost(seen: Secret)
    | Won(seen: Secret, next: Secret, rank: nat)
    | Signed(seen: Secret, next: Secret, rank: nat)
    | Reusing
    | Revoking

  // `chain` is every secret the session ever had, `winners` the calls that exchanged them, `tokens` and `marks` the
  // times access tokens were minted and revocation markers written.
  datatype Machine = Machine(
    row: Session, chain: seq<Secret>, calls: seq<Call>, winners: seq<nat>, tokens: seq<int>, marks: seq<int>, now: int)

  datatype Action =
    | Present(secret: Secret, telegram: bool)
    | Write(call: nat, next: Secret)
    | Sign(call: nat)
    | SignOut
    | Mark

  function Opened(user: UserId, secret: Secret, telegram: bool, expiresAt: int, now: int): Machine {
    Machine(Session(user, secret, None, None, telegram, expiresAt, None), [secret], [], [], [now], [], now)
  }

  // New secrets are 32 random bytes: never one the session had before. Markers follow a committed revocation.
  predicate Possible(m: Machine, a: Action, now: int) {
    now >= m.now
    && match a {
      case Write(i, next) => i < |m.calls| && (m.calls[i].Waiting? || m.calls[i].Reusing?) && next !in m.chain
      case Sign(i) => i < |m.calls| && m.calls[i].Won?
      case Mark => m.row.revokedAt.Some?
      case _ => true
    }
  }

  function FirstStep(v: Verdict, secret: Secret): Call {
    match v
    case Refuse => Turned
    case Exchange => Waiting(secret)
    case Grace => Graced
    case Reuse => Reusing
  }

  function Act(m: Machine, a: Action, now: int): Machine
    requires Possible(m, a, now)
  {
    var n := m.(now := now);
    match a
    case Present(secret, telegram) =>
      n.(calls := m.calls + [FirstStep(Judge(Some(m.row), secret, telegram, now), secret)])
    case Write(i, next) =>
      if m.calls[i].Reusing? then
        n.(row := Revoked(m.row, now), calls := m.calls[i := Revoking])
      else
        var seen := m.calls[i].seen;
        if m.row.refresh == seen then
          n.(row := Rotated(m.row, seen, next, now), chain := m.chain + [next], winners := m.winners + [i],
             calls := m.calls[i := Won(seen, next, |m.winners|)])
        else n.(calls := m.calls[i := Lost(seen)])
    case Sign(i) =>
      n.(calls := m.calls[i := Signed(m.calls[i].seen, m.calls[i].next, m.calls[i].rank)], tokens := m.tokens + [now])
    case SignOut => n.(row := Revoked(m.row, now))
    case Mark => n.(marks := m.marks + [now])
  }

  datatype Timed = Timed(action: Action, now: int)

  predicate Legal(m: Machine, run: seq<Timed>)
    decreases |run|
  {
    run == [] || (Possible(m, run[0].action, run[0].now) && Legal(Act(m, run[0].action, run[0].now), run[1..]))
  }

  function Run(m: Machine, run: seq<Timed>): Machine
    requires Legal(m, run)
    decreases |run|
  {
    if run == [] then m else Run(Act(m, run[0].action, run[0].now), run[1..])
  }

  ghost predicate Distinct(s: seq<Secret>) {
    forall i, j | 0 <= i < j < |s| :: s[i] != s[j]
  }

  // The secrets form one chain, and the row holds its last two.
  ghost predicate OneChain(m: Machine) {
    var n := |m.chain|;
    && n >= 1 && Distinct(m.chain)
    && m.row.refresh == m.chain[n - 1]
    && m.row.previous == (if n == 1 then None else Some(m.chain[n - 2]))
    && (m.row.rotatedAt.Some? <==> n > 1)
  }

  // Exchange k took the secret chain[k] in and gave chain[k + 1] out, for one call only.
  ghost predicate CallOk(m: Machine, i: nat)
    requires i < |m.calls|
  {
    match m.calls[i]
    case Waiting(seen) => seen in m.chain
    case Lost(seen) => exists k | 0 <= k < |m.chain| - 1 :: m.chain[k] == seen
    case Won(seen, next, k) => WonOk(m, i, seen, next, k)
    case Signed(seen, next, k) => WonOk(m, i, seen, next, k)
    case _ => true
  }

  ghost predicate WonOk(m: Machine, i: nat, seen: Secret, next: Secret, k: nat) {
    k < |m.winners| && k + 1 < |m.chain| && m.winners[k] == i && m.chain[k] == seen && m.chain[k + 1] == next
  }

  ghost predicate WinnerOk(m: Machine, k: nat)
    requires k < |m.winners|
  {
    var i := m.winners[k];
    i < |m.calls| && (m.calls[i].Won? || m.calls[i].Signed?) && m.calls[i].rank == k
  }

  ghost predicate TimesOk(m: Machine) {
    && (forall i, j | 0 <= i <= j < |m.marks| :: m.marks[i] <= m.marks[j])
    && (forall i | 0 <= i < |m.marks| :: m.marks[i] <= m.now)
  }

  ghost predicate Ok(m: Machine) {
    && OneChain(m)
    && |m.winners| == |m.chain| - 1
    && (forall i | 0 <= i < |m.calls| :: CallOk(m, i))
    && (forall k | 0 <= k < |m.winners| :: WinnerOk(m, k))
    && TimesOk(m)
  }

  lemma CallOkSurvives(m: Machine, n: Machine, i: nat)
    requires m.chain <= n.chain && m.winners <= n.winners
    requires i < |m.calls| <= |n.calls| && n.calls[i] == m.calls[i] && CallOk(m, i)
    ensures CallOk(n, i)
  {
    if m.calls[i].Lost? {
      var k :| 0 <= k < |m.chain| - 1 && m.chain[k] == m.calls[i].seen;
      assert n.chain[k] == m.calls[i].seen;
    } else if m.calls[i].Waiting? {
      var k :| 0 <= k < |m.chain| && m.chain[k] == m.calls[i].seen;
      assert n.chain[k] == m.calls[i].seen;
    }
  }

  lemma ActKeepsChain(m: Machine, a: Action, now: int)
    requires Ok(m) && Possible(m, a, now)
    ensures OneChain(Act(m, a, now)) && TimesOk(Act(m, a, now))
    ensures m.chain <= Act(m, a, now).chain && m.winners <= Act(m, a, now).winners
  {
    hide CallOk, WinnerOk, Judge;
  }

  lemma ActKeepsCalls(m: Machine, a: Action, now: int, i: nat)
    requires Ok(m) && Possible(m, a, now) && i < |Act(m, a, now).calls|
    ensures CallOk(Act(m, a, now), i)
  {
    ActKeepsChain(m, a, now);
    hide WinnerOk, TimesOk;
    var n := Act(m, a, now);
    if i < |m.calls| {
      assert CallOk(m, i);
      if n.calls[i] == m.calls[i] {
        CallOkSurvives(m, n, i);
      } else if n.calls[i].Lost? {
        var k :| 0 <= k < |m.chain| && m.chain[k] == m.calls[i].seen;
        assert n.chain[k] == m.calls[i].seen;
      }
    }
  }

  lemma ActKeepsWinners(m: Machine, a: Action, now: int, k: nat)
    requires Ok(m) && Possible(m, a, now) && k < |Act(m, a, now).winners|
    ensures WinnerOk(Act(m, a, now), k)
  {
    hide CallOk, TimesOk, Distinct, Judge;
    if k < |m.winners| {
      assert WinnerOk(m, k);
    }
  }

  lemma ActKeepsOk(m: Machine, a: Action, now: int)
    requires Ok(m) && Possible(m, a, now)
    ensures Ok(Act(m, a, now))
  {
    ActKeepsChain(m, a, now);
    var n := Act(m, a, now);
    forall i: nat | i < |n.calls| ensures CallOk(n, i) {
      ActKeepsCalls(m, a, now, i);
    }
    forall k: nat | k < |n.winners| ensures WinnerOk(n, k) {
      ActKeepsWinners(m, a, now, k);
    }
    hide CallOk, WinnerOk, OneChain, TimesOk, Judge;
  }

  lemma {:induction false} RunKeepsOk(m: Machine, run: seq<Timed>)
    requires Ok(m) && Legal(m, run)
    ensures Ok(Run(m, run))
    decreases |run|
  {
    if run != [] {
      ActKeepsOk(m, run[0].action, run[0].now);
      RunKeepsOk(Act(m, run[0].action, run[0].now), run[1..]);
    }
  }

  // Every run of a newly opened session, in whatever order its calls interleave.
  lemma EveryRunIsOk(user: UserId, secret: Secret, telegram: bool, expiresAt: int, now: int, run: seq<Timed>)
    requires Legal(Opened(user, secret, telegram, expiresAt, now), run)
    ensures Ok(Run(Opened(user, secret, telegram, expiresAt, now), run))
  {
    RunKeepsOk(Opened(user, secret, telegram, expiresAt, now), run);
  }

  predicate Exchanged(c: Call) {
    c.Won? || c.Signed?
  }

  // Of all the calls that ever read a secret as current and have written, exactly one exchanged it.
  lemma OneWinnerPerSecret(m: Machine, i: nat)
    requires Ok(m) && i < |m.calls| && (m.calls[i].Lost? || Exchanged(m.calls[i]))
    ensures exists w | 0 <= w < |m.calls| ::
              && Exchanged(m.calls[w]) && m.calls[w].seen == m.calls[i].seen
              && forall j | 0 <= j < |m.calls| :: Exchanged(m.calls[j]) && m.calls[j].seen == m.calls[i].seen ==> j == w
  {
    assert CallOk(m, i);
    var k: nat :| k < |m.chain| - 1 && m.chain[k] == m.calls[i].seen;
    assert WinnerOk(m, k);
    var w := m.winners[k];
    assert CallOk(m, w);
    forall j | 0 <= j < |m.calls| && Exchanged(m.calls[j]) && m.calls[j].seen == m.calls[i].seen
      ensures j == w
    {
      assert CallOk(m, j);
    }
  }

  // What a presented secret gets, by its place in the chain: only the newest is exchanged; the one before it is
  // let off for 60 s after the exchange; any other, known or not, counts as reuse.
  lemma VerdictByPlace(m: Machine, secret: Secret, now: int)
    requires Ok(m) && m.row.revokedAt.None? && now < m.row.expiresAt
    ensures var v, n := Judge(Some(m.row), secret, m.row.telegram, now), |m.chain|;
            && (v == Exchange <==> secret == m.chain[n - 1])
            && (v == Grace <==> n > 1 && secret == m.chain[n - 2] && now - m.row.rotatedAt.value < ROTATION_GRACE_MS)
            && (v == Reuse <==> secret != m.chain[n - 1]
                                && !(n > 1 && secret == m.chain[n - 2]
                                    && now - m.row.rotatedAt.value < ROTATION_GRACE_MS))
  {
    if |m.chain| > 1 {
      assert m.chain[|m.chain| - 2] != m.chain[|m.chain| - 1];
    }
  }

  // Over every run, a call presented at or after the session's end, or on the other channel, is turned away, and
  // stays so.
  lemma {:induction false} LateOrForeignIsTurned(m: Machine, run: seq<Timed>, k: nat)
    requires Legal(m, run) && k < |run| && run[k].action.Present?
    requires run[k].now >= m.row.expiresAt || run[k].action.telegram != m.row.telegram
    ensures Legal(m, run[..k])
    ensures var call, n := |Run(m, run[..k]).calls|, Run(m, run);
            call < |n.calls| && n.calls[call] == Turned
    decreases k
  {
    var next := Act(m, run[0].action, run[0].now);
    if k == 0 {
      assert run[..k] == [];
      TurnedStaysTurned(next, run[1..], |m.calls|);
    } else {
      assert run[..k][1..] == run[1..][..k - 1];
      LateOrForeignIsTurned(next, run[1..], k - 1);
    }
  }

  lemma {:induction false} TurnedStaysTurned(m: Machine, run: seq<Timed>, i: nat)
    requires Legal(m, run) && i < |m.calls| && m.calls[i] == Turned
    ensures i < |Run(m, run).calls| && Run(m, run).calls[i] == Turned
    decreases |run|
  {
    if run != [] {
      TurnedStaysTurned(Act(m, run[0].action, run[0].now), run[1..], i);
    }
  }

  // A session's end, channel and owner are those it was opened with, over every run.
  lemma {:induction false} EndAndChannelStay(m: Machine, run: seq<Timed>)
    requires Legal(m, run)
    ensures var n := Run(m, run).row;
            n.expiresAt == m.row.expiresAt && n.telegram == m.row.telegram && n.user == m.row.user
    decreases |run|
  {
    if run != [] {
      EndAndChannelStay(Act(m, run[0].action, run[0].now), run[1..]);
    }
  }

  // Once the revocation is committed it stays, no call presented later gets anything, and any token minted from
  // then on belongs to a call that had read the row before.
  lemma {:induction false} RevocationIsFinal(m: Machine, run: seq<Timed>)
    requires Legal(m, run) && m.row.revokedAt.Some?
    ensures var n := Run(m, run);
            && n.row.revokedAt == m.row.revokedAt
            && |n.calls| >= |m.calls|
            && (forall i | |m.calls| <= i < |n.calls| :: n.calls[i] == Turned)
            && (forall i | 0 <= i < |m.calls| && m.calls[i] in {Turned, Graced} :: n.calls[i] == m.calls[i])
    decreases |run|
  {
    if run != [] {
      var next := Act(m, run[0].action, run[0].now);
      RevocationIsFinal(next, run[1..]);
      var n := Run(m, run);
      forall i | |m.calls| <= i < |n.calls| ensures n.calls[i] == Turned {
        if i < |next.calls| {
          assert next.calls[i] == Turned;
        }
      }
    }
  }

  function Until(m: Machine, ttlSec: nat): Option<int> {
    if m.marks == [] then None else Some(MarkerUntil(m.marks[|m.marks| - 1], ttlSec))
  }

  // In any state after a marker was written, no token of the session that was minted up to 60 s after the first
  // marker is accepted, now or later.
  lemma NoTokenOutlivesRevocation(m: Machine, ttlSec: nat, mintedAt: int, now: int)
    requires Ok(m) && m.marks != [] && mintedAt <= m.marks[0] + 60_000 && now >= m.now
    ensures !Accepts(mintedAt, Until(m, ttlSec), ttlSec, now)
  {
    AcceptedAfterMarkerExactlyWhen(mintedAt, m.marks[|m.marks| - 1], ttlSec);
    assert m.marks[0] <= m.marks[|m.marks| - 1] <= now;
  }

  // The write of a rotation looks at the hash alone: revoked or not, a call that read the row as current wins
  // exactly when what it read is still the newest secret.
  lemma WriteWinsExactlyWhen(m: Machine, i: nat, next: Secret, now: int)
    requires Ok(m) && Possible(m, Write(i, next), now) && m.calls[i].Waiting?
    ensures Act(m, Write(i, next), now).calls[i].Won? <==> m.calls[i].seen == m.chain[|m.chain| - 1]
  {
  }

  // Presented at 1, revoked at 2, written at 3, signed at 4, marked at 5.
  lemma LateRotation() returns (run: seq<Timed>, m: Machine)
    ensures Legal(Opened(7, 100, false, 1_000_000, 0), run) && m == Run(Opened(7, 100, false, 1_000_000, 0), run)
    ensures m.row.revokedAt == Some(2) && |m.winners| == 1 && m.tokens == [0, 4] && m.marks == [5] && m.now == 5
    ensures Judge(Some(m.row), m.row.refresh, m.row.telegram, m.now) == Refuse
  {
    var m0 := Opened(7, 100, false, 1_000_000, 0);
    var m1 := Act(m0, Present(100, false), 1);
    var m2 := Act(m1, SignOut, 2);
    var m3 := Act(m2, Write(0, 101), 3);
    var m4 := Act(m3, Sign(0), 4);
    m := Act(m4, Mark, 5);
    var r5 := [Timed(Mark, 5)];
    var r4 := [Timed(Sign(0), 4)] + r5;
    var r3 := [Timed(Write(0, 101), 3)] + r4;
    var r2 := [Timed(SignOut, 2)] + r3;
    run := [Timed(Present(100, false), 1)] + r2;
    assert r5[1..] == [] && r4[1..] == r5 && r3[1..] == r4 && r2[1..] == r3 && run[1..] == r2;
    RunsFrom(m4, r5);
    RunsFrom(m3, r4);
    RunsFrom(m2, r3);
    RunsFrom(m1, r2);
    RunsFrom(m0, run);
  }

  // A run in which such a call wins after the revocation is committed. Its refresh token is dead on arrival; its
  // access token, minted within 60 s of the marker, is refused from the marker on.
  lemma RotationMayFinishAfterRevocation() returns (run: seq<Timed>, m: Machine)
    ensures Legal(Opened(7, 100, false, 1_000_000, 0), run) && m == Run(Opened(7, 100, false, 1_000_000, 0), run)
    ensures m.row.revokedAt == Some(2) && |m.winners| == 1 && m.tokens == [0, 4] && m.marks == [5]
    ensures Judge(Some(m.row), m.row.refresh, m.row.telegram, m.now) == Refuse
    ensures forall ttlSec: nat, now: int | now >= m.now :: !Accepts(4, Until(m, ttlSec), ttlSec, now)
  {
    hide Legal, Run, Judge;
    run, m := LateRotation();
    EveryRunIsOk(7, 100, false, 1_000_000, 0, run);
    forall ttlSec: nat, now: int | now >= m.now ensures !Accepts(4, Until(m, ttlSec), ttlSec, now) {
      NoTokenOutlivesRevocation(m, ttlSec, 4, now);
    }
  }

  lemma RunsFrom(m: Machine, run: seq<Timed>)
    requires run != [] && Possible(m, run[0].action, run[0].now)
    requires Legal(Act(m, run[0].action, run[0].now), run[1..])
    ensures Legal(m, run) && Run(m, run) == Run(Act(m, run[0].action, run[0].now), run[1..])
  {
  }

  /* ---- the service ---- */

  datatype Tokens = Tokens(session: nat, secret: Secret, mintedAt: int)

  // What `rotate` answers: an error, an OK without tokens, or a new pair.
  datatype Answer = Unauthorized | NoTokens(user: UserId) | Pair(user: UserId, tokens: Tokens)

  predicate Hit(s: Session, id: nat, user: UserId, keep: Option<nat>) {
    s.user == user && s.revokedAt.None? && keep != Some(id)
  }

  // A session that exists, is not revoked and not at its end, presented on its own channel.
  predicate Presentable(rows: seq<Session>, id: nat, telegram: bool, now: int) {
    id < |rows| && rows[id].revokedAt.None? && now < rows[id].expiresAt && telegram == rows[id].telegram
  }

  class SessionsService {
    const accessTtlSec: nat
    var rows: seq<Session>
    // Redis: until when each revocation marker stands.
    var markers: map<nat, int>

    constructor (accessTtlSec: nat)
      ensures this.accessTtlSec == accessTtlSec && rows == [] && markers == map[]
    {
      this.accessTtlSec := accessTtlSec;
      rows, markers := [], map[];
    }

    ghost function Found(id: nat): Option<Session>
      reads this`rows
    {
      if id < |rows| then Some(rows[id]) else None
    }

    method Create(user: UserId, telegram: bool, secret: Secret, ttlMs: int, now: int) returns (tokens: Tokens)
      modifies this`rows
      ensures rows == old(rows) + [Opened(user, secret, telegram, now + ttlMs, now).row]
      ensures tokens == Tokens(|old(rows)|, secret, now)
    {
      rows := rows + [Session(user, secret, None, None, telegram, now + ttlMs, None)];
      tokens := Tokens(|rows| - 1, secret, now);
    }

    // Writes one marker per session, over any marker that still stands.
    method MarkRevoked(ids: seq<nat>, now: int)
      modifies this`markers
      ensures forall id :: id in markers <==> id in old(markers) || id in ids
      ensures forall id | id in markers ::
                markers[id] == if id in ids then MarkerUntil(now, accessTtlSec) else old(markers)[id]
    {
      var k := 0;
      while k < |ids|
        invariant 0 <= k <= |ids|
        invariant forall id :: id in markers <==> id in old(markers) || id in ids[..k]
        invariant forall id | id in markers ::
                    markers[id] == if id in ids[..k] then MarkerUntil(now, accessTtlSec) else old(markers)[id]
      {
        assert ids[..k + 1] == ids[..k] + [ids[k]];
        markers := markers[ids[k] := now + (accessTtlSec + 60) * 1000];
        k := k + 1;
      }
      assert ids[..k] == ids;
    }

    // The marker is written even when the row was already revoked, which only moves its end later.
    method Revoke(id: nat, now: int)
      modifies this
      ensures rows == if id < |old(rows)| then old(rows)[id := Revoked(old(rows)[id], now)] else old(rows)
      ensures markers == old(markers)[id := MarkerUntil(now, accessTtlSec)]
    {
      if id < |rows| && rows[id].revokedAt.None? {
        rows := rows[id := rows[id].(revokedAt := Some(now))];
      }
      MarkRevoked([id], now);
    }

    // One rotate call with nobody in between: the verdict decides the row, the marker and the answer.
    method Rotate(id: nat, secret: Secret, telegram: bool, next: Secret, now: int) returns (answer: Answer)
      modifies this
      ensures var verdict := Judge(old(Found(id)), secret, telegram, now);
              match verdict {
                case Refuse => rows == old(rows) && markers == old(markers) && answer == Unauthorized
                case Grace => rows == old(rows) && markers == old(markers) && answer == NoTokens(old(rows)[id].user)
                case Exchange =>
                  && rows == old(rows)[id := Rotated(old(rows)[id], secret, next, now)] && markers == old(markers)
                  && answer == Pair(old(rows)[id].user, Tokens(id, next, now))
                case Reuse =>
                  && rows == old(rows)[id := Revoked(old(rows)[id], now)] && answer == Unauthorized
                  && markers == old(markers)[id := MarkerUntil(now, accessTtlSec)]
              }
      ensures answer.Pair? <==>
              Presentable(old(rows), id, telegram, now) && secret == old(rows)[id].refresh
      ensures answer.Pair? ==>
                && answer == Pair(old(rows)[id].user, Tokens(id, next, now))
                && rows[id].refresh == next && rows[id].previous == Some(secret) && rows[id].rotatedAt == Some(now)
      ensures answer.NoTokens? <==>
              && Presentable(old(rows), id, telegram, now) && secret != old(rows)[id].refresh
              && old(rows)[id].previous == Some(secret)
              && old(rows)[id].rotatedAt.Some? && now < old(rows)[id].rotatedAt.value + 60_000
      ensures Presentable(old(rows), id, telegram, now) && !answer.Pair? && !answer.NoTokens? ==>
                rows[id].revokedAt == Some(now) && id in markers
                && markers[id] == now + (accessTtlSec + 60) * 1000
      ensures !Presentable(old(rows), id, telegram, now) ==> rows == old(rows) && markers == old(markers)
    {
      if id >= |rows| || rows[id].revokedAt.Some? || rows[id].expiresAt <= now {
        return Unauthorized;
      }
      var session := rows[id];
      if session.telegram != telegram {
        return Unauthorized;
      }
      if secret == session.refresh {
        rows := rows[id := session.(refresh := next, previous := Some(session.refresh), rotatedAt := Some(now))];
        return Pair(session.user, Tokens(id, next, now));
      }
      if session.previous == Some(secret) && session.rotatedAt.Some?
         && now - session.rotatedAt.value < ROTATION_GRACE_MS
      {
        return NoTokens(session.user);
      }
      Revoke(id, now);
      return Unauthorized;
    }

    // Signs a user out everywhere but on the kept session, and marks exactly the sessions it revoked.
    method RevokeAllForUser(user: UserId, keep: Option<nat>, now: int) returns (ids: seq<nat>)
      modifies this
      ensures |rows| == |old(rows)|
      ensures forall k | 0 <= k < |rows| :: k in ids <==> Hit(old(rows)[k], k, user, keep)
      ensures forall k | 0 <= k < |rows| ::
                k in ids <==> old(rows)[k].user == user && old(rows)[k].revokedAt.None? && keep != Some(k)
      ensures forall k | k in ids :: k < |rows| && rows[k].revokedAt == Some(now)
      ensures forall k | 0 <= k < |rows| :: rows[k] == if k in ids then Revoked(old(rows)[k], now) else old(rows)[k]
      ensures forall k | 0 <= k < |ids| :: ids[k] < |rows|
      ensures forall id :: id in markers <==> id in old(markers) || id in ids
      ensures forall id | id in markers ::
                markers[id] == if id in ids then MarkerUntil(now, accessTtlSec) else old(markers)[id]
    {
      ids := [];
      var k := 0;
      while k < |rows|
        invariant 0 <= k <= |rows| == |old(rows)| && markers == old(markers)
        invariant forall j | 0 <= j < |rows| :: rows[j] == if j in ids then Revoked(old(rows)[j], now) else old(rows)[j]
        invariant forall j | 0 <= j < |ids| :: ids[j] < k
        invariant forall j | 0 <= j < k :: j in ids <==> Hit(old(rows)[j], j, user, keep)
      {
        assert k !in ids;
        if Hit(rows[k], k, user, keep) {
          ids := ids + [k];
          rows := rows[k := rows[k].(revokedAt := Some(now))];
        }
        k := k + 1;
      }
      if |ids| > 0 {
        MarkRevoked(ids, now);
      }
    }

    // The access guard on a token whose signature is good: expiry first, then the session's marker.
    method CanActivate(id: nat, mintedAt: int, now: int) returns (ok: bool)
      ensures ok == Accepts(mintedAt, if id in markers then Some(markers[id]) else None, accessTtlSec, now)
    {
      if now / 1000 >= mintedAt / 1000 + accessTtlSec {
        return false;
      }
      if id in markers && now < markers[id] {
        return false;
      }
      return true;
    }
  }
}
