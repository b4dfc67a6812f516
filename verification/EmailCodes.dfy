/**
 * One-time withdrawal codes. Issuing and trying a code are several statements with nothing held
 * in between; each statement is one step here, and `CodeRaces` interleaves them.
 */
module EmailCodes {
  import opened Options
  import opened Sums
  import opened Books

  const CODE_TTL_MS: int := 10 * 60_000
  const MAX_ATTEMPTS: nat := 5
  const ISSUE_LIMIT: nat := 5
  const ISSUE_WINDOW_MS: int := 15 * 60_000

  datatype Answer = Accepted | CodeInvalid | CodeExpired | CodeLocked

  predicate IsLive(c: Code, user: UserId, now: int) {
    c.user == user && c.consumedAt.None? && c.expiresAt > now
  }

  // ---------------------------------------------------------------- the statements that write

  datatype Statement =
    | RetireLive(user: UserId, now: int)
    | InsertCode(user: UserId, amount: int, dest: Destination, secret: nat, now: int)
    | CountWrong(id: nat)
    | ConsumeCode(id: nat, now: int)

  function Retire(codes: seq<Code>, user: UserId, now: int): (r: seq<Code>)
    ensures |r| == |codes|
    ensures forall i :: 0 <= i < |codes| ==>
                          r[i] == if IsLive(codes[i], user, now) then codes[i].(expiresAt := now) else codes[i]
  {
    if codes == [] then []
    else
      var last := codes[|codes| - 1];
      Retire(codes[..|codes| - 1], user, now)
      + [if IsLive(last, user, now) then last.(expiresAt := now) else last]
  }

  function NewCode(user: UserId, amount: int, dest: Destination, secret: nat, now: int): Code {
    Code(user, amount, dest, secret, 0, now, now + CODE_TTL_MS, None)
  }

  // The increment asks nothing; the consuming update asks only that nobody consumed the code before.
  function Run(codes: seq<Code>, stmt: Statement): seq<Code> {
    match stmt
    case RetireLive(user, now) => Retire(codes, user, now)
    case InsertCode(user, amount, dest, secret, now) => codes + [NewCode(user, amount, dest, secret, now)]
    case CountWrong(id) =>
      if id < |codes| then codes[id := codes[id].(attempts := codes[id].attempts + 1)] else codes
    case ConsumeCode(id, now) =>
      if Wins(codes, id) then codes[id := codes[id].(consumedAt := Some(now))] else codes
  }

  predicate Wins(codes: seq<Code>, id: nat) {
    id < |codes| && codes[id].consumedAt.None?
  }

  // No statement removes a code, or touches its owner, its request, its secret, or a consumption.
  ghost predicate KeepsRequests(codes: seq<Code>, codes': seq<Code>) {
    && |codes| <= |codes'|
    && forall i :: 0 <= i < |codes| ==>
                     && codes'[i].user == codes[i].user && codes'[i].amount == codes[i].amount
                     && codes'[i].dest == codes[i].dest && codes'[i].secret == codes[i].secret
                     && (codes[i].consumedAt.Some? ==> codes'[i].consumedAt == codes[i].consumedAt)
  }

  lemma RunKeepsRequests(codes: seq<Code>, stmt: Statement)
    ensures KeepsRequests(codes, Run(codes, stmt))
  {
  }

  // ---------------------------------------------------------------- what is read before a write

  function IssuedOn(user: UserId, since: int): Code -> int {
    (c: Code) => if c.user == user && c.createdAt > since then 1 else 0
  }

  // The mail-bombing guard.
  predicate RateLimited(codes: seq<Code>, user: UserId, now: int) {
    Sum(codes, IssuedOn(user, now - ISSUE_WINDOW_MS)) >= ISSUE_LIMIT
  }

  // The customer's codes of the last quarter of an hour.
  function RecentIds(codes: seq<Code>, user: UserId, now: int): set<nat> {
    set k: nat | k < |codes| && codes[k].user == user && codes[k].createdAt > now - 900_000
  }

  lemma RateIs(codes: seq<Code>, user: UserId, now: int)
    ensures !RateLimited(codes, user, now) <==> |RecentIds(codes, user, now)| < 5
  {
    hide Sum;
    var f := IssuedOn(user, now - ISSUE_WINDOW_MS);
    SumCounts(codes, f);
    assert RecentIds(codes, user, now) == Ones(codes, f);
  }

  datatype Check = Refuse(why: Answer) | Wrong | Right

  // What a presentation makes of the row it read; nothing is held on it.
  function CheckGuess(codes: seq<Code>, user: UserId, id: nat, guess: nat, now: int): Check {
    if id >= |codes| || codes[id].user != user || codes[id].consumedAt.Some? then Refuse(CodeInvalid)
    else if codes[id].expiresAt <= now then Refuse(CodeExpired)
    else if codes[id].attempts >= MAX_ATTEMPTS then Refuse(CodeLocked)
    else if guess != codes[id].secret then Wrong
    else Right
  }

  // One issue and one presentation with nobody in between.
  function Issue(codes: seq<Code>, user: UserId, amount: int, dest: Destination, secret: nat,
                 now: int): Option<seq<Code>> {
    if RateLimited(codes, user, now) then None
    else Some(Run(Run(codes, RetireLive(user, now)), InsertCode(user, amount, dest, secret, now)))
  }

  function Consume(codes: seq<Code>, user: UserId, id: nat, guess: nat, now: int): (seq<Code>, Answer) {
    match CheckGuess(codes, user, id, guess, now)
    case Refuse(why) => (codes, why)
    case Wrong =>
      (Run(codes, CountWrong(id)), if codes[id].attempts + 1 >= MAX_ATTEMPTS then CodeLocked else CodeInvalid)
    case Right => (Run(codes, ConsumeCode(id, now)), Accepted)
  }
}
