/**
 * Any number of issues and presentations of codes at once, each interrupted between
 * its read and its writes. Single use holds of every interleaving; the bounds on guesses, on live
 * codes and on issues are exactly their limits plus the calls that overlap.
 */
module CodeRaces {
  import opened Options
  import opened Sums
  import opened Books
  import E = EmailCodes

  // A call between its statements.
  datatype Call =
    | TurnedAway(why: E.Answer)
    | WillCount(id: nat) | Counted(id: nat)
    | WillConsume(id: nat) | Won(id: nat) | Lost(id: nat)
    | Limited
    | WillRetire(request: Request) | WillInsert(request: Request) | Issued

  datatype Request = Request(user: UserId, amount: int, dest: Destination, secret: nat)

  datatype World = World(codes: seq<Code>, calls: seq<Call>, now: int)

  datatype Action =
    | Present(user: UserId, id: nat, guess: nat)
    | StartIssue(request: Request)
    | Write(call: nat)

  datatype Timed = Timed(action: Action, now: int)

  const FRESH := World([], [], 0)

  predicate HasWrite(c: Call) {
    c.WillCount? || c.WillConsume? || c.WillRetire? || c.WillInsert?
  }

  predicate Possible(w: World, t: Timed) {
    t.now >= w.now && (t.action.Write? ==> t.action.call < |w.calls| && HasWrite(w.calls[t.action.call]))
  }

  function Begun(check: E.Check, id: nat): Call {
    match check
    case Refuse(why) => TurnedAway(why)
    case Wrong => WillCount(id)
    case Right => WillConsume(id)
  }

  // The statement a call is about to run, and what the call is afterwards.
  function NextStatement(c: Call, now: int): E.Statement
    requires HasWrite(c)
  {
    match c
    case WillCount(id) => E.CountWrong(id)
    case WillConsume(id) => E.ConsumeCode(id, now)
    case WillRetire(r) => E.RetireLive(r.user, now)
    case WillInsert(r) => E.InsertCode(r.user, r.amount, r.dest, r.secret, now)
  }

  function Written(codes: seq<Code>, c: Call): Call
    requires HasWrite(c)
  {
    match c
    case WillCount(id) => Counted(id)
    case WillConsume(id) => if E.Wins(codes, id) then Won(id) else Lost(id)
    case WillRetire(r) => WillInsert(r)
    case WillInsert(_) => Issued
  }

  function Act(w: World, t: Timed): World
    requires Possible(w, t)
  {
    match t.action
    case Present(user, id, guess) =>
      w.(now := t.now, calls := w.calls + [Begun(E.CheckGuess(w.codes, user, id, guess, t.now), id)])
    case StartIssue(r) =>
      w.(now := t.now, calls := w.calls + [if E.RateLimited(w.codes, r.user, t.now) then Limited else WillRetire(r)])
    case Write(i) =>
      World(E.Run(w.codes, NextStatement(w.calls[i], t.now)), w.calls[i := Written(w.codes, w.calls[i])], t.now)
  }

  predicate Legal(run: seq<Timed>)
    decreases |run|, 0
  {
    run == [] || (Legal(run[..|run| - 1]) && Possible(After(run[..|run| - 1]), run[|run| - 1]))
  }

  function After(run: seq<Timed>): World
    requires Legal(run)
    decreases |run|, 1
  {
    if run == [] then FRESH else Act(After(run[..|run| - 1]), run[|run| - 1])
  }

  // ---------------------------------------------------------------- counting calls

  function One(b: bool): int { if b then 1 else 0 }

  function CountedOn(id: nat): Call -> int { (c: Call) => One(c == Counted(id)) }
  function InFlightOn(id: nat): Call -> int { (c: Call) => One(c == WillCount(id)) }
  // A wrong guess that was compared with the code.
  function ComparedOn(id: nat): Call -> int { (c: Call) => One(c == WillCount(id) || c == Counted(id)) }
  function WonOn(id: nat): Call -> int { (c: Call) => One(c == Won(id)) }
  function InsertingOn(user: UserId): Call -> int {
    (c: Call) => One(c.WillInsert? && c.request.user == user)
  }
  function IssuingOn(user: UserId): Call -> int {
    (c: Call) => One((c.WillRetire? || c.WillInsert?) && c.request.user == user)
  }
  function LiveOn(user: UserId, now: int): Code -> int { (c: Code) => One(E.IsLive(c, user, now)) }

  function Compared(w: World, id: nat): int { Sum(w.calls, ComparedOn(id)) }
  function InFlight(w: World, id: nat): int { Sum(w.calls, InFlightOn(id)) }
  function Inserting(user: UserId, w: World): int { Sum(w.calls, InsertingOn(user)) }
  function Issuing(user: UserId, w: World): int { Sum(w.calls, IssuingOn(user)) }
  function Live(user: UserId, w: World): int { Sum(w.codes, LiveOn(user, w.now)) }
  function InWindow(user: UserId, w: World): int { Sum(w.codes, E.IssuedOn(user, w.now - E.ISSUE_WINDOW_MS)) }

  ghost predicate CallOk(w: World, c: Call) {
    match c
    case WillCount(id) => id < |w.codes|
    case Counted(id) => id < |w.codes|
    case WillConsume(id) => id < |w.codes|
    case Won(id) => id < |w.codes|
    case Lost(id) => id < |w.codes| && w.codes[id].consumedAt.Some?
    case _ => true
  }

  // The attempts column counts the increments done, and a code is consumed by the one call that won it.
  ghost predicate CodeOk(w: World, id: nat) {
    if id < |w.codes| then
      && w.codes[id].attempts == Sum(w.calls, CountedOn(id))
      && Sum(w.calls, WonOn(id)) == One(w.codes[id].consumedAt.Some?)
    else Sum(w.calls, CountedOn(id)) == 0 && Sum(w.calls, WonOn(id)) == 0
  }

  ghost predicate Ok(w: World) {
    && (forall i :: 0 <= i < |w.calls| ==> CallOk(w, w.calls[i]))
    && (forall id: nat :: CodeOk(w, id))
  }

  // How one step moves a count over the calls.
  lemma CallsMove(w: World, t: Timed, f: Call -> int)
    requires Possible(w, t)
    ensures var n := Act(w, t);
            if t.action.Write? then
              Sum(n.calls, f) == Sum(w.calls, f) - f(w.calls[t.action.call]) + f(n.calls[t.action.call])
            else Sum(n.calls, f) == Sum(w.calls, f) + f(n.calls[|w.calls|])
  {
    hide E.CheckGuess, E.RateLimited, E.Run;
    match t.action
    case Write(i) => SumUpdate(w.calls, i, Written(w.codes, w.calls[i]), f);
    case _ => SumAppend(w.calls, Act(w, t).calls[|w.calls|], f);
  }

  lemma ActKeepsCall(w: World, t: Timed, i: nat)
    requires Ok(w) && Possible(w, t) && i < |Act(w, t).calls|
    ensures CallOk(Act(w, t), Act(w, t).calls[i])
  {
    hide Sum, E.RateLimited, CodeOk, E.Retire;
    if i < |w.calls| {
      assert CallOk(w, w.calls[i]);
    }
  }

  lemma ActKeepsCode(w: World, t: Timed, id: nat)
    requires Ok(w) && Possible(w, t)
    ensures CodeOk(Act(w, t), id)
  {
    hide Sum, E.RateLimited;
    assert CodeOk(w, id);
    if t.action.Write? {
      assert CallOk(w, w.calls[t.action.call]);
    }
    CallsMove(w, t, CountedOn(id));
    CallsMove(w, t, WonOn(id));
  }

  lemma ActKeepsOk(w: World, t: Timed)
    requires Ok(w) && Possible(w, t)
    ensures Ok(Act(w, t))
  {
    hide CallOk, CodeOk, Act, Possible;
    var n := Act(w, t);
    forall i | 0 <= i < |n.calls| ensures CallOk(n, n.calls[i]) {
      ActKeepsCall(w, t, i);
    }
    forall id: nat ensures CodeOk(n, id) {
      ActKeepsCode(w, t, id);
    }
  }

  lemma {:induction false} EveryRunIsOk(run: seq<Timed>)
    requires Legal(run)
    ensures Ok(After(run))
    decreases |run|
  {
    if run != [] {
      EveryRunIsOk(run[..|run| - 1]);
      ActKeepsOk(After(run[..|run| - 1]), run[|run| - 1]);
    }
  }

  // ---------------------------------------------------------------- single use

  // In every interleaving a code is accepted at most once, and as soon as any call that matched it has
  // written, exactly once.
  lemma SingleUse(run: seq<Timed>, id: nat, i: nat, j: nat)
    requires Legal(run) && i < |After(run).calls| && j < |After(run).calls|
    ensures var calls := After(run).calls;
            && (calls[i] == Won(id) && calls[j] == Won(id) ==> i == j)
            && (calls[i] == Lost(id) ==> exists k :: 0 <= k < |calls| && calls[k] == Won(id))
  {
    EveryRunIsOk(run);
    var w := After(run);
    assert CodeOk(w, id) && CallOk(w, w.calls[i]);
    if i != j {
      TwoAtLeast(w.calls, WonOn(id), i, j);
    }
    if w.calls[i] == Lost(id) && forall k :: 0 <= k < |w.calls| ==> w.calls[k] != Won(id) {
      SumZero(w.calls, WonOn(id));
    }
  }

  lemma {:induction false} TwoAtLeast(calls: seq<Call>, f: Call -> int, i: nat, j: nat)
    requires i < |calls| && j < |calls| && i != j
    requires forall c :: f(c) >= 0
    ensures Sum(calls, f) >= f(calls[i]) + f(calls[j])
    decreases |calls|
  {
    var k := |calls| - 1;
    if i < k && j < k {
      TwoAtLeast(calls[..k], f, i, j);
    } else {
      OneAtLeast(calls[..k], f, if i < k then i else j);
    }
  }

  lemma {:induction false} OneAtLeast(calls: seq<Call>, f: Call -> int, i: nat)
    requires i < |calls|
    requires forall c :: f(c) >= 0
    ensures Sum(calls, f) >= f(calls[i])
    decreases |calls|
  {
    var k := |calls| - 1;
    if i < k {
      OneAtLeast(calls[..k], f, i);
    } else {
      SumNonNeg(calls[..k], f);
    }
  }

  // A call that matched wins exactly when nobody has consumed the code, whatever became of its expiry
  // and its attempts since the read.
  lemma WinsExactlyWhen(w: World, i: nat, now: int)
    requires Ok(w) && i < |w.calls| && w.calls[i].WillConsume? && now >= w.now
    ensures var id := w.calls[i].id;
            Act(w, Timed(Write(i), now)).calls[i] == Won(id) <==> Sum(w.calls, WonOn(id)) == 0
  {
    assert CallOk(w, w.calls[i]) && CodeOk(w, w.calls[i].id);
  }

  // ---------------------------------------------------------------- wrong guesses

  lemma ComparedIsCountedPlusInFlight(calls: seq<Call>, id: nat)
    ensures Sum(calls, ComparedOn(id)) == Sum(calls, CountedOn(id)) + Sum(calls, InFlightOn(id))
  {
    SumAdds(calls, CountedOn(id), InFlightOn(id), ComparedOn(id));
  }

  // No presentation of the code is made while more than k wrong tries on it await their increment.
  ghost predicate TriesOverlap(run: seq<Timed>, id: nat, k: nat)
    requires Legal(run)
    decreases |run|
  {
    run == [] ||
    (var n := |run| - 1;
     && TriesOverlap(run[..n], id, k)
     && (run[n].action.Present? && run[n].action.id == id ==> InFlight(After(run[..n]), id) <= k))
  }

  // Only a presentation that found fewer than five increments done compares another wrong guess.
  lemma StepCompares(w: World, t: Timed, id: nat)
    requires Ok(w) && Possible(w, t)
    ensures var n := Act(w, t);
            || Compared(n, id) == Compared(w, id)
            || (&& t.action.Present? && t.action.id == id
                && Compared(n, id) == Compared(w, id) + 1 <= E.MAX_ATTEMPTS + InFlight(w, id))
  {
    hide Sum, E.RateLimited, E.Run;
    assert CodeOk(w, id);
    CallsMove(w, t, ComparedOn(id));
    ComparedIsCountedPlusInFlight(w.calls, id);
  }

  // At most five wrong guesses are ever compared with a code, plus those in flight; five when tries do
  // not overlap (k = 0).
  lemma {:induction false} GuessesWithin(run: seq<Timed>, id: nat, k: nat)
    requires Legal(run) && TriesOverlap(run, id, k)
    ensures Compared(After(run), id) <= E.MAX_ATTEMPTS + k
    decreases |run|
  {
    hide Compared, InFlight, Act, Ok, Possible;
    if run == [] {
      NothingCompared();
    } else {
      var n := |run| - 1;
      GuessesWithin(run[..n], id, k);
      EveryRunIsOk(run[..n]);
      StepCompares(After(run[..n]), run[n], id);
    }
  }

  lemma NothingCompared()
    ensures forall id: nat :: Compared(FRESH, id) == 0 && InFlight(FRESH, id) == 0
  {
  }

  lemma NothingYet(user: UserId)
    ensures Live(user, FRESH) == 0 && InWindow(user, FRESH) == 0
    ensures Inserting(user, FRESH) == 0 && Issuing(user, FRESH) == 0
  {
  }

  // ---------------------------------------------------------------- live codes and issues

  predicate IsRetireOf(user: UserId, c: Call) {
    c.WillRetire? && c.request.user == user
  }

  // No issue of the customer retires while more than k others stand between their retiring and their insert.
  ghost predicate IssuesOverlap(user: UserId, run: seq<Timed>, k: nat)
    requires Legal(run)
    decreases |run|
  {
    run == [] ||
    (var n := |run| - 1;
     var w := After(run[..n]);
     && IssuesOverlap(user, run[..n], k)
     && (run[n].action.Write? && IsRetireOf(user, w.calls[run[n].action.call]) ==> Inserting(user, w) <= k))
  }

  // Later, no more codes are live, and no more lie in the rate window.
  lemma TimeOnlyLowers(codes: seq<Code>, user: UserId, now: int, later: int)
    requires now <= later
    ensures Sum(codes, LiveOn(user, later)) <= Sum(codes, LiveOn(user, now))
    ensures Sum(codes, E.IssuedOn(user, later - E.ISSUE_WINDOW_MS))
            <= Sum(codes, E.IssuedOn(user, now - E.ISSUE_WINDOW_MS))
  {
    SumLe(codes, LiveOn(user, later), LiveOn(user, now));
    SumLe(codes, E.IssuedOn(user, later - E.ISSUE_WINDOW_MS), E.IssuedOn(user, now - E.ISSUE_WINDOW_MS));
  }

  // What a statement does to the two counts at its own time.
  lemma StatementMoves(codes: seq<Code>, user: UserId, stmt: E.Statement, now: int)
    requires stmt.RetireLive? || stmt.InsertCode? ==> stmt.now == now
    ensures var after := E.Run(codes, stmt);
            && Sum(after, LiveOn(user, now)) <=
               (if stmt.RetireLive? && stmt.user == user then 0
                else Sum(codes, LiveOn(user, now)) + One(stmt.InsertCode? && stmt.user == user))
            && Sum(after, E.IssuedOn(user, now - E.ISSUE_WINDOW_MS)) ==
               Sum(codes, E.IssuedOn(user, now - E.ISSUE_WINDOW_MS)) + One(stmt.InsertCode? && stmt.user == user)
  {
    var after, live, issued := E.Run(codes, stmt), LiveOn(user, now), E.IssuedOn(user, now - E.ISSUE_WINDOW_MS);
    match stmt
    case RetireLive(u, _) =>
      if u == user {
        SumZero(after, live);
      } else {
        SameSum(after, codes, live);
      }
      SameSum(after, codes, issued);
    case InsertCode(u, amount, dest, secret, _) =>
      SumAppend(codes, E.NewCode(u, amount, dest, secret, now), live);
      SumAppend(codes, E.NewCode(u, amount, dest, secret, now), issued);
    case CountWrong(id) =>
      if id < |codes| {
        SumUpdate(codes, id, after[id], live);
        SumUpdate(codes, id, after[id], issued);
      }
    case ConsumeCode(id, _) =>
      if E.Wins(codes, id) {
        SumUpdate(codes, id, after[id], live);
        SumUpdate(codes, id, after[id], issued);
      }
  }

  lemma {:induction false} SameSum(a: seq<Code>, b: seq<Code>, f: Code -> int)
    requires |a| == |b| && forall i :: 0 <= i < |a| ==> f(a[i]) == f(b[i])
    ensures Sum(a, f) == Sum(b, f)
    decreases |a|
  {
    if a != [] {
      SameSum(a[..|a| - 1], b[..|b| - 1], f);
    }
  }

  lemma StepLives(user: UserId, w: World, t: Timed)
    requires Possible(w, t)
    ensures var n := Act(w, t);
            if t.action.Write? && IsRetireOf(user, w.calls[t.action.call]) then
              Live(user, n) + Inserting(user, n) <= Inserting(user, w) + 1
            else Live(user, n) + Inserting(user, n) <= Live(user, w) + Inserting(user, w)
  {
    hide Sum, E.RateLimited, E.Run, E.CheckGuess, E.IsLive;
    CallsMove(w, t, InsertingOn(user));
    TimeOnlyLowers(w.codes, user, w.now, t.now);
    if t.action.Write? {
      StatementMoves(w.codes, user, NextStatement(w.calls[t.action.call], t.now), t.now);
    }
  }

  // At most one code of a customer is live, plus the issues that overlap; one when they do not (k = 0).
  lemma {:induction false} LiveWithin(user: UserId, run: seq<Timed>, k: nat)
    requires Legal(run) && IssuesOverlap(user, run, k)
    ensures Live(user, After(run)) + Inserting(user, After(run)) <= 1 + k
    decreases |run|
  {
    hide Live, Inserting, Act;
    if run == [] {
      NothingYet(user);
    } else {
      var n := |run| - 1;
      LiveWithin(user, run[..n], k);
      StepLives(user, After(run[..n]), run[n]);
    }
  }

  // No issue of the customer starts while more than k others have been let through the rate check and not yet inserted.
  ghost predicate StartsOverlap(user: UserId, run: seq<Timed>, k: nat)
    requires Legal(run)
    decreases |run|
  {
    run == [] ||
    (var n := |run| - 1;
     && StartsOverlap(user, run[..n], k)
     && (run[n].action.StartIssue? && run[n].action.request.user == user ==> Issuing(user, After(run[..n])) <= k))
  }

  lemma StepIssues(user: UserId, w: World, t: Timed)
    requires Possible(w, t)
    ensures var n := Act(w, t);
            || InWindow(user, n) + Issuing(user, n) <= InWindow(user, w) + Issuing(user, w)
            || (&& t.action.StartIssue? && t.action.request.user == user
                && InWindow(user, n) + Issuing(user, n) <= E.ISSUE_LIMIT + Issuing(user, w))
  {
    hide Sum, E.Run, E.CheckGuess;
    CallsMove(w, t, IssuingOn(user));
    TimeOnlyLowers(w.codes, user, w.now, t.now);
    if t.action.Write? {
      StatementMoves(w.codes, user, NextStatement(w.calls[t.action.call], t.now), t.now);
    }
  }

  // The same for the rate limit: five issues in any window, plus those that overlap.
  lemma {:induction false} IssuesWithin(user: UserId, run: seq<Timed>, k: nat)
    requires Legal(run) && StartsOverlap(user, run, k)
    ensures InWindow(user, After(run)) + Issuing(user, After(run)) <= E.ISSUE_LIMIT + k
    decreases |run|
  {
    hide InWindow, Issuing, Act;
    if run == [] {
      NothingYet(user);
    } else {
      var n := |run| - 1;
      IssuesWithin(user, run[..n], k);
      StepIssues(user, After(run[..n]), run[n]);
    }
  }

  // ---------------------------------------------------------------- the bounds are reached

  function SomeRequest(user: UserId): Request { Request(user, 1, Destination(0, "", ""), 7) }
  const WRONG_GUESS: nat := 8

  // One more action at the end of a run.
  lemma Extend(run: seq<Timed>, a: Action) returns (longer: seq<Timed>)
    requires Legal(run) && Possible(After(run), Timed(a, After(run).now))
    ensures longer == run + [Timed(a, After(run).now)] && longer[..|run|] == run
    ensures Legal(longer)
    ensures After(longer) == Act(After(run), Timed(a, After(run).now))
  {
    longer := run + [Timed(a, After(run).now)];
    assert longer[..|run|] == run;
  }

  // A first code issued, nothing tried.
  lemma FirstCode(user: UserId, k: nat) returns (run: seq<Timed>)
    ensures Legal(run) && TriesOverlap(run, 0, k)
    ensures After(run) == World([E.NewCode(user, 1, Destination(0, "", ""), 7, 0)], [Issued], 0)
  {
    var r1 := Extend([], StartIssue(SomeRequest(user)));
    assert [] + [WillRetire(SomeRequest(user))] == [WillRetire(SomeRequest(user))];
    assert TriesOverlap(r1, 0, k);
    var r2 := Extend(r1, Write(0));
    assert TriesOverlap(r2, 0, k);
    run := Extend(r2, Write(0));
    assert [] + [E.NewCode(user, 1, Destination(0, "", ""), 7, 0)] ==
        [E.NewCode(user, 1, Destination(0, "", ""), 7, 0)];
  }

  // The first code with `a` increments done, unexpired and unconsumed.
  ghost predicate CodeAt(user: UserId, w: World, a: nat) {
    w.now == 0 && w.codes == [E.NewCode(user, 1, Destination(0, "", ""), 7, 0).(attempts := a)]
  }

  lemma PresentWrong(user: UserId, run: seq<Timed>, k: nat, a: nat) returns (longer: seq<Timed>)
    requires Legal(run) && TriesOverlap(run, 0, k) && CodeAt(user, After(run), a)
              && a < E.MAX_ATTEMPTS
    requires InFlight(After(run), 0) <= k
    ensures Legal(longer) && TriesOverlap(longer, 0, k) && CodeAt(user, After(longer), a)
    ensures After(longer).calls == After(run).calls + [WillCount(0)]
    ensures InFlight(After(longer), 0) == InFlight(After(run), 0) + 1
    ensures Compared(After(longer), 0) == Compared(After(run), 0) + 1
  {
    var w := After(run);
    longer := Extend(run, Present(user, 0, WRONG_GUESS));
    SumAppend(w.calls, WillCount(0), InFlightOn(0));
    SumAppend(w.calls, WillCount(0), ComparedOn(0));
  }

  // The last call counts its wrong guess.
  lemma CountLast(user: UserId, run: seq<Timed>, k: nat, a: nat, calls: seq<Call>) returns (longer: seq<Timed>)
    requires Legal(run) && TriesOverlap(run, 0, k) && CodeAt(user, After(run), a)
    requires After(run).calls == calls + [WillCount(0)]
    ensures Legal(longer) && TriesOverlap(longer, 0, k) && CodeAt(user, After(longer), a + 1)
    ensures After(longer).calls == calls + [Counted(0)]
  {
    hide E.CheckGuess, E.RateLimited;
    longer := Extend(run, Write(|calls|));
  }

  // A wrong try that nothing overlaps: compared, then counted.
  lemma TryWrong(user: UserId, run: seq<Timed>, k: nat, a: nat) returns (longer: seq<Timed>)
    requires Legal(run) && TriesOverlap(run, 0, k) && CodeAt(user, After(run), a)
              && a < E.MAX_ATTEMPTS
    requires InFlight(After(run), 0) == 0
    ensures Legal(longer) && TriesOverlap(longer, 0, k) && CodeAt(user, After(longer), a + 1)
    ensures After(longer).calls == After(run).calls + [Counted(0)]
    ensures InFlight(After(longer), 0) == 0
    ensures Compared(After(longer), 0) == Compared(After(run), 0) + 1
  {
    hide Sum, Legal, After, TriesOverlap, CodeAt;
    var calls := After(run).calls;
    var mid := PresentWrong(user, run, k, a);
    longer := CountLast(user, mid, k, a, calls);
    SumAppend(calls, Counted(0), InFlightOn(0));
    SumAppend(calls, Counted(0), ComparedOn(0));
  }

  lemma {:induction false} TryWrongTimes(user: UserId, run: seq<Timed>, k: nat, a: nat, n: nat)
      returns (longer: seq<Timed>)
    requires Legal(run) && TriesOverlap(run, 0, k) && CodeAt(user, After(run), a)
              && a + n <= E.MAX_ATTEMPTS
    requires InFlight(After(run), 0) == 0
    ensures Legal(longer) && TriesOverlap(longer, 0, k) && CodeAt(user, After(longer), a + n)
    ensures After(run).calls <= After(longer).calls
    ensures InFlight(After(longer), 0) == 0
    ensures Compared(After(longer), 0) == Compared(After(run), 0) + n
    decreases n
  {
    hide After, TriesOverlap, InFlight, Compared, CodeAt, Legal;
    longer := run;
    if n > 0 {
      var mid := TryWrongTimes(user, run, k, a, n - 1);
      longer := TryWrong(user, mid, k, a + n - 1);
    }
  }

  lemma {:induction false} PresentWrongTimes(user: UserId, run: seq<Timed>, k: nat, a: nat, n: nat)
      returns (longer: seq<Timed>)
    requires Legal(run) && TriesOverlap(run, 0, k) && CodeAt(user, After(run), a)
              && a < E.MAX_ATTEMPTS
    requires InFlight(After(run), 0) == 0 && n <= k + 1
    ensures Legal(longer) && TriesOverlap(longer, 0, k) && CodeAt(user, After(longer), a)
    ensures InFlight(After(longer), 0) == n
    ensures Compared(After(longer), 0) == Compared(After(run), 0) + n
    decreases n
  {
    hide After, TriesOverlap, InFlight, Compared, CodeAt, Legal;
    longer := run;
    if n > 0 {
      var mid := PresentWrongTimes(user, run, k, a, n - 1);
      longer := PresentWrong(user, mid, k, a);
    }
  }

  // For every k some run with at most k tries in flight compares five plus k wrong guesses: the bound is exact.
  lemma GuessBoundIsReached(user: UserId, k: nat) returns (run: seq<Timed>)
    ensures Legal(run) && TriesOverlap(run, 0, k)
    ensures Compared(After(run), 0) == E.MAX_ATTEMPTS + k
  {
    var first := FirstCode(user, k);
    OnlyIssued();
    hide After, TriesOverlap, InFlight, Compared, Legal;
    assert CodeAt(user, After(first), 0);
    var four := TryWrongTimes(user, first, k, 0, 4);
    run := PresentWrongTimes(user, four, k, 4, k + 1);
  }

  lemma OnlyIssued()
    ensures forall codes: seq<Code>, now: int ::
              var w := World(codes, [Issued], now);
              InFlight(w, 0) == 0 && Compared(w, 0) == 0
  {
    assert [Issued][..0] == [];
  }

  // A matching guess has been read, nothing else tried.
  lemma Matched(user: UserId) returns (run: seq<Timed>)
    ensures Legal(run) && TriesOverlap(run, 0, 0) && After(run).calls == [Issued, WillConsume(0)]
    ensures CodeAt(user, After(run), 0) && InFlight(After(run), 0) == 0
  {
    hide Sum;
    var first := FirstCode(user, 0);
    OnlyIssued();
    run := Extend(first, Present(user, 0, 7));
    SumAppend(After(first).calls, WillConsume(0), InFlightOn(0));
    assert TriesOverlap(run, 0, 0);
  }

  // Then five wrong ones have locked the code.
  lemma MatchedThenLocked(user: UserId) returns (run: seq<Timed>)
    ensures Legal(run) && |After(run).calls| > 1 && After(run).calls[1] == WillConsume(0)
    ensures CodeAt(user, After(run), E.MAX_ATTEMPTS)
  {
    hide Legal, After, TriesOverlap, InFlight, Compared, CodeAt;
    var matched := Matched(user);
    run := TryWrongTimes(user, matched, 0, 0, 5);
    assert After(matched).calls[1] == WillConsume(0);
  }

  // And a new issue has retired it.
  lemma MatchedThenRetired(user: UserId) returns (run: seq<Timed>)
    ensures Legal(run) && |After(run).calls| > 1 && After(run).calls[1] == WillConsume(0) && After(run).now == 0
    ensures After(run).codes ==
            [E.NewCode(user, 1, Destination(0, "", ""), 7, 0).(attempts := E.MAX_ATTEMPTS, expiresAt := 0)]
  {
    hide Legal, E.RateLimited;
    var locked := MatchedThenLocked(user);
    var w := After(locked);
    OneCodeIsNotLimited(user, w.codes, w.now);
    var asked := Extend(locked, StartIssue(SomeRequest(user)));
    run := Extend(asked, Write(|w.calls|));
  }

  // A call that matched before the code was locked and retired still consumes it.
  lemma LockedAndRetiredCodeIsConsumed(user: UserId) returns (run: seq<Timed>, i: nat)
    ensures Legal(run) && i < |After(run).calls| && After(run).calls[i] == Won(0)
    ensures var w := After(run);
            && |w.codes| == 1 && w.codes[0].consumedAt.Some? && w.codes[0].attempts == E.MAX_ATTEMPTS
                && w.codes[0].expiresAt <= w.now
            && E.CheckGuess([w.codes[0].(consumedAt := None)], user, 0, 7, w.now).Refuse?
  {
    hide Legal;
    var retired := MatchedThenRetired(user);
    i := 1;
    run := Extend(retired, Write(1));
  }

  lemma OneCodeIsNotLimited(user: UserId, codes: seq<Code>, now: int)
    requires |codes| == 1
    ensures !E.RateLimited(codes, user, now)
  {
    var f := E.IssuedOn(user, now - E.ISSUE_WINDOW_MS);
    SumAppend([], codes[0], f);
    assert codes == [] + [codes[0]];
  }

  // n issues side by side: j of them have taken their next step.
  function Row(n: nat, j: nat, ahead: Call, behind: Call): seq<Call>
  {
    seq(n, i => if i < j then ahead else behind)
  }

  lemma {:induction false} RetiredAreInserting(user: UserId, n: nat, j: nat)
    requires j <= n
    ensures Sum(Row(n, j, WillInsert(SomeRequest(user)), WillRetire(SomeRequest(user))), InsertingOn(user)) == j
    decreases n
  {
    if n > 0 {
      var j0 := if j == n then n - 1 else j;
      RetiredAreInserting(user, n - 1, j0);
      var last := if j == n then WillInsert(SomeRequest(user)) else WillRetire(SomeRequest(user));
      var front := Row(n - 1, j0, WillInsert(SomeRequest(user)), WillRetire(SomeRequest(user)));
      assert Row(n, j, WillInsert(SomeRequest(user)), WillRetire(SomeRequest(user))) == front + [last];
      SumAppend(front, last, InsertingOn(user));
    }
  }

  lemma {:induction false} Start(user: UserId, n: nat, k: nat) returns (run: seq<Timed>)
    ensures Legal(run) && IssuesOverlap(user, run, k)
    ensures After(run) == World([], Row(n, 0, WillRetire(SomeRequest(user)), WillRetire(SomeRequest(user))), 0)
    decreases n
  {
    run := [];
    if n > 0 {
      var before := Start(user, n - 1, k);
      run := Extend(before, StartIssue(SomeRequest(user)));
      assert After(run).calls == Row(n, 0, WillRetire(SomeRequest(user)), WillRetire(SomeRequest(user)));
    }
  }

  lemma {:induction false} RetireEach(user: UserId, n: nat, j: nat, k: nat) returns (run: seq<Timed>)
    requires j <= n <= k + 1
    ensures Legal(run) && IssuesOverlap(user, run, k)
    ensures After(run) == World([], Row(n, j, WillInsert(SomeRequest(user)), WillRetire(SomeRequest(user))), 0)
    decreases j
  {
    if j == 0 {
      run := Start(user, n, k);
      assert Row(n, 0, WillRetire(SomeRequest(user)), WillRetire(SomeRequest(user)))
          == Row(n, 0, WillInsert(SomeRequest(user)), WillRetire(SomeRequest(user)));
    } else {
      var before := RetireEach(user, n, j - 1, k);
      RetiredAreInserting(user, n, j - 1);
      run := Extend(before, Write(j - 1));
      assert After(run).calls == Row(n, j, WillInsert(SomeRequest(user)), WillRetire(SomeRequest(user)));
    }
  }

  lemma {:induction false} InsertEach(user: UserId, n: nat, j: nat, k: nat) returns (run: seq<Timed>)
    requires j <= n <= k + 1
    ensures Legal(run) && IssuesOverlap(user, run, k)
    ensures After(run).calls == Row(n, j, Issued, WillInsert(SomeRequest(user))) && After(run).now == 0
    ensures Live(user, After(run)) == j
    decreases j
  {
    if j == 0 {
      run := RetireEach(user, n, n, k);
      assert Row(n, n, WillInsert(SomeRequest(user)), WillRetire(SomeRequest(user))) ==
          Row(n, 0, Issued, WillInsert(SomeRequest(user)));
    } else {
      var before := InsertEach(user, n, j - 1, k);
      run := Extend(before, Write(j - 1));
      assert After(run).calls == Row(n, j, Issued, WillInsert(SomeRequest(user)));
      SumAppend(After(before).codes, E.NewCode(user, 1, Destination(0, "", ""), 7, 0), LiveOn(user, 0));
    }
  }

  // For every k some run in which at most k issues overlap leaves one plus k live codes: the bound is exact.
  lemma LiveBoundIsReached(user: UserId, k: nat) returns (run: seq<Timed>)
    ensures Legal(run) && IssuesOverlap(user, run, k)
    ensures Live(user, After(run)) == 1 + k
  {
    run := InsertEach(user, k + 1, k + 1, k);
  }

  // An issue that passes the rate check, at the time of the last step.
  lemma StartOne(user: UserId, run: seq<Timed>, k: nat) returns (longer: seq<Timed>)
    requires Legal(run) && StartsOverlap(user, run, k)
    requires InWindow(user, After(run)) < E.ISSUE_LIMIT && Issuing(user, After(run)) <= k
    ensures Legal(longer) && StartsOverlap(user, longer, k)
    ensures InWindow(user, After(longer)) == InWindow(user, After(run))
    ensures Issuing(user, After(longer)) == Issuing(user, After(run)) + 1
  {
    hide Sum;
    var w := After(run);
    longer := Extend(run, StartIssue(SomeRequest(user)));
    CallsMove(w, Timed(StartIssue(SomeRequest(user)), w.now), IssuingOn(user));
  }

  lemma {:induction false} StartTimes(user: UserId, run: seq<Timed>, k: nat, n: nat) returns (longer: seq<Timed>)
    requires Legal(run) && StartsOverlap(user, run, k)
    requires InWindow(user, After(run)) < E.ISSUE_LIMIT
    requires Issuing(user, After(run)) == 0 && n <= k + 1
    ensures Legal(longer) && StartsOverlap(user, longer, k)
    ensures InWindow(user, After(longer)) == InWindow(user, After(run))
    ensures Issuing(user, After(longer)) == n
    decreases n
  {
    hide After, StartsOverlap, InWindow, Issuing, Legal;
    longer := run;
    if n > 0 {
      var mid := StartTimes(user, run, k, n - 1);
      longer := StartOne(user, mid, k);
    }
  }

  function StepsLeftOn(): Call -> int {
    (c: Call) => if c.WillRetire? then 2 else if c.WillInsert? then 1 else 0
  }

  // Some issue has a step to take, as long as any is under way.
  lemma SomeIssue(user: UserId, calls: seq<Call>) returns (i: nat)
    requires Sum(calls, IssuingOn(user)) > 0
    ensures i < |calls| && (calls[i].WillRetire? || calls[i].WillInsert?) && calls[i].request.user == user
  {
    if forall i :: 0 <= i < |calls| ==> IssuingOn(user)(calls[i]) == 0 {
      SumZero(calls, IssuingOn(user));
    }
    i :| i < |calls| && IssuingOn(user)(calls[i]) != 0;
  }

  // One issue under way takes its next step.
  lemma IssueStep(user: UserId, run: seq<Timed>, k: nat) returns (longer: seq<Timed>)
    requires Legal(run) && StartsOverlap(user, run, k) && Issuing(user, After(run)) > 0
    ensures Legal(longer) && StartsOverlap(user, longer, k)
    ensures InWindow(user, After(longer)) + Issuing(user, After(longer)) ==
            InWindow(user, After(run)) + Issuing(user, After(run))
    ensures 0 <= Sum(After(longer).calls, StepsLeftOn()) < Sum(After(run).calls, StepsLeftOn())
  {
    hide Sum, E.Run, E.CheckGuess, E.RateLimited;
    var w := After(run);
    var i := SomeIssue(user, w.calls);
    var t := Timed(Write(i), w.now);
    longer := Extend(run, Write(i));
    CallsMove(w, t, IssuingOn(user));
    CallsMove(w, t, StepsLeftOn());
    StatementMoves(w.codes, user, NextStatement(w.calls[i], w.now), w.now);
    SumNonNeg(After(longer).calls, StepsLeftOn());
  }

  // Issues under way can all finish, each leaving one more code in the window.
  lemma {:induction false} FinishIssues(user: UserId, run: seq<Timed>, k: nat) returns (longer: seq<Timed>)
    requires Legal(run) && StartsOverlap(user, run, k)
    ensures Legal(longer) && StartsOverlap(user, longer, k)
    ensures Issuing(user, After(longer)) == 0
    ensures InWindow(user, After(longer)) == InWindow(user, After(run)) + Issuing(user, After(run))
    decreases Sum(After(run).calls, StepsLeftOn())
  {
    assert Issuing(user, After(run)) >= 0 by { SumNonNeg(After(run).calls, IssuingOn(user)); }
    hide Legal, After, StartsOverlap, InWindow, Issuing, Sum;
    longer := run;
    if Issuing(user, After(run)) > 0 {
      var mid := IssueStep(user, run, k);
      longer := FinishIssues(user, mid, k);
    }
  }

  lemma {:induction false} IssueTimes(user: UserId, k: nat, n: nat) returns (run: seq<Timed>)
    requires n < E.ISSUE_LIMIT
    ensures Legal(run) && StartsOverlap(user, run, k)
    ensures InWindow(user, After(run)) == n && Issuing(user, After(run)) == 0
    decreases n
  {
    hide InWindow, Issuing;
    run := [];
    NothingYet(user);
    if n > 0 {
      hide After, StartsOverlap, Legal;
      var before := IssueTimes(user, k, n - 1);
      var started := StartOne(user, before, k);
      run := FinishIssues(user, started, k);
    }
  }

  // For every k some run in which at most k starts overlap leaves five plus k codes in the window: exact too.
  lemma IssueBoundIsReached(user: UserId, k: nat) returns (run: seq<Timed>)
    ensures Legal(run) && StartsOverlap(user, run, k)
    ensures InWindow(user, After(run)) == E.ISSUE_LIMIT + k
  {
    hide After, StartsOverlap, InWindow, Issuing, Legal;
    var four := IssueTimes(user, k, 4);
    var started := StartTimes(user, four, k, k + 1);
    run := FinishIssues(user, started, k);
  }
}
