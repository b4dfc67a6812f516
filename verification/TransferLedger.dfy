/** The transfer protocol on the platform: its writes are platform steps, and the ledger agrees with the provider. */
module TransferLedger {
  import opened Options
  import opened Books
  import opened Platform
  import opened TransferProtocol
  import G = Guarantees
  import PayoutService
  import P = Payouts

  // Every event that writes the payout row is the platform transaction of that name, and no other event writes it.
  lemma EventsArePlatformSteps(cfg: Config, w: World, e: Event, s: State, i: nat, actor: Option<UserId>, st: Standing)
    requires Enabled(w, e) && i < |s.payouts| && s.payouts[i] == w.row
    requires e.Approve? ==> actor != Some(w.row.user) && MayMoveMoney(st)
    ensures var written := s.payouts[i := Next(w, e).row];
            match e
            case Approve => Step(cfg, s, ClaimTransfer(i, actor, st)).payouts == written
            case FinanceReject => Step(cfg, s, RefundPayout(i, P.FromRequested)).payouts == written
            case SettleLedger(_) => Step(cfg, s, SettlePayout(i)).payouts == written
            case Refund(_) => Step(cfg, s, RefundPayout(i, P.FromInFlight)).payouts == written
            case _ => Next(w, e).row == w.row
  {
    hide Step, RequestRaw, ResolveByVerify;
    PayoutService.ClaimStep(cfg, s, i, actor, st);
    PayoutService.RefundStep(cfg, s, i, P.FromRequested);
    PayoutService.RefundStep(cfg, s, i, P.FromInFlight);
    PayoutService.SettleStep(cfg, s, i);
    assert s.payouts[i := w.row] == s.payouts;
  }

  // In every reachable state that holds the row a run of the protocol leads to: the ledger says sent only if the
  // provider sent the money, put back only if it never will have, and never both.
  lemma LedgerAgreesWithProvider(cfg: Config, w: World, events: seq<Event>, s: State, i: nat)
    requires JustRequested(w) && EnabledRun(w, events)
    requires ConfigOk(cfg) && Reachable(cfg, s) && i < |s.payouts| && s.payouts[i] == RunFrom(w, events).row
    ensures var p, remote := s.payouts[i], RunFrom(w, events).remote;
            var posted := PostingsOf(s.log, PayoutRef(i));
            && (Shape(SendMove(p)) in posted ==> remote.WentOut?)
            && (Shape(RefundMove(p)) in posted ==> DefinitelyNot(remote) || remote.NotAsked?)
            && !(Shape(SendMove(p)) in posted && Shape(RefundMove(p)) in posted)
  {
    hide Reachable, EnabledRun, RunFrom, PostingsOf;
    NeverSentAndRefunded(w, events);
    G.PayoutHistoryIsExact(cfg, s, i);
    NotesDiffer(s.payouts[i]);
    hide Shape;
  }

  lemma NotesDiffer(p: Payout)
    ensures Shape(SendMove(p)) != Shape(HoldMove(p)) && Shape(RefundMove(p)) != Shape(HoldMove(p))
    ensures Shape(SendMove(p)) != Shape(RefundMove(p))
  {
  }

  // ---------------------------------------------------------------- the handlers are runs of the protocol

  lemma {:induction false} RunsJoin(w: World, first: seq<Event>, second: seq<Event>)
    requires EnabledRun(w, first) && EnabledRun(RunFrom(w, first), second)
    ensures EnabledRun(w, first + second) && RunFrom(w, first + second) == RunFrom(RunFrom(w, first), second)
    decreases |first|
  {
    hide Enabled, Next;
    if first == [] {
      assert first + second == second;
    } else {
      assert (first + second)[1..] == first[1..] + second;
      RunsJoin(Next(w, first[0]), first[1..], second);
    }
  }

  lemma OneEvent(w: World, e: Event)
    requires Enabled(w, e)
    ensures EnabledRun(w, [e]) && RunFrom(w, [e]) == Next(w, e)
  {
    hide Enabled, Next;
    assert [e][1..] == [];
  }

  lemma Then(w: World, events: seq<Event>, e: Event) returns (longer: seq<Event>)
    requires EnabledRun(w, events) && Enabled(RunFrom(w, events), e)
    ensures longer == events + [e] && EnabledRun(w, longer) && RunFrom(w, longer) == Next(RunFrom(w, events), e)
  {
    hide Enabled, Next, EnabledRun, RunFrom;
    longer := events + [e];
    OneEvent(RunFrom(w, events), e);
    RunsJoin(w, events, [e]);
  }

  // What may have become of the transfer at the provider, in any number of its own steps.
  predicate Becomes(r: Remote, r': Remote) {
    r == r' || RemoteStep(r, r') || (r.OnTheWire? && (r'.WentOut? || r'.FellThrough?))
  }

  lemma ProviderActs(w: World, events: seq<Event>, to: Remote) returns (longer: seq<Event>)
    requires EnabledRun(w, events) && Becomes(RunFrom(w, events).remote, to)
    ensures EnabledRun(w, longer) && RunFrom(w, longer) == RunFrom(w, events).(remote := to)
  {
    hide EnabledRun, RunFrom;
    longer := events;
    var from := RunFrom(w, events).remote;
    if from != to {
      if !RemoteStep(from, to) {
        longer := Then(w, longer, ProviderMoves(Accepted));
      }
      longer := Then(w, longer, ProviderMoves(to));
    }
  }

  // What is assumed of the provider, answer by answer: a refusal means it did not take the transfer, and a clear
  // verify reports what happened.
  predicate TruthfulCall(remote: Remote, call: Http) {
    Refuses(call) ==> remote.TurnedDown?
  }

  predicate TruthfulVerify(remote: Remote, verify: Http, status: TransferStatus) {
    && (Confirms(verify) && status.Succeeded? ==> remote.WentOut?)
    && (Confirms(verify) && status.FailedOrCancelled? ==> DefinitelyNot(remote))
  }

  // One handler on payout i, from start to end, or whatever else happened to the tables in between. `asked` is
  // what the transfer has become when the call is answered, `end` when the handler ends.
  datatype Handling =
    | Transfer(actor: Option<UserId>, st: Standing, call: Http, verify: Http, status: TransferStatus, asked: Remote)
    | Verify(http: Http, status: TransferStatus)
    | Decline
    | Elsewhere

  // What the handler did by its contract, and that the provider was truthful.
  ghost predicate Handles(s: State, s': State, i: nat, h: Handling, w: World, end: Remote)
    requires i < |s.payouts| && i < |s'.payouts|
  {
    match h
    case Transfer(actor, st, call, verify, status, asked) =>
      && PayoutService.TransferredRight(s, s', i, actor, st, call, verify, status)
      && (s'.payouts[i] == s.payouts[i] ==> end == w.remote)
      && (s'.payouts[i] != s.payouts[i] ==>
            Becomes(OnTheWire, asked) && Becomes(asked, end) && TruthfulCall(asked, call)
            && TruthfulVerify(end, verify, status))
    case Verify(http, status) =>
      PayoutService.VerifiedRight(s, s', i, http, status) && Becomes(w.remote, end) && TruthfulVerify(end, http, status)
    case Decline =>
      && s'.payouts[i] == (if s.payouts[i].status.Requested? then s.payouts[i].(status := Refused(true))
                           else s.payouts[i])
      && end == w.remote
    case Elsewhere => s'.payouts[i] == s.payouts[i] && Becomes(w.remote, end)
  }

  lemma VerifyIsARun(w: World, before: seq<Event>, k: nat, p: Payout, http: Http, status: TransferStatus)
      returns (events: seq<Event>)
    requires EnabledRun(w, before) && At(RunFrom(w, before), k, AwaitingVerify)
    requires RunFrom(w, before).row == p && TruthfulVerify(RunFrom(w, before).remote, http, status)
    ensures EnabledRun(w, events)
    ensures RunFrom(w, events).row == PayoutService.VerifiedRow(p, http, status)
    ensures RunFrom(w, events).remote == RunFrom(w, before).remote
  {
    hide EnabledRun, RunFrom;
    events := Then(w, before, VerifyReturns(k, http, status));
    if Confirms(http) && status.Succeeded? {
      events := Then(w, events, Event.SettleLedger(k));
    } else if Confirms(http) && status.FailedOrCancelled? {
      events := Then(w, events, Event.Refund(k));
    }
  }

  // Each handler's effect on the payout is a run of protocol events.
  lemma HandlerIsARun(w: World, before: seq<Event>, s: State, s': State, i: nat, h: Handling, end: Remote)
      returns (events: seq<Event>)
    requires EnabledRun(w, before) && i < |s.payouts| && i < |s'.payouts| && RunFrom(w, before).row == s.payouts[i]
    requires Handles(s, s', i, h, RunFrom(w, before), end)
    ensures EnabledRun(w, events)
    ensures RunFrom(w, events).row == s'.payouts[i] && RunFrom(w, events).remote == end
  {
    hide EnabledRun, RunFrom, Shape;
    var p := s.payouts[i];
    match h
    case Transfer(_, _, _, _, _, _) => events := TransferIsARun(w, before, s, s', i, h, end);
    case Verify(http, status) =>
      events := ProviderActs(w, before, end);
      if PayoutService.Underway(p) {
        events := Then(w, events, StartVerify);
        events := VerifyIsARun(w, events, |RunFrom(w, before).handlers|, p, http, status);
      }
    case Decline =>
      events := before;
      if p.status.Requested? {
        events := Then(w, before, FinanceReject);
      }
    case Elsewhere => events := ProviderActs(w, before, end);
  }

  lemma TransferIsARun(w: World, before: seq<Event>, s: State, s': State, i: nat, h: Handling, end: Remote)
      returns (events: seq<Event>)
    requires EnabledRun(w, before) && i < |s.payouts| && i < |s'.payouts| && RunFrom(w, before).row == s.payouts[i]
    requires h.Transfer? && Handles(s, s', i, h, RunFrom(w, before), end)
    ensures EnabledRun(w, events)
    ensures RunFrom(w, events).row == s'.payouts[i] && RunFrom(w, events).remote == end
  {
    hide EnabledRun, RunFrom, Shape;
    var p := s.payouts[i];
    if s'.payouts[i] == p {
      events := before;
      return;
    }
    var k;
    events, k := CallIsARun(w, before, p, h.call, h.asked, end);
    if Refuses(h.call) {
      events := Then(w, events, Event.Refund(k));
    } else if Confirms(h.call) {
      events := VerifyIsARun(w, events, k, p.(status := Processing), h.verify, h.status);
    }
  }

  // From the approval to the answer of the transfer call; handler k has claimed the payout.
  lemma CallIsARun(w: World, before: seq<Event>, p: Payout, call: Http, asked: Remote, end: Remote)
      returns (events: seq<Event>, k: nat)
    requires EnabledRun(w, before) && RunFrom(w, before).row == p && p.status.Requested?
    requires Becomes(OnTheWire, asked) && Becomes(asked, end) && TruthfulCall(asked, call)
    ensures EnabledRun(w, events)
    ensures RunFrom(w, events).row == p.(status := Processing) && RunFrom(w, events).remote == end
    ensures At(RunFrom(w, events), k,
               if Refuses(call) then WillRefund else if Confirms(call) then AwaitingVerify else Finished)
  {
    hide EnabledRun, RunFrom;
    k := |RunFrom(w, before).handlers|;
    events := Then(w, before, Approve);
    events := Then(w, events, CallProvider(k));
    events := ProviderActs(w, events, asked);
    events := Then(w, events, CallReturns(k, call));
    events := ProviderActs(w, events, end);
  }

  // The tables over a run of handlers on payout i, the transfer at the provider beside them.
  ghost predicate Serves(ss: seq<State>, hs: seq<Handling>, remotes: seq<Remote>, i: nat, w: World) {
    && |ss| == |remotes| == |hs| + 1
    && (forall k | 0 <= k < |ss| :: i < |ss[k].payouts|)
    && w.row == ss[0].payouts[i] && w.remote == remotes[0]
    && (forall k | 0 <= k < |hs| :: Handles(ss[k], ss[k + 1], i, hs[k], w.(remote := remotes[k]), remotes[k + 1]))
  }

  lemma {:induction false} ServiceIsARun(ss: seq<State>, hs: seq<Handling>, remotes: seq<Remote>, i: nat, w: World,
                                         n: nat)
      returns (events: seq<Event>)
    requires Serves(ss, hs, remotes, i, w) && n <= |hs|
    ensures EnabledRun(w, events)
    ensures RunFrom(w, events).row == ss[n].payouts[i] && RunFrom(w, events).remote == remotes[n]
    decreases n
  {
    hide Handles, Enabled, Next;
    events := [];
    if n > 0 {
      var before := ServiceIsARun(ss, hs, remotes, i, w, n - 1);
      assert Handles(ss[n - 1], ss[n - 1 + 1], i, hs[n - 1], w.(remote := remotes[n - 1]), remotes[n]);
      HandlesLooksAtRemote(ss[n - 1], ss[n], i, hs[n - 1], w.(remote := remotes[n - 1]), RunFrom(w, before),
                           remotes[n]);
      events := HandlerIsARun(w, before, ss[n - 1], ss[n], i, hs[n - 1], remotes[n]);
    }
  }

  lemma HandlesLooksAtRemote(s: State, s': State, i: nat, h: Handling, w: World, w': World, end: Remote)
    requires i < |s.payouts| && i < |s'.payouts| && w.remote == w'.remote && Handles(s, s', i, h, w, end)
    ensures Handles(s, s', i, h, w', end)
  {
  }

  // So whatever sequence of transfers, webhooks, sweeps and refusals the service runs on a payout just requested:
  // it is settled only if the provider sent the money, and put back only if the provider never will have.
  lemma ServiceNeverSendsAndRefunds(ss: seq<State>, hs: seq<Handling>, remotes: seq<Remote>, i: nat, w: World)
    requires JustRequested(w) && Serves(ss, hs, remotes, i, w)
    ensures var p, remote := ss[|hs|].payouts[i], remotes[|hs|];
            && (p.status.PaidOut? ==> remote.WentOut?)
            && (p.status.Refused? ==> DefinitelyNot(remote) || remote.NotAsked?)
  {
    hide Serves, Handles, EnabledRun, RunFrom;
    var events := ServiceIsARun(ss, hs, remotes, i, w, |hs|);
    NeverSentAndRefunded(w, events);
  }
}
