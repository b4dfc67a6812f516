/**
 * One payout against a provider whose answers can be lost or late: approval, webhooks and sweeps
 * run concurrently, each between its reads, its provider call and its database update.
 */
module TransferProtocol {
  import opened Books
  import P = Payouts

  // ---------------------------------------------------------------- the provider's answers

  // One HTTP exchange: it may never complete; the body may not be the provider's JSON envelope.
  datatype Http = NoResponse | Response(status: nat, json: bool, saysFailed: bool)

  const DEFINITIVE_STATUSES: set<nat> := {400, 401, 403, 404, 409, 422}

  datatype CallResult = Envelope | ChapaError(status: nat, definitive: bool) | Thrown

  function RequestRaw(h: Http): CallResult {
    match h
    case NoResponse => Thrown
    case Response(status, json, saysFailed) =>
      var ok := 200 <= status < 300;
      if !json then ChapaError(status, false)
      else if !ok || saysFailed then ChapaError(status, ok || status in DEFINITIVE_STATUSES)
      else Envelope
  }

  // The provider's own JSON envelope, carrying an answer to the question asked.
  predicate Confirms(h: Http) {
    h.Response? && h.json && 200 <= h.status < 300 && !h.saysFailed
  }

  // The provider's own JSON refusal of a request it did not act on.
  predicate Refuses(h: Http) {
    h.Response? && h.json
    && (if 200 <= h.status < 300 then h.saysFailed
        else h.status == 400 || h.status == 401 || h.status == 403 || h.status == 404 || h.status == 409
             || h.status == 422)
  }

  // The envelope's transfer status, once lower-cased.
  datatype TransferStatus = Succeeded | FailedOrCancelled | OtherStatus
  datatype Finding = Clear(sent: bool) | Unclear

  // Verify: errors and every status but a clear one resolve nothing (live keys).
  function ResolveByVerify(h: Http, status: TransferStatus): Finding {
    if RequestRaw(h).Envelope? && status.Succeeded? then Clear(true)
    else if RequestRaw(h).Envelope? && status.FailedOrCancelled? then Clear(false)
    else Unclear
  }

  // ---------------------------------------------------------------- the machine

  // What really happened to the transfer at the provider.
  datatype Remote = NotAsked | OnTheWire | Vanished | Accepted | TurnedDown | WentOut | FellThrough

  predicate RemoteStep(r: Remote, r': Remote) {
    || (r.OnTheWire? && (r'.Vanished? || r'.Accepted? || r'.TurnedDown?))
    || (r.Accepted? && (r'.WentOut? || r'.FellThrough?))
  }

  // The provider will never send this transfer.
  predicate DefinitelyNot(r: Remote) { r.TurnedDown? || r.FellThrough? }

  // A running handler: it has claimed the payout, awaits the transfer call or a verify, or has
  // concluded and is about to update the database.
  datatype Handler = Claimed | AwaitingCall | AwaitingVerify | WillSettle | WillRefund | Finished

  // `calls` counts transfer calls; `refundedInFlight` remembers a refund after processing.
  datatype World = World(row: Payout, remote: Remote, calls: nat, handlers: seq<Handler>, refundedInFlight: bool)

  datatype Event =
    | Approve                                             // finance, or the instant path
    | FinanceReject
    | CallProvider(i: nat)
    | ProviderMoves(to: Remote)
    | CallReturns(i: nat, answer: Http)
    | StartVerify                                         // a webhook or the sweeper
    | VerifyReturns(i: nat, answer: Http, status: TransferStatus)
    | SettleLedger(i: nat)
    | Refund(i: nat)
    | Crash(i: nat)                                       // the process dies or times out

  predicate At(w: World, i: nat, h: Handler) {
    i < |w.handlers| && w.handlers[i] == h
  }

  function Become(w: World, i: nat, h: Handler): World
    requires i < |w.handlers|
  {
    w.(handlers := w.handlers[i := h])
  }

  // What may happen; the two answer events also state what is assumed of the provider: a definitive
  // refusal means it did not take the transfer, and verify reports only what really happened.
  predicate Enabled(w: World, e: Event) {
    match e
    case Approve => w.row.status.Requested?
    case FinanceReject => w.row.status.Requested?
    case CallProvider(i) => At(w, i, Claimed)
    case ProviderMoves(to) => RemoteStep(w.remote, to)
    case CallReturns(i, answer) =>
      At(w, i, AwaitingCall)
      && (RequestRaw(answer).ChapaError? && RequestRaw(answer).definitive ==> w.remote.TurnedDown?)
    case StartVerify => P.InFlight(w.row)
    case VerifyReturns(i, answer, status) =>
      At(w, i, AwaitingVerify)
      && (ResolveByVerify(answer, status) == Clear(true) ==> w.remote.WentOut?)
      && (ResolveByVerify(answer, status) == Clear(false) ==> DefinitelyNot(w.remote))
    case SettleLedger(i) => At(w, i, WillSettle)
    case Refund(i) => At(w, i, WillRefund)
    case Crash(i) => i < |w.handlers|
  }

  function Next(w: World, e: Event): World
    requires Enabled(w, e)
  {
    match e
    case Approve => w.(row := w.row.(status := Processing), handlers := w.handlers + [Claimed])
    case FinanceReject => w.(row := w.row.(status := Refused(true)))
    case CallProvider(i) => Become(w, i, AwaitingCall).(remote := OnTheWire, calls := w.calls + 1)
    case ProviderMoves(to) => w.(remote := to)
    case CallReturns(i, answer) =>
      var r := RequestRaw(answer);
      Become(w, i, if r.ChapaError? && r.definitive then WillRefund
                   else if r.Envelope? then AwaitingVerify
                   else Finished)
    case StartVerify => w.(handlers := w.handlers + [AwaitingVerify])
    case VerifyReturns(i, answer, status) =>
      Become(w, i, match ResolveByVerify(answer, status)
                   case Clear(true) => WillSettle
                   case Clear(false) => WillRefund
                   case Unclear => Finished)
    case SettleLedger(i) =>
      var w' := Become(w, i, Finished);
      if P.InFlight(w.row) then w'.(row := w.row.(status := PaidOut)) else w'
    case Refund(i) =>
      var w' := Become(w, i, Finished);
      if P.InFlight(w.row) then w'.(row := w.row.(status := Refused(true)), refundedInFlight := true) else w'
    case Crash(i) => Become(w, i, Finished)
  }

  // ---------------------------------------------------------------- safety

  ghost predicate Safe(w: World) {
    && (w.remote.NotAsked? <==> w.calls == 0)
    && w.calls <= 1
    // At most one handler has claimed and not yet called; while it exists nothing has been asked
    // and the payout is still processing.
    && (forall i, j :: At(w, i, Claimed) && At(w, j, Claimed) ==> i == j)
    && (forall i :: At(w, i, Claimed) ==> w.calls == 0 && w.row.status.Processing?)
    && (forall i :: At(w, i, WillSettle) ==> w.remote.WentOut?)
    && (forall i :: At(w, i, WillRefund) ==> DefinitelyNot(w.remote))
    && (w.row.status.Requested? ==> w.calls == 0 && !w.refundedInFlight)
    && (w.row.status.PaidOut? ==> w.remote.WentOut?)
    && (w.row.status.Refused? ==> if w.refundedInFlight then DefinitelyNot(w.remote) else w.calls == 0)
    && (w.refundedInFlight ==> w.row.status.Refused?)
    && !w.row.status.Approved?
  }

  lemma NextIsSafe(w: World, e: Event)
    requires Safe(w) && Enabled(w, e)
    ensures Safe(Next(w, e))
  {
    var w' := Next(w, e);
    assert forall j :: 0 <= j < |w.handlers| ==> At(w, j, w.handlers[j]);
    // Only the acting handler, or a new last one, changes.
    forall j: nat, h | At(w', j, h)
      ensures At(w, j, h) || j >= |w.handlers|
              || ((e.CallProvider? || e.CallReturns? || e.VerifyReturns? || e.SettleLedger? || e.Refund? || e.Crash?)
                  && j == e.i)
    {
    }
  }

  ghost predicate EnabledRun(w: World, events: seq<Event>)
    decreases |events|
  {
    events == [] || (Enabled(w, events[0]) && EnabledRun(Next(w, events[0]), events[1..]))
  }

  ghost function RunFrom(w: World, events: seq<Event>): World
    requires EnabledRun(w, events)
    decreases |events|
  {
    if events == [] then w else RunFrom(Next(w, events[0]), events[1..])
  }

  // A payout that has just been requested and held.
  predicate JustRequested(w: World) {
    w.row.status.Requested? && w.remote.NotAsked? && w.calls == 0 && w.handlers == [] && !w.refundedInFlight
  }

  lemma {:induction false} RunIsSafe(w: World, events: seq<Event>)
    requires Safe(w) && EnabledRun(w, events)
    ensures Safe(RunFrom(w, events))
    decreases |events|
  {
    hide Safe, Next, Enabled;
    if events != [] {
      NextIsSafe(w, events[0]);
      RunIsSafe(Next(w, events[0]), events[1..]);
    }
  }

  // For every interleaving: at most one transfer call, settled only if the provider sent it, refunded
  // after processing only if it definitively did not, and never both sent and refunded.
  lemma NeverSentAndRefunded(w: World, events: seq<Event>)
    requires JustRequested(w) && EnabledRun(w, events)
    ensures var end := RunFrom(w, events);
            && end.calls <= 1
            && (end.row.status.PaidOut? ==> end.remote.WentOut?)
            && (end.refundedInFlight ==> DefinitelyNot(end.remote))
            && (end.row.status.Refused? && !end.refundedInFlight ==> end.remote.NotAsked?)
            && !(end.row.status.Refused? && end.remote.WentOut?)
  {
    hide EnabledRun, RunFrom, Enabled, Next;
    assert Safe(w);
    RunIsSafe(w, events);
  }

  // Final outcomes are final: once settled or refused, no later event changes the row, and the
  // provider can no longer contradict it.
  lemma {:induction false} OutcomeIsFinal(w: World, events: seq<Event>)
    requires Safe(w) && EnabledRun(w, events)
    requires w.row.status.PaidOut? || w.row.status.Refused?
    ensures RunFrom(w, events).row == w.row
    ensures w.row.status.Refused? ==> !RunFrom(w, events).remote.WentOut?
    decreases |events|
  {
    if events == [] {
    } else {
      NextIsSafe(w, events[0]);
      OutcomeIsFinal(Next(w, events[0]), events[1..]);
    }
  }

  // The refund rule is exactly the classification of answers: a call's answer leads to a refund if
  // and only if it is the provider's own JSON refusal of a request it did not act on.
  lemma RefundsOnlyOnJsonRefusal(w: World, i: nat, answer: Http)
    requires Enabled(w, CallReturns(i, answer))
    ensures At(Next(w, CallReturns(i, answer)), i, WillRefund) <==>
            Refuses(answer)
    ensures At(Next(w, CallReturns(i, answer)), i, AwaitingVerify) <==> Confirms(answer)
  {
  }
}
