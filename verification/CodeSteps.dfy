/** The code races on the platform: each statement of a call is one step, so every race ends in a reachable state. */
module CodeSteps {
  import opened Books
  import opened Platform
  import opened CodeRaces
  import PayoutService

  // What a race step is to the platform: the statement a call writes, or nothing.
  function PlatformStep(cfg: Config, s: State, w: World, t: Timed): State
    requires Possible(w, t)
  {
    if t.action.Write? then Step(cfg, s, Op.WriteCodes(NextStatement(w.calls[t.action.call], t.now))) else s
  }

  // From any reachable state with the same codes, whatever else it holds, a race step leads to a reachable state
  // with the same codes; the call that wins a code is the one whose confirmation is then pending.
  lemma RaceStepIsPlatformStep(cfg: Config, s: State, w: World, t: Timed)
    requires Reachable(cfg, s) && s.codes == w.codes && Possible(w, t)
    ensures var s' := PlatformStep(cfg, s, w, t);
            && Reachable(cfg, s') && s'.codes == Act(w, t).codes && s.confirming <= s'.confirming
            && s'.log == s.log && s'.payouts == s.payouts
            && (t.action.Write? ==>
                  var c := Act(w, t).calls[t.action.call];
                  c.Won? ==> c.id in s'.confirming)
  {
    hide Reachable, Step;
    if t.action.Write? {
      var stmt := NextStatement(w.calls[t.action.call], t.now);
      PayoutService.CodesStep(cfg, s, stmt);
      StepIsReachable(cfg, s, Op.WriteCodes(stmt));
    }
  }

  // So every race ends in the codes of a reachable state, in which every code won still awaits its one request.
  lemma {:induction false} RaceIsReachable(cfg: Config, run: seq<Timed>) returns (s: State)
    requires Legal(run)
    ensures Reachable(cfg, s) && s.codes == After(run).codes
    ensures forall i | 0 <= i < |After(run).calls| && After(run).calls[i].Won? :: After(run).calls[i].id in s.confirming
    decreases |run|
  {
    hide Reachable;
    if run == [] {
      EmptyIsReachable(cfg);
      s := EMPTY;
    } else {
      var n := |run| - 1;
      var before := RaceIsReachable(cfg, run[..n]);
      RaceStepIsPlatformStep(cfg, before, After(run[..n]), run[n]);
      s := PlatformStep(cfg, before, After(run[..n]), run[n]);
    }
  }
}
