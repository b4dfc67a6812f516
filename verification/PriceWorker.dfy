// The price worker of apps/worker/src/main.ts: the USD/ETB rate with its jump guard, the per-metal circuit
// breaker on ticks, and the price written with each tick.
module PriceWorker {
  import opened Options
  import opened Books

  const FX_CONFIRMATIONS: nat := 6
  const FX_RETRY_SECONDS: nat := 600
  const AGREE_BPS: nat := 50
  const MICRO: nat := 1_000_000
  const TROY_OZ_MG: nat := 31_103

  datatype Limits = Limits(fxMaxMoveBps: nat, maxTickMoveBps: nat, fxCacheSeconds: nat)

  // BigInt division of non-negative numbers: a move away from zero counts as no move at all.
  function MovedBps(from: nat, to: nat): nat {
    if from == 0 then 0 else (if to > from then to - from else from - to) * 10_000 / from
  }

  predicate Agree(a: nat, b: nat) {
    MovedBps(a, b) <= AGREE_BPS
  }

  function CentsPerGram(usdPerOzMicro: nat, fxMicro: nat): nat {
    usdPerOzMicro * fxMicro * 100_000 / (MICRO * MICRO * TROY_OZ_MG)
  }

  // Micro-dollars per troy ounce of 31,103 mg, times micro-birr per dollar, in cents per 1,000 mg, rounded down.
  predicate IsGramPrice(cents: nat, usdPerOzMicro: nat, fxMicro: nat) {
    cents * 31_103 * 1_000_000_000_000 <= usdPerOzMicro * fxMicro * 100 * 1_000
        < (cents + 1) * 31_103 * 1_000_000_000_000
  }

  lemma GramPriceIsFloor(usdPerOzMicro: nat, fxMicro: nat)
    ensures IsGramPrice(CentsPerGram(usdPerOzMicro, fxMicro), usdPerOzMicro, fxMicro)
  {
    var x := usdPerOzMicro * fxMicro * 100_000;
    assert MICRO * MICRO * TROY_OZ_MG == 31_103_000_000_000_000;
    FloorBounds(x, 31_103_000_000_000_000);
  }

  lemma FloorBounds(x: nat, d: nat)
    requires d > 0
    ensures d * (x / d) <= x < d * (x / d) + d
  {
  }

  // A move is the difference in ten-thousandths of where it starts, rounded down.
  lemma MovedBpsIsFloor(from: nat, to: nat)
    requires from > 0
    ensures var diff := if to > from then to - from else from - to;
            from * MovedBps(from, to) <= 10_000 * diff < from * MovedBps(from, to) + from
  {
    FloorBounds((if to > from then to - from else from - to) * 10_000, from);
  }

  /* ---- the exchange rate ---- */

  datatype Cached = Cached(rate: nat, expiresAt: int)
  datatype Pending = Pending(rate: nat, count: nat)
  datatype Fx = Fx(cache: Option<Cached>, good: Option<nat>, pending: Option<Pending>)

  const NO_FX := Fx(None, None, None)

  // One reading of the rate feed, and what became of it.
  datatype Reading = Reading(rate: nat, accepted: bool)

  predicate CacheHit(fx: Fx, now: int) {
    fx.cache.Some? && now < fx.cache.value.expiresAt
  }

  predicate WithinLimit(limits: Limits, good: Option<nat>, rate: nat) {
    good.None? || MovedBps(good.value, rate) <= limits.fxMaxMoveBps
  }

  // How many agreeing readings in a row there are, counting this one.
  function Repeats(fx: Fx, rate: nat): nat {
    if fx.pending.Some? && Agree(fx.pending.value.rate, rate) then fx.pending.value.count + 1 else 1
  }

  predicate Accepts(limits: Limits, fx: Fx, rate: nat) {
    WithinLimit(limits, fx.good, rate) || Repeats(fx, rate) >= FX_CONFIRMATIONS
  }

  // What a reading that missed the cache does to the three keys.
  function TakeReading(limits: Limits, fx: Fx, now: int, rate: nat): Fx {
    if Accepts(limits, fx, rate) then Fx(Some(Cached(rate, now + limits.fxCacheSeconds)), Some(rate), None)
    else Fx(Some(Cached(fx.good.value, now + FX_RETRY_SECONDS)), fx.good, Some(Pending(rate, Repeats(fx, rate))))
  }

  // The rate in force according to the record of readings alone.
  function LastAccepted(readings: seq<Reading>): Option<nat> {
    if readings == [] then None
    else if readings[|readings| - 1].accepted then Some(readings[|readings| - 1].rate)
    else LastAccepted(readings[..|readings| - 1])
  }

  // Reading k and the one before it were both held back and agree.
  predicate Continues(readings: seq<Reading>, k: nat)
    requires k < |readings|
  {
    k > 0 && !readings[k].accepted && !readings[k - 1].accepted && Agree(readings[k - 1].rate, readings[k].rate)
  }

  // Length of the run of held, agreeing readings the record ends in.
  function Streak(readings: seq<Reading>): nat
    decreases |readings|
  {
    var n := |readings|;
    if n == 0 || readings[n - 1].accepted then 0
    else if Continues(readings, n - 1) then Streak(readings[..n - 1]) + 1
    else 1
  }

  // The record ends in n held readings, each within AGREE_BPS of the one before it.
  ghost predicate EndsInHeldRun(readings: seq<Reading>, n: nat) {
    n <= |readings|
    && (forall k | |readings| - n <= k < |readings| :: !readings[k].accepted)
    && (forall k | |readings| - n < k < |readings| :: Agree(readings[k - 1].rate, readings[k].rate))
  }

  lemma {:induction false} StreakIsHeldRun(readings: seq<Reading>, n: nat)
    ensures Streak(readings) >= n <==> EndsInHeldRun(readings, n)
    decreases n
  {
    var last := |readings| - 1;
    if n > 1 && last >= 0 {
      StreakIsHeldRun(readings[..last], n - 1);
    }
  }

  // The keys say no more and no less than the record: the cache never holds anything but the accepted rate,
  // and the pending key counts the agreeing readings held since.
  ghost predicate FxOk(fx: Fx, readings: seq<Reading>) {
    && fx.good == LastAccepted(readings)
    && (fx.cache.Some? ==> fx.good == Some(fx.cache.value.rate))
    && (fx.good.None? ==> readings == [])
    && Streak(readings) < FX_CONFIRMATIONS
    && (fx.pending.None? <==> Streak(readings) == 0)
    && (fx.pending.Some? ==> fx.pending.value == Pending(readings[|readings| - 1].rate, Streak(readings)))
  }

  lemma TakeReadingKeepsFx(limits: Limits, fx: Fx, readings: seq<Reading>, now: int, rate: nat)
    requires FxOk(fx, readings)
    ensures FxOk(TakeReading(limits, fx, now, rate), readings + [Reading(rate, Accepts(limits, fx, rate))])
  {
    var after := readings + [Reading(rate, Accepts(limits, fx, rate))];
    assert after[..|readings|] == readings;
  }

  // A reading deserves to be accepted, by the record before it: it is the first, or moves within the limit from
  // the rate in force, or completes six held readings in a row that each agree with the one before.
  ghost predicate Deserves(limits: Limits, before: seq<Reading>, rate: nat) {
    || LastAccepted(before).None?
    || MovedBps(LastAccepted(before).value, rate) <= limits.fxMaxMoveBps
    || (EndsInHeldRun(before, FX_CONFIRMATIONS - 1) && Agree(before[|before| - 1].rate, rate))
  }

  lemma AcceptedExactlyWhen(limits: Limits, fx: Fx, readings: seq<Reading>, rate: nat)
    requires FxOk(fx, readings)
    ensures Accepts(limits, fx, rate) <==> Deserves(limits, readings, rate)
  {
    hide MovedBps;
    StreakIsHeldRun(readings, FX_CONFIRMATIONS - 1);
  }

  // Calls of the rate getter over time: when, and what the feed would answer (None: it throws).
  datatype Call = Call(now: int, feed: Option<nat>)

  datatype Record = Record(fx: Fx, readings: seq<Reading>, served: Option<nat>)

  function Getter(limits: Limits, r: Record, call: Call): Record {
    if CacheHit(r.fx, call.now) then r.(served := Some(r.fx.cache.value.rate))
    else if call.feed.None? then r.(served := None)
    else
      var rate := call.feed.value;
      var after := TakeReading(limits, r.fx, call.now, rate);
      Record(after, r.readings + [Reading(rate, Accepts(limits, r.fx, rate))], after.good)
  }

  // A call answers from the cache until that expires; otherwise it reads the feed, and a rate accepted then is kept
  // for the cache time, the rate in force for ten minutes when the reading is held.
  lemma GetterIs(limits: Limits, r: Record, call: Call)
    requires r.fx.cache.Some? ==> r.fx.good.Some?
    ensures var hit := r.fx.cache.Some? && call.now < r.fx.cache.value.expiresAt;
            var s, n := Getter(limits, r, call), |r.readings|;
            && (hit ==> s == r.(served := Some(r.fx.cache.value.rate)))
            && (!hit && call.feed.None? ==> s == r.(served := None))
            && (!hit && call.feed.Some? ==>
                  && s.readings == r.readings + [Reading(call.feed.value, s.readings[n].accepted)] && s.served.Some?
                  && s.fx.cache == Some(Cached(s.served.value, call.now + (if s.readings[n].accepted
                                                                           then limits.fxCacheSeconds else 600)))
                  && s.served == if s.readings[n].accepted then call.feed else r.fx.good)
  {
    hide MovedBps;
  }

  function Getters(limits: Limits, r: Record, calls: seq<Call>): Record
    decreases |calls|
  {
    if calls == [] then r else Getters(limits, Getter(limits, r, calls[0]), calls[1..])
  }

  // Every reading of the record was accepted exactly when it deserved to be.
  ghost predicate GuardHeld(limits: Limits, readings: seq<Reading>) {
    forall k | 0 <= k < |readings| ::
      readings[k].accepted <==> Deserves(limits, readings[..k], readings[k].rate)
  }

  lemma GuardHeldAfter(limits: Limits, readings: seq<Reading>, r: Reading)
    requires GuardHeld(limits, readings) && (r.accepted <==> Deserves(limits, readings, r.rate))
    ensures GuardHeld(limits, readings + [r])
  {
    hide Deserves;
    var after := readings + [r];
    assert after[..|readings|] == readings;
    forall k | 0 <= k < |readings| ensures after[..k] == readings[..k] {
    }
  }

  lemma GetterKeepsGuard(limits: Limits, r: Record, call: Call)
    requires FxOk(r.fx, r.readings) && GuardHeld(limits, r.readings)
    ensures var s := Getter(limits, r, call);
            && FxOk(s.fx, s.readings) && GuardHeld(limits, s.readings)
            && (s.served.Some? ==> s.served == LastAccepted(s.readings))
            && (s.served.None? <==> !CacheHit(r.fx, call.now) && call.feed.None?)
  {
    hide Deserves, GuardHeld, MovedBps, Streak;
    if !CacheHit(r.fx, call.now) && call.feed.Some? {
      var rate := call.feed.value;
      TakeReadingKeepsFx(limits, r.fx, r.readings, call.now, rate);
      AcceptedExactlyWhen(limits, r.fx, r.readings, rate);
      GuardHeldAfter(limits, r.readings, Reading(rate, Accepts(limits, r.fx, rate)));
    }
  }

  lemma {:induction false} GettersKeepGuard(limits: Limits, r: Record, calls: seq<Call>)
    requires FxOk(r.fx, r.readings) && GuardHeld(limits, r.readings)
    requires r.served.Some? ==> r.served == LastAccepted(r.readings)
    ensures var s := Getters(limits, r, calls);
            FxOk(s.fx, s.readings) && GuardHeld(limits, s.readings)
            && (s.served.Some? ==> s.served == LastAccepted(s.readings))
    decreases |calls|
  {
    if calls != [] {
      GetterKeepsGuard(limits, r, calls[0]);
      GettersKeepGuard(limits, Getter(limits, r, calls[0]), calls[1..]);
    }
  }

  // Over any run of calls from empty keys: what was served last is the last accepted rate, and each reading of
  // the record was accepted exactly when it deserved to be.
  lemma ServedIsLastAccepted(limits: Limits, calls: seq<Call>)
    ensures var s := Getters(limits, Record(NO_FX, [], None), calls);
            && (s.served.Some? ==> s.served == LastAccepted(s.readings))
            && (forall k | 0 <= k < |s.readings| ::
                  s.readings[k].accepted <==> Deserves(limits, s.readings[..k], s.readings[k].rate))
  {
    GettersKeepGuard(limits, Record(NO_FX, [], None), calls);
  }

  // Agreeing with a positive reading leaves less than 51 basis points either way.
  lemma AgreementIsClose(a: nat, b: nat)
    requires a > 0 && Agree(a, b)
    ensures 9_949 * a < 10_000 * b < 10_051 * a
  {
    var diff := if b > a then b - a else a - b;
    assert diff * 10_000 < 51 * a by { DivBelow(diff * 10_000, a); }
  }

  lemma DivBelow(x: nat, d: nat)
    requires d > 0
    ensures d * (x / d) <= x < d * (x / d) + d
    ensures x / d <= AGREE_BPS ==> x < 51 * d
  {
    if x / d <= AGREE_BPS {
      assert d * (x / d) <= d * 50;
    }
  }

  lemma Cancel(d: nat, q: nat, m: nat)
    requires d * q < d * m
    ensures q < m
  {
  }

  lemma FiveStepsDrift(a: nat, b: nat, c: nat, d: nat, e: nat, f: nat)
    requires a > 0 && b > 0 && c > 0 && d > 0 && e > 0
    requires Agree(a, b) && Agree(b, c) && Agree(c, d) && Agree(d, e) && Agree(e, f)
    ensures MovedBps(a, f) <= 257
  {
    hide Agree, MovedBps;
    AgreementIsClose(a, b);
    AgreementIsClose(b, c);
    AgreementIsClose(c, d);
    AgreementIsClose(d, e);
    AgreementIsClose(e, f);
    CloseMeansFewBps(a, f);
  }

  lemma CloseMeansFewBps(a: nat, f: nat)
    requires a > 0 && 9_742 * a < 10_000 * f < 10_258 * a
    ensures MovedBps(a, f) <= 257
  {
    var diff := if f > a then f - a else a - f;
    assert diff * 10_000 < 258 * a;
    DivBelow(diff * 10_000, a);
    Cancel(a, diff * 10_000 / a, 258);
  }

  // Each of the six must agree with the one before, not with the first. Over any run, a jump accepted on
  // confirmation lies at most 257 basis points from the reading that opened it, provided none of the readings is
  // zero: any reading agrees with a zero before it.
  lemma DriftIsBounded(limits: Limits, calls: seq<Call>, k: nat)
    requires var readings := Getters(limits, Record(NO_FX, [], None), calls).readings;
             && k < |readings| && readings[k].accepted
             && LastAccepted(readings[..k]).Some?
             && MovedBps(LastAccepted(readings[..k]).value, readings[k].rate) > limits.fxMaxMoveBps
             && forall j | 0 <= j < |readings| :: readings[j].rate > 0
    ensures var readings := Getters(limits, Record(NO_FX, [], None), calls).readings;
            k >= 5 && MovedBps(readings[k - 5].rate, readings[k].rate) <= 257
  {
    hide MovedBps, LastAccepted, Agree, Getters;
    ServedIsLastAccepted(limits, calls);
    var readings := Getters(limits, Record(NO_FX, [], None), calls).readings;
    var before := readings[..k];
    assert Deserves(limits, before, readings[k].rate);
    assert Agree(before[k - 5].rate, before[k - 4].rate) && Agree(before[k - 4].rate, before[k - 3].rate);
    assert Agree(before[k - 3].rate, before[k - 2].rate) && Agree(before[k - 2].rate, before[k - 1].rate);
    FiveStepsDrift(readings[k - 5].rate, readings[k - 4].rate, readings[k - 3].rate, readings[k - 2].rate,
                   readings[k - 1].rate, readings[k].rate);
  }

  const BEFORE: nat := 100_000_000
  const JUMP: seq<nat> := [150_000_000, 150_764_999, 151_533_900, 152_306_722, 153_083_486, 153_864_211]

  lemma JumpFigures()
    ensures |JUMP| == 6 && MovedBps(JUMP[0], JUMP[5]) == 257
    ensures forall k | 0 <= k < 6 :: MovedBps(BEFORE, JUMP[k]) > 200
    ensures forall k | 0 < k < 6 :: Agree(JUMP[k - 1], JUMP[k])
  {
  }

  // The call that brings reading k of the jump, each made when the cache has run out.
  function JumpCall(k: nat): Call
    requires k < 6
  {
    Call(3_600 + 600 * k, Some(JUMP[k]))
  }

  // After the first k readings of the jump, all held.
  function HeldReadings(k: nat): seq<Reading>
    requires k <= 5
  {
    [Reading(BEFORE, true)] + seq(k, j requires 0 <= j < k => Reading(JUMP[j], false))
  }

  lemma HeldCall(limits: Limits, k: nat, r: Record)
    requires k < 5 && limits == Limits(200, 300, 3_600)
    requires r.readings == HeldReadings(k) && r.fx.good == Some(BEFORE) && !CacheHit(r.fx, JumpCall(k).now)
    requires r.fx.pending == if k == 0 then None else Some(Pending(JUMP[k - 1], k))
    ensures var s := Getter(limits, r, JumpCall(k));
            && s.readings == HeldReadings(k + 1) && s.fx.good == Some(BEFORE) && !CacheHit(s.fx, JumpCall(k + 1).now)
            && s.fx.pending == Some(Pending(JUMP[k], k + 1))
  {
    hide MovedBps, Agree;
    JumpFigures();
    assert k > 0 ==> Agree(JUMP[k - 1], JUMP[k]);
    assert HeldReadings(k + 1) == HeldReadings(k) + [Reading(JUMP[k], false)];
  }

  lemma GettersStep(limits: Limits, r: Record, calls: seq<Call>)
    requires calls != []
    ensures Getters(limits, r, calls) == Getters(limits, Getter(limits, r, calls[0]), calls[1..])
  {
  }

  lemma {:induction false} HeldCalls(limits: Limits, k: nat, r: Record) returns (calls: seq<Call>)
    requires k <= 5 && limits == Limits(200, 300, 3_600)
    requires r.readings == HeldReadings(k) && r.fx.good == Some(BEFORE) && !CacheHit(r.fx, JumpCall(k).now)
    requires r.fx.pending == if k == 0 then None else Some(Pending(JUMP[k - 1], k))
    ensures var s := Getters(limits, r, calls);
            s.readings == HeldReadings(5) + [Reading(JUMP[5], true)] && s.served == Some(JUMP[5])
    decreases 5 - k
  {
    hide MovedBps, Agree, Getters;
    JumpFigures();
    if k < 5 {
      HeldCall(limits, k, r);
      var rest := HeldCalls(limits, k + 1, Getter(limits, r, JumpCall(k)));
      calls := [JumpCall(k)] + rest;
      assert calls[1..] == rest;
      GettersStep(limits, r, calls);
    } else {
      calls := [JumpCall(5)];
      assert Agree(JUMP[4], JUMP[5]);
      GettersStep(limits, r, calls);
      NoCalls(limits, Getter(limits, r, JumpCall(5)));
    }
  }

  lemma NoCalls(limits: Limits, r: Record)
    ensures forall calls: seq<Call> | calls == [] :: Getters(limits, r, calls) == r
  {
  }

  // And 257 is reached: a run from empty keys that holds five readings and accepts and serves the sixth.
  lemma ConfirmationsMayDrift() returns (limits: Limits, calls: seq<Call>)
    ensures var s := Getters(limits, Record(NO_FX, [], None), calls);
            && |s.readings| == 7 && s.readings[6].accepted && s.served == Some(s.readings[6].rate)
            && (forall j | 1 <= j < 6 :: !s.readings[j].accepted)
            && MovedBps(s.readings[1].rate, s.readings[6].rate) == 257
  {
    hide MovedBps, Agree, Getters;
    JumpFigures();
    limits := Limits(200, 300, 3_600);
    var first := Call(0, Some(BEFORE));
    var r := Getter(limits, Record(NO_FX, [], None), first);
    assert r.readings == HeldReadings(0);
    var rest := HeldCalls(limits, 0, r);
    calls := [first] + rest;
    assert calls[1..] == rest;
    GettersStep(limits, Record(NO_FX, [], None), calls);
  }

  /* ---- the ticks ---- */

  datatype Tick = Tick(metal: Metal, usdPerOzMicro: nat, fxMicro: nat, cents: nat, suspect: bool)

  // The second feed's answer at the time of a tick, kept beside the tick for the record only.
  datatype Witnessed = Witnessed(tick: Tick, second: Option<nat>)

  // Both feeds of one metal in one round: the price used (None: both failed) and the other feed's answer.
  datatype Feeds = Feeds(first: Option<nat>, second: Option<nat>)

  predicate IsSuspect(limits: Limits, anchor: Option<nat>, usd: nat, second: Option<nat>) {
    && anchor.Some?
    && MovedBps(anchor.value, usd) > limits.maxTickMoveBps
    && !(second.Some? && Agree(usd, second.value))
  }

  // What `seedLastGood` reads for one metal: the newest tick that is not suspect.
  function NewestGood(ticks: seq<Tick>, metal: Metal): Option<nat> {
    if ticks == [] then None
    else
      var last := ticks[|ticks| - 1];
      if last.metal == metal && !last.suspect then Some(last.usdPerOzMicro)
      else NewestGood(ticks[..|ticks| - 1], metal)
  }

  function TicksOf(seen: seq<Witnessed>): (ticks: seq<Tick>)
    ensures |ticks| == |seen| && forall k | 0 <= k < |seen| :: ticks[k] == seen[k].tick
  {
    if seen == [] then [] else TicksOf(seen[..|seen| - 1]) + [seen[|seen| - 1].tick]
  }

  // Every stored tick is priced from its own figures, and flagged exactly when it moved more than the limit from
  // the newest good tick before it and the second feed did not confirm it.
  ghost predicate TicksOk(limits: Limits, seen: seq<Witnessed>) {
    forall k | 0 <= k < |seen| ::
      && seen[k].tick.cents == CentsPerGram(seen[k].tick.usdPerOzMicro, seen[k].tick.fxMicro)
      && (seen[k].tick.suspect <==>
          IsSuspect(limits, NewestGood(TicksOf(seen[..k]), seen[k].tick.metal), seen[k].tick.usdPerOzMicro,
                    seen[k].second))
  }

  lemma AddTick(limits: Limits, seen: seq<Witnessed>, w: Witnessed)
    requires TicksOk(limits, seen)
    requires w.tick.cents == CentsPerGram(w.tick.usdPerOzMicro, w.tick.fxMicro)
    requires w.tick.suspect <==>
             IsSuspect(limits, NewestGood(TicksOf(seen), w.tick.metal), w.tick.usdPerOzMicro, w.second)
    ensures TicksOk(limits, seen + [w]) && TicksOf(seen + [w]) == TicksOf(seen) + [w.tick]
  {
    hide NewestGood, IsSuspect, CentsPerGram;
    var after := seen + [w];
    assert after[..|seen|] == seen;
    forall k | 0 <= k < |seen| ensures after[..k] == seen[..k] && after[k] == seen[k] {
    }
  }

  // Two good ticks of a metal with no good one between them are within the limit of each other, or the second
  // feed confirmed the later one.
  lemma ConsecutiveGoodTicks(limits: Limits, seen: seq<Witnessed>, i: nat, k: nat)
    requires TicksOk(limits, seen) && i < k < |seen|
    requires seen[i].tick.metal == seen[k].tick.metal && !seen[i].tick.suspect && !seen[k].tick.suspect
    requires forall j | i < j < k :: seen[j].tick.metal == seen[k].tick.metal ==> seen[j].tick.suspect
    ensures || MovedBps(seen[i].tick.usdPerOzMicro, seen[k].tick.usdPerOzMicro) <= limits.maxTickMoveBps
            || (seen[k].second.Some? && Agree(seen[k].tick.usdPerOzMicro, seen[k].second.value))
  {
    NewestGoodIs(TicksOf(seen[..k]), seen[k].tick.metal, i);
  }

  lemma {:induction false} NewestGoodIs(ticks: seq<Tick>, metal: Metal, i: nat)
    requires i < |ticks| && ticks[i].metal == metal && !ticks[i].suspect
    requires forall j | i < j < |ticks| :: ticks[j].metal == metal ==> ticks[j].suspect
    ensures NewestGood(ticks, metal) == Some(ticks[i].usdPerOzMicro)
    decreases |ticks|
  {
    if i < |ticks| - 1 {
      NewestGoodIs(ticks[..|ticks| - 1], metal, i);
    }
  }

  lemma NewestGoodAfter(ticks: seq<Tick>, t: Tick, metal: Metal)
    ensures NewestGood(ticks + [t], metal) ==
            if t.metal == metal && !t.suspect then Some(t.usdPerOzMicro) else NewestGood(ticks, metal)
  {
    assert (ticks + [t])[..|ticks|] == ticks;
  }

  /* ---- the process ---- */

  class Worker {
    const limits: Limits
    // Redis keys.
    var cache: Option<Cached>
    var good: Option<nat>
    var pending: Option<Pending>
    // The process's own anchor per metal, and the price_tick table.
    var lastGood: map<Metal, nat>
    var ticks: seq<Tick>
    // What the feeds answered, for the record only.
    ghost var readings: seq<Reading>
    ghost var seen: seq<Witnessed>

    ghost function FxView(): Fx
      reads this`cache, this`good, this`pending
    {
      Fx(cache, good, pending)
    }

    // The process remembers exactly what a restart would read back from the table.
    ghost predicate Anchored(m: Metal)
      reads this`lastGood, this`ticks
    {
      NewestGood(ticks, m) == if m in lastGood then Some(lastGood[m]) else None
    }

    ghost predicate FxValid()
      reads this`cache, this`good, this`pending, this`readings
    {
      FxOk(FxView(), readings) && GuardHeld(limits, readings)
    }

    ghost predicate TicksValid()
      reads this`lastGood, this`ticks, this`seen
    {
      ticks == TicksOf(seen) && TicksOk(limits, seen) && Anchored(XAU) && Anchored(XPT)
    }

    ghost predicate Valid()
      reads this
    {
      FxValid() && TicksValid()
    }

    constructor (limits: Limits)
      ensures Valid() && this.limits == limits && FxView() == NO_FX && ticks == []
    {
      this.limits := limits;
      cache, good, pending := None, None, None;
      lastGood, ticks, readings, seen := map[], [], [], [];
    }

    // The feed is only read on a cache miss; None means the fetch threw and nothing was written.
    method GetFxMicro(now: int, feed: Option<nat>) returns (rate: Option<nat>)
      requires FxValid()
      modifies this`cache, this`good, this`pending, this`readings
      ensures FxValid()
      ensures Record(FxView(), readings, rate) ==
              Getter(limits, Record(old(FxView()), old(readings), None), Call(now, feed))
      ensures rate.Some? ==> rate == LastAccepted(readings)
      ensures rate.None? <==> !CacheHit(old(FxView()), now) && feed.None?
    {
      ghost var before := Record(FxView(), readings, None);
      ghost var after := Getter(limits, before, Call(now, feed));
      GetterKeepsGuard(limits, before, Call(now, feed));
      assert cache.Some? ==> good.Some?;
      hide LastAccepted, GuardHeld, MovedBps, FxOk, Streak;
      if cache.Some? && now < cache.value.expiresAt {
        return Some(cache.value.rate);
      }
      if feed.None? {
        return None;
      }
      var reading := feed.value;
      if good.None? || MovedBps(good.value, reading) <= limits.fxMaxMoveBps {
        pending := None;
        good := Some(reading);
        cache := Some(Cached(reading, now + limits.fxCacheSeconds));
        readings := after.readings;
        return good;
      }
      var count := 1;
      if pending.Some? && Agree(pending.value.rate, reading) {
        count := pending.value.count + 1;
      }
      if count >= FX_CONFIRMATIONS {
        pending := None;
        good := Some(reading);
        cache := Some(Cached(reading, now + limits.fxCacheSeconds));
        readings := after.readings;
        return good;
      }
      pending := Some(Pending(reading, count));
      cache := Some(Cached(good.value, now + FX_RETRY_SECONDS));
      readings := after.readings;
      return good;
    }

    // The second feed only matters once the move is beyond the limit.
    method Judge(metal: Metal, usd: nat, second: Option<nat>) returns (suspect: bool)
      requires Anchored(metal)
      ensures suspect <==> IsSuspect(limits, NewestGood(ticks, metal), usd, second)
      ensures suspect <==>
              && metal in lastGood && MovedBps(lastGood[metal], usd) > limits.maxTickMoveBps
              && (second.None? || MovedBps(usd, second.value) > 50)
    {
      hide NewestGood, MovedBps;
      if metal !in lastGood {
        return false;
      }
      if MovedBps(lastGood[metal], usd) <= limits.maxTickMoveBps {
        return false;
      }
      if second.Some? && Agree(usd, second.value) {
        return false;
      }
      return true;
    }

    // One metal of one round.
    method TickMetal(metal: Metal, feeds: Feeds, fxMicro: nat)
      requires TicksValid()
      modifies this`lastGood, this`ticks, this`seen
      ensures TicksValid()
      ensures feeds.first.None? ==> ticks == old(ticks) && lastGood == old(lastGood)
      ensures feeds.first.Some? ==>
                var usd := feeds.first.value;
                var suspect := IsSuspect(limits, NewestGood(old(ticks), metal), usd, feeds.second);
                && ticks == old(ticks) + [Tick(metal, usd, fxMicro, CentsPerGram(usd, fxMicro), suspect)]
                && lastGood == if suspect then old(lastGood) else old(lastGood)[metal := usd]
      ensures feeds.first.Some? ==>
                var tick := ticks[|ticks| - 1];
                && |ticks| == |old(ticks)| + 1 && tick.metal == metal && tick.usdPerOzMicro == feeds.first.value
                && tick.fxMicro == fxMicro && IsGramPrice(tick.cents, tick.usdPerOzMicro, fxMicro)
                && (tick.suspect <==>
                      && metal in old(lastGood)
                      && MovedBps(old(lastGood)[metal], tick.usdPerOzMicro) > limits.maxTickMoveBps
                      && (feeds.second.None? || MovedBps(tick.usdPerOzMicro, feeds.second.value) > 50))
    {
      hide NewestGood, TicksOf, TicksOk, MovedBps, CentsPerGram, IsSuspect;
      if feeds.first.None? {
        return;
      }
      var usd := feeds.first.value;
      GramPriceIsFloor(usd, fxMicro);
      assert Anchored(metal) by { match metal { case XAU => case XPT => } }
      var suspect := Judge(metal, usd, feeds.second);
      var tick := Tick(metal, usd, fxMicro, CentsPerGram(usd, fxMicro), suspect);
      AddTick(limits, seen, Witnessed(tick, feeds.second));
      NewestGoodAfter(ticks, tick, XAU);
      NewestGoodAfter(ticks, tick, XPT);
      ticks := ticks + [tick];
      seen := seen + [Witnessed(tick, feeds.second)];
      if !suspect {
        lastGood := lastGood[metal := usd];
      }
    }

    // One round over both metals. Every tick it stores carries the rate in force.
    method Round(now: int, fxFeed: Option<nat>, feeds: map<Metal, Feeds>)
      requires Valid() && XAU in feeds && XPT in feeds
      modifies this
      ensures Valid() && old(ticks) <= ticks
      ensures forall k | |old(ticks)| <= k < |ticks| :: Some(ticks[k].fxMicro) == LastAccepted(readings)
      ensures !CacheHit(old(FxView()), now) && fxFeed.None? ==> ticks == old(ticks) && FxView() == old(FxView())
    {
      hide NewestGood, TicksOf, TicksOk, MovedBps, CentsPerGram, LastAccepted, FxOk, GuardHeld;
      var fx := GetFxMicro(now, fxFeed);
      if fx.None? {
        return;
      }
      var metals := [XAU, XPT];
      var k := 0;
      while k < |metals|
        invariant 0 <= k <= |metals| && Valid() && old(ticks) <= ticks && fx == LastAccepted(readings)
        invariant forall j | |old(ticks)| <= j < |ticks| :: Some(ticks[j].fxMicro) == fx
      {
        TickMetal(metals[k], feeds[metals[k]], fx.value);
        k := k + 1;
      }
    }

    // A restarted process reads the anchors back from the table, and has lost nothing.
    method SeedLastGood()
      requires TicksValid()
      modifies this`lastGood
      ensures TicksValid() && lastGood == old(lastGood)
    {
      hide NewestGood, FxOk, GuardHeld, TicksOf, TicksOk;
      ghost var before := lastGood;
      lastGood := map[];
      var metals := [XAU, XPT];
      var k := 0;
      while k < |metals|
        invariant 0 <= k <= |metals|
        invariant k > 0 ==> Anchored(XAU)
        invariant k > 1 ==> Anchored(XPT)
        invariant k == 0 ==> lastGood == map[]
        invariant k == 1 ==> XPT !in lastGood
      {
        var newest := NewestGood(ticks, metals[k]);
        if newest.Some? {
          lastGood := lastGood[metals[k] := newest.value];
        }
        k := k + 1;
      }
      forall m: Metal
        ensures m in lastGood <==> m in before
        ensures m in lastGood ==> lastGood[m] == before[m]
      {
        match m { case XAU => case XPT => }
      }
    }
  }
}
