/** The zero-idle-cost contract and the drain of the whole system. */
module ZeroCostTheorems {
  import opened Base
  import R = Refresher
  import G = GateMachine
  import GateDrain
  import GateRuns
  import IdleGate
  import C = CacheMachine
  import CacheTheorems
  import opened ZeroCost

  // ------------------------------------------------------------------ zero idle cost

  /** From boot on: sleep and wake callbacks alternate, starting with sleep, each sleep is one
      cache generation and each wake one stop channel; whenever the gate mutex is free the cache
      is active exactly when the gate is awake; and before the first wake nothing is fetched. */
  lemma CacheFollowsGate(s: System)
    requires Reachable(s) && s.gate.booted
    ensures G.Alternating(s.gate.modes) && s.gate.modes != [] && s.gate.modes[0] == G.Sleep
    ensures s.cache.r.gen == Calls(s.gate.modes, G.Sleep)
    ensures |s.cache.r.stops| == Calls(s.gate.modes, G.Wake)
    ensures s.gate.lock == G.Free ==> (s.cache.r.active <==> !s.gate.g.sleeping)
    ensures Calls(s.gate.modes, G.Wake) == 0 ==> s.cache.fetches == [] && s.cache.r.entries == map[]
  {
    ReachableInv(s);
    AlternatingCalls(s.gate.modes);
  }

  /** The gate sleeps and its sleep callback has done its work. */
  predicate Asleep(s: System) {
    s.gate.booted && s.gate.g.sleeping && s.gate.lock != G.InSleepFn
  }

  lemma AsleepIsOver(s: System)
    requires Inv(s) && Asleep(s)
    ensures !s.cache.r.active && s.cache.r.entries == map[]
    ensures |s.gate.modes| >= 2 ==> CacheTheorems.Ended(s.cache)
    ensures |s.gate.modes| <= 1 <==> Calls(s.gate.modes, G.Wake) == 0
  {
    AlternatingCalls(s.gate.modes);
  }

  lemma AsleepRegistersNothing(s: System, step: Step)
    requires Inv(s) && Asleep(s) && Enabled(s, step)
    ensures !step.Serve? && |Apply(s, step).cache.fetches| == |s.cache.fetches|
  {
    AsleepIsOver(s);
    if |s.gate.modes| <= 1 {
      NothingToDo(s, step);
    } else if step.Cache? {
      CacheTheorems.EndedStep(s.cache, step.c);
    }
  }

  /** Deep sleep costs nothing, from boot on: no entry is held, every fetch still running is of an
      earlier session, no connection is served and no request is made, and whatever happens next
      registers no fetch. Before the first wake there has been no fetch, caller or loop at all. */
  lemma DeepSleepIsFree(s: System)
    requires Reachable(s) && Asleep(s)
    ensures WellFormed(s) && s.cache.r.entries == map[]
    ensures forall id :: 0 <= id < |s.cache.fetches| ==> s.cache.fetches[id].gen < s.cache.r.gen
    ensures forall c :: 0 <= c < |s.gate.conns| ==> s.gate.conns[c] != G.Serving
    ensures forall step :: Enabled(s, step) ==>
      !step.Serve? && |Apply(s, step).cache.fetches| == |s.cache.fetches|
    ensures Calls(s.gate.modes, G.Wake) == 0 ==>
      s.cache.fetches == [] && s.cache.callers == [] && s.cache.loops == []
  {
    ReachableInv(s);
    AsleepIsOver(s);
    forall step | Enabled(s, step) ensures !step.Serve? && |Apply(s, step).cache.fetches| == |s.cache.fetches| {
      AsleepRegistersNothing(s, step);
    }
    forall id | 0 <= id < |s.cache.fetches| ensures s.cache.fetches[id].gen < s.cache.r.gen {
      C.Unfold(s.cache, id);
    }
  }

  /** Requests are only ever made inside a session: whenever a connection is served the gate is
      awake and the cache active, so no client is told that the session is over. */
  lemma ServedInSession(s: System, conn: nat, key: R.Key)
    requires Reachable(s) && G.ConnAt(s.gate, conn, G.Serving)
    ensures WellFormed(s) && !s.gate.g.sleeping && s.cache.r.active
    ensures !R.Lookup(s.cache.r, s.cache.now, key).SessionOver?
  {
    ReachableInv(s);
  }

  /** Every session, the first included, serves only what was fetched for it: each entry comes
      from a fetch registered in the session that is open. */
  lemma EntriesAreOfThisSession(s: System, key: R.Key)
    requires Reachable(s) && key in s.cache.r.entries
    ensures s.cache.r.active && C.OriginCall(s.cache.log, key) < |s.cache.fetches|
    ensures var f := s.cache.fetches[C.OriginCall(s.cache.log, key)];
      f.session == |s.cache.r.stops| && f.gen == s.cache.r.gen
      && C.StoredRun(f, key, s.cache.r.entries[key].reply)
  {
    ReachableInv(s);
    C.EntryOrigin(s.cache, key);
    assert C.EntryOK(s.cache, key);
    C.Unfold(s.cache, C.OriginCall(s.cache.log, key));
  }

  /** The session check inside `get` alone would not hold during the boot park: asleep, a lookup
      would start a fetch exactly if no session was ever opened and the key is produced. What
      closes that gap is that nobody is there to look anything up (`DeepSleepIsFree`). */
  lemma AsleepStartExactly(s: System, key: R.Key)
    requires Reachable(s) && Asleep(s)
    ensures WellFormed(s)
    ensures R.Lookup(s.cache.r, s.cache.now, key).Start? <==>
      Calls(s.gate.modes, G.Wake) == 0 && key in s.cache.r.producers
  {
    ReachableInv(s);
    AsleepIsOver(s);
  }

  // ------------------------------------------------------------------ producers after the park

  predicate NoWake(steps: seq<Step>) {
    forall k :: 0 <= k < |steps| ==> !(steps[k].Gate? && steps[k].g.WakeFn?)
  }

  lemma CacheStaysInactive(s: C.Machine, step: C.Step, id: nat)
    requires C.Inv(s) && CacheTheorems.Ended(s) && C.Enabled(s, step) && Internal(step)
    ensures var t := C.Apply(s, step); !t.r.active && (C.At(t, id, C.Spawned) ==> C.At(s, id, C.Spawned))
  {
    CacheTheorems.EndedStep(s, step);
    CacheTheorems.NeverSpawnedAgain(s, step, id);
  }

  lemma GateStaysInactive(s: System, step: G.Step)
    requires WellFormed(s) && s.gate.booted && !s.cache.r.active && Enabled(s, Gate(step)) && !step.WakeFn?
    ensures var t := Apply(s, Gate(step));
      t.gate.booted && !t.cache.r.active && t.cache.fetches == s.cache.fetches
  {
  }

  lemma StaysInactive(s: System, step: Step, id: nat)
    requires Inv(s) && s.gate.booted && !s.cache.r.active && Enabled(s, step)
    requires !(step.Gate? && step.g.WakeFn?)
    ensures var t := Apply(s, step);
      && t.gate.booted && !t.cache.r.active
      && (C.At(t.cache, id, C.Spawned) ==> C.At(s.cache, id, C.Spawned))
  {
    if step.Gate? {
      GateStaysInactive(s, step.g);
    } else if |s.gate.modes| <= 1 {
      NothingToDo(s, step);
    } else if step.Cache? {
      CacheStaysInactive(s.cache, step.c, id);
    }
  }

  lemma NoWakeTail(steps: seq<Step>, step: Step)
    requires NoWake(steps) && step in steps && steps[0] != step
    ensures !(steps[0].Gate? && steps[0].g.WakeFn?) && NoWake(steps[1..]) && step in steps[1..]
  {
  }

  lemma {:induction false} CalledWasSpawned(s: System, steps: seq<Step>, id: nat)
    requires Inv(s) && s.gate.booted && !s.cache.r.active && CanRun(s, steps) && NoWake(steps)
    requires Cache(C.RunProducer(id)) in steps
    ensures C.At(s.cache, id, C.Spawned)
    decreases |steps|
  {
    var step := Cache(C.RunProducer(id));
    if steps[0] != step {
      NoWakeTail(steps, step);
      StepInv(s, steps[0]);
      StaysInactive(s, steps[0], id);
      CalledWasSpawned(Apply(s, steps[0]), steps[1..], id);
    }
  }

  /** A run that calls the producer of fetch `id` before the gate is woken. */
  ghost predicate CallsAsleep(s: System, steps: seq<Step>, id: nat)
    requires WellFormed(s)
  {
    CanRun(s, steps) && NoWake(steps) && Cache(C.RunProducer(id)) in steps
  }

  lemma CalledAtOnce(s: System, id: nat)
    requires WellFormed(s) && Enabled(s, Cache(C.RunProducer(id)))
    ensures CallsAsleep(s, [Cache(C.RunProducer(id))], id)
  {
    var step := Cache(C.RunProducer(id));
    assert [step][1..] == [] && step in [step];
    assert CanRun(Apply(s, step), []);
  }

  /** A parked process still calls a producer, before the gate is woken again, exactly for the
      fetches that were registered but not yet running when it parked. */
  lemma ParkedProducersExactly(s: System, id: nat)
    requires Reachable(s) && Asleep(s) && !s.gate.exited
    ensures WellFormed(s)
    ensures (exists steps :: CallsAsleep(s, steps, id)) <==> C.At(s.cache, id, C.Spawned)
  {
    ReachableInv(s);
    if C.At(s.cache, id, C.Spawned) {
      CalledAtOnce(s, id);
    } else if steps :| CallsAsleep(s, steps, id) {
      AsleepIsOver(s);
      CalledWasSpawned(s, steps, id);
    }
  }

  // ------------------------------------------------------------------ what a session costs

  lemma Lifetimes(c: C.Machine)
    requires c.r.ttls == R.DEFAULT_TTLS
    ensures c.r.Ttl("zpool") == c.r.Ttl("arc") == c.r.Ttl("sysinfo") == 6 * R.SECOND
    ensures c.r.Ttl("smart") == 60 * R.SECOND
  {
  }

  lemma FetchBudget(s: System, key: R.Key, gen: nat, from: nat, ttl: nat, runs: nat)
    requires Inv(s) && ttl > 0 && s.cache.r.Ttl(key) == ttl && IdleGate.MAX_SESSION / ttl + 1 == runs
    ensures |CacheTheorems.StartsWithin(s.cache, key, gen, 0, from, IdleGate.MAX_SESSION)| <= runs
  {
    CacheTheorems.FetchRate(s.cache, key, gen, 0, from, IdleGate.MAX_SESSION);
  }

  lemma NoFlushes(s: System)
    requires Inv(s)
    ensures forall id :: 0 <= id < |s.cache.fetches| ==> s.cache.fetches[id].flushes == 0
  {
    forall id | 0 <= id < |s.cache.fetches| ensures s.cache.fetches[id].flushes == 0 {
      C.Unfold(s.cache, id);
    }
  }

  lemma Windows()
    ensures IdleGate.MAX_SESSION / (6 * R.SECOND) == 40 && IdleGate.MAX_SESSION / (60 * R.SECOND) == 4
  {
  }

  /** What a session costs with the shipped lifetimes: whoever polls, and however often, any four
      minutes of it start at most 41 runs of each fast endpoint and at most 5 SMART sweeps. */
  lemma SessionFetchBudget(s: System, gen: nat, from: nat)
    requires Reachable(s) && s.cache.r.ttls == R.DEFAULT_TTLS
    ensures |CacheTheorems.StartsWithin(s.cache, "zpool", gen, 0, from, IdleGate.MAX_SESSION)| <= 41
    ensures |CacheTheorems.StartsWithin(s.cache, "arc", gen, 0, from, IdleGate.MAX_SESSION)| <= 41
    ensures |CacheTheorems.StartsWithin(s.cache, "sysinfo", gen, 0, from, IdleGate.MAX_SESSION)| <= 41
    ensures |CacheTheorems.StartsWithin(s.cache, "smart", gen, 0, from, IdleGate.MAX_SESSION)| <= 5
    ensures IdleGate.MAX_SESSION == 240_000_000_000
    ensures forall id :: 0 <= id < |s.cache.fetches| ==> s.cache.fetches[id].flushes == 0
  {
    ReachableInv(s);
    Lifetimes(s.cache);
    Windows();
    NoFlushes(s);
    var fast, slow := 6 * R.SECOND, 60 * R.SECOND;
    FetchBudget(s, "zpool", gen, from, fast, 41);
    FetchBudget(s, "arc", gen, from, fast, 41);
    FetchBudget(s, "sysinfo", gen, from, fast, 41);
    FetchBudget(s, "smart", gen, from, slow, 5);
  }

  // ------------------------------------------------------------------ drain of the gate

  /** Steps that remain when no further connection is accepted. Open connections may go on making
      requests, and exit on idle may be asked for. */
  predicate Winding(step: Step) {
    step.Gate? ==> !step.g.Accept?
  }

  predicate AllWinding(steps: seq<Step>) {
    forall k :: 0 <= k < |steps| ==> Winding(steps[k])
  }

  /** Hooks, timers, callbacks and forced closes. */
  predicate GateMoves(step: Step) {
    step.Gate? && GateDrain.DrainStep(step.g)
  }

  function GateSteps(steps: seq<Step>): nat {
    if steps == [] then 0 else (if GateMoves(steps[0]) then 1 else 0) + GateSteps(steps[1..])
  }

  lemma WindingStep(s: System, step: Step)
    requires Inv(s) && s.gate.booted && Enabled(s, step) && Winding(step)
    ensures var t := Apply(s, step);
      t.gate.booted && GateDrain.Weight(t.gate) + (if GateMoves(step) then 1 else 0) <= GateDrain.Weight(s.gate)
  {
    if step.Gate? {
      GateDrain.DrainLightens(s.gate, step.g);
    } else if step.Tick? {
      GateDrain.DrainLightens(s.gate, G.Advance(step.d));
    }
  }

  /** From any state after boot on, however requests of open connections, cache steps and time
      interleave, the remaining hooks, timers, callbacks and forced closes are bounded by the
      gate's weight. */
  lemma {:induction false} DrainIsFinite(s: System, steps: seq<Step>)
    requires Inv(s) && s.gate.booted && CanRun(s, steps) && AllWinding(steps)
    ensures GateSteps(steps) + GateDrain.Weight(RunTo(s, steps).gate) <= GateDrain.Weight(s.gate)
    decreases |steps|
  {
    if steps != [] {
      assert Winding(steps[0]);
      StepInv(s, steps[0]);
      WindingStep(s, steps[0]);
      forall k | 0 <= k < |steps[1..]| ensures Winding(steps[1..][k]) {
        assert steps[1..][k] == steps[k + 1];
      }
      DrainIsFinite(Apply(s, steps[0]), steps[1..]);
    }
  }

  /** The cache after a park: no session, nothing cached, no fetch startable. */
  predicate Resting(c: C.Machine) {
    && C.Shape(c) && !c.r.active && c.r.entries == map[]
    && (c.r.stops != [] || (c.fetches == [] && c.callers == []))
  }

  /** When the gate has run out of steps it is asleep with no connection, no live map entry and
      no timer, and the cache is inactive and empty, even if fetches are still running. */
  lemma DrainEndsParked(s: System)
    requires Inv(s) && s.gate.booted && !s.gate.exited && GateDrain.Quiescent(s.gate)
    ensures GateDrain.AtPeace(s.gate) && Resting(s.cache)
  {
    GateDrain.DrainEndsAsleep(s.gate);
  }

  // ------------------------------------------------------------------ drain of the cache

  function FetchWeight(f: C.Fetch): nat {
    CacheTheorems.Left(f)
  }

  function CallerWeight(c: C.Caller): nat {
    if c.progress.Waiting? then 1 else 0
  }

  function LoopWeight(keys: nat, loop: C.Loop): nat {
    match loop.phase
    case Committed => 2 * keys + 3
    case Round(todo, _) => 2 * |todo| + 2
    case Selecting => 1
    case Exited => 0
  }

  function LoopWeights(keys: nat): C.Loop -> nat {
    loop => LoopWeight(keys, loop)
  }

  function CacheWeight(s: C.Machine): nat {
    Sum(FetchWeight, s.fetches) + Sum(CallerWeight, s.callers) + Sum(LoopWeights(|s.r.ttls.Keys|), s.loops)
  }

  lemma {:induction false} SubsetCard<T>(a: set<T>, b: set<T>)
    requires a <= b
    ensures |a| <= |b|
  {
    if x :| x in a {
      SubsetCard(a - {x}, b - {x});
    }
  }

  lemma FetchSettles(s: C.Machine, step: C.Step, id: nat)
    requires C.Shape(s) && C.Enabled(s, step)
    requires C.IsFetchStep(step, id) || step == C.StoreResult(id) || step == C.RemoveCall(id)
    ensures CacheWeight(C.Apply(s, step)) < CacheWeight(s)
  {
    var t := C.Apply(s, step);
    assert t.callers == s.callers && t.loops == s.loops && t.r.ttls == s.r.ttls;
    assert t.fetches == s.fetches[id := t.fetches[id]];
    assert FetchWeight(t.fetches[id]) < FetchWeight(s.fetches[id]);
    SumUpdate(FetchWeight, s.fetches, id, t.fetches[id]);
  }

  lemma CallerSettles(s: C.Machine, step: C.Step)
    requires C.Shape(s) && C.Enabled(s, step) && (step.Deliver? || step.Cancel?)
    ensures CacheWeight(C.Apply(s, step)) < CacheWeight(s)
  {
    SumUpdate(CallerWeight, s.callers, step.caller, C.Apply(s, step).callers[step.caller]);
  }

  lemma LoopGetSettles(s: C.Machine, i: nat, key: R.Key)
    requires C.Shape(s) && C.Enabled(s, C.LoopGet(i, key)) && !R.Lookup(s.r, s.now, key).Start?
    ensures CacheWeight(C.Apply(s, C.LoopGet(i, key))) < CacheWeight(s)
  {
    var t := C.Apply(s, C.LoopGet(i, key));
    var w := LoopWeights(|s.r.ttls.Keys|);
    var todo := s.loops[i].phase.todo;
    assert |todo - {key}| == |todo| - 1;
    assert t.fetches == s.fetches && t.r.ttls == s.r.ttls;
    assert t.callers == s.callers + [t.callers[|s.callers|]] && t.loops == s.loops[i := t.loops[i]];
    SumUpdate(w, s.loops, i, t.loops[i]);
    SumAppend(CallerWeight, s.callers, t.callers[|s.callers|]);
  }

  lemma LoopSettles(s: C.Machine, step: C.Step)
    requires C.Shape(s) && C.StopsOK(s) && CacheTheorems.Ended(s) && C.Enabled(s, step)
    requires step.LoopScan? || step.LoopRoundDone? || step.LoopTick? || step.LoopStop?
    ensures CacheWeight(C.Apply(s, step)) < CacheWeight(s)
  {
    var t := C.Apply(s, step);
    SubsetCard(R.StaleKeys(s.r, s.now), s.r.ttls.Keys);
    SumUpdate(LoopWeights(|s.r.ttls.Keys|), s.loops, step.i, t.loops[step.i]);
  }

  /** While the cache rests, every step it can still take brings it closer to a standstill. */
  lemma RestingStays(s: C.Machine, step: C.Step)
    requires C.Inv(s) && Resting(s) && Internal(step) && C.Enabled(s, step)
    ensures Resting(C.Apply(s, step))
  {
    if s.r.stops != [] { CacheTheorems.EndedStep(s, step); }
    C.StepInv(s, step);
  }

  lemma CacheSettles(s: C.Machine, step: C.Step)
    requires C.Inv(s) && Resting(s) && Internal(step) && C.Enabled(s, step)
    ensures Resting(C.Apply(s, step)) && CacheWeight(C.Apply(s, step)) < CacheWeight(s)
  {
    RestingStays(s, step);
    match step
    case Deliver(_) => CallerSettles(s, step);
    case Cancel(_) => CallerSettles(s, step);
    case LoopGet(i, key) =>
      CacheTheorems.EndedStep(s, step);
      LoopGetSettles(s, i, key);
    case LoopScan(_) => LoopSettles(s, step);
    case LoopRoundDone(_) => LoopSettles(s, step);
    case LoopTick(_) => LoopSettles(s, step);
    case LoopStop(_) => LoopSettles(s, step);
    case RunProducer(id) => FetchSettles(s, step, id);
    case ProducerReturns(id, _) => FetchSettles(s, step, id);
    case StoreResult(id) => FetchSettles(s, step, id);
    case ShowResult(id) => FetchSettles(s, step, id);
    case RemoveCall(id) => FetchSettles(s, step, id);
    case CloseDone(id) => FetchSettles(s, step, id);
  }

  function CacheSteps(steps: seq<Step>): nat {
    if steps == [] then 0 else (if steps[0].Cache? then 1 else 0) + CacheSteps(steps[1..])
  }

  /** A parked system takes at most `CacheWeight` further cache steps, however much time passes
      between them, and stays parked. */
  lemma {:induction false} ParkedSettles(s: System, steps: seq<Step>)
    requires Inv(s) && Resting(s.cache) && CanRun(s, steps)
    requires forall k :: 0 <= k < |steps| ==> steps[k].Cache? || steps[k].Tick?
    ensures var t := RunTo(s, steps);
      && Resting(t.cache) && t.gate == s.gate.(now := t.gate.now)
      && CacheSteps(steps) + CacheWeight(t.cache) <= CacheWeight(s.cache)
    decreases |steps|
  {
    if steps != [] {
      assert steps[0].Cache? || steps[0].Tick?;
      StepInv(s, steps[0]);
      if steps[0].Cache? { CacheSettles(s.cache, steps[0].c); }
      forall k | 0 <= k < |steps[1..]| ensures steps[1..][k].Cache? || steps[1..][k].Tick? {
        assert steps[1..][k] == steps[k + 1];
      }
      ParkedSettles(Apply(s, steps[0]), steps[1..]);
    }
  }

  /** No goroutine of the cache can move. */
  ghost predicate CacheStill(s: C.Machine)
    requires C.Shape(s)
  {
    forall step: C.Step :: Internal(step) ==> !C.Enabled(s, step)
  }

  lemma Stuck(s: C.Machine, step: C.Step)
    requires C.Shape(s) && CacheStill(s) && Internal(step)
    ensures !C.Enabled(s, step)
  {
  }

  lemma StillFetch(s: C.Machine, id: nat)
    requires C.Inv(s) && CacheStill(s) && id < |s.fetches|
    ensures s.fetches[id].phase == C.Complete
  {
    C.Unfold(s, id);
    Stuck(s, CacheTheorems.NextOwn(s, id, R.ZERO_REPLY));
  }

  lemma StillCaller(s: C.Machine, c: nat)
    requires C.Inv(s) && CacheStill(s) && c < |s.callers|
    ensures s.callers[c].progress.Replied?
  {
    assert C.CallerOK(s, s.callers[c]);
    if s.callers[c].progress.Waiting? {
      StillFetch(s, s.callers[c].progress.call);
      C.Unfold(s, s.callers[c].progress.call);
      Stuck(s, C.Deliver(c));
    }
  }

  lemma StillLoop(s: C.Machine, i: nat)
    requires C.Inv(s) && CacheStill(s) && i < |s.loops|
    ensures s.loops[i].phase.Exited?
  {
    assert C.LoopOK(s, i);
    match s.loops[i].phase
    case Committed => Stuck(s, C.LoopScan(i));
    case Round(todo, asked) =>
      if todo != {} {
        var key :| key in todo;
        Stuck(s, C.LoopGet(i, key));
      } else {
        forall c | c in asked ensures c < |s.callers| && s.callers[c].progress.Replied? { StillCaller(s, c); }
        Stuck(s, C.LoopRoundDone(i));
      }
    case Selecting => Stuck(s, C.LoopTick(i));
    case Exited =>
  }

  /** No goroutine of the cache is left: every fetch is through, every caller answered, every loop
      gone and nothing in flight. */
  predicate Gone(s: C.Machine) {
    && (forall id :: 0 <= id < |s.fetches| ==> s.fetches[id].phase == C.Complete)
    && (forall c :: 0 <= c < |s.callers| ==> s.callers[c].progress.Replied?)
    && (forall i :: 0 <= i < |s.loops| ==> s.loops[i].phase.Exited?)
    && s.r.inflight == map[]
  }

  lemma FlyingIsLive(s: C.Machine)
    requires C.Inv(s) && s.r.inflight != map[]
    ensures exists id :: 0 <= id < |s.fetches| && C.Live(s.fetches[id])
  {
    var key :| key in s.r.inflight;
    assert C.Live(s.fetches[s.r.inflight[key]]);
  }

  /** The cache stands still exactly if no goroutine of it is left. */
  lemma SettledIsGone(s: C.Machine)
    requires C.Inv(s)
    ensures CacheStill(s) <==> Gone(s)
  {
    if CacheStill(s) {
      if s.r.inflight != map[] { FlyingIsLive(s); }
      forall id | 0 <= id < |s.fetches| ensures s.fetches[id].phase == C.Complete { StillFetch(s, id); }
      forall c | 0 <= c < |s.callers| ensures s.callers[c].progress.Replied? { StillCaller(s, c); }
      forall i | 0 <= i < |s.loops| ensures s.loops[i].phase.Exited? { StillLoop(s, i); }
    } else {
      var step :| Internal(step) && C.Enabled(s, step);
      GoneCannotMove(s, step);
    }
  }

  lemma GoneCannotMove(s: C.Machine, step: C.Step)
    requires C.Shape(s) && Internal(step) && C.Enabled(s, step)
    ensures !Gone(s)
  {
  }

  // ------------------------------------------------------------------ drain of the whole system

  /** Everything is over: the gate is asleep with no connection, live map entry or timer left, and
      the cache is inactive and empty with no goroutine left. */
  predicate AtRest(s: System) {
    GateDrain.AtPeace(s.gate) && Resting(s.cache) && Gone(s.cache)
  }

  /** Nothing but requests, time and the exit request can happen any more, now or later. */
  ghost predicate Drained(s: System)
    requires WellFormed(s)
  {
    GateDrain.Quiescent(s.gate) && CacheStill(s.cache)
  }

  /** A run that accepts no further connection can stop nowhere else than at rest, unless the
      process exits; and at rest nothing moves again. */
  lemma DrainEndsExactly(s: System)
    requires Inv(s) && s.gate.booted && !s.gate.exited
    ensures Drained(s) <==> AtRest(s)
  {
    SettledIsGone(s.cache);
    if GateDrain.Quiescent(s.gate) {
      DrainEndsParked(s);
    } else if AtRest(s) {
      GateDrain.AsleepIsQuiescent(s.gate);
    }
  }

  lemma RunCons(s: System, step: Step, steps: seq<Step>)
    requires WellFormed(s) && Enabled(s, step) && CanRun(Apply(s, step), steps) && Winding(step) && AllWinding(steps)
    ensures CanRun(s, [step] + steps) && RunTo(s, [step] + steps) == RunTo(Apply(s, step), steps)
    ensures AllWinding([step] + steps)
  {
    assert ([step] + steps)[1..] == steps;
  }

  /** While the gate can still move, waiting and moving makes it lighter. */
  lemma MoveGate(s: System) returns (d: nat, g: G.Step)
    requires Inv(s) && s.gate.booted && !s.gate.exited && !GateDrain.Quiescent(s.gate)
    ensures Enabled(s, Tick(d)) && GateDrain.DrainStep(g)
    ensures var u := Apply(s, Tick(d));
      && Inv(u) && u.gate.booted && Enabled(u, Gate(g))
      && var t := Apply(u, Gate(g));
         Inv(t) && t.gate.booted && GateDrain.Weight(t.gate) < GateDrain.Weight(s.gate)
  {
    d, g :| GateDrain.DrainStep(g) && G.Enabled(GateDrain.Later(s.gate, d), g);
    var u := Apply(s, Tick(d));
    assert u.gate == GateDrain.Later(s.gate, d);
    StepInv(s, Tick(d));
    WindingStep(s, Tick(d));
    StepInv(u, Gate(g));
    WindingStep(u, Gate(g));
  }

  lemma MoveCache(s: System) returns (c: C.Step)
    requires Inv(s) && s.gate.booted && !s.gate.exited && Resting(s.cache) && !CacheStill(s.cache)
    ensures Enabled(s, Cache(c))
    ensures var t := Apply(s, Cache(c));
      Inv(t) && t.gate == s.gate && CacheWeight(t.cache) < CacheWeight(s.cache)
  {
    c :| Internal(c) && C.Enabled(s.cache, c);
    StepInv(s, Cache(c));
    CacheSettles(s.cache, c);
  }

  /** From every state after boot the system can be run, accepting no further connection, to rest
      or to the exit of the process. */
  lemma {:induction false} DrainReachesRest(s: System) returns (steps: seq<Step>)
    requires Inv(s) && s.gate.booted
    ensures CanRun(s, steps) && AllWinding(steps)
    ensures RunTo(s, steps).gate.exited || AtRest(RunTo(s, steps))
    decreases GateDrain.Weight(s.gate), CacheWeight(s.cache)
  {
    steps := [];
    if s.gate.exited {
    } else if !GateDrain.Quiescent(s.gate) {
      var d, g := MoveGate(s);
      var u := Apply(s, Tick(d));
      steps := DrainReachesRest(Apply(u, Gate(g)));
      RunCons(u, Gate(g), steps);
      RunCons(s, Tick(d), [Gate(g)] + steps);
      steps := [Tick(d)] + ([Gate(g)] + steps);
    } else {
      DrainEndsParked(s);
      if CacheStill(s.cache) {
        SettledIsGone(s.cache);
      } else {
        var c := MoveCache(s);
        steps := DrainReachesRest(Apply(s, Cache(c)));
        RunCons(s, Cache(c), steps);
        steps := [Cache(c)] + steps;
      }
    }
  }

  lemma {:induction false} ExitAheadOver(s: System, steps: seq<Step>)
    requires Inv(s) && GateRuns.ExitAhead(s.gate) && CanRun(s, steps)
    ensures GateRuns.ExitAhead(RunTo(s, steps).gate)
    decreases |steps|
  {
    if steps != [] {
      if steps[0].Gate? { GateRuns.ExitAheadStep(s.gate, steps[0].g); }
      if steps[0].Tick? { GateRuns.ExitAheadStep(s.gate, G.Advance(steps[0].d)); }
      StepInv(s, steps[0]);
      ExitAheadOver(Apply(s, steps[0]), steps[1..]);
    }
  }

  /** A process told to exit on idle while it is awake exits: no run of it ever comes to rest
      parked, and without further connections there is a run to the exit. */
  lemma ExitIsReached(s: System, steps: seq<Step>) returns (drain: seq<Step>)
    requires Inv(s) && GateRuns.ExitAhead(s.gate) && CanRun(s, steps)
    ensures AtRest(RunTo(s, steps)) ==> RunTo(s, steps).gate.exited
    ensures CanRun(s, drain) && AllWinding(drain) && RunTo(s, drain).gate.exited
  {
    ExitAheadOver(s, steps);
    drain := DrainReachesRest(s);
    ExitAheadOver(s, drain);
  }

  // ------------------------------------------------------------------ the parts in the whole

  /** The cache moves in the system as it does alone, in every step its own goroutines take. */
  lemma CacheMovesFreely(s: System, step: C.Step)
    requires Reachable(s) && !s.gate.exited
    ensures WellFormed(s)
    ensures C.Enabled(s.cache, step) ==>
      || step.Advance? || step.SetSession? || step.Flush? || step.HttpGet?
      || (Enabled(s, Cache(step)) && Apply(s, Cache(step)) == System(s.gate, C.Apply(s.cache, step)))
  {
    ReachableInv(s);
  }

  /** So does the gate, except that an accept waits for the accept hook before it; exactly the wake
      callback opens a session and exactly the sleep callback ends one. */
  lemma GateMovesFreely(s: System, step: G.Step)
    requires Reachable(s) && !step.Advance?
    ensures WellFormed(s)
    ensures Enabled(s, Gate(step)) <==>
      G.Enabled(s.gate, step)
      && (step == G.Accept ==>
            forall c :: 0 <= c < |s.gate.conns| ==>
              s.gate.conns[c] != G.NeedWake && s.gate.conns[c] != G.Waking && s.gate.conns[c] != G.NeedMap)
    ensures Enabled(s, Gate(step)) ==>
      var t := Apply(s, Gate(step));
      && t.gate == G.Apply(s.gate, step)
      && t.cache == if step.WakeFn? then C.Apply(s.cache, C.SetSession(true))
                    else if step.SleepFn? || step.Boot? then C.Apply(s.cache, C.SetSession(false))
                    else s.cache
  {
    ReachableInv(s);
  }

  /** Time passes for both alike. */
  lemma TimeIsShared(s: System, d: nat)
    requires Reachable(s) && !s.gate.exited
    ensures WellFormed(s) && Enabled(s, Tick(d))
    ensures Apply(s, Tick(d)).gate.now == Apply(s, Tick(d)).cache.now == s.cache.now + d
  {
    ReachableInv(s);
  }

  // ------------------------------------------------------------------ requests

  /** A served connection, and only a served one, can ask for any key at any moment; its request
      reaches the cache as it was asked. */
  lemma ServeAsks(s: System, conn: nat, key: R.Key)
    requires Reachable(s) && !s.gate.exited
    ensures WellFormed(s) && (Enabled(s, Serve(conn, key)) <==> G.ConnAt(s.gate, conn, G.Serving))
    ensures Enabled(s, Serve(conn, key)) ==>
      var t := Apply(s, Serve(conn, key));
      && t.gate == s.gate && |t.cache.callers| == |s.cache.callers| + 1
      && t.cache.callers[..|s.cache.callers|] == s.cache.callers
      && var c := t.cache.callers[|s.cache.callers|];
         c.key == key && c.cancellable && c.asked == C.Moment(|s.cache.log|, s.cache.now)
  {
    ReachableInv(s);
  }
}
