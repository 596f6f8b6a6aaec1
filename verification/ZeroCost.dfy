/** The gate and the cache composed as idle.go:288-307 wires them: the sleep callback ends the
    cache's session, the wake callback opens one, requests come from served connections, and both
    share one clock. The one `Serve` loop of main.go:72 runs the accept hook of a connection to its
    end before it accepts the next. The zero-idle-cost contract is a theorem about this product. */
module ZeroCost {
  import opened Base
  import Refresher
  import G = GateMachine
  import C = CacheMachine

  datatype System = System(gate: G.Machine, cache: C.Machine)

  datatype Step =
    | Tick(d: nat)
    | Gate(g: G.Step)
    | Cache(c: C.Step)
    | Serve(conn: nat, key: Refresher.Key)

  function Init(grace: nat, maxSession: nat, ttls: map<Refresher.Key, nat>, producers: set<Refresher.Key>): System {
    System(G.Init(grace, maxSession), C.Init(ttls, producers))
  }

  /** Steps the cache takes on its own: callers, fetches and loops. */
  predicate Internal(step: C.Step) {
    !step.Advance? && !step.SetSession? && !step.Flush? && !step.HttpGet?
  }

  predicate WellFormed(s: System) {
    s.gate.g.Allocated() && C.Shape(s.cache)
  }

  predicate Enabled(s: System, step: Step)
    requires WellFormed(s)
  {
    !s.gate.exited &&
    match step
    case Tick(_) => true
    case Gate(g) => !g.Advance? && G.Enabled(s.gate, g) && (g.Accept? ==> G.NoneEntering(s.gate))
    case Cache(c) => Internal(c) && C.Enabled(s.cache, c)
    case Serve(conn, _) => G.ConnAt(s.gate, conn, G.Serving)
  }

  /** What the runtime callbacks do to the cache. */
  function Glue(gate: G.Machine, step: G.Step, cache: C.Machine): (r: C.Machine)
    requires C.Shape(cache)
    ensures C.Shape(r)
  {
    match step
    case WakeFn(_) => C.Apply(cache, C.SetSession(true))
    case SleepFn => C.Apply(cache, C.SetSession(false))
    case Boot => if gate.g.sleeping then cache else C.Apply(cache, C.SetSession(false))
    case _ => cache
  }

  function Apply(s: System, step: Step): (t: System)
    requires WellFormed(s) && Enabled(s, step)
    ensures WellFormed(t)
  {
    match step
    case Tick(d) => System(G.Apply(s.gate, G.Advance(d)), C.Apply(s.cache, C.Advance(d)))
    case Gate(g) => System(G.Apply(s.gate, g), Glue(s.gate, g, s.cache))
    case Cache(c) => s.(cache := C.Apply(s.cache, c))
    case Serve(_, key) => s.(cache := C.Apply(s.cache, C.HttpGet(key)))
  }

  predicate CanRun(s: System, steps: seq<Step>)
    requires WellFormed(s)
    decreases |steps|
  {
    steps != [] ==> Enabled(s, steps[0]) && CanRun(Apply(s, steps[0]), steps[1..])
  }

  function RunTo(s: System, steps: seq<Step>): (t: System)
    requires WellFormed(s) && CanRun(s, steps)
    ensures WellFormed(t)
    decreases |steps|
  {
    if steps == [] then s else RunTo(Apply(s, steps[0]), steps[1..])
  }

  ghost predicate Reachable(s: System) {
    exists grace, maxSession, ttls, producers, steps ::
      CanRun(Init(grace, maxSession, ttls, producers), steps)
      && RunTo(Init(grace, maxSession, ttls, producers), steps) == s
  }

  // ------------------------------------------------------------------ invariant

  /** How often a callback of this kind has run. */
  function Calls(modes: seq<G.Mode>, mode: G.Mode): nat {
    if modes == [] then 0
    else Calls(modes[..|modes| - 1], mode) + (if modes[|modes| - 1] == mode then 1 else 0)
  }

  lemma {:induction false} AlternatingCalls(modes: seq<G.Mode>)
    requires G.Alternating(modes)
    ensures Calls(modes, G.Wake) == |modes| / 2 && Calls(modes, G.Sleep) == (|modes| + 1) / 2
  {
    if modes != [] {
      AlternatingCalls(modes[..|modes| - 1]);
    }
  }

  predicate GlueOK(s: System)
    requires C.Shape(s.cache)
  {
    var n := |s.gate.modes|;
    && s.cache.now == s.gate.now
    && s.cache.flushes == 0
    && |s.cache.r.stops| == n / 2
    && s.cache.r.gen == (n + 1) / 2
    && (s.cache.r.active <==> n % 2 == 0 && n > 0)
    && (n <= 1 ==> s.cache.fetches == [] && s.cache.callers == [] && s.cache.r.entries == map[])
    && (forall id :: 0 <= id < |s.cache.fetches| ==> s.cache.fetches[id].session > 0)
  }

  /** One accept hook at a time; and while the gate sleeps, or is being woken, no connection has
      got further than the start of its accept hook. */
  predicate AcceptOK(gate: G.Machine) {
    && (forall c, d :: 0 <= c < d < |gate.conns| ==> !(G.Entering(gate.conns[c]) && G.Entering(gate.conns[d])))
    && (gate.g.sleeping || gate.lock.InWakeFn? ==>
          forall c :: 0 <= c < |gate.conns| ==> gate.conns[c] != G.Serving && gate.conns[c] != G.NeedMap)
  }

  ghost predicate Inv(s: System) {
    G.Inv(s.gate) && C.Inv(s.cache) && GlueOK(s) && AcceptOK(s.gate)
  }

  lemma InitInv(grace: nat, maxSession: nat, ttls: map<Refresher.Key, nat>, producers: set<Refresher.Key>)
    ensures Inv(Init(grace, maxSession, ttls, producers))
  {
    G.InitInv(grace, maxSession);
    C.InitInv(ttls, producers);
  }

  lemma AcceptAfterAccept(gate: G.Machine)
    requires gate.g.Allocated() && G.WakerOK(gate) && AcceptOK(gate) && G.Enabled(gate, G.Accept)
    requires G.NoneEntering(gate) && (gate.g.sleeping ==> gate.g.conns == 0)
    ensures AcceptOK(G.Apply(gate, G.Accept))
  {
    var t := G.Apply(gate, G.Accept);
    assert forall c :: 0 <= c < |gate.conns| ==> t.conns[c] == gate.conns[c];
  }

  lemma AcceptAfterHook(gate: G.Machine, step: G.Step)
    requires gate.g.Allocated() && G.WakerOK(gate) && AcceptOK(gate) && G.Enabled(gate, step)
    requires G.HookStep(step) && !step.Accept?
    ensures AcceptOK(G.Apply(gate, step))
  {
    var t := G.Apply(gate, step);
    assert t.conns == gate.conns[step.c := t.conns[step.c]];
    assert G.Entering(t.conns[step.c]) ==> G.Entering(gate.conns[step.c]);
  }

  /** Asleep, or being woken, nobody is counted but the one connection that is to wake the gate. */
  lemma AsleepIsEmpty(gate: G.Machine)
    requires G.Inv(gate) && AcceptOK(gate) && G.NoneEntering(gate) && gate.g.sleeping
    ensures gate.g.conns == 0
  {
    G.CountNone(gate.conns);
  }

  /** A gate that parks has no connection that is served or entering. */
  lemma ParksEmpty(gate: G.Machine, c: nat)
    requires G.Inv(gate) && gate.g.conns == 0 && c < |gate.conns|
    ensures !G.Counted(gate.conns[c])
  {
    if G.Counted(gate.conns[c]) { G.CountAt(gate.conns, c); }
  }

  lemma AcceptKept(gate: G.Machine, step: G.Step)
    requires G.Inv(gate) && AcceptOK(gate) && G.Enabled(gate, step)
    requires step.Accept? ==> G.NoneEntering(gate)
    ensures AcceptOK(G.Apply(gate, step))
  {
    var t := G.Apply(gate, step);
    if step.Accept? {
      if gate.g.sleeping { AsleepIsEmpty(gate); }
      AcceptAfterAccept(gate);
    } else if G.HookStep(step) {
      AcceptAfterHook(gate, step);
    } else if step.TrySleep? || step.Boot? {
      forall c | 0 <= c < |gate.conns| && gate.g.conns == 0 ensures !G.Counted(gate.conns[c]) {
        ParksEmpty(gate, c);
      }
    }
  }

  /** Before the first wake nobody is served and no loop exists: the cache has nothing to do. */
  lemma NothingToDo(s: System, step: Step)
    requires Inv(s) && |s.gate.modes| <= 1 && Enabled(s, step)
    ensures !step.Serve? && !step.Cache?
  {
    assert s.cache.loops == [];
  }

  lemma WakeGlue(s: System, c: nat)
    requires WellFormed(s) && G.ModesOK(s.gate) && GlueOK(s) && Enabled(s, Gate(G.WakeFn(c)))
    ensures GlueOK(Apply(s, Gate(G.WakeFn(c))))
  {
  }

  lemma SleepGlue(s: System, step: G.Step)
    requires WellFormed(s) && G.ModesOK(s.gate) && G.BootOK(s.gate) && GlueOK(s) && Enabled(s, Gate(step))
    requires step.SleepFn? || step.Boot?
    ensures GlueOK(Apply(s, Gate(step)))
  {
  }

  lemma QuietGlue(s: System, step: G.Step)
    requires WellFormed(s) && GlueOK(s) && Enabled(s, Gate(step))
    requires !step.WakeFn? && !step.SleepFn? && !step.Boot?
    ensures GlueOK(Apply(s, Gate(step)))
  {
    var t := Apply(s, Gate(step));
    assert t.cache == s.cache && t.gate.modes == s.gate.modes && t.gate.now == s.gate.now;
  }

  lemma GateStepGlue(s: System, step: G.Step)
    requires Inv(s) && Enabled(s, Gate(step))
    ensures GlueOK(Apply(s, Gate(step)))
  {
    if step.WakeFn? {
      WakeGlue(s, step.c);
    } else if step.SleepFn? || step.Boot? {
      SleepGlue(s, step);
    } else {
      QuietGlue(s, step);
    }
  }

  lemma CacheStepGlue(s: System, step: C.Step)
    requires WellFormed(s) && GlueOK(s) && C.Enabled(s.cache, step) && (Internal(step) || step.HttpGet?)
    requires |s.gate.modes| >= 2
    ensures GlueOK(s.(cache := C.Apply(s.cache, step)))
  {
  }

  lemma GateStepInv(s: System, step: G.Step)
    requires Inv(s) && Enabled(s, Gate(step))
    ensures Inv(Apply(s, Gate(step)))
  {
    G.StepInv(s.gate, step);
    if step.WakeFn? { C.StepInv(s.cache, C.SetSession(true)); }
    if step.SleepFn? || step.Boot? { C.StepInv(s.cache, C.SetSession(false)); }
    GateStepGlue(s, step);
    AcceptKept(s.gate, step);
  }

  lemma CacheStepInv(s: System, step: C.Step)
    requires Inv(s) && C.Enabled(s.cache, step) && (Internal(step) || step.HttpGet?) && |s.gate.modes| >= 2
    ensures Inv(s.(cache := C.Apply(s.cache, step)))
  {
    C.StepInv(s.cache, step);
    CacheStepGlue(s, step);
  }

  lemma TickInv(s: System, d: nat)
    requires Inv(s) && Enabled(s, Tick(d))
    ensures Inv(Apply(s, Tick(d)))
  {
    G.StepInv(s.gate, G.Advance(d));
    C.StepInv(s.cache, C.Advance(d));
  }

  lemma StepInv(s: System, step: Step)
    requires Inv(s) && Enabled(s, step)
    ensures Inv(Apply(s, step))
  {
    if |s.gate.modes| <= 1 { NothingToDo(s, step); }
    match step
    case Tick(d) => TickInv(s, d);
    case Gate(g) => GateStepInv(s, g);
    case Cache(c) => CacheStepInv(s, c);
    case Serve(conn, key) => CacheStepInv(s, C.HttpGet(key));
  }

  lemma {:induction false} RunInv(s: System, steps: seq<Step>)
    requires Inv(s) && CanRun(s, steps)
    ensures Inv(RunTo(s, steps))
    decreases |steps|
  {
    if steps != [] {
      StepInv(s, steps[0]);
      RunInv(Apply(s, steps[0]), steps[1..]);
    }
  }

  lemma ReachableInv(s: System)
    requires Reachable(s)
    ensures Inv(s)
  {
    var grace, maxSession, ttls, producers, steps :|
      CanRun(Init(grace, maxSession, ttls, producers), steps)
      && RunTo(Init(grace, maxSession, ttls, producers), steps) == s;
    InitInv(grace, maxSession, ttls, producers);
    RunInv(Init(grace, maxSession, ttls, producers), steps);
  }
}
