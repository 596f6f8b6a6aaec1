/** The idle gate under concurrency: accept and close hooks of any number of connections, grace
    and session-cap callbacks, forced closes and the wake and sleep callbacks, interleaved one
    atomic update or critical section at a time (idle.go:135-286).

    The mutex is held across the wake and sleep callbacks, so `lock` names who is inside one.
    `waker`, `handed`, `modes`, `idleSince`, `accepts` (when each connection was accepted) and
    `rearmed` (when a session end last opened a new window) are history that no guard reads. */
module GateMachine {
  import opened Base
  import opened IdleGate

  /** Where a connection's hooks stand: accepted and counted (the first one has to wake the gate),
      inside the wake callback, not yet in the live map, being served, reported closed and
      uncounted (the last one has to schedule sleep), still in the live map, gone. */
  datatype Phase = NeedWake | Waking | NeedMap | Serving | NeedSchedule | NeedUnmap | Gone

  datatype Lock = Free | InWakeFn(c: nat) | InSleepFn | SleptFn

  datatype Mode = Sleep | Wake

  datatype Machine = Machine(
    g: State, now: nat, booted: bool, exited: bool, lock: Lock, conns: seq<Phase>,
    waker: Option<nat>, handed: set<nat>, modes: seq<Mode>, idleSince: nat,
    accepts: seq<nat>, rearmed: nat)

  datatype Step =
    | Advance(d: nat)
    | RequestExit
    | Boot
    | Accept
    | WakeSection(c: nat)
    | WakeFn(c: nat)
    | MapConn(c: nat)
    | CloseConn(c: nat)
    | Schedule(c: nat)
    | Unmap(c: nat)
    | FireGrace(t: nat)
    | TrySleep(t: nat)
    | SleepFn
    | FinishPark
    | FireSession(t: nat)
    | EndSession(t: nat)
    | ForceClose(t: nat, c: nat)
    | Rearm(t: nat)

  function Init(grace: nat, maxSession: nat): Machine {
    Machine(NewGate(grace, maxSession), 0, false, false, Free, [], None, {}, [], 0, [], 0)
  }

  predicate ConnAt(s: Machine, c: nat, phase: Phase) {
    c < |s.conns| && s.conns[c] == phase
  }

  predicate Ready(s: Machine) {
    s.booted && s.lock == Free
  }

  predicate Enabled(s: Machine, step: Step) {
    !s.exited &&
    match step
    case Advance(_) => true
    case RequestExit => s.lock == Free
    case Boot => !s.booted
    case Accept => s.booted
    case WakeSection(c) => Ready(s) && ConnAt(s, c, NeedWake)
    case WakeFn(c) => s.lock == InWakeFn(c) && c < |s.conns|
    case MapConn(c) => Ready(s) && ConnAt(s, c, NeedMap)
    case CloseConn(c) => ConnAt(s, c, Serving)
    case Schedule(c) => Ready(s) && ConnAt(s, c, NeedSchedule)
    case Unmap(c) => Ready(s) && ConnAt(s, c, NeedUnmap)
    case FireGrace(t) =>
      t < |s.g.graceTimers| && s.g.graceTimers[t].Armed? && s.g.graceTimers[t].due <= s.now
    case TrySleep(t) => Ready(s) && t < |s.g.graceTimers| && s.g.graceTimers[t].Fired?
    case SleepFn => s.lock == InSleepFn
    case FinishPark => s.lock == SleptFn
    case FireSession(t) =>
      t < |s.g.sessTimers| && s.g.sessTimers[t].Armed? && s.g.sessTimers[t].due <= s.now
    case EndSession(t) => Ready(s) && t < |s.g.sessTimers| && s.g.sessTimers[t].Fired?
    case ForceClose(t, c) =>
      t < |s.g.sessTimers| && s.g.sessTimers[t].Closing? && c in s.g.sessTimers[t].pending
    case Rearm(t) => Ready(s) && t < |s.g.sessTimers| && s.g.sessTimers[t] == Closing({})
  }

  function Move(s: Machine, c: nat, phase: Phase): Machine
    requires c < |s.conns|
  {
    s.(conns := s.conns[c := phase])
  }

  function SetGrace(g: State, t: nat, timer: Timer): State
    requires t < |g.graceTimers|
  {
    g.(graceTimers := g.graceTimers[t := timer])
  }

  function SetSess(g: State, t: nat, timer: Timer): State
    requires t < |g.sessTimers|
  {
    g.(sessTimers := g.sessTimers[t := timer])
  }

  function Apply(s: Machine, step: Step): (r: Machine)
    requires s.g.Allocated() && Enabled(s, step)
    ensures r.g.Allocated()
  {
    match step
    case Advance(d) => s.(now := s.now + d)
    case RequestExit => s.(g := s.g.(exitOnIdle := true))
    case Boot =>
      s.(g := Parked(s.g), booted := true, modes := if s.g.sleeping then s.modes else s.modes + [Sleep])
    case Accept =>
      var g := s.g.(conns := s.g.conns + 1);
      var first := g.conns == 1;
      s.(g := g, conns := s.conns + [if first then NeedWake else NeedMap],
         waker := if first then Some(|s.conns|) else s.waker, accepts := s.accepts + [s.now])
    case WakeSection(c) =>
      var woken := s.(g := Woken(s.g, s.now));
      if s.g.sleeping then Move(woken, c, Waking).(lock := InWakeFn(c))
      else Move(woken, c, NeedMap).(waker := None)
    case WakeFn(c) => Move(s, c, NeedMap).(lock := Free, waker := None, modes := s.modes + [Wake])
    case MapConn(c) => Move(s, c, Serving).(g := s.g.(liveConns := s.g.liveConns + {c}))
    case CloseConn(c) =>
      var last := s.g.conns - 1 == 0;
      Move(s, c, if last then NeedSchedule else NeedUnmap)
        .(g := s.g.(conns := s.g.conns - 1), idleSince := if last then s.now else s.idleSince)
    case Schedule(c) => Move(s, c, NeedUnmap).(g := Scheduled(s.g, s.now))
    case Unmap(c) => Move(s, c, Gone).(g := s.g.(liveConns := s.g.liveConns - {c}))
    case FireGrace(t) => s.(g := SetGrace(s.g, t, Fired))
    case TrySleep(t) =>
      s.(g := SetGrace(TriedSleep(s.g), t, Spent), lock := if Parks(s.g) then InSleepFn else Free)
    case SleepFn => s.(lock := SleptFn, modes := s.modes + [Sleep])
    case FinishPark => s.(lock := Free, exited := Exits(s.g))
    case FireSession(t) => s.(g := SetSess(s.g, t, Fired))
    case EndSession(t) =>
      s.(g := SetSess(TookOver(s.g), t, if s.g.liveConns == {} then Spent else Closing(s.g.liveConns)),
         handed := s.handed + s.g.liveConns)
    case ForceClose(t, c) => s.(g := SetSess(s.g, t, Closing(s.g.sessTimers[t].pending - {c})))
    case Rearm(t) =>
      s.(g := SetSess(ArmSession(s.g, s.now), t, Spent),
         rearmed := if s.g.sess.None? && !s.g.sleeping then s.now else s.rearmed)
  }

  predicate CanRun(s: Machine, steps: seq<Step>)
    requires s.g.Allocated()
    decreases |steps|
  {
    steps != [] ==> Enabled(s, steps[0]) && CanRun(Apply(s, steps[0]), steps[1..])
  }

  function RunTo(s: Machine, steps: seq<Step>): (r: Machine)
    requires s.g.Allocated() && CanRun(s, steps)
    ensures r.g.Allocated()
    decreases |steps|
  {
    if steps == [] then s else RunTo(Apply(s, steps[0]), steps[1..])
  }

  ghost predicate Reachable(s: Machine) {
    exists grace, maxSession, steps ::
      CanRun(Init(grace, maxSession), steps) && RunTo(Init(grace, maxSession), steps) == s
  }

  /** A connection whose accept hook has not returned yet. */
  predicate Entering(p: Phase) {
    p == NeedWake || p == Waking || p == NeedMap
  }

  predicate NoneEntering(s: Machine) {
    forall c :: 0 <= c < |s.conns| ==> !Entering(s.conns[c])
  }

  /** One accept loop: a connection is accepted only once the last accept hook has returned. */
  predicate Serial(s: Machine, steps: seq<Step>)
    requires s.g.Allocated() && CanRun(s, steps)
    decreases |steps|
  {
    steps != [] ==> (steps[0].Accept? ==> NoneEntering(s)) && Serial(Apply(s, steps[0]), steps[1..])
  }

  ghost predicate SeriallyReachable(s: Machine) {
    exists grace, maxSession, steps ::
      && CanRun(Init(grace, maxSession), steps) && Serial(Init(grace, maxSession), steps)
      && RunTo(Init(grace, maxSession), steps) == s
  }

  // ------------------------------------------------------------------ invariant

  predicate Counted(p: Phase) {
    p == NeedWake || p == Waking || p == NeedMap || p == Serving
  }

  /** The connections counted in and not yet counted out. */
  function Count(conns: seq<Phase>): nat {
    if conns == [] then 0
    else (if Counted(conns[|conns| - 1]) then 1 else 0) + Count(conns[..|conns| - 1])
  }

  predicate Pending(t: Timer) {
    t.Armed? || t.Fired?
  }

  predicate Awakener(p: Phase) {
    p == NeedWake || p == Waking
  }

  predicate GraceOK(s: Machine) {
    && (s.g.timer.Some? ==> s.g.timer.value < |s.g.graceTimers| && Pending(s.g.graceTimers[s.g.timer.value]))
    && (forall t :: 0 <= t < |s.g.graceTimers| ==> GraceTimerOK(s, s.g.graceTimers[t]))
  }

  predicate GraceTimerOK(s: Machine, timer: Timer) {
    !timer.Closing? && (timer.Armed? ==> timer.due <= s.now + s.g.grace)
  }

  predicate SessOK(s: Machine) {
    && (s.g.sess.Some? ==> s.g.sess.value < |s.g.sessTimers| && Pending(s.g.sessTimers[s.g.sess.value]))
    && (forall t :: 0 <= t < |s.g.sessTimers| ==> SessTimerOK(s, s.g.sessTimers[t]))
  }

  predicate SessTimerOK(s: Machine, timer: Timer) {
    && (timer.Armed? ==> timer.due <= s.now + s.g.maxSession)
    && (timer.Closing? ==> timer.pending <= s.handed)
  }

  predicate WakerOK(s: Machine) {
    && (forall c :: 0 <= c < |s.conns| ==> (Awakener(s.conns[c]) <==> s.waker == Some(c)))
    && (forall c :: 0 <= c < |s.conns| ==> (s.conns[c] == Waking <==> s.lock == InWakeFn(c)))
    && (s.waker.Some? ==> s.waker.value < |s.conns|)
    && (s.lock.InWakeFn? ==> s.lock.c < |s.conns| && !s.g.sleeping)
    && (s.g.sleeping && s.g.conns > 0 ==> s.waker.Some?)
  }

  ghost predicate ParkPending(s: Machine) {
    || (exists c :: 0 <= c < |s.conns| && s.conns[c] == NeedSchedule)
    || (exists t :: 0 <= t < |s.g.graceTimers| && Pending(s.g.graceTimers[t]))
  }

  predicate LiveOK(s: Machine) {
    && (forall c :: c in s.g.liveConns ==> LiveConn(s, c))
    && (forall c :: 0 <= c < |s.conns| && s.conns[c] == Serving ==> c in s.g.liveConns || c in s.handed)
    && (forall c :: c in s.handed ==> c < |s.conns|)
  }

  /** Sleep and wake callbacks alternate, starting with sleep. */
  predicate Alternating(modes: seq<Mode>) {
    forall i :: 0 <= i < |modes| ==> modes[i] == (if i % 2 == 0 then Sleep else Wake)
  }

  predicate ModesOK(s: Machine) {
    && Alternating(s.modes)
    && (s.booted <==> s.modes != [])
    && match s.lock
       case Free => s.booted ==> (s.g.sleeping <==> |s.modes| % 2 == 1)
       case InWakeFn(_) => |s.modes| % 2 == 1 && !s.g.sleeping
       case InSleepFn => |s.modes| % 2 == 0 && s.g.sleeping
       case SleptFn => |s.modes| % 2 == 1 && s.g.sleeping
  }

  predicate BootOK(s: Machine) {
    && (!s.booted ==> s.conns == [] && s.g.conns == 0 && s.lock == Free && s.g.sess.None? && s.g.timer.None?
                      && !s.g.sleeping && !s.exited)
    && (s.conns == [] ==> s.g.graceTimers == [] && s.g.sessTimers == [] && |s.modes| <= 1 && s.lock == Free)
    && (|s.modes| <= 1 && s.conns != [] ==> s.waker == Some(0))
    && (s.exited ==> Exits(s.g) && s.g.sleeping && s.lock == Free && s.conns != [])
    && s.idleSince <= s.now
  }

  predicate CountOK(s: Machine) {
    s.g.conns == Count(s.conns) && |s.accepts| == |s.conns|
  }

  ghost predicate Inv(s: Machine) {
    && GraceOK(s)
    && SessOK(s)
    && CountOK(s)
    && WakerOK(s)
    && (s.booted && Parks(s.g) ==> ParkPending(s))
    && LiveOK(s)
    && ModesOK(s)
    && BootOK(s)
  }

  lemma {:induction false} CountMove(conns: seq<Phase>, c: nat, p: Phase)
    requires c < |conns|
    ensures Count(conns[c := p]) ==
      Count(conns) - (if Counted(conns[c]) then 1 else 0) + (if Counted(p) then 1 else 0)
  {
    var n := |conns| - 1;
    if c == n {
      assert conns[c := p][..n] == conns[..n];
    } else {
      assert conns[c := p][..n] == conns[..n][c := p];
      CountMove(conns[..n], c, p);
    }
  }

  lemma CountAppend(conns: seq<Phase>, p: Phase)
    ensures Count(conns + [p]) == Count(conns) + (if Counted(p) then 1 else 0)
  {
    assert (conns + [p])[..|conns|] == conns;
  }

  lemma {:induction false} CountAt(conns: seq<Phase>, c: nat)
    requires c < |conns| && Counted(conns[c])
    ensures Count(conns) >= 1
  {
    if c < |conns| - 1 { CountAt(conns[..|conns| - 1], c); }
  }

  lemma {:induction false} CountNone(conns: seq<Phase>)
    requires forall c :: 0 <= c < |conns| ==> !Counted(conns[c])
    ensures Count(conns) == 0
  {
    if conns != [] { CountNone(conns[..|conns| - 1]); }
  }

  /** Steps of the accept and close hooks; the others are timers, callbacks and the environment. */
  predicate HookStep(step: Step) {
    step.Accept? || step.WakeSection? || step.WakeFn? || step.MapConn? || step.CloseConn?
    || step.Schedule? || step.Unmap?
  }

  /** A connection that still has to wake the gate is counted. */
  predicate WakerCounted(s: Machine) {
    s.g.conns >= if s.waker.Some? then 1 else 0
  }

  lemma WakerIsCounted(s: Machine)
    requires Inv(s)
    ensures WakerCounted(s)
  {
    if s.waker.Some? { CountAt(s.conns, s.waker.value); }
  }

  lemma CountAfterHook(s: Machine, step: Step)
    requires s.g.Allocated() && CountOK(s) && WakerOK(s) && Enabled(s, step) && HookStep(step)
    ensures CountOK(Apply(s, step))
  {
    var t := Apply(s, step);
    if step.Accept? {
      CountAppend(s.conns, t.conns[|s.conns|]);
    } else {
      assert t.conns == s.conns[step.c := t.conns[step.c]];
      CountMove(s.conns, step.c, t.conns[step.c]);
    }
  }

  lemma CountAfterTimer(s: Machine, step: Step)
    requires s.g.Allocated() && CountOK(s) && WakerOK(s) && Enabled(s, step) && !HookStep(step)
    ensures CountOK(Apply(s, step))
  {
  }

  lemma GraceAfterHook(s: Machine, step: Step)
    requires s.g.Allocated() && GraceOK(s) && Enabled(s, step) && HookStep(step)
    ensures GraceOK(Apply(s, step))
  {
    var t := Apply(s, step);
    forall i | 0 <= i < |t.g.graceTimers| ensures GraceTimerOK(t, t.g.graceTimers[i]) {
      if i < |s.g.graceTimers| { assert GraceTimerOK(s, s.g.graceTimers[i]); }
    }
  }

  lemma GraceAfterTimer(s: Machine, step: Step)
    requires s.g.Allocated() && GraceOK(s) && Enabled(s, step) && !HookStep(step)
    ensures GraceOK(Apply(s, step))
  {
    var t := Apply(s, step);
    forall i | 0 <= i < |t.g.graceTimers| ensures GraceTimerOK(t, t.g.graceTimers[i]) {
      if i < |s.g.graceTimers| { assert GraceTimerOK(s, s.g.graceTimers[i]); }
    }
  }

  lemma SessAfterHook(s: Machine, step: Step)
    requires s.g.Allocated() && SessOK(s) && Enabled(s, step) && HookStep(step)
    ensures SessOK(Apply(s, step))
  {
    var t := Apply(s, step);
    forall i | 0 <= i < |t.g.sessTimers| ensures SessTimerOK(t, t.g.sessTimers[i]) {
      if i < |s.g.sessTimers| { assert SessTimerOK(s, s.g.sessTimers[i]); }
    }
  }

  lemma SessAfterTimer(s: Machine, step: Step)
    requires s.g.Allocated() && SessOK(s) && Enabled(s, step) && !HookStep(step)
    ensures SessOK(Apply(s, step))
  {
    var t := Apply(s, step);
    forall i | 0 <= i < |t.g.sessTimers| ensures SessTimerOK(t, t.g.sessTimers[i]) {
      if i < |s.g.sessTimers| { assert SessTimerOK(s, s.g.sessTimers[i]); }
    }
  }

  lemma WakerAfterWake(s: Machine, step: Step)
    requires s.g.Allocated() && WakerOK(s) && Enabled(s, step) && (step.WakeSection? || step.WakeFn?)
    ensures WakerOK(Apply(s, step))
  {
  }

  lemma WakerAfterHook(s: Machine, step: Step)
    requires s.g.Allocated() && WakerCounted(s) && WakerOK(s) && Enabled(s, step) && HookStep(step)
    ensures WakerOK(Apply(s, step))
  {
    if step.WakeSection? || step.WakeFn? {
      WakerAfterWake(s, step);
    }
  }

  lemma WakerAfterTimer(s: Machine, step: Step)
    requires s.g.Allocated() && WakerCounted(s) && WakerOK(s) && BootOK(s) && Enabled(s, step) && !HookStep(step)
    ensures WakerOK(Apply(s, step))
  {
  }

  lemma ParkKept(s: Machine, step: Step)
    requires Inv(s) && Enabled(s, step)
    ensures var t := Apply(s, step); t.booted && Parks(t.g) ==> ParkPending(t)
  {
    var t := Apply(s, step);
    WakerIsCounted(s);
    if t.booted && Parks(t.g) {
      if step.CloseConn? {
        assert t.conns[step.c] == NeedSchedule;
      } else if step.Schedule? {
        assert Pending(t.g.graceTimers[t.g.timer.value]);
      } else if !step.Boot? {
        if c :| 0 <= c < |s.conns| && s.conns[c] == NeedSchedule {
          assert t.conns[c] == NeedSchedule;
        } else {
          var i :| 0 <= i < |s.g.graceTimers| && Pending(s.g.graceTimers[i]);
          assert Pending(t.g.graceTimers[i]);
        }
      }
    }
  }

  predicate LiveConn(s: Machine, c: nat) {
    c < |s.conns| && (s.conns[c] == Serving || s.conns[c] == NeedSchedule || s.conns[c] == NeedUnmap)
  }

  lemma LiveAfterHook(s: Machine, step: Step)
    requires s.g.Allocated() && LiveOK(s) && WakerOK(s) && Enabled(s, step) && HookStep(step)
    ensures LiveOK(Apply(s, step))
  {
    var t := Apply(s, step);
    forall c | c in t.g.liveConns ensures LiveConn(t, c) {
      assert c in s.g.liveConns ==> LiveConn(s, c);
    }
    forall c | 0 <= c < |t.conns| && t.conns[c] == Serving ensures c in t.g.liveConns || c in t.handed {
      if c < |s.conns| && s.conns[c] == Serving {
        assert c in s.g.liveConns || c in s.handed;
      }
    }
  }

  lemma LiveAfterTimer(s: Machine, step: Step)
    requires s.g.Allocated() && LiveOK(s) && WakerOK(s) && Enabled(s, step) && !HookStep(step)
    ensures LiveOK(Apply(s, step))
  {
    var t := Apply(s, step);
    forall c | c in t.g.liveConns ensures LiveConn(t, c) {
      assert c in s.g.liveConns ==> LiveConn(s, c);
    }
    forall c | 0 <= c < |t.conns| && t.conns[c] == Serving ensures c in t.g.liveConns || c in t.handed {
      if c < |s.conns| && s.conns[c] == Serving {
        assert c in s.g.liveConns || c in s.handed;
      }
    }
  }

  lemma ModesAfterHook(s: Machine, step: Step)
    requires s.g.Allocated() && ModesOK(s) && BootOK(s) && WakerOK(s) && Enabled(s, step) && HookStep(step)
    ensures ModesOK(Apply(s, step))
  {
  }

  lemma ModesAfterTimer(s: Machine, step: Step)
    requires s.g.Allocated() && ModesOK(s) && BootOK(s) && WakerOK(s) && Enabled(s, step) && !HookStep(step)
    ensures ModesOK(Apply(s, step))
  {
  }

  lemma BootAfterHook(s: Machine, step: Step)
    requires s.g.Allocated() && WakerCounted(s) && WakerOK(s) && ModesOK(s) && BootOK(s)
    requires Enabled(s, step) && HookStep(step)
    ensures BootOK(Apply(s, step))
  {
  }

  lemma BootAfterTimer(s: Machine, step: Step)
    requires s.g.Allocated() && WakerCounted(s) && WakerOK(s) && ModesOK(s) && BootOK(s)
    requires Enabled(s, step) && !HookStep(step)
    ensures BootOK(Apply(s, step))
  {
  }

  lemma InitInv(grace: nat, maxSession: nat)
    ensures Inv(Init(grace, maxSession))
  {
  }

  lemma StepInv(s: Machine, step: Step)
    requires Inv(s) && Enabled(s, step)
    ensures Inv(Apply(s, step))
  {
    WakerIsCounted(s);
    ParkKept(s, step);
    if HookStep(step) {
      CountAfterHook(s, step);
      GraceAfterHook(s, step);
      SessAfterHook(s, step);
      WakerAfterHook(s, step);
      LiveAfterHook(s, step);
      ModesAfterHook(s, step);
      BootAfterHook(s, step);
    } else {
      CountAfterTimer(s, step);
      GraceAfterTimer(s, step);
      SessAfterTimer(s, step);
      WakerAfterTimer(s, step);
      LiveAfterTimer(s, step);
      ModesAfterTimer(s, step);
      BootAfterTimer(s, step);
    }
  }

  lemma {:induction false} RunInv(s: Machine, steps: seq<Step>)
    requires Inv(s) && CanRun(s, steps)
    ensures Inv(RunTo(s, steps))
    decreases |steps|
  {
    if steps != [] {
      StepInv(s, steps[0]);
      RunInv(Apply(s, steps[0]), steps[1..]);
    }
  }

  lemma ReachableInv(s: Machine)
    requires Reachable(s)
    ensures Inv(s)
  {
    var grace, maxSession, steps :|
      CanRun(Init(grace, maxSession), steps) && RunTo(Init(grace, maxSession), steps) == s;
    InitInv(grace, maxSession);
    RunInv(Init(grace, maxSession), steps);
  }

  lemma {:induction false} RunAppend(s: Machine, steps: seq<Step>, step: Step)
    requires s.g.Allocated() && CanRun(s, steps) && Enabled(RunTo(s, steps), step)
    ensures CanRun(s, steps + [step]) && RunTo(s, steps + [step]) == Apply(RunTo(s, steps), step)
    decreases |steps|
  {
    if steps == [] {
      assert [step][1..] == [];
    } else {
      assert (steps + [step])[1..] == steps[1..] + [step];
      RunAppend(Apply(s, steps[0]), steps[1..], step);
    }
  }

  lemma {:induction false} SerialAppend(s: Machine, steps: seq<Step>, step: Step)
    requires s.g.Allocated() && CanRun(s, steps) && Serial(s, steps) && Enabled(RunTo(s, steps), step)
    requires step.Accept? ==> NoneEntering(RunTo(s, steps))
    ensures CanRun(s, steps + [step]) && Serial(s, steps + [step])
    decreases |steps|
  {
    RunAppend(s, steps, step);
    if steps == [] {
      assert [] + [step] == [step] && [step][1..] == [];
    } else {
      assert (steps + [step])[1..] == steps[1..] + [step];
      SerialAppend(Apply(s, steps[0]), steps[1..], step);
    }
  }

  lemma ReachableInit(grace: nat, maxSession: nat)
    ensures SeriallyReachable(Init(grace, maxSession))
  {
    var s := Init(grace, maxSession);
    assert CanRun(s, []) && Serial(s, []) && RunTo(s, []) == s;
  }

  lemma ReachableStep(s: Machine, step: Step)
    requires SeriallyReachable(s) && s.g.Allocated() && Enabled(s, step) && (step.Accept? ==> NoneEntering(s))
    ensures SeriallyReachable(Apply(s, step))
  {
    var grace, maxSession, steps :|
      && CanRun(Init(grace, maxSession), steps) && Serial(Init(grace, maxSession), steps)
      && RunTo(Init(grace, maxSession), steps) == s;
    RunAppend(Init(grace, maxSession), steps, step);
    SerialAppend(Init(grace, maxSession), steps, step);
  }
}
