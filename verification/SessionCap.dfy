/** The gate when hooks do not overlap: each hook call and each fired callback runs to its end
    before anything else starts, a session end may still interleave with the closes it forces,
    and those closes are reported before the next window ends. In these runs the session cap,
    its deadline and the idle grace hold as documented. */
module SessionCap {
  import opened Base
  import opened IdleGate
  import opened GateMachine
  import opened GateTheorems

  predicate AtRest(p: Phase) {
    p == Serving || p == Gone
  }

  predicate HooksQuiet(s: Machine) {
    s.lock == Free && forall c :: 0 <= c < |s.conns| ==> AtRest(s.conns[c])
  }

  predicate NoneFired(timers: seq<Timer>) {
    forall t :: 0 <= t < |timers| ==> !timers[t].Fired?
  }

  predicate Quiet(s: Machine) {
    HooksQuiet(s) && NoneFired(s.g.graceTimers) && NoneFired(s.g.sessTimers)
  }

  predicate AllLive(s: Machine) {
    forall c: nat :: c < |s.conns| && s.conns[c] == Serving ==> c in s.g.liveConns
  }

  /** Steps that begin something new; all others continue a hook or a fired callback. */
  predicate Starts(step: Step) {
    step.Advance? || step.RequestExit? || step.Boot? || step.Accept? || step.CloseConn?
    || step.FireGrace? || step.FireSession? || step.ForceClose? || step.Rearm?
  }

  predicate Orderly(s: Machine, step: Step) {
    && Enabled(s, step)
    && (Starts(step) ==> Quiet(s))
    && (step.FireSession? ==> AllLive(s))
  }

  predicate OrderlyRun(s: Machine, steps: seq<Step>)
    requires s.g.Allocated()
    decreases |steps|
  {
    steps != [] ==> Orderly(s, steps[0]) && OrderlyRun(Apply(s, steps[0]), steps[1..])
  }

  // ------------------------------------------------------------------ invariant

  /** A pending grace callback is the referenced one, counts from the moment the counter last
      reached zero, and fires only on a gate without connections. */
  predicate GraceTimer(s: Machine, t: nat)
    requires t < |s.g.graceTimers|
  {
    match s.g.graceTimers[t]
    case Armed(due) =>
      && s.g.timer == Some(t) && due == s.idleSince + s.g.grace
      && (s.g.conns == 0 || (s.waker.Some? && ConnAt(s, s.waker.value, NeedWake)))
    case Fired =>
      && s.g.timer == Some(t) && s.now >= s.idleSince + s.g.grace
      && HooksQuiet(s) && s.g.conns == 0 && NoneFired(s.g.sessTimers)
    case _ => true
  }

  predicate SessTimer(s: Machine, t: nat)
    requires t < |s.g.sessTimers|
  {
    match s.g.sessTimers[t]
    case Armed(_) => s.g.sess == Some(t)
    case Fired => s.g.sess == Some(t) && HooksQuiet(s) && AllLive(s) && NoneFired(s.g.graceTimers)
    case _ => true
  }

  predicate HooksApart(s: Machine) {
    && (forall c, d :: 0 <= c < d < |s.conns| ==> AtRest(s.conns[c]) || AtRest(s.conns[d]))
    && (forall c :: 0 <= c < |s.conns| && s.conns[c] == NeedSchedule ==> s.g.conns == 0 && s.idleSince == s.now)
  }

  predicate OneHook(s: Machine) {
    && HooksApart(s)
    && (s.lock != Free ==> NoneFired(s.g.graceTimers) && NoneFired(s.g.sessTimers))
  }

  function Later(a: nat, b: nat): nat {
    if a < b then b else a
  }

  /** The waking connection has just been accepted and is the only one left; an armed window is
      due at most `maxSession` after any open connection's accept or the last re-arm. */
  predicate WindowOK(s: Machine)
    requires |s.accepts| == |s.conns|
  {
    && (forall c :: 0 <= c < |s.conns| && s.conns[c] == NeedWake ==>
          s.accepts[c] == s.now && forall d :: 0 <= d < |s.conns| && d != c ==> s.conns[d] == Gone)
    && (s.g.sess.Some? && s.g.sess.value < |s.g.sessTimers| && s.g.sessTimers[s.g.sess.value].Armed? ==>
          forall c :: 0 <= c < |s.conns| && Counted(s.conns[c]) ==>
            s.g.sessTimers[s.g.sess.value].due <= Later(s.accepts[c], s.rearmed) + s.g.maxSession)
  }

  /** The armed window was opened by an accept, or by a session end, exactly `maxSession` ago from
      its due time. */
  ghost predicate ExactlyDue(s: Machine, due: nat) {
    || due == s.rearmed + s.g.maxSession
    || exists c :: 0 <= c < |s.accepts| && due == s.accepts[c] + s.g.maxSession
  }

  ghost predicate DueOK(s: Machine) {
    s.g.sess.Some? && s.g.sess.value < |s.g.sessTimers| && s.g.sessTimers[s.g.sess.value].Armed? ==>
      ExactlyDue(s, s.g.sessTimers[s.g.sess.value].due)
  }

  ghost predicate OrderInv(s: Machine) {
    && Inv(s)
    && WindowOK(s)
    && DueOK(s)
    && (forall t :: 0 <= t < |s.g.graceTimers| ==> GraceTimer(s, t))
    && (forall t :: 0 <= t < |s.g.sessTimers| ==> SessTimer(s, t))
    && OneHook(s)
  }

  lemma FiredOnIdle(s: Machine, t: nat)
    requires OrderInv(s) && t < |s.g.graceTimers| && s.g.graceTimers[t].Fired?
    ensures s.g.conns == 0 && s.g.timer == Some(t)
  {
    assert GraceTimer(s, t);
  }

  lemma FiredIsReferenced(s: Machine, t: nat)
    requires OrderInv(s) && t < |s.g.sessTimers| && s.g.sessTimers[t].Fired?
    ensures s.g.sess == Some(t) && HooksQuiet(s) && NoneFired(s.g.graceTimers)
  {
    assert SessTimer(s, t);
  }

  lemma ArmedGraceKept(s: Machine, step: Step, i: nat)
    requires OrderInv(s) && Orderly(s, step) && WakerCounted(s)
    requires var t := Apply(s, step); i < |t.g.graceTimers| && t.g.graceTimers[i].Armed?
    ensures GraceTimer(Apply(s, step), i)
  {
    if HookStep(step) {
      ArmedGraceAfterHook(s, step, i);
    } else {
      assert GraceTimer(s, i);
      if step.TrySleep? { FiredOnIdle(s, step.t); }
    }
  }

  lemma ArmedGraceAfterStart(s: Machine, step: Step, i: nat)
    requires OrderInv(s) && Orderly(s, step) && (step.Accept? || step.CloseConn?) && i < |s.g.graceTimers|
    requires s.g.graceTimers[i].Armed?
    ensures GraceTimer(Apply(s, step), i)
  {
    assert GraceTimer(s, i);
    QuietHasNoWaker(s);
    if step.CloseConn? { CountAt(s.conns, step.c); }
  }

  lemma ArmedGraceAfterSection(s: Machine, step: Step, i: nat)
    requires OrderInv(s) && Orderly(s, step) && WakerCounted(s) && (step.WakeSection? || step.Schedule?)
    requires var t := Apply(s, step); i < |t.g.graceTimers| && t.g.graceTimers[i].Armed?
    ensures GraceTimer(Apply(s, step), i)
  {
    if i < |s.g.graceTimers| { assert GraceTimer(s, i); }
  }

  lemma ArmedGraceAfterHook(s: Machine, step: Step, i: nat)
    requires OrderInv(s) && Orderly(s, step) && WakerCounted(s) && HookStep(step)
    requires var t := Apply(s, step); i < |t.g.graceTimers| && t.g.graceTimers[i].Armed?
    ensures GraceTimer(Apply(s, step), i)
  {
    if step.Accept? || step.CloseConn? {
      ArmedGraceAfterStart(s, step, i);
    } else if step.WakeSection? || step.Schedule? {
      ArmedGraceAfterSection(s, step, i);
    } else {
      assert GraceTimer(s, i);
    }
  }

  lemma QuietHasNoWaker(s: Machine)
    requires WakerOK(s) && HooksQuiet(s)
    ensures s.waker.None?
  {
    var p := if s.waker.Some? then s.conns[s.waker.value] else Gone;
    assert AtRest(p);
  }

  lemma JustFired(s: Machine, i: nat)
    requires OrderInv(s) && Orderly(s, FireGrace(i))
    ensures GraceTimer(Apply(s, FireGrace(i)), i)
  {
    assert GraceTimer(s, i);
    QuietHasNoWaker(s);
  }

  /** Nothing but its own callback follows a fired grace timer. */
  lemma OnlyOwnCallback(s: Machine, step: Step, i: nat)
    requires OrderInv(s) && i < |s.g.graceTimers| && s.g.graceTimers[i].Fired?
    ensures Orderly(s, step) ==> step == TrySleep(i)
  {
    assert GraceTimer(s, i);
    if step.TrySleep? && Enabled(s, step) { FiredOnIdle(s, step.t); }
  }

  lemma StillFired(s: Machine, step: Step, i: nat)
    requires s.g.Allocated() && Enabled(s, step) && step != FireGrace(i)
    requires var t := Apply(s, step); i < |t.g.graceTimers| && t.g.graceTimers[i].Fired?
    ensures i < |s.g.graceTimers| && s.g.graceTimers[i].Fired? && step != TrySleep(i)
  {
  }

  lemma FiredGraceKept(s: Machine, step: Step, i: nat)
    requires OrderInv(s) && Orderly(s, step)
    requires var t := Apply(s, step); i < |t.g.graceTimers| && t.g.graceTimers[i].Fired?
    ensures GraceTimer(Apply(s, step), i)
  {
    if step == FireGrace(i) {
      JustFired(s, i);
    } else {
      StillFired(s, step, i);
      OnlyOwnCallback(s, step, i);
    }
  }

  lemma GraceTimersKept(s: Machine, step: Step)
    requires OrderInv(s) && Orderly(s, step)
    ensures var t := Apply(s, step); forall i :: 0 <= i < |t.g.graceTimers| ==> GraceTimer(t, i)
  {
    var t := Apply(s, step);
    WakerIsCounted(s);
    forall i | 0 <= i < |t.g.graceTimers| ensures GraceTimer(t, i) {
      if t.g.graceTimers[i].Armed? {
        ArmedGraceKept(s, step, i);
      } else if t.g.graceTimers[i].Fired? {
        FiredGraceKept(s, step, i);
      }
    }
  }

  /** No hook moves while a fired session end is about to run. */
  lemma NoHookWhileFired(s: Machine, step: Step, i: nat)
    requires OrderInv(s) && HookStep(step) && i < |s.g.sessTimers| && s.g.sessTimers[i].Fired?
    ensures !Orderly(s, step)
  {
    FiredIsReferenced(s, i);
  }

  lemma SessTimerAfterHook(s: Machine, step: Step, i: nat)
    requires s.g.Allocated() && Enabled(s, step) && HookStep(step) && i < |Apply(s, step).g.sessTimers|
    requires i < |s.g.sessTimers| ==> SessTimer(s, i) && !s.g.sessTimers[i].Fired?
    ensures SessTimer(Apply(s, step), i)
  {
  }

  lemma SessTimersAfterHook(s: Machine, step: Step)
    requires OrderInv(s) && Orderly(s, step) && HookStep(step)
    ensures var t := Apply(s, step); forall i :: 0 <= i < |t.g.sessTimers| ==> SessTimer(t, i)
  {
    forall i | 0 <= i < |Apply(s, step).g.sessTimers| ensures SessTimer(Apply(s, step), i) {
      if i < |s.g.sessTimers| && s.g.sessTimers[i].Fired? { NoHookWhileFired(s, step, i); }
      SessTimerAfterHook(s, step, i);
    }
  }

  lemma SessTimersAfterTimer(s: Machine, step: Step)
    requires OrderInv(s) && Orderly(s, step) && !HookStep(step)
    ensures var t := Apply(s, step); forall i :: 0 <= i < |t.g.sessTimers| ==> SessTimer(t, i)
  {
    var t := Apply(s, step);
    if step.TrySleep? { assert GraceTimer(s, step.t); }
    if step.EndSession? { assert SessTimer(s, step.t); }
    forall i | 0 <= i < |t.g.sessTimers| ensures SessTimer(t, i) {
      if i < |s.g.sessTimers| { assert SessTimer(s, i); }
    }
  }

  lemma NoneFiredInCallbacks(s: Machine, step: Step)
    requires OrderInv(s) && Orderly(s, step) && HookStep(step) && Apply(s, step).lock != Free
    ensures NoneFired(Apply(s, step).g.graceTimers) && NoneFired(Apply(s, step).g.sessTimers)
  {
    var t := Apply(s, step);
    forall i | 0 <= i < |t.g.graceTimers| ensures !t.g.graceTimers[i].Fired? {
      assert GraceTimer(s, i);
    }
    forall i | 0 <= i < |t.g.sessTimers| ensures !t.g.sessTimers[i].Fired? {
      if i < |s.g.sessTimers| { assert SessTimer(s, i); }
    }
  }

  lemma OneHookAfterHook(s: Machine, step: Step)
    requires OrderInv(s) && Orderly(s, step) && HookStep(step)
    ensures OneHook(Apply(s, step))
  {
    if Apply(s, step).lock != Free { NoneFiredInCallbacks(s, step); }
    if step.Accept? || step.CloseConn? {
      OneHookStarts(s, step);
    } else {
      OneHookGoesOn(s, step);
    }
  }

  lemma OneHookStarts(s: Machine, step: Step)
    requires s.g.Allocated() && HooksApart(s) && Enabled(s, step) && HooksQuiet(s) && (step.Accept? || step.CloseConn?)
    ensures HooksApart(Apply(s, step))
  {
  }

  lemma OneHookGoesOn(s: Machine, step: Step)
    requires s.g.Allocated() && HooksApart(s) && WakerOK(s) && Enabled(s, step)
    requires HookStep(step) && !step.Accept? && !step.CloseConn?
    ensures HooksApart(Apply(s, step))
  {
    var t := Apply(s, step);
    assert t.conns == s.conns[step.c := t.conns[step.c]] && !AtRest(s.conns[step.c]);
    assert t.conns[step.c] != NeedSchedule && t.g.conns == s.g.conns && t.idleSince == s.idleSince && t.now == s.now;
  }

  lemma OneHookAfterTimer(s: Machine, step: Step)
    requires OrderInv(s) && Orderly(s, step) && !HookStep(step)
    ensures OneHook(Apply(s, step))
  {
    var t := Apply(s, step);
    if step.TrySleep? {
      assert GraceTimer(s, step.t);
      forall i | 0 <= i < |t.g.graceTimers| ensures !t.g.graceTimers[i].Fired? {
        assert GraceTimer(s, i);
      }
    }
  }

  lemma QuietAndEmptyIsGone(s: Machine)
    requires Inv(s) && HooksQuiet(s) && s.g.conns == 0
    ensures forall c :: 0 <= c < |s.conns| ==> s.conns[c] == Gone
  {
    forall c | 0 <= c < |s.conns| ensures s.conns[c] == Gone {
      if Counted(s.conns[c]) { CountAt(s.conns, c); }
    }
  }

  lemma WindowAfterAccept(s: Machine)
    requires s.g.Allocated() && CountOK(s) && SessOK(s) && WindowOK(s) && HooksQuiet(s) && Enabled(s, Accept)
    requires s.g.conns == 0 ==> forall c :: 0 <= c < |s.conns| ==> s.conns[c] == Gone
    ensures CountOK(Apply(s, Accept)) ==> WindowOK(Apply(s, Accept))
  {
    if s.g.sess.Some? { assert SessTimerOK(s, s.g.sessTimers[s.g.sess.value]); }
  }

  lemma WindowAfterClose(s: Machine, c: nat)
    requires s.g.Allocated() && CountOK(s) && WindowOK(s) && HooksQuiet(s) && Enabled(s, CloseConn(c))
    ensures CountOK(Apply(s, CloseConn(c))) ==> WindowOK(Apply(s, CloseConn(c)))
  {
    var t := Apply(s, CloseConn(c));
    assert forall d :: 0 <= d < |s.conns| ==> AtRest(s.conns[d]);
    assert t.conns == s.conns[c := t.conns[c]] && t.accepts == s.accepts;
  }

  lemma WindowAfterWake(s: Machine, c: nat)
    requires s.g.Allocated() && CountOK(s) && WindowOK(s) && Enabled(s, WakeSection(c))
    ensures CountOK(Apply(s, WakeSection(c))) ==> WindowOK(Apply(s, WakeSection(c)))
  {
    assert forall d :: 0 <= d < |s.conns| && d != c ==> s.conns[d] == Gone;
  }

  /** What the windows are judged by has not moved. */
  lemma WindowSame(s: Machine, t: Machine)
    requires CountOK(s) && CountOK(t) && WindowOK(s) && |t.conns| == |s.conns|
    requires t.accepts == s.accepts && t.rearmed == s.rearmed && t.g.maxSession == s.g.maxSession
    requires t.g.sess.None? || (t.g.sess == s.g.sess && t.g.sessTimers == s.g.sessTimers)
    requires forall c :: 0 <= c < |s.conns| ==>
      && (t.conns[c] == NeedWake ==> s.conns[c] == NeedWake && t.now == s.now)
      && (s.conns[c] == Gone ==> t.conns[c] == Gone)
      && (Counted(t.conns[c]) ==> Counted(s.conns[c]))
    ensures WindowOK(t)
  {
  }

  lemma WindowAfterHook(s: Machine, step: Step)
    requires s.g.Allocated() && CountOK(s) && WakerOK(s) && WindowOK(s) && Enabled(s, step)
    requires step.WakeFn? || step.MapConn? || step.Schedule? || step.Unmap?
    ensures CountOK(Apply(s, step)) ==> WindowOK(Apply(s, step))
  {
    var t := Apply(s, step);
    assert t.conns == s.conns[step.c := t.conns[step.c]];
    if CountOK(t) { WindowSame(s, t); }
  }

  lemma WindowAfterSession(s: Machine, step: Step)
    requires s.g.Allocated() && CountOK(s) && WindowOK(s) && Enabled(s, step)
    requires step.Rearm? || step.FireSession? || step.ForceClose?
    ensures CountOK(Apply(s, step)) ==> WindowOK(Apply(s, step))
  {
  }

  lemma WindowAfterTimer(s: Machine, step: Step)
    requires s.g.Allocated() && CountOK(s) && BootOK(s) && WindowOK(s) && Orderly(s, step) && !HookStep(step)
    ensures CountOK(Apply(s, step)) ==> WindowOK(Apply(s, step))
  {
    var t := Apply(s, step);
    if step.Rearm? || step.FireSession? || step.ForceClose? {
      WindowAfterSession(s, step);
    } else if CountOK(t) {
      assert forall c :: 0 <= c < |s.conns| && step.Advance? ==> AtRest(s.conns[c]);
      WindowSame(s, t);
    }
  }

  lemma WindowKept(s: Machine, step: Step)
    requires OrderInv(s) && Orderly(s, step) && CountOK(Apply(s, step))
    ensures WindowOK(Apply(s, step))
  {
    if step.Accept? {
      if s.g.conns == 0 { QuietAndEmptyIsGone(s); }
      WindowAfterAccept(s);
    } else if step.CloseConn? {
      WindowAfterClose(s, step.c);
    } else if step.WakeSection? {
      WindowAfterWake(s, step.c);
    } else if HookStep(step) {
      WindowAfterHook(s, step);
    } else {
      WindowAfterTimer(s, step);
    }
  }

  lemma DueKept(s: Machine, step: Step)
    requires s.g.Allocated() && CountOK(s) && WindowOK(s) && DueOK(s) && Enabled(s, step)
    ensures DueOK(Apply(s, step))
  {
    var t := Apply(s, step);
    if step.WakeSection? {
      assert t.accepts[step.c] == s.now;
    } else if step.Rearm? {
      assert t.g.sess == s.g.sess || t.rearmed == s.now;
    }
    if s.g.sess.Some? && t.g.sess == s.g.sess && t.g.sessTimers[t.g.sess.value].Armed? { StillDue(s, step); }
  }

  lemma StillDue(s: Machine, step: Step)
    requires s.g.Allocated() && CountOK(s) && DueOK(s) && Enabled(s, step)
    requires var t := Apply(s, step); s.g.sess.Some? && t.g.sess == s.g.sess && t.g.sessTimers[t.g.sess.value].Armed?
    ensures var t := Apply(s, step); ExactlyDue(t, t.g.sessTimers[t.g.sess.value].due)
  {
    var t := Apply(s, step);
    var due := s.g.sessTimers[s.g.sess.value].due;
    assert t.rearmed == s.rearmed;
    if c :| 0 <= c < |s.accepts| && due == s.accepts[c] + s.g.maxSession {
      assert t.accepts[c] == s.accepts[c];
    }
  }

  lemma OrderStep(s: Machine, step: Step)
    requires OrderInv(s) && Orderly(s, step)
    ensures OrderInv(Apply(s, step))
  {
    StepInv(s, step);
    WindowKept(s, step);
    DueKept(s, step);
    GraceTimersKept(s, step);
    if HookStep(step) {
      SessTimersAfterHook(s, step);
      OneHookAfterHook(s, step);
    } else {
      SessTimersAfterTimer(s, step);
      OneHookAfterTimer(s, step);
    }
  }

  /** No orderly step loses the session cap. */
  lemma OrderlyNeverLoses(s: Machine, step: Step)
    requires OrderInv(s) && Orderly(s, step)
    ensures !LosesCap(s, step)
  {
    if step.TrySleep? {
      assert GraceTimer(s, step.t);
    } else if step.EndSession? && s.g.liveConns == {} {
      assert SessTimer(s, step.t);
      CountNone(s.conns);
    }
  }

  /** In every orderly run: the cap holds in every state, with at most one window armed, due
      within `maxSession`; and a gate that parks has been idle for the whole grace. */
  lemma {:induction false} OrderlyRuns(s: Machine, steps: seq<Step>)
    requires OrderInv(s) && Capped(s) && OrderlyRun(s, steps)
    ensures CanRun(s, steps)
    ensures OrderInv(RunTo(s, steps)) && Capped(RunTo(s, steps))
    decreases |steps|
  {
    if steps != [] {
      OrderlyNeverLoses(s, steps[0]);
      CapExact(s, steps[0]);
      OrderStep(s, steps[0]);
      OrderlyRuns(Apply(s, steps[0]), steps[1..]);
    }
  }

  /** The documented cap, for orderly runs: an awake gate with a connection always has its window
      armed or is about to re-arm it, and the one armed window ends at most `maxSession` after any
      open connection was accepted, or after the last session end if that was later; and it ends
      exactly `maxSession` after the accept or the session end that opened it. */
  lemma SessionCapHolds(grace: nat, maxSession: nat, steps: seq<Step>)
    requires OrderlyRun(Init(grace, maxSession), steps)
    ensures CanRun(Init(grace, maxSession), steps)
    ensures var s := RunTo(Init(grace, maxSession), steps);
      && Capped(s)
      && (forall t :: 0 <= t < |s.g.sessTimers| && s.g.sessTimers[t].Armed? ==>
            s.g.sess == Some(t) && s.g.sessTimers[t].due <= s.now + maxSession)
      && |s.accepts| == |s.conns|
      && (forall t, c :: 0 <= t < |s.g.sessTimers| && s.g.sessTimers[t].Armed?
                         && 0 <= c < |s.conns| && Counted(s.conns[c]) ==>
            s.g.sessTimers[t].due <= Later(s.accepts[c], s.rearmed) + maxSession)
      && (forall t :: 0 <= t < |s.g.sessTimers| && s.g.sessTimers[t].Armed? ==> ExactlyDue(s, s.g.sessTimers[t].due))
  {
    InitInv(grace, maxSession);
    OrderlyRuns(Init(grace, maxSession), steps);
    SettingsStay(Init(grace, maxSession), steps);
    var s := RunTo(Init(grace, maxSession), steps);
    forall t | 0 <= t < |s.g.sessTimers| && s.g.sessTimers[t].Armed?
      ensures s.g.sess == Some(t) && s.g.sessTimers[t].due <= s.now + maxSession
    {
      assert SessTimer(s, t) && SessTimerOK(s, s.g.sessTimers[t]);
    }
  }

  lemma {:induction false} SettingsStay(s: Machine, steps: seq<Step>)
    requires s.g.Allocated() && CanRun(s, steps)
    ensures var t := RunTo(s, steps); t.g.grace == s.g.grace && t.g.maxSession == s.g.maxSession
    decreases |steps|
  {
    if steps != [] { SettingsStay(Apply(s, steps[0]), steps[1..]); }
  }

  /** While a connection stays counted, an armed deadline never moves: the window is still there
      with the same due time, unless it just fired. */
  lemma DeadlineFixed(s: Machine, step: Step, t: nat)
    requires OrderInv(s) && Orderly(s, step)
    requires s.g.sess == Some(t) && s.g.sessTimers[t].Armed?
    requires s.g.conns > 0 && Apply(s, step).g.conns > 0
    ensures var r := Apply(s, step);
      r.g.sess == Some(t)
      && (r.g.sessTimers[t] == s.g.sessTimers[t] || (step == FireSession(t) && s.g.sessTimers[t].due <= s.now))
  {
    if step.TrySleep? {
      FiredOnIdle(s, step.t);
    } else if step.EndSession? {
      FiredIsReferenced(s, step.t);
    }
  }

  /** A gate that parks in an orderly run has been without connections for the whole grace. */
  lemma ParksAfterGrace(s: Machine, step: Step)
    requires OrderInv(s) && Orderly(s, step) && s.lock == Free && Apply(s, step).lock == InSleepFn
    ensures s.g.conns == 0 && s.now >= s.idleSince + s.g.grace
  {
    assert GraceTimer(s, step.t);
  }

  /** A session end in an orderly run takes over every connection that is being served. */
  lemma SessionEndTakesAll(s: Machine, t: nat, c: nat)
    requires OrderInv(s) && Orderly(s, EndSession(t)) && ConnAt(s, c, Serving)
    ensures var r := Apply(s, EndSession(t));
      r.g.sessTimers[t].Closing? && c in r.g.sessTimers[t].pending && c in r.handed && c !in r.g.liveConns
  {
    assert SessTimer(s, t);
  }
}
