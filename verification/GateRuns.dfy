/** What one step of the gate comes to over whole runs: that a session window runs its full length,
    that a grace timer is armed once, that a session end closes everyone it took over, and that a
    process told to exit on idle exits. */
module GateRuns {
  import opened Base
  import opened IdleGate
  import opened GateMachine

  // ------------------------------------------------------------------ session windows

  /** A window that was opened at time `from` or later has not run out before its full length. */
  predicate FullLength(t: Timer, from: nat, now: nat, maxSession: nat) {
    match t
    case Armed(due) => due >= from + maxSession
    case Stopped => true
    case _ => now >= from + maxSession
  }

  /** Every window opened since there were `n` of them. */
  predicate WindowsFull(s: Machine, n: nat, from: nat) {
    && from <= s.now && n <= |s.g.sessTimers|
    && forall t :: n <= t < |s.g.sessTimers| ==> FullLength(s.g.sessTimers[t], from, s.now, s.g.maxSession)
  }

  lemma WindowFullHook(s: Machine, step: Step, i: nat, from: nat)
    requires s.g.Allocated() && Enabled(s, step) && HookStep(step) && from <= s.now
    requires i < |s.g.sessTimers| ==> FullLength(s.g.sessTimers[i], from, s.now, s.g.maxSession)
    requires i < |Apply(s, step).g.sessTimers|
    ensures FullLength(Apply(s, step).g.sessTimers[i], from, s.now, s.g.maxSession)
  {
  }

  lemma WindowFullTimer(s: Machine, step: Step, i: nat, from: nat)
    requires s.g.Allocated() && Enabled(s, step) && !HookStep(step) && from <= s.now
    requires i < |s.g.sessTimers| ==> FullLength(s.g.sessTimers[i], from, s.now, s.g.maxSession)
    requires i < |Apply(s, step).g.sessTimers|
    ensures FullLength(Apply(s, step).g.sessTimers[i], from, Apply(s, step).now, s.g.maxSession)
  {
  }

  lemma GateFrame(s: Machine, step: Step)
    requires s.g.Allocated() && Enabled(s, step)
    ensures var t := Apply(s, step);
      && t.g.maxSession == s.g.maxSession && t.now >= s.now && |t.g.sessTimers| >= |s.g.sessTimers|
      && (HookStep(step) ==> t.now == s.now)
  {
  }

  lemma WindowsFullStep(s: Machine, step: Step, n: nat, from: nat)
    requires s.g.Allocated() && WindowsFull(s, n, from) && Enabled(s, step)
    ensures WindowsFull(Apply(s, step), n, from) && Apply(s, step).g.maxSession == s.g.maxSession
  {
    var t := Apply(s, step);
    GateFrame(s, step);
    forall i | n <= i < |t.g.sessTimers| ensures FullLength(t.g.sessTimers[i], from, t.now, t.g.maxSession) {
      if HookStep(step) { WindowFullHook(s, step, i, from); } else { WindowFullTimer(s, step, i, from); }
    }
  }

  /** Over every run, no session window opened during it fires, and so no connection is closed by
      it, before the full `maxSession` has passed since the run began. */
  lemma {:induction false} WindowsRunFull(s: Machine, steps: seq<Step>, n: nat, from: nat)
    requires Inv(s) && WindowsFull(s, n, from) && CanRun(s, steps)
    ensures WindowsFull(RunTo(s, steps), n, from) && RunTo(s, steps).g.maxSession == s.g.maxSession
    decreases |steps|
  {
    if steps != [] {
      WindowsFullStep(s, steps[0], n, from);
      StepInv(s, steps[0]);
      WindowsRunFull(Apply(s, steps[0]), steps[1..], n, from);
    }
  }

  /** Exactly a wake, and the end of a session on an awake gate, open a window, and only if none is
      referenced: one window, referenced and due after exactly `maxSession`, on an awake gate. */
  lemma WindowOpens(s: Machine, step: Step)
    requires s.g.Allocated() && Enabled(s, step)
    ensures |Apply(s, step).g.sessTimers| > |s.g.sessTimers| <==>
      s.g.sess.None? && (step.WakeSection? || (step.Rearm? && !s.g.sleeping))
    ensures |Apply(s, step).g.sessTimers| > |s.g.sessTimers| ==>
      var t, n := Apply(s, step), |s.g.sessTimers|;
      && |t.g.sessTimers| == n + 1 && t.g.sess == Some(n) && !t.g.sleeping
      && t.g.sessTimers[n] == Armed(s.now + s.g.maxSession)
      && WindowsFull(t, n, s.now) && t.g.maxSession == s.g.maxSession
  {
  }

  /** However the run goes on, a window that a step opened fires, and force-closes connections, no
      earlier than `maxSession` after that step. */
  lemma WindowLasts(s: Machine, step: Step, steps: seq<Step>)
    requires Inv(s) && Enabled(s, step) && |Apply(s, step).g.sessTimers| > |s.g.sessTimers|
    requires CanRun(Apply(s, step), steps)
    ensures var u, n := RunTo(Apply(s, step), steps), |s.g.sessTimers|;
      n < |u.g.sessTimers| && FullLength(u.g.sessTimers[n], s.now, u.now, s.g.maxSession)
  {
    StepInv(s, step);
    WindowOpens(s, step);
    var t := Apply(s, step);
    WindowsRunFull(t, steps, |s.g.sessTimers|, s.now);
    WindowCountStays(t, steps);
  }

  lemma {:induction false} WindowCountStays(s: Machine, steps: seq<Step>)
    requires s.g.Allocated() && CanRun(s, steps)
    ensures |s.g.sessTimers| <= |RunTo(s, steps).g.sessTimers|
    decreases |steps|
  {
    if steps != [] {
      GateFrame(s, steps[0]);
      WindowCountStays(Apply(s, steps[0]), steps[1..]);
    }
  }

  // ------------------------------------------------------------------ grace timers

  /** Only a last close arms a grace timer, due after exactly the grace, and only on an awake gate
      that references none: a pending one is neither doubled nor moved. */
  lemma GraceArmsOnce(s: Machine, step: Step)
    requires Inv(s) && Enabled(s, step)
    ensures var t, n := Apply(s, step), |s.g.graceTimers|;
      if step.Schedule? && !s.g.sleeping && s.g.timer.None? then
        t.g.graceTimers == s.g.graceTimers + [Armed(s.now + s.g.grace)] && t.g.timer == Some(n)
      else
        && |t.g.graceTimers| == n
        && forall i :: 0 <= i < n ==> t.g.graceTimers[i].Armed? ==> t.g.graceTimers[i] == s.g.graceTimers[i]
  {
  }

  // ------------------------------------------------------------------ forced closes

  /** The connections a session end took over and has not closed yet, if none of `closed` is one. */
  predicate StillToClose(timer: Timer, taken: set<nat>, closed: set<nat>) {
    timer.Closing? && taken - closed <= timer.pending <= taken
  }

  function ForcedBy(steps: seq<Step>, t: nat): set<nat> {
    if steps == [] then {}
    else (if steps[0].ForceClose? && steps[0].t == t then {steps[0].c} else {}) + ForcedBy(steps[1..], t)
  }

  lemma ForceStep(s: Machine, step: Step, t: nat, taken: set<nat>, closed: set<nat>)
    requires s.g.Allocated() && t < |s.g.sessTimers| && StillToClose(s.g.sessTimers[t], taken, closed)
    requires Enabled(s, step) && step != Rearm(t)
    requires s.g.sess != Some(t)
    ensures var r := Apply(s, step);
      && t < |r.g.sessTimers| && r.g.sess != Some(t)
      && StillToClose(r.g.sessTimers[t], taken,
                      closed + if step.ForceClose? && step.t == t then {step.c} else {})
  {
  }

  lemma {:induction false} ForcedOver(s: Machine, steps: seq<Step>, t: nat, taken: set<nat>, closed: set<nat>)
    requires s.g.Allocated() && t < |s.g.sessTimers| && StillToClose(s.g.sessTimers[t], taken, closed)
    requires s.g.sess != Some(t) && CanRun(s, steps) && Rearm(t) !in steps
    ensures var r := RunTo(s, steps);
      t < |r.g.sessTimers| && StillToClose(r.g.sessTimers[t], taken, closed + ForcedBy(steps, t))
    decreases |steps|
  {
    if steps == [] {
      assert closed + {} == closed;
    } else {
      var now := if steps[0].ForceClose? && steps[0].t == t then {steps[0].c} else {};
      ForceStep(s, steps[0], t, taken, closed);
      ForcedOver(Apply(s, steps[0]), steps[1..], t, taken, closed + now);
      assert closed + now + ForcedBy(steps[1..], t) == closed + ForcedBy(steps, t);
    }
  }

  /** A session end closes every connection it found in the live map before it goes on to open a
      new window: over any run, each of them can be closed until it is, and the second section is
      reached only with all of them closed. */
  lemma EveryTakenIsClosed(s: Machine, t: nat, steps: seq<Step>)
    requires Inv(s) && Enabled(s, EndSession(t)) && s.g.liveConns != {}
    requires CanRun(Apply(s, EndSession(t)), steps) && Rearm(t) !in steps
    ensures var r := RunTo(Apply(s, EndSession(t)), steps);
      && t < |r.g.sessTimers|
      && (!r.exited ==> forall c :: c in s.g.liveConns && c !in ForcedBy(steps, t) ==> Enabled(r, ForceClose(t, c)))
      && (Enabled(r, Rearm(t)) ==> s.g.liveConns <= ForcedBy(steps, t))
  {
    var u := Apply(s, EndSession(t));
    assert StillToClose(u.g.sessTimers[t], s.g.liveConns, {});
    ForcedOver(u, steps, t, s.g.liveConns, {});
    assert {} + ForcedBy(steps, t) == ForcedBy(steps, t);
  }

  // ------------------------------------------------------------------ exit on idle

  /** Being told to exit on idle is never taken back. */
  lemma {:induction false} FlagStays(s: Machine, steps: seq<Step>)
    requires s.g.Allocated() && s.g.exitOnIdle && CanRun(s, steps)
    ensures RunTo(s, steps).g.exitOnIdle
    decreases |steps|
  {
    if steps != [] { FlagStays(Apply(s, steps[0]), steps[1..]); }
  }

  /** The last look of a park ends the process exactly if it was told to exit on idle and every
      accepted connection has been counted out again. */
  lemma ExitsExactly(s: Machine)
    requires Reachable(s) && s.lock == SleptFn && !s.exited
    ensures s.g.Allocated() && Enabled(s, FinishPark)
    ensures Apply(s, FinishPark).exited <==>
      s.g.exitOnIdle && forall c :: 0 <= c < |s.conns| ==> !Counted(s.conns[c])
  {
    ReachableInv(s);
    if forall c :: 0 <= c < |s.conns| ==> !Counted(s.conns[c]) {
      CountNone(s.conns);
    } else {
      var c :| 0 <= c < |s.conns| && Counted(s.conns[c]);
      CountAt(s.conns, c);
    }
  }

  /** Nothing but that last look ends the process. */
  lemma OnlyParksExit(s: Machine, step: Step)
    requires s.g.Allocated() && Enabled(s, step)
    ensures Apply(s, step).exited ==> step == FinishPark
  {
  }

  /** A process told to exit that has not parked for good yet: awake, in a callback, or with a
      connection that is about to wake it. */
  predicate ExitAhead(s: Machine) {
    s.booted && s.g.exitOnIdle && (s.exited || !s.g.sleeping || s.lock != Free || s.g.conns > 0)
  }

  lemma ExitAheadStep(s: Machine, step: Step)
    requires Inv(s) && ExitAhead(s) && Enabled(s, step)
    ensures ExitAhead(Apply(s, step))
  {
    if step.CloseConn? && s.g.sleeping && s.lock == Free { WakerOutlives(s, step.c); }
  }

  lemma WakerOutlives(s: Machine, c: nat)
    requires Inv(s) && s.g.sleeping && s.g.conns > 0 && Enabled(s, CloseConn(c))
    ensures s.g.conns > 1
  {
    var w := s.waker.value;
    var t := Apply(s, CloseConn(c));
    StepInv(s, CloseConn(c));
    assert Awakener(s.conns[w]) && w != c && t.conns[w] == s.conns[w];
    CountAt(t.conns, w);
  }

  /** Told to exit on idle while it is awake, the process never comes to rest parked: wherever a
      run takes it, it has exited or its next park is still ahead. */
  lemma {:induction false} MustExit(s: Machine, steps: seq<Step>)
    requires Inv(s) && ExitAhead(s) && CanRun(s, steps)
    ensures Inv(RunTo(s, steps)) && ExitAhead(RunTo(s, steps))
    decreases |steps|
  {
    if steps != [] {
      ExitAheadStep(s, steps[0]);
      StepInv(s, steps[0]);
      MustExit(Apply(s, steps[0]), steps[1..]);
    }
  }

  /** Asking for it is heard at any moment the mutex is free: at once if the gate is awake, with
      the next connection if it is parked, so that the boot park is never the end. */
  lemma RequestIsHeard(s: Machine)
    requires Reachable(s) && s.lock == Free && !s.exited
    ensures s.g.Allocated() && Enabled(s, RequestExit)
    ensures var t := Apply(s, RequestExit);
      && t.g.exitOnIdle
      && (s.booted && !s.g.sleeping ==> ExitAhead(t))
      && (s.booted ==> Enabled(t, Accept) && ExitAhead(Apply(t, Accept)))
  {
    ReachableInv(s);
  }

  // ------------------------------------------------------------------ what the mutex does not block

  /** Connections are counted in and out, and timers fire, whoever holds the mutex: an accept that
      lands inside the sleep callback is in the counter before the last look of the park. */
  lemma CountingNeedsNoMutex(s: Machine, c: nat, t: nat)
    requires Reachable(s) && !s.exited
    ensures s.g.Allocated()
    ensures s.booted ==> Enabled(s, Accept) && Apply(s, Accept).g.conns == s.g.conns + 1
    ensures ConnAt(s, c, Serving) ==> Enabled(s, CloseConn(c)) && Apply(s, CloseConn(c)).g.conns == s.g.conns - 1
    ensures t < |s.g.graceTimers| && s.g.graceTimers[t].Armed? ==>
      (Enabled(s, FireGrace(t)) <==> s.g.graceTimers[t].due <= s.now)
    ensures t < |s.g.sessTimers| && s.g.sessTimers[t].Armed? ==>
      (Enabled(s, FireSession(t)) <==> s.g.sessTimers[t].due <= s.now)
  {
    ReachableInv(s);
  }

  // ------------------------------------------------------------------ time stamps

  /** A connection's accept is stamped with the time it was accepted at, for ever. */
  lemma AcceptIsStamped(s: Machine, steps: seq<Step>)
    requires Inv(s) && Enabled(s, Accept) && CanRun(Apply(s, Accept), steps)
    ensures var t := RunTo(Apply(s, Accept), steps); |s.conns| < |t.accepts| && t.accepts[|s.conns|] == s.now
  {
    StepInv(s, Accept);
    StampsStay(Apply(s, Accept), steps);
  }

  lemma {:induction false} StampsStay(s: Machine, steps: seq<Step>)
    requires s.g.Allocated() && CanRun(s, steps)
    ensures s.accepts <= RunTo(s, steps).accepts
    decreases |steps|
  {
    if steps != [] {
      StampsStay(Apply(s, steps[0]), steps[1..]);
      assert s.accepts <= Apply(s, steps[0]).accepts;
    }
  }

  /** The re-arm stamp moves to the present exactly when a session end opens a window. */
  lemma RearmIsStamped(s: Machine, step: Step)
    requires Inv(s) && Enabled(s, step)
    ensures Apply(s, step).rearmed ==
      if step.Rearm? && |Apply(s, step).g.sessTimers| > |s.g.sessTimers| then s.now else s.rearmed
  {
  }
}
