/** Winding down: once no further connection is accepted, the hooks, timers and forced closes
    that remain can only take finitely many steps, and they end in deep sleep. */
module GateDrain {
  import opened Base
  import opened IdleGate
  import opened GateMachine

  predicate DrainStep(step: Step) {
    !step.Advance? && !step.RequestExit? && !step.Boot? && !step.Accept?
  }

  // A connection not yet in the live map carries the weight of its future live-map slot, a
  // live-map slot pays for being force-closed and re-arming the session window, and the last
  // close hook pays for the grace timer it arms.

  function ConnWeight(p: Phase): nat {
    match p
    case NeedWake => 16
    case Waking => 13
    case NeedMap => 12
    case Serving => 7
    case NeedSchedule => 6
    case NeedUnmap => 1
    case Gone => 0
  }

  function GraceWeight(t: Timer): nat {
    match t
    case Armed(_) => 4
    case Fired => 3
    case _ => 0
  }

  function SessWeight(t: Timer): nat {
    match t
    case Armed(_) => 2
    case Fired => 1
    case Closing(pending) => 3 + |pending|
    case _ => 0
  }

  function LockWeight(lock: Lock): nat {
    match lock
    case InSleepFn => 2
    case SleptFn => 1
    case _ => 0
  }

  function Weight(s: Machine): nat {
    Sum(ConnWeight, s.conns) + Sum(GraceWeight, s.g.graceTimers) + Sum(SessWeight, s.g.sessTimers)
    + 4 * |s.g.liveConns| + LockWeight(s.lock)
  }

  lemma StopLightens(weight: Timer -> nat, timers: seq<Timer>, ref: Option<nat>)
    requires ref.Some? ==> ref.value < |timers|
    requires weight(Stopped) == 0
    ensures Sum(weight, Stop(timers, ref)) <= Sum(weight, timers)
  {
    if ref.Some? && timers[ref.value].Armed? {
      SumUpdate(weight, timers, ref.value, Stopped);
    }
  }

  lemma ArmAdds(g: State, now: nat)
    ensures Sum(SessWeight, ArmSession(g, now).sessTimers) <= Sum(SessWeight, g.sessTimers) + 2
  {
    SumAppend(SessWeight, g.sessTimers, Armed(now + g.maxSession));
  }

  lemma WokenAdds(g: State, now: nat)
    requires g.Allocated()
    ensures var w := Woken(g, now);
      && Sum(GraceWeight, w.graceTimers) <= Sum(GraceWeight, g.graceTimers)
      && Sum(SessWeight, w.sessTimers) <= Sum(SessWeight, g.sessTimers) + 2
      && w.liveConns == g.liveConns
  {
    StopLightens(GraceWeight, g.graceTimers, g.timer);
    ArmAdds(g.(graceTimers := Stop(g.graceTimers, g.timer), timer := None, sleeping := false), now);
  }

  lemma WakeDrains(s: Machine, c: nat)
    requires s.g.Allocated() && Enabled(s, WakeSection(c))
    ensures Weight(Apply(s, WakeSection(c))) < Weight(s)
  {
    var t := Apply(s, WakeSection(c));
    SumUpdate(ConnWeight, s.conns, c, t.conns[c]);
    WokenAdds(s.g, s.now);
    assert t.g == Woken(s.g, s.now) && t.conns == s.conns[c := t.conns[c]];
  }

  lemma ScheduleDrains(s: Machine, c: nat)
    requires s.g.Allocated() && Enabled(s, Schedule(c))
    ensures Weight(Apply(s, Schedule(c))) < Weight(s)
  {
    SumUpdate(ConnWeight, s.conns, c, NeedUnmap);
    SumAppend(GraceWeight, s.g.graceTimers, Armed(s.now + s.g.grace));
  }

  lemma LiveHookDrains(s: Machine, step: Step)
    requires s.g.Allocated() && Enabled(s, step) && (step.MapConn? || step.Unmap?)
    ensures Weight(Apply(s, step)) < Weight(s)
  {
    SumUpdate(ConnWeight, s.conns, step.c, Apply(s, step).conns[step.c]);
  }

  lemma HookDrains(s: Machine, step: Step)
    requires s.g.Allocated() && Enabled(s, step) && HookStep(step) && DrainStep(step)
    requires step.WakeFn? ==> s.conns[step.c] == Waking
    ensures Weight(Apply(s, step)) < Weight(s)
  {
    if step.WakeSection? {
      WakeDrains(s, step.c);
    } else if step.Schedule? {
      ScheduleDrains(s, step.c);
    } else if step.MapConn? || step.Unmap? {
      LiveHookDrains(s, step);
    } else {
      SumUpdate(ConnWeight, s.conns, step.c, Apply(s, step).conns[step.c]);
    }
  }

  lemma GraceDrains(s: Machine, step: Step)
    requires s.g.Allocated() && Enabled(s, step) && (step.FireGrace? || step.TrySleep?)
    ensures Weight(Apply(s, step)) < Weight(s)
  {
    var t := Apply(s, step);
    SumUpdate(GraceWeight, s.g.graceTimers, step.t, t.g.graceTimers[step.t]);
    if step.TrySleep? {
      StopLightens(SessWeight, s.g.sessTimers, s.g.sess);
    }
  }

  lemma RearmDrains(s: Machine, t: nat)
    requires s.g.Allocated() && Enabled(s, Rearm(t))
    ensures Weight(Apply(s, Rearm(t))) < Weight(s)
  {
    var g := ArmSession(s.g, s.now);
    ArmAdds(s.g, s.now);
    assert g.sessTimers[t] == Closing({}) && g.liveConns == s.g.liveConns && g.graceTimers == s.g.graceTimers;
    SumUpdate(SessWeight, g.sessTimers, t, Spent);
  }

  lemma EndSessionDrains(s: Machine, t: nat)
    requires s.g.Allocated() && Enabled(s, EndSession(t))
    ensures Weight(Apply(s, EndSession(t))) < Weight(s)
  {
    SumUpdate(SessWeight, s.g.sessTimers, t, Apply(s, EndSession(t)).g.sessTimers[t]);
  }

  lemma SessDrains(s: Machine, step: Step)
    requires s.g.Allocated() && Enabled(s, step) && (step.FireSession? || step.ForceClose?)
    ensures Weight(Apply(s, step)) < Weight(s)
  {
    SumUpdate(SessWeight, s.g.sessTimers, step.t, Apply(s, step).g.sessTimers[step.t]);
  }

  /** Every remaining step makes the gate lighter; time and the exit request leave it as it is. */
  lemma DrainLightens(s: Machine, step: Step)
    requires Inv(s) && s.booted && Enabled(s, step)
    ensures DrainStep(step) ==> Weight(Apply(s, step)) < Weight(s)
    ensures step.Advance? || step.RequestExit? ==> Weight(Apply(s, step)) == Weight(s)
  {
    if DrainStep(step) {
      if HookStep(step) {
        HookDrains(s, step);
      } else if step.FireGrace? || step.TrySleep? {
        GraceDrains(s, step);
      } else if step.Rearm? {
        RearmDrains(s, step.t);
      } else if step.EndSession? {
        EndSessionDrains(s, step.t);
      } else if step.FireSession? || step.ForceClose? {
        SessDrains(s, step);
      }
    }
  }

  function Later(s: Machine, d: nat): Machine {
    s.(now := s.now + d)
  }

  /** No remaining step can be taken, now or at any later time. */
  ghost predicate Quiescent(s: Machine) {
    forall d: nat, step: Step :: DrainStep(step) ==> !Enabled(Later(s, d), step)
  }

  /** Deep sleep with nothing left: no connection, no live map, no pending timer, mutex free. */
  predicate AtPeace(s: Machine) {
    && s.booted && s.g.sleeping && s.lock == Free && s.g.conns == 0 && s.g.liveConns == {}
    && (forall c :: 0 <= c < |s.conns| ==> s.conns[c] == Gone)
    && (forall t :: 0 <= t < |s.g.graceTimers| ==> !Pending(s.g.graceTimers[t]))
    && (forall t :: 0 <= t < |s.g.sessTimers| ==> !Pending(s.g.sessTimers[t]) && !s.g.sessTimers[t].Closing?)
  }

  lemma Stuck(s: Machine, d: nat, step: Step)
    requires Quiescent(s) && DrainStep(step)
    ensures !Enabled(Later(s, d), step)
  {
  }

  lemma QuietLock(s: Machine)
    requires Inv(s) && s.booted && !s.exited && Quiescent(s)
    ensures s.lock == Free
  {
    match s.lock
    case Free =>
    case InWakeFn(c) => Stuck(s, 0, WakeFn(c));
    case InSleepFn => Stuck(s, 0, SleepFn);
    case SleptFn => Stuck(s, 0, FinishPark);
  }

  lemma QuietConn(s: Machine, c: nat)
    requires Inv(s) && s.booted && !s.exited && Quiescent(s) && s.lock == Free && c < |s.conns|
    ensures s.conns[c] == Gone
  {
    Stuck(s, 0, WakeSection(c));
    Stuck(s, 0, MapConn(c));
    Stuck(s, 0, CloseConn(c));
    Stuck(s, 0, Schedule(c));
    Stuck(s, 0, Unmap(c));
  }

  lemma QuietGrace(s: Machine, t: nat)
    requires Inv(s) && s.booted && !s.exited && Quiescent(s) && s.lock == Free && t < |s.g.graceTimers|
    ensures !Pending(s.g.graceTimers[t])
  {
    Stuck(s, 0, TrySleep(t));
    if s.g.graceTimers[t].Armed? { Stuck(s, s.g.graceTimers[t].due, FireGrace(t)); }
  }

  lemma QuietSess(s: Machine, t: nat)
    requires Inv(s) && s.booted && !s.exited && Quiescent(s) && s.lock == Free && t < |s.g.sessTimers|
    ensures !Pending(s.g.sessTimers[t]) && !s.g.sessTimers[t].Closing?
  {
    Stuck(s, 0, EndSession(t));
    Stuck(s, 0, Rearm(t));
    match s.g.sessTimers[t]
    case Armed(due) => Stuck(s, due, FireSession(t));
    case Closing(pending) => if c :| c in pending { Stuck(s, 0, ForceClose(t, c)); }
    case _ =>
  }

  /** A gate that has run out of steps is asleep for good, unless the process has exited. */
  lemma DrainEndsAsleep(s: Machine)
    requires Inv(s) && s.booted && !s.exited && Quiescent(s)
    ensures AtPeace(s)
  {
    QuietLock(s);
    forall c | 0 <= c < |s.conns| ensures s.conns[c] == Gone { QuietConn(s, c); }
    forall t | 0 <= t < |s.g.graceTimers| ensures !Pending(s.g.graceTimers[t]) { QuietGrace(s, t); }
    forall t | 0 <= t < |s.g.sessTimers|
      ensures !Pending(s.g.sessTimers[t]) && !s.g.sessTimers[t].Closing?
    {
      QuietSess(s, t);
    }
    CountNone(s.conns);
    assert !ParkPending(s);
    forall c: nat ensures c !in s.g.liveConns {
      assert c in s.g.liveConns ==> LiveConn(s, c);
    }
  }

  /** And such a gate really has run out of steps: nothing moves again, however long it waits. */
  lemma AsleepIsQuiescent(s: Machine)
    requires Inv(s) && AtPeace(s)
    ensures Quiescent(s)
  {
    forall d: nat, step: Step | DrainStep(step) ensures !Enabled(Later(s, d), step) { }
  }
}
