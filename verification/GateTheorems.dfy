/** What the idle gate guarantees under every interleaving, and exactly when its session cap and
    its idle grace fail. */
module GateTheorems {
  import opened Base
  import opened IdleGate
  import opened GateMachine

  /** The counter is never negative and counts exactly the connections counted in and not out; a
      served connection is in the live map or was handed to a force-close; a connection whose
      close hook has returned is in the live map never again. */
  lemma ConnectionConservation(s: Machine)
    requires Reachable(s)
    ensures s.g.conns == |set c | 0 <= c < |s.conns| && Counted(s.conns[c])|
    ensures forall c :: 0 <= c < |s.conns| && s.conns[c] == Serving ==> c in s.g.liveConns || c in s.handed
    ensures forall c :: 0 <= c < |s.conns| && s.conns[c] == Gone ==> c !in s.g.liveConns
  {
    ReachableInv(s);
    CountIsCard(s.conns);
    forall c: nat | c < |s.conns| && s.conns[c] == Gone ensures c !in s.g.liveConns {
      assert c in s.g.liveConns ==> LiveConn(s, c);
    }
  }

  lemma {:induction false} CountIsCard(conns: seq<Phase>)
    ensures Count(conns) == |set c | 0 <= c < |conns| && Counted(conns[c])|
  {
    if conns != [] {
      var n := |conns| - 1;
      CountIsCard(conns[..n]);
      var all := set c | 0 <= c < |conns| && Counted(conns[c]);
      var front := set c | 0 <= c < n && Counted(conns[..n][c]);
      assert all == if Counted(conns[n]) then front + {n} else front;
    }
  }

  /** No lost park: an awake gate without connections always has a grace callback armed or
      fired, or a close hook that is yet to arm one. */
  lemma NoLostPark(s: Machine)
    requires Reachable(s) && s.booted && !s.g.sleeping && s.g.conns == 0
    ensures || (exists c :: 0 <= c < |s.conns| && s.conns[c] == NeedSchedule)
            || (exists t :: 0 <= t < |s.g.graceTimers| && Pending(s.g.graceTimers[t]))
  {
    ReachableInv(s);
  }

  /** No lost wake: while the gate sleeps on a counted connection, exactly one accept hook has
      made the 0-to-1 transition and not yet entered `wake`. */
  lemma NoLostWake(s: Machine) returns (c: nat)
    requires Reachable(s) && s.g.sleeping && s.g.conns > 0
    ensures c < |s.conns| && s.conns[c] == NeedWake
    ensures forall d :: 0 <= d < |s.conns| && (s.conns[d] == NeedWake || s.conns[d] == Waking) ==> d == c
  {
    ReachableInv(s);
    c := s.waker.value;
  }

  /** The waker's two steps leave the gate awake, its mutex free and a window armed or firing. */
  predicate AwakeCapped(s: Machine) {
    && !s.g.sleeping && s.lock == Free
    && s.g.sess.Some? && s.g.sess.value < |s.g.sessTimers| && Pending(s.g.sessTimers[s.g.sess.value])
  }

  lemma WakerWakes(s: Machine, c: nat)
    requires s.g.Allocated() && SessOK(s) && Ready(s) && s.g.sleeping && !s.exited && ConnAt(s, c, NeedWake)
    ensures Enabled(s, WakeSection(c)) && Enabled(Apply(s, WakeSection(c)), WakeFn(c))
    ensures AwakeCapped(Apply(Apply(s, WakeSection(c)), WakeFn(c)))
  {
  }

  /** Asleep with the process running, and connection `c` is about to wake the gate. */
  predicate WakerAt(s: Machine, c: nat) {
    s.g.sleeping && !s.exited && ConnAt(s, c, NeedWake)
  }

  /** Nothing but the waker's own section changes that: no park ends in an exit meanwhile. */
  lemma WakerStays(s: Machine, step: Step, c: nat)
    requires Inv(s) && WakerAt(s, c) && Enabled(s, step) && step != WakeSection(c)
    ensures WakerAt(Apply(s, step), c)
  {
    CountAt(s.conns, c);
    assert Awakener(s.conns[c]);
  }

  lemma {:induction false} WakerStaysOver(s: Machine, steps: seq<Step>, c: nat)
    requires Inv(s) && WakerAt(s, c) && CanRun(s, steps) && WakeSection(c) !in steps
    ensures Inv(RunTo(s, steps)) && WakerAt(RunTo(s, steps), c)
    decreases |steps|
  {
    if steps != [] {
      WakerStays(s, steps[0], c);
      StepInv(s, steps[0]);
      WakerStaysOver(Apply(s, steps[0]), steps[1..], c);
    }
  }

  /** The waker gets its turn: its section can run at once, or a park holds the mutex, whose next
      step can be taken. */
  predicate TurnComes(s: Machine, c: nat)
    requires s.g.Allocated()
  {
    if Ready(s) then
      && Enabled(s, WakeSection(c)) && Enabled(Apply(s, WakeSection(c)), WakeFn(c))
      && AwakeCapped(Apply(Apply(s, WakeSection(c)), WakeFn(c)))
    else Enabled(s, SleepFn) || Enabled(s, FinishPark)
  }

  lemma TurnAlwaysComes(s: Machine, c: nat)
    requires Inv(s) && WakerAt(s, c)
    ensures TurnComes(s, c)
  {
    if Ready(s) { WakerWakes(s, c); }
  }

  /** A connection that arrives while the gate parks or sleeps always undoes the park. However the
      run goes on, until that one connection's wake section runs the gate stays asleep and the
      process does not exit, and the section's turn comes: then the gate is awake and capped. */
  lemma ArrivalUndoesPark(s: Machine) returns (c: nat)
    requires Reachable(s) && s.g.sleeping && s.g.conns > 0 && !s.exited
    ensures s.g.Allocated() && WakerAt(s, c)
    ensures forall steps :: CanRun(s, steps) && WakeSection(c) !in steps ==>
      WakerAt(RunTo(s, steps), c) && TurnComes(RunTo(s, steps), c)
  {
    ReachableInv(s);
    c := s.waker.value;
    forall steps | CanRun(s, steps) && WakeSection(c) !in steps
      ensures WakerAt(RunTo(s, steps), c) && TurnComes(RunTo(s, steps), c)
    {
      WakerStaysOver(s, steps, c);
      TurnAlwaysComes(RunTo(s, steps), c);
    }
  }

  /** The process only ever exits when told to exit on idle, in deep sleep, after at least one
      connection was accepted and with every accepted connection closed or hijacked. */
  lemma ExitSafety(s: Machine)
    requires Reachable(s) && s.exited
    ensures s.g.exitOnIdle && s.g.sleeping && s.modes != [] && s.modes[|s.modes| - 1] == Sleep
    ensures s.conns != [] && forall c :: 0 <= c < |s.conns| ==> !Counted(s.conns[c])
  {
    ReachableInv(s);
    forall c | 0 <= c < |s.conns| ensures !Counted(s.conns[c]) {
      if Counted(s.conns[c]) { CountAt(s.conns, c); }
    }
  }

  // ------------------------------------------------------------------ session cap

  predicate Window(t: Timer) {
    t.Armed? || t.Fired? || t.Closing?
  }

  ghost predicate WakePending(s: Machine) {
    exists c :: 0 <= c < |s.conns| && s.conns[c] == NeedWake
  }

  /** The cap the gate aims at: awake with a connection means that a session window is armed or
      firing, a session end is about to re-arm one, or an accept hook is about to. */
  ghost predicate Capped(s: Machine) {
    s.booted && !s.g.sleeping && s.g.conns > 0 ==>
      || (exists t :: 0 <= t < |s.g.sessTimers| && Window(s.g.sessTimers[t]))
      || WakePending(s)
  }

  /** The two ways to lose it: a grace callback that finds a connection after all drops the last
      window, or a session end that finds no live connection, because the only counted one is
      not in the map yet, gives up its own. */
  ghost predicate LosesCap(s: Machine, step: Step) {
    && !s.g.sleeping && s.g.conns > 0 && !WakePending(s)
    && (|| (step.TrySleep? && forall t :: 0 <= t < |s.g.sessTimers| && Window(s.g.sessTimers[t]) ==>
              s.g.sess == Some(t) && s.g.sessTimers[t].Armed?)
        || (step.EndSession? && s.g.liveConns == {}
            && forall t :: 0 <= t < |s.g.sessTimers| && Window(s.g.sessTimers[t]) ==> t == step.t))
  }

  /** From a capped state, a step leads to an uncapped one exactly if it is one of those two. */
  lemma CapExact(s: Machine, step: Step)
    requires Inv(s) && Capped(s) && Enabled(s, step)
    ensures Capped(Apply(s, step)) <==> !LosesCap(s, step)
  {
    var t := Apply(s, step);
    if LosesCap(s, step) {
      CapLost(s, step);
    } else if t.booted && !t.g.sleeping && t.g.conns > 0 {
      CapKept(s, step);
    }
  }

  lemma CapLost(s: Machine, step: Step)
    requires Inv(s) && Enabled(s, step) && LosesCap(s, step)
    ensures !Capped(Apply(s, step))
  {
    var t := Apply(s, step);
    forall i | 0 <= i < |t.g.sessTimers| ensures !Window(t.g.sessTimers[i]) {
      assert i < |s.g.sessTimers|;
      if Window(s.g.sessTimers[i]) { }
    }
    assert forall c :: 0 <= c < |t.conns| ==> t.conns[c] == s.conns[c];
  }

  lemma CapKeptByTimer(s: Machine, step: Step)
    requires s.g.Allocated() && Capped(s) && !WakePending(s) && Enabled(s, step) && !LosesCap(s, step)
    requires step.TrySleep? || step.EndSession?
    requires var t := Apply(s, step); t.booted && !t.g.sleeping && t.g.conns > 0
    ensures Capped(Apply(s, step))
  {
    var t := Apply(s, step);
    if step.EndSession? && s.g.liveConns != {} {
      assert Window(t.g.sessTimers[step.t]);
    } else if step.EndSession? {
      var i :| 0 <= i < |s.g.sessTimers| && Window(s.g.sessTimers[i]) && i != step.t;
      assert Window(t.g.sessTimers[i]);
    } else {
      var i :| 0 <= i < |s.g.sessTimers| && Window(s.g.sessTimers[i])
               && !(s.g.sess == Some(i) && s.g.sessTimers[i].Armed?);
      assert Window(t.g.sessTimers[i]);
    }
  }

  lemma WindowStays(s: Machine, step: Step, i: nat)
    requires s.g.Allocated() && Enabled(s, step) && i < |s.g.sessTimers| && Window(s.g.sessTimers[i])
    requires !step.TrySleep? && !step.EndSession? && !step.Rearm? && !step.Boot?
    ensures i < |Apply(s, step).g.sessTimers| && Window(Apply(s, step).g.sessTimers[i])
  {
  }

  lemma CapKept(s: Machine, step: Step)
    requires Inv(s) && Capped(s) && Enabled(s, step) && !LosesCap(s, step)
    requires var t := Apply(s, step); t.booted && !t.g.sleeping && t.g.conns > 0
    ensures Capped(Apply(s, step))
  {
    var t := Apply(s, step);
    if step.Accept? && s.g.conns == 0 {
      assert t.conns[|s.conns|] == NeedWake;
    } else if step.WakeSection? || step.Rearm? {
      assert t.g.sess.Some? && Window(t.g.sessTimers[t.g.sess.value]);
    } else if c :| 0 <= c < |s.conns| && s.conns[c] == NeedWake {
      assert t.conns[c] == NeedWake;
    } else if step.TrySleep? || step.EndSession? {
      CapKeptByTimer(s, step);
    } else {
      var i :| 0 <= i < |s.g.sessTimers| && Window(s.g.sessTimers[i]);
      WindowStays(s, step, i);
    }
  }

  ghost predicate NeverLoses(s: Machine, steps: seq<Step>)
    requires s.g.Allocated() && CanRun(s, steps)
    decreases |steps|
  {
    steps != [] ==> !LosesCap(s, steps[0]) && NeverLoses(Apply(s, steps[0]), steps[1..])
  }

  /** Every state a run goes through is capped, with every armed window due within `maxSession`. */
  ghost predicate CappedThroughout(s: Machine, steps: seq<Step>)
    requires s.g.Allocated() && CanRun(s, steps)
    decreases |steps|
  {
    && Capped(s)
    && (forall i :: 0 <= i < |s.g.sessTimers| && s.g.sessTimers[i].Armed? ==>
          s.g.sessTimers[i].due <= s.now + s.g.maxSession)
    && (steps != [] ==> CappedThroughout(Apply(s, steps[0]), steps[1..]))
  }

  /** A run from a capped state keeps the cap throughout exactly if it takes neither of the two
      losing steps. */
  lemma {:induction false} CapOverRuns(s: Machine, steps: seq<Step>)
    requires Inv(s) && Capped(s) && CanRun(s, steps)
    ensures CappedThroughout(s, steps) <==> NeverLoses(s, steps)
    decreases |steps|
  {
    forall i | 0 <= i < |s.g.sessTimers| ensures SessTimerOK(s, s.g.sessTimers[i]) { }
    if steps != [] {
      CapExact(s, steps[0]);
      StepInv(s, steps[0]);
      if !LosesCap(s, steps[0]) {
        CapOverRuns(Apply(s, steps[0]), steps[1..]);
      }
    }
  }

  // ------------------------------------------------------------------ idle grace

  /** A grace callback that would run before the gate has been idle for the whole grace. */
  predicate TooEarly(t: Timer, since: nat, grace: nat) {
    t.Fired? || (t.Armed? && t.due < since + grace)
  }

  /** While the gate is awake without connections and the grace is not over, no grace callback is
      due before it is. */
  predicate Timely(s: Machine) {
    s.booted && !s.g.sleeping && s.g.conns == 0 && s.now < s.idleSince + s.g.grace ==>
      forall t :: 0 <= t < |s.g.graceTimers| ==> !TooEarly(s.g.graceTimers[t], s.idleSince, s.g.grace)
  }

  /** The last connection closes while a grace callback of an earlier close is still under way. */
  predicate BreaksGrace(s: Machine, step: Step) {
    && step.CloseConn? && s.g.conns == 1 && !s.g.sleeping && s.g.grace > 0
    && exists t :: 0 <= t < |s.g.graceTimers| && TooEarly(s.g.graceTimers[t], s.now, s.g.grace)
  }

  lemma CloseBreaks(s: Machine, c: nat)
    requires Inv(s) && Enabled(s, CloseConn(c))
    ensures Timely(Apply(s, CloseConn(c))) <==> !BreaksGrace(s, CloseConn(c))
  {
    CountAt(s.conns, c);
    assert s.booted;
    assert Apply(s, CloseConn(c)).g.graceTimers == s.g.graceTimers;
  }

  lemma TimelyKept(s: Machine, step: Step)
    requires Inv(s) && Timely(s) && Enabled(s, step) && !step.CloseConn?
    ensures Timely(Apply(s, step))
  {
    var t := Apply(s, step);
    WakerIsCounted(s);
    if t.booted && !t.g.sleeping && t.g.conns == 0 && t.now < t.idleSince + t.g.grace {
      assert s.booted && !s.g.sleeping && s.g.conns == 0 && s.now < s.idleSince + s.g.grace;
      forall i | 0 <= i < |t.g.graceTimers| ensures !TooEarly(t.g.graceTimers[i], t.idleSince, t.g.grace) {
        if i < |s.g.graceTimers| { assert !TooEarly(s.g.graceTimers[i], s.idleSince, s.g.grace); }
      }
    }
  }

  /** From a timely state, a step leads to an untimely one exactly if it is such a close. */
  lemma TimelyExact(s: Machine, step: Step)
    requires Inv(s) && Timely(s) && Enabled(s, step)
    ensures Timely(Apply(s, step)) <==> !BreaksGrace(s, step)
  {
    if step.CloseConn? { CloseBreaks(s, step.c); } else { TimelyKept(s, step); }
  }

  /** A grace callback parks the gate before it has been idle for the whole grace. */
  predicate ParksEarly(s: Machine, step: Step) {
    step.TrySleep? && Enabled(s, step) && Parks(s.g) && s.now < s.idleSince + s.g.grace
  }

  ghost predicate NeverBreaksGrace(s: Machine, steps: seq<Step>)
    requires s.g.Allocated() && CanRun(s, steps)
    decreases |steps|
  {
    steps != [] ==> !BreaksGrace(s, steps[0]) && NeverBreaksGrace(Apply(s, steps[0]), steps[1..])
  }

  /** Every state a run goes through is timely. */
  ghost predicate TimelyThroughout(s: Machine, steps: seq<Step>)
    requires s.g.Allocated() && CanRun(s, steps)
    decreases |steps|
  {
    Timely(s) && (steps != [] ==> TimelyThroughout(Apply(s, steps[0]), steps[1..]))
  }

  ghost predicate NeverParksEarly(s: Machine, steps: seq<Step>)
    requires s.g.Allocated() && CanRun(s, steps)
    decreases |steps|
  {
    steps != [] ==> !ParksEarly(s, steps[0]) && NeverParksEarly(Apply(s, steps[0]), steps[1..])
  }

  /** A run from a timely state is timely throughout exactly if no close breaks the grace, and
      then every park it contains has waited the whole grace. */
  lemma {:induction false} GraceOverRuns(s: Machine, steps: seq<Step>)
    requires Inv(s) && Timely(s) && CanRun(s, steps)
    ensures TimelyThroughout(s, steps) <==> NeverBreaksGrace(s, steps)
    ensures NeverBreaksGrace(s, steps) ==> NeverParksEarly(s, steps)
    decreases |steps|
  {
    if steps != [] {
      TimelyExact(s, steps[0]);
      StepInv(s, steps[0]);
      if !BreaksGrace(s, steps[0]) {
        TimelyIsOnTime(s, steps[0]);
        GraceOverRuns(Apply(s, steps[0]), steps[1..]);
      }
    }
  }

  lemma TimelyIsOnTime(s: Machine, step: Step)
    requires Inv(s) && Timely(s) && Enabled(s, step)
    ensures !ParksEarly(s, step)
  {
    if step.TrySleep? && Parks(s.g) { assert TooEarly(s.g.graceTimers[step.t], s.idleSince, s.g.grace); }
  }

  predicate NoClose(steps: seq<Step>) {
    forall k :: 0 <= k < |steps| ==> !steps[k].CloseConn?
  }

  /** Before another connection closes, the run takes the gate into an early park. */
  ghost predicate EarlyParkAhead(s: Machine, steps: seq<Step>, step: Step)
    requires s.g.Allocated()
  {
    CanRun(s, steps) && NoClose(steps) && ParksEarly(RunTo(s, steps), step)
  }

  lemma {:induction false} TimelyRun(s: Machine, steps: seq<Step>)
    requires Inv(s) && Timely(s) && CanRun(s, steps) && NoClose(steps)
    ensures Inv(RunTo(s, steps)) && Timely(RunTo(s, steps))
    decreases |steps|
  {
    if steps != [] {
      assert !steps[0].CloseConn?;
      TimelyKept(s, steps[0]);
      StepInv(s, steps[0]);
      TimelyRun(Apply(s, steps[0]), steps[1..]);
    }
  }

  lemma WaitThenFire(s: Machine, d: nat, i: nat)
    requires s.g.Allocated() && !s.exited && i < |s.g.graceTimers|
    requires s.g.graceTimers[i].Armed? && s.g.graceTimers[i].due <= s.now + d
    ensures var steps := [Advance(d), FireGrace(i)];
      CanRun(s, steps) && RunTo(s, steps) == s.(now := s.now + d, g := SetGrace(s.g, i, Fired))
  {
    var a, b := Advance(d), FireGrace(i);
    assert [a, b][1..] == [b] && [b][1..] == [];
    var t := Apply(s, a);
    assert CanRun(Apply(t, b), []) && RunTo(Apply(t, b), []) == Apply(t, b);
    assert CanRun(t, [b]) && RunTo(t, [b]) == Apply(t, b);
    assert CanRun(s, [a, b]) && RunTo(s, [a, b]) == RunTo(t, [b]);
  }

  lemma UntimelyParksEarly(s: Machine)
    requires Inv(s) && !Timely(s)
    ensures exists steps, step :: EarlyParkAhead(s, steps, step)
  {
    var i :| 0 <= i < |s.g.graceTimers| && TooEarly(s.g.graceTimers[i], s.idleSince, s.g.grace);
    AwakeAndFree(s);
    if s.g.graceTimers[i].Fired? {
      assert EarlyParkAhead(s, [], TrySleep(i));
    } else {
      var due := s.g.graceTimers[i].due;
      var d := if due > s.now then due - s.now else 0;
      WaitThenFire(s, d, i);
      assert EarlyParkAhead(s, [Advance(d), FireGrace(i)], TrySleep(i));
    }
  }

  lemma AwakeAndFree(s: Machine)
    requires Inv(s) && s.booted && !s.g.sleeping && s.g.conns == 0
    ensures s.lock == Free && !s.exited
  {
    if s.lock.InWakeFn? { CountAt(s.conns, s.lock.c); }
  }

  /** Before another connection closes, the gate can park early exactly from an untimely state. */
  lemma EarlyParkExactly(s: Machine)
    requires Inv(s)
    ensures s.g.Allocated()
    ensures (exists steps, step :: EarlyParkAhead(s, steps, step)) <==> !Timely(s)
  {
    if !Timely(s) {
      UntimelyParksEarly(s);
    } else if steps, step :| EarlyParkAhead(s, steps, step) {
      TimelyRun(s, steps);
      TimelyIsOnTime(RunTo(s, steps), step);
    }
  }

  // ------------------------------------------------------------------ runs that show the leaks

  // Every one of them takes a single accept loop: no accept hook starts before the last returned.

  lemma Then(s: Machine, step: Step) returns (t: Machine)
    requires SeriallyReachable(s) && s.g.Allocated() && Enabled(s, step)
    requires step.Accept? ==> NoneEntering(s)
    ensures t.g.Allocated() && t == Apply(s, step) && SeriallyReachable(t)
  {
    ReachableStep(s, step);
    t := Apply(s, step);
  }

  /** Awake, one connection served, and nothing that would ever close it: no timer is left. */
  predicate Uncapped(s: Machine) {
    && s.booted && !s.exited && s.lock == Free && !s.g.sleeping && s.g.conns == 1
    && (exists c :: 0 <= c < |s.conns| && s.conns[c] == Serving)
    && (forall c :: 0 <= c < |s.conns| ==> s.conns[c] == Serving || s.conns[c] == Gone)
    && (forall t :: 0 <= t < |s.g.sessTimers| ==> !Window(s.g.sessTimers[t]))
    && (forall t :: 0 <= t < |s.g.graceTimers| ==> !Pending(s.g.graceTimers[t]))
  }

  lemma FirstAccept(grace: nat, maxSession: nat) returns (s: Machine)
    ensures SeriallyReachable(s) && s.g.Allocated()
    ensures s == Machine(
      State(1, {}, None, None, true, false, grace, maxSession, [], []),
      0, true, false, Free, [NeedWake], Some(0), {}, [Sleep], 0, [0], 0)
  {
    s := Init(grace, maxSession);
    ReachableInit(grace, maxSession);
    s := Then(s, Boot);
    s := Then(s, Accept);
  }

  lemma FirstSession(grace: nat, maxSession: nat) returns (s: Machine)
    ensures SeriallyReachable(s) && s.g.Allocated()
    ensures s == Machine(
      State(1, {0}, Some(0), None, false, false, grace, maxSession, [], [Armed(maxSession)]),
      0, true, false, Free, [Serving], None, {}, [Sleep, Wake], 0, [0], 0)
  {
    s := FirstAccept(grace, maxSession);
    s := Then(s, WakeSection(0));
    s := Then(s, WakeFn(0));
    s := Then(s, MapConn(0));
  }

  lemma LateAccept(grace: nat, maxSession: nat) returns (s: Machine)
    ensures SeriallyReachable(s) && s.g.Allocated()
    ensures s == Machine(
      State(1, {0}, Some(0), None, false, false, grace, maxSession, [], [Armed(maxSession)]),
      0, true, false, Free, [NeedSchedule, NeedWake], Some(1), {}, [Sleep, Wake], 0, [0, 0], 0)
  {
    s := FirstSession(grace, maxSession);
    s := Then(s, CloseConn(0));
    s := Then(s, Accept);
  }

  lemma LateSchedule(grace: nat, maxSession: nat) returns (s: Machine)
    ensures SeriallyReachable(s) && s.g.Allocated()
    ensures s == Machine(
      State(1, {0, 1}, Some(0), Some(0), false, false, grace, maxSession, [Armed(grace)], [Armed(maxSession)]),
      0, true, false, Free, [NeedUnmap, Serving], None, {}, [Sleep, Wake], 0, [0, 0], 0)
  {
    s := LateAccept(grace, maxSession);
    s := Then(s, WakeSection(1));
    s := Then(s, MapConn(1));
    s := Then(s, Schedule(0));
  }

  lemma LateGraceFires(grace: nat, maxSession: nat) returns (s: Machine)
    ensures SeriallyReachable(s) && s.g.Allocated()
    ensures s == Machine(
      State(1, {1}, Some(0), Some(0), false, false, grace, maxSession, [Fired], [Armed(maxSession)]),
      grace, true, false, Free, [Gone, Serving], None, {}, [Sleep, Wake], 0, [0, 0], 0)
  {
    s := LateSchedule(grace, maxSession);
    s := Then(s, Unmap(0));
    s := Then(s, Advance(grace));
    s := Then(s, FireGrace(0));
  }

  /** The last connection closes, a new one is accepted before the close hook schedules sleep,
      and the grace callback scheduled late then drops the new connection's window. */
  lemma LateScheduleLeaks(grace: nat, maxSession: nat) returns (s: Machine)
    ensures SeriallyReachable(s) && Uncapped(s)
  {
    s := LateGraceFires(grace, maxSession);
    s := Then(s, TrySleep(0));
    assert s.conns[1] == Serving;
  }

  lemma AcceptedDuringClose(grace: nat, maxSession: nat) returns (s: Machine)
    ensures SeriallyReachable(s) && s.g.Allocated()
    ensures s == Machine(
      State(1, {}, Some(0), None, false, false, grace, maxSession, [], [Armed(maxSession)]),
      0, true, false, Free, [Gone, NeedMap], None, {}, [Sleep, Wake], 0, [0, 0], 0)
  {
    s := FirstSession(grace, maxSession);
    s := Then(s, Accept);
    s := Then(s, CloseConn(0));
    s := Then(s, Unmap(0));
  }

  lemma EmptySessionFires(grace: nat, maxSession: nat) returns (s: Machine)
    ensures SeriallyReachable(s) && s.g.Allocated()
    ensures s == Machine(
      State(1, {}, Some(0), None, false, false, grace, maxSession, [], [Fired]),
      maxSession, true, false, Free, [Gone, NeedMap], None, {}, [Sleep, Wake], 0, [0, 0], 0)
  {
    s := AcceptedDuringClose(grace, maxSession);
    s := Then(s, Advance(maxSession));
    s := Then(s, FireSession(0));
  }

  /** The session window ends while the only counted connection is not in the live map yet. */
  lemma EmptyTakeoverLeaks(grace: nat, maxSession: nat) returns (s: Machine)
    ensures SeriallyReachable(s) && Uncapped(s)
  {
    s := EmptySessionFires(grace, maxSession);
    s := Then(s, EndSession(0));
    s := Then(s, MapConn(1));
    assert s.conns[1] == Serving;
  }

  /** A late schedule also makes the gate park without any grace after the last close. */
  lemma ParkMayComeEarly(grace: nat, maxSession: nat) returns (s: Machine)
    ensures SeriallyReachable(s) && s.lock == InSleepFn && s.g.sleeping && s.now == s.idleSince
  {
    s := LateSchedule(grace, maxSession);
    s := Then(s, Advance(grace));
    s := Then(s, CloseConn(1));
    s := Then(s, FireGrace(0));
    s := Then(s, TrySleep(0));
  }
}
