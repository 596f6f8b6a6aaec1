/** The idle gate of idle.go, one member per critical section of `g.mu` (and per atomic update
    of the connection counter).

    `State` is the value of the gate's fields together with the timers it ever created; the
    functions say what each section does; the class `Gate` carries the same fields as mutable
    state and each method is proved against its function. The interleavings of accept and close
    hooks, timer callbacks and forced closes are the subject of GateMachine. */
module IdleGate {
  import opened Base

  const SECOND: nat := 1_000_000_000
  const MAX_SESSION: nat := 4 * 60 * SECOND

  /** A one-shot timer. Stopping it prevents the callback only while it has not fired; a fired
      callback runs some time later. `Closing` is a session-cap callback between its two
      critical sections, with the connections it has yet to force-close. */
  datatype Timer = Armed(due: nat) | Fired | Closing(pending: set<nat>) | Spent | Stopped

  datatype State = State(
    conns: int, liveConns: set<nat>, sess: Option<nat>, timer: Option<nat>,
    sleeping: bool, exitOnIdle: bool, grace: nat, maxSession: nat,
    graceTimers: seq<Timer>, sessTimers: seq<Timer>)
  {
    predicate Allocated() {
      && (timer.Some? ==> timer.value < |graceTimers|)
      && (sess.Some? ==> sess.value < |sessTimers|)
    }
  }

  function NewGate(grace: nat, maxSession: nat): State {
    State(0, {}, None, None, false, false, grace, maxSession, [], [])
  }

  function Stop(timers: seq<Timer>, ref: Option<nat>): (r: seq<Timer>)
    requires ref.Some? ==> ref.value < |timers|
    ensures |r| == |timers|
    ensures forall t :: 0 <= t < |r| ==>
      r[t] == if ref == Some(t) && timers[t].Armed? then Stopped else timers[t]
  {
    if ref.Some? && timers[ref.value].Armed? then timers[ref.value := Stopped] else timers
  }

  /** Opens a session window unless one is referenced or the gate sleeps. */
  function ArmSession(g: State, now: nat): State {
    if g.sess.None? && !g.sleeping
    then g.(sess := Some(|g.sessTimers|), sessTimers := g.sessTimers + [Armed(now + g.maxSession)])
    else g
  }

  /** The section of `wake` up to the wake callback, which follows exactly if the gate slept. */
  function Woken(g: State, now: nat): State
    requires g.Allocated()
  {
    ArmSession(g.(graceTimers := Stop(g.graceTimers, g.timer), timer := None, sleeping := false), now)
  }

  function Scheduled(g: State, now: nat): State {
    if g.sleeping || g.timer.Some? then g
    else g.(timer := Some(|g.graceTimers|), graceTimers := g.graceTimers + [Armed(now + g.grace)])
  }

  predicate Parks(g: State) {
    !g.sleeping && g.conns == 0
  }

  /** The grace callback up to the sleep callback, which follows exactly if the gate parks. */
  function TriedSleep(g: State): State
    requires g.Allocated()
  {
    g.(timer := None, sess := None, sessTimers := Stop(g.sessTimers, g.sess), sleeping := g.sleeping || g.conns == 0)
  }

  predicate Exits(g: State) {
    g.exitOnIdle && g.conns == 0
  }

  /** Deep sleep at boot, cancelling whatever is pending. */
  function Parked(g: State): State
    requires g.Allocated()
  {
    g.(graceTimers := Stop(g.graceTimers, g.timer), timer := None,
       sessTimers := Stop(g.sessTimers, g.sess), sess := None, sleeping := true)
  }

  /** First section of the session-cap callback: it takes over every live connection. */
  function TookOver(g: State): State {
    g.(sess := None, liveConns := {})
  }

  class Gate {
    var conns: int
    var liveConns: set<nat>
    var sess: Option<nat>
    var timer: Option<nat>
    var sleeping: bool
    var exitOnIdle: bool
    const grace: nat
    const maxSession: nat
    var graceTimers: seq<Timer>
    var sessTimers: seq<Timer>

    ghost function View(): State
      reads this
    {
      State(conns, liveConns, sess, timer, sleeping, exitOnIdle, grace, maxSession, graceTimers, sessTimers)
    }

    ghost predicate Valid()
      reads this
    {
      View().Allocated()
    }

    constructor (grace: nat, maxSession: nat)
      ensures Valid() && View() == NewGate(grace, maxSession)
    {
      this.grace, this.maxSession := grace, maxSession;
      conns, liveConns := 0, {};
      sess, timer := None, None;
      sleeping, exitOnIdle := false, false;
      graceTimers, sessTimers := [], [];
    }

    method CountNew() returns (first: bool)
      requires Valid()
      modifies this`conns
      ensures Valid() && View() == old(View()).(conns := old(conns) + 1)
      ensures first <==> conns == 1
    {
      conns := conns + 1;
      first := conns == 1;
    }

    method CountGone() returns (last: bool)
      requires Valid()
      modifies this`conns
      ensures Valid() && View() == old(View()).(conns := old(conns) - 1)
      ensures last <==> conns == 0
    {
      conns := conns - 1;
      last := conns == 0;
    }

    method AddLive(c: nat)
      requires Valid()
      modifies this`liveConns
      ensures Valid() && View() == old(View()).(liveConns := old(liveConns) + {c})
    {
      liveConns := liveConns + {c};
    }

    method RemoveLive(c: nat)
      requires Valid()
      modifies this`liveConns
      ensures Valid() && View() == old(View()).(liveConns := old(liveConns) - {c})
    {
      liveConns := liveConns - {c};
    }

    method StopGrace()
      requires Valid()
      modifies this`timer, this`graceTimers
      ensures Valid()
      ensures View() == old(View()).(timer := None, graceTimers := Stop(old(graceTimers), old(timer)))
    {
      if timer.Some? {
        if graceTimers[timer.value].Armed? {
          graceTimers := graceTimers[timer.value := Stopped];
        }
        timer := None;
      }
    }

    method StopSession()
      requires Valid()
      modifies this`sess, this`sessTimers
      ensures Valid()
      ensures View() == old(View()).(sess := None, sessTimers := Stop(old(sessTimers), old(sess)))
    {
      if sess.Some? {
        if sessTimers[sess.value].Armed? {
          sessTimers := sessTimers[sess.value := Stopped];
        }
        sess := None;
      }
    }

    method ArmSessionLocked(now: nat)
      requires Valid()
      modifies this`sess, this`sessTimers
      ensures Valid() && View() == ArmSession(old(View()), now)
      ensures if old(sess).None? && !sleeping
              then sessTimers == old(sessTimers) + [Armed(now + maxSession)] && sess == Some(|old(sessTimers)|)
              else sessTimers == old(sessTimers) && sess == old(sess)
    {
      if sess.None? && !sleeping {
        sess := Some(|sessTimers|);
        sessTimers := sessTimers + [Armed(now + maxSession)];
      }
    }

    /** `calls` says whether the wake callback is to be run before the mutex is released. */
    method Wake(now: nat) returns (calls: bool)
      requires Valid()
      modifies this
      ensures Valid() && View() == Woken(old(View()), now)
      ensures calls == old(sleeping)
      ensures !sleeping && timer.None? && sess.Some?
    {
      StopGrace();
      if !sleeping {
        ArmSessionLocked(now);
        return false;
      }
      sleeping := false;
      ArmSessionLocked(now);
      return true;
    }

    method ScheduleSleep(now: nat)
      requires Valid()
      modifies this`timer, this`graceTimers
      ensures Valid() && View() == Scheduled(old(View()), now)
      ensures if old(timer).None? && !sleeping
              then graceTimers == old(graceTimers) + [Armed(now + grace)] && timer == Some(|old(graceTimers)|)
              else graceTimers == old(graceTimers) && timer == old(timer)
    {
      if sleeping || timer.Some? {
        return;
      }
      timer := Some(|graceTimers|);
      graceTimers := graceTimers + [Armed(now + grace)];
    }

    /** `calls` says whether the sleep callback is to be run before the mutex is released. */
    method TrySleep() returns (calls: bool)
      requires Valid()
      modifies this
      ensures Valid() && View() == TriedSleep(old(View()))
      ensures calls == Parks(old(View()))
      ensures timer.None? && sess.None? && (calls ==> sleeping && conns == 0)
    {
      timer := None;
      StopSession();
      if sleeping || conns != 0 {
        return false;
      }
      sleeping := true;
      return true;
    }

    method EnterSleep() returns (calls: bool)
      requires Valid()
      modifies this
      ensures Valid() && View() == Parked(old(View()))
      ensures calls == !old(sleeping)
      ensures sleeping && timer.None? && sess.None?
      ensures graceTimers == Stop(old(graceTimers), old(timer)) && sessTimers == Stop(old(sessTimers), old(sess))
    {
      StopGrace();
      StopSession();
      if sleeping {
        return false;
      }
      sleeping := true;
      return true;
    }

    method RequestExitOnIdle()
      requires Valid()
      modifies this`exitOnIdle
      ensures Valid() && View() == old(View()).(exitOnIdle := true)
    {
      exitOnIdle := true;
    }

    /** The last look of the grace callback at the counter, after the sleep callback returned. */
    method MayExit() returns (exits: bool)
      requires Valid()
      ensures exits == Exits(View())
      ensures exits <==> exitOnIdle && conns == 0
    {
      exits := exitOnIdle && conns == 0;
    }

    /** First section of the session-cap callback; `taken` are the connections to force-close. */
    method EndSession() returns (taken: seq<nat>)
      requires Valid()
      modifies this`sess, this`liveConns
      ensures Valid() && View() == TookOver(old(View()))
      ensures forall c :: c in taken <==> c in old(liveConns)
      ensures |taken| == |old(liveConns)|
    {
      sess := None;
      taken := [];
      var rest := liveConns;
      while rest != {}
        invariant rest <= liveConns == old(liveConns)
        invariant forall c :: c in taken <==> c in liveConns && c !in rest
        invariant |taken| + |rest| == |liveConns|
        decreases rest
      {
        var c :| c in rest;
        taken := taken + [c];
        rest := rest - {c};
      }
      liveConns := {};
    }
  }
}
