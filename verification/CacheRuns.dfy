/** What one step of a caller, a fetch or a background loop comes to over whole runs: that requests
    are taken as asked and can be given up, that a producer's result reaches everybody, and that
    the loop asks for every stale key. */
module CacheRuns {
  import opened Base
  import opened Refresher
  import opened CacheMachine

  // ------------------------------------------------------------------ what stays over a run

  lemma FollowsOn(s: Machine, t: Machine, u: Machine)
    requires Follows(s, t) && Follows(t, u)
    ensures Follows(s, u)
  {
    assert s.log <= t.log <= u.log;
    forall id | 0 <= id < |s.fetches| ensures Grows(s.fetches[id], u.fetches[id]) {
      assert Grows(s.fetches[id], t.fetches[id]) && Grows(t.fetches[id], u.fetches[id]);
    }
  }

  /** Over any run the log and the fetches only grow, and lifetimes and producers stay. */
  lemma {:induction false} RunFollows(s: Machine, steps: seq<Step>)
    requires Inv(s) && CanRun(s, steps)
    ensures Inv(RunTo(s, steps)) && Follows(s, RunTo(s, steps))
    decreases |steps|
  {
    if steps != [] {
      var t := Apply(s, steps[0]);
      StepInv(s, steps[0]);
      StepFollows(s, steps[0]);
      RunFollows(t, steps[1..]);
      FollowsOn(s, t, RunTo(s, steps));
    }
  }

  /** A refresher keeps for ever the lifetimes and producers it was built with. */
  lemma SettingsStay(ttls: map<Key, nat>, producers: set<Key>, steps: seq<Step>)
    requires CanRun(Init(ttls, producers), steps)
    ensures var s := RunTo(Init(ttls, producers), steps); s.r.ttls == ttls && s.r.producers == producers
  {
    InitInv(ttls, producers);
    RunFollows(Init(ttls, producers), steps);
  }

  /** The shipped lifetimes: six seconds, and a minute for the SMART sweep. */
  lemma ShippedLifetimes(key: Key)
    ensures key in DEFAULT_TTLS <==> key == "zpool" || key == "arc" || key == "sysinfo" || key == "smart"
    ensures key in DEFAULT_TTLS ==> DEFAULT_TTLS[key] == if key == "smart" then 60_000_000_000 else 6_000_000_000
  {
  }

  /** Time passes, sessions end and the cache is flushed whenever the environment says so: a flush
      leaves no hit behind, a session end leaves none and refuses new fetches. */
  lemma EnvironmentIsFree(s: Machine, d: nat, key: Key)
    requires Reachable(s)
    ensures Shape(s) && Enabled(s, Advance(d)) && Enabled(s, Flush) && Enabled(s, SetSession(false))
    ensures Apply(s, Advance(d)) == s.(now := s.now + d)
    ensures var t := Apply(s, Flush); t.r == s.r.(entries := map[]) && !Lookup(t.r, t.now, key).Hit?
    ensures var t := Apply(s, SetSession(false));
      !t.r.active && t.r.entries == map[] && (s.r.stops != [] ==> !Lookup(t.r, t.now, key).Start?)
  {
    ReachableInv(s);
  }

  // ------------------------------------------------------------------ callers

  /** A caller keeps its key, its moment and whether it may give up; an answer is final. */
  predicate SameCaller(c: Caller, d: Caller) {
    && d.key == c.key && d.cancellable == c.cancellable && d.asked == c.asked
    && (c.progress.Replied? ==> d.progress == c.progress)
    && (c.progress.Waiting? && d.progress.Waiting? ==> d.progress == c.progress)
  }

  lemma CallersStay(s: Machine, step: Step, c: nat)
    requires Shape(s) && Enabled(s, step) && c < |s.callers|
    ensures var t := Apply(s, step); c < |t.callers| && SameCaller(s.callers[c], t.callers[c])
  {
  }

  lemma {:induction false} CallerStaysOver(s: Machine, steps: seq<Step>, c: nat)
    requires Inv(s) && CanRun(s, steps) && c < |s.callers|
    ensures var t := RunTo(s, steps); Inv(t) && c < |t.callers| && SameCaller(s.callers[c], t.callers[c])
    decreases |steps|
  {
    if steps != [] {
      CallersStay(s, steps[0], c);
      StepInv(s, steps[0]);
      CallerStaysOver(Apply(s, steps[0]), steps[1..], c);
    }
  }

  /** A request is taken as it was asked: at any time, one caller is added, for that key and that
      moment. */
  lemma HttpGetAsks(s: Machine, key: Key)
    requires Reachable(s)
    ensures Shape(s) && Enabled(s, HttpGet(key))
    ensures var t := Apply(s, HttpGet(key));
      && |t.callers| == |s.callers| + 1 && t.callers[..|s.callers|] == s.callers
      && var c := t.callers[|s.callers|];
         c.key == key && c.cancellable && c.asked == Moment(|s.log|, s.now)
  {
    ReachableInv(s);
  }

  /** Until it is answered, a caller that came in over HTTP can give up whenever it wants to, over
      every run. It then gets at once what the log says was last stored for its key, or else the
      timeout error. */
  lemma HttpCallerMayCancel(s: Machine, key: Key, steps: seq<Step>)
    requires Reachable(s) && Shape(s) && CanRun(Apply(s, HttpGet(key)), steps)
    ensures var t := RunTo(Apply(s, HttpGet(key)), steps);
      && |s.callers| < |t.callers|
      && (t.callers[|s.callers|].progress.Waiting? ==>
            && Enabled(t, Cancel(|s.callers|))
            && var done := Apply(t, Cancel(|s.callers|)).callers[|s.callers|].progress;
               done.Replied? && done.reply ==
                 match LastStored(t.log, key)
                 case Some(o) => o.entry.reply
                 case None => Reply("{\"error\":\"timed out waiting for background refresh\"}", 503))
  {
    ReachableInv(s);
    HttpGetAsks(s, key);
    StepInv(s, HttpGet(key));
    CallerStaysOver(Apply(s, HttpGet(key)), steps, |s.callers|);
    var t := RunTo(Apply(s, HttpGet(key)), steps);
    if t.callers[|s.callers|].progress.Waiting? { WaiterCancels(t, |s.callers|); }
  }

  lemma WaiterCancels(t: Machine, c: nat)
    requires Inv(t) && c < |t.callers| && t.callers[c].progress.Waiting? && t.callers[c].cancellable
    ensures Enabled(t, Cancel(c))
    ensures Apply(t, Cancel(c)).callers[c].progress ==
      Replied(HistoryFallback(t.log, t.callers[c].key), Cancelled, Now(t))
  {
    assert CallerOK(t, t.callers[c]);
    LookupIsHistory(t, t.callers[c].key);
  }

  /** A caller of the background loop never gives up. */
  lemma LoopCallerWaits(s: Machine, i: nat, key: Key, steps: seq<Step>)
    requires Reachable(s) && Shape(s) && Enabled(s, LoopGet(i, key)) && CanRun(Apply(s, LoopGet(i, key)), steps)
    ensures var t := RunTo(Apply(s, LoopGet(i, key)), steps);
      && |s.callers| < |t.callers| && t.callers[|s.callers|].key == key
      && !Enabled(t, Cancel(|s.callers|))
  {
    ReachableInv(s);
    StepInv(s, LoopGet(i, key));
    CallerStaysOver(Apply(s, LoopGet(i, key)), steps, |s.callers|);
  }

  // ------------------------------------------------------------------ fetches

  /** What a producer returns is the result of its fetch for ever, and every caller that waited for
      that fetch to the end was answered with it. */
  lemma ResultReachesWaiters(s: Machine, id: nat, reply: Reply, steps: seq<Step>, c: nat)
    requires Inv(s) && Enabled(s, ProducerReturns(id, reply)) && CanRun(Apply(s, ProducerReturns(id, reply)), steps)
    ensures var t := RunTo(Apply(s, ProducerReturns(id, reply)), steps);
      && id < |t.fetches| && t.fetches[id].result == Some(reply)
      && (c < |t.callers| && t.callers[c].progress.Replied? && t.callers[c].progress.basis == Shared
            && t.callers[c].asked.cut <= |t.log|
            && (Asked(t, t.callers[c]) == Join(id) || Asked(t, t.callers[c]) == Start(id)) ==>
          t.callers[c].progress.reply == reply)
  {
    StepInv(s, ProducerReturns(id, reply));
    var u := Apply(s, ProducerReturns(id, reply));
    RunFollows(u, steps);
    var t := RunTo(u, steps);
    assert Grows(u.fetches[id], t.fetches[id]);
    if c < |t.callers| { assert CallerOK(t, t.callers[c]); }
  }

  /** The start time of a fetch is the moment its producer was called. */
  lemma StartIsWhenCalled(s: Machine, id: nat, steps: seq<Step>)
    requires Inv(s) && Enabled(s, RunProducer(id)) && CanRun(Apply(s, RunProducer(id)), steps)
    ensures var t := RunTo(Apply(s, RunProducer(id)), steps);
      id < |t.fetches| && t.fetches[id].started == Some(s.now)
  {
    StepInv(s, RunProducer(id));
    var u := Apply(s, RunProducer(id));
    RunFollows(u, steps);
    assert Grows(u.fetches[id], RunTo(u, steps).fetches[id]);
  }

  /** A fetch closes its channel while it is open, over a whole run at most once; another close
      would panic. */
  lemma DoneClosesOnce(s: Machine, id: nat, steps: seq<Step>)
    requires Inv(s) && Enabled(s, CloseDone(id)) && CanRun(Apply(s, CloseDone(id)), steps)
    ensures s.r.calls[id].done == Open
    ensures var t := RunTo(Apply(s, CloseDone(id)), steps);
      && CloseDone(id) !in steps && id < |t.r.calls|
      && t.r.calls[id].done == Closed && CloseCall(t.r, id).calls[id].done == Panicked
  {
    Unfold(s, id);
    StepInv(s, CloseDone(id));
    StaysComplete(Apply(s, CloseDone(id)), id, steps);
  }

  lemma {:induction false} StaysComplete(s: Machine, id: nat, steps: seq<Step>)
    requires Inv(s) && At(s, id, Complete) && CanRun(s, steps)
    ensures var t := RunTo(s, steps);
      CloseDone(id) !in steps && id < |t.r.calls| && t.r.calls[id].done == Closed
    decreases |steps|
  {
    if steps == [] {
      Unfold(s, id);
    } else {
      StepInv(s, steps[0]);
      FetchesOnlyGrow(s, steps[0], id);
      StaysComplete(Apply(s, steps[0]), id, steps[1..]);
    }
  }

  // ------------------------------------------------------------------ the background loop

  /** A session that opens spawns its loop, ready for its first round. */
  lemma SessionStartsLoop(s: Machine)
    requires Reachable(s) && !s.r.active
    ensures Shape(s)
    ensures var t := Apply(s, SetSession(true));
      && |t.loops| == |s.loops| + 1 && t.r.stops[|s.loops|] == Open && Enabled(t, LoopScan(|s.loops|))
  {
    ReachableInv(s);
  }

  /** Opening a session that is already open changes nothing but the log. */
  lemma OpenTwiceIsOnce(s: Machine)
    requires Reachable(s) && s.r.active
    ensures Shape(s) && Apply(s, SetSession(true)) == s.(log := s.log + [Woke])
  {
    ReachableInv(s);
  }

  /** A tick leads an open session's loop to its next round and ends the loop of a closed one; a
      closed one can also end without a tick. */
  lemma TickLeadsToScan(s: Machine, i: nat)
    requires Reachable(s) && Shape(s) && i < |s.loops| && s.loops[i].phase.Selecting?
    ensures Enabled(s, LoopTick(i))
    ensures s.r.stops[i].Open? ==> Enabled(Apply(s, LoopTick(i)), LoopScan(i)) && !Enabled(s, LoopStop(i))
    ensures !s.r.stops[i].Open? ==>
      && Apply(s, LoopTick(i)).loops[i].phase == Exited
      && Enabled(s, LoopStop(i)) && Apply(s, LoopStop(i)).loops[i].phase == Exited
  {
  }

  /** The round that is due stays due until it begins. */
  lemma {:induction false} ScanStaysDue(s: Machine, i: nat, steps: seq<Step>)
    requires Inv(s) && Enabled(s, LoopScan(i)) && CanRun(s, steps) && LoopScan(i) !in steps
    ensures Enabled(RunTo(s, steps), LoopScan(i))
    decreases |steps|
  {
    if steps != [] {
      StepInv(s, steps[0]);
      OtherStepsWait(s, steps[0], i);
      ScanStaysDue(Apply(s, steps[0]), i, steps[1..]);
    }
  }

  lemma OtherStepsWait(s: Machine, step: Step, i: nat)
    requires Shape(s) && Enabled(s, LoopScan(i)) && Enabled(s, step) && step != LoopScan(i)
    ensures Enabled(Apply(s, step), LoopScan(i))
  {
  }

  /** A round sets out to ask for exactly the registered keys that would not be a cache hit now,
      as the log says. */
  lemma RoundIsTheStaleKeys(s: Machine, i: nat, key: Key)
    requires Reachable(s) && Shape(s) && Enabled(s, LoopScan(i))
    ensures var phase := Apply(s, LoopScan(i)).loops[i].phase;
      && phase.Round? && phase.asked == {}
      && (key in phase.todo <==>
            key in s.r.ttls && !HistoryLookup(s.r.ttls[key], key in s.r.producers, s.log, s.now, key).Hit?)
  {
    ReachableInv(s);
    if key in s.r.ttls {
      StaleIsNotHit(s.r, s.now, key);
      LookupIsHistory(s, key);
    }
  }

  /** A caller of this round, which began when there were `first` callers. */
  predicate AskedSince(s: Machine, asked: set<nat>, first: nat, c: nat) {
    c in asked && first <= c < |s.callers| && !s.callers[c].cancellable
  }

  /** Loop `i` is inside the round that set out for `stale`: each of these keys is still to be
      asked for or has a caller of this round, and nothing else is asked for. */
  ghost predicate InRound(s: Machine, i: nat, stale: set<Key>, first: nat) {
    && i < |s.loops| && s.loops[i].phase.Round?
    && var todo, asked := s.loops[i].phase.todo, s.loops[i].phase.asked;
       && todo <= stale
       && (forall key :: key in stale && key !in todo ==>
             exists c: nat :: AskedSince(s, asked, first, c) && s.callers[c].key == key)
       && (forall c :: c in asked ==> AskedSince(s, asked, first, c) && s.callers[c].key in stale)
  }

  lemma RoundGoesOn(s: Machine, step: Step, i: nat, stale: set<Key>, first: nat)
    requires Inv(s) && InRound(s, i, stale, first) && Enabled(s, step) && first <= |s.callers|
    requires step != LoopRoundDone(i) && !(step.LoopGet? && step.i == i)
    ensures InRound(Apply(s, step), i, stale, first) && first <= |Apply(s, step).callers|
  {
    var t := Apply(s, step);
    assert t.loops[i] == s.loops[i];
    var asked := s.loops[i].phase.asked;
    forall c | c in asked ensures AskedSince(t, asked, first, c) && t.callers[c].key == s.callers[c].key {
      assert AskedSince(s, asked, first, c);
      CallersStay(s, step, c);
    }
    assert |s.callers| <= |t.callers|;
    forall key | key in stale && key !in s.loops[i].phase.todo
      ensures exists c: nat :: AskedSince(t, asked, first, c) && t.callers[c].key == key
    {
      var c: nat :| AskedSince(s, asked, first, c) && s.callers[c].key == key;
      assert AskedSince(t, asked, first, c) && t.callers[c].key == key;
    }
  }

  lemma RoundAsks(s: Machine, i: nat, key: Key, stale: set<Key>, first: nat)
    requires Inv(s) && InRound(s, i, stale, first) && Enabled(s, LoopGet(i, key)) && first <= |s.callers|
    ensures var t := Apply(s, LoopGet(i, key)); InRound(t, i, stale, first) && first <= |t.callers|
  {
    var t := Apply(s, LoopGet(i, key));
    var n := |s.callers|;
    var asked := s.loops[i].phase.asked;
    assert t.callers[..n] == s.callers && t.callers[n].key == key && !t.callers[n].cancellable;
    assert t.loops[i].phase == Round(s.loops[i].phase.todo - {key}, asked + {n});
    forall c | c in asked ensures AskedSince(t, asked + {n}, first, c) && t.callers[c] == s.callers[c] {
      assert AskedSince(s, asked, first, c);
      assert t.callers[..n][c] == s.callers[c];
    }
    forall k | k in stale && k !in t.loops[i].phase.todo
      ensures exists c: nat :: AskedSince(t, asked + {n}, first, c) && t.callers[c].key == k
    {
      if k == key {
        assert AskedSince(t, asked + {n}, first, n);
      } else {
        var c: nat :| AskedSince(s, asked, first, c) && s.callers[c].key == k;
        assert AskedSince(t, asked + {n}, first, c);
      }
    }
  }

  lemma {:induction false} RoundOver(s: Machine, steps: seq<Step>, i: nat, stale: set<Key>, first: nat)
    requires Inv(s) && InRound(s, i, stale, first) && first <= |s.callers|
    requires CanRun(s, steps) && LoopRoundDone(i) !in steps
    ensures var t := RunTo(s, steps); Inv(t) && InRound(t, i, stale, first)
    decreases |steps|
  {
    if steps != [] {
      StepInv(s, steps[0]);
      if steps[0].LoopGet? && steps[0].i == i {
        RoundAsks(s, i, steps[0].key, stale, first);
      } else {
        RoundGoesOn(s, steps[0], i, stale, first);
      }
      RoundOver(Apply(s, steps[0]), steps[1..], i, stale, first);
    }
  }

  /** A caller since `first` asked for `key` and has its answer. */
  ghost predicate AnsweredSince(s: Machine, first: nat, key: Key) {
    exists c :: first <= c < |s.callers| && s.callers[c].key == key && s.callers[c].progress.Replied?
  }

  /** Where a round stands: it asks for stale keys only, every key still to be asked for can be
      asked for, and it is done only when every stale key has been asked for and answered. */
  ghost predicate RoundStands(s: Machine, i: nat, stale: set<Key>, first: nat)
    requires Shape(s)
  {
    && InRound(s, i, stale, first)
    && (forall key :: key in s.loops[i].phase.todo ==> Enabled(s, LoopGet(i, key)))
    && (Enabled(s, LoopRoundDone(i)) ==>
          && (forall key :: key in stale ==> AnsweredSince(s, first, key))
          && Apply(s, LoopRoundDone(i)).loops[i].phase == Selecting)
  }

  lemma RoundIsAnswered(s: Machine, i: nat, stale: set<Key>, first: nat)
    requires Shape(s) && InRound(s, i, stale, first)
    ensures RoundStands(s, i, stale, first)
  {
    if Enabled(s, LoopRoundDone(i)) {
      forall key | key in stale ensures AnsweredSince(s, first, key) {
        var c: nat :| AskedSince(s, s.loops[i].phase.asked, first, c) && s.callers[c].key == key;
      }
    }
  }

  lemma RoundBegins(s: Machine, i: nat)
    requires Inv(s) && Enabled(s, LoopScan(i))
    ensures InRound(Apply(s, LoopScan(i)), i, StaleKeys(s.r, s.now), |s.callers|)
  {
  }

  /** A round asks for every key that was stale when it began, and for no other: over any run, as
      long as it is not done, each key still to be asked for can be asked for; and before it can be
      done, each has been looked up by a caller of this round, and answered. */
  lemma RoundAsksForAll(s: Machine, steps: seq<Step>, i: nat)
    requires Reachable(s) && Shape(s) && Enabled(s, LoopScan(i))
    requires CanRun(Apply(s, LoopScan(i)), steps) && LoopRoundDone(i) !in steps
    ensures RoundStands(RunTo(Apply(s, LoopScan(i)), steps), i, StaleKeys(s.r, s.now), |s.callers|)
  {
    ReachableInv(s);
    var stale := StaleKeys(s.r, s.now);
    StepInv(s, LoopScan(i));
    RoundBegins(s, i);
    RoundOver(Apply(s, LoopScan(i)), steps, i, stale, |s.callers|);
    RoundIsAnswered(RunTo(Apply(s, LoopScan(i)), steps), i, stale, |s.callers|);
  }
}
