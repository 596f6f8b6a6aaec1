/** What the cache promises in every reachable state and over whole runs. */
module CacheTheorems {
  import opened Base
  import opened Refresher
  import opened CacheMachine

  // ------------------------------------------------------------------ one fetch per key

  lemma RemovesItsOwn(s: Machine, id: nat)
    requires FetchInv(s) && Enabled(s, RemoveCall(id))
    ensures var t := Apply(s, RemoveCall(id));
      && s.r.inflight == t.r.inflight[s.fetches[id].key := id]
      && s.fetches[id].key !in t.r.inflight
  {
    Unfold(s, id);
  }

  /** At most one fetch per key is between registration and removal; it is the registered one,
      and a removal only ever removes its own call, although session ends clear nothing here. */
  lemma Singleflight(s: Machine)
    requires Reachable(s)
    ensures forall i, j :: 0 <= i < j < |s.fetches| && s.fetches[i].key == s.fetches[j].key ==>
      !(Live(s.fetches[i]) && Live(s.fetches[j]))
    ensures forall id :: 0 <= id < |s.fetches| ==>
      (Live(s.fetches[id]) <==> s.fetches[id].key in s.r.inflight && s.r.inflight[s.fetches[id].key] == id)
    ensures forall id :: 0 <= id < |s.fetches| && Enabled(s, RemoveCall(id)) ==>
      var t := Apply(s, RemoveCall(id));
      && s.r.inflight == t.r.inflight[s.fetches[id].key := id]
      && s.fetches[id].key !in t.r.inflight
  {
    ReachableInv(s);
    forall i, j | 0 <= i < j < |s.fetches| && s.fetches[i].key == s.fetches[j].key
      ensures !(Live(s.fetches[i]) && Live(s.fetches[j]))
    {
      assert PairOK(s, i, j);
    }
    forall id | 0 <= id < |s.fetches|
      ensures Live(s.fetches[id]) <==>
              s.fetches[id].key in s.r.inflight && s.r.inflight[s.fetches[id].key] == id
    {
      Unfold(s, id);
    }
    forall id | 0 <= id < |s.fetches| && Enabled(s, RemoveCall(id))
      ensures var t := Apply(s, RemoveCall(id));
        && s.r.inflight == t.r.inflight[s.fetches[id].key := id]
        && s.fetches[id].key !in t.r.inflight
    {
      RemovesItsOwn(s, id);
    }
  }

  // ------------------------------------------------------------------ the cache as history

  /** The entry map is exactly the reference map of the event log, and each entry is the stored
      result of the newest run of its key: an older run never overwrites a newer one. */
  lemma EntriesAreHistory(s: Machine, key: Key)
    requires Reachable(s)
    ensures key in s.r.entries <==> LastStored(s.log, key).Some?
    ensures key in s.r.entries ==>
      var o := LastStored(s.log, key).value;
      && s.r.entries[key] == o.entry
      && o.call < |s.fetches| && StoredRun(s.fetches[o.call], key, o.entry.reply)
      && s.fetches[o.call].gen == s.r.gen
      && forall j :: o.call < j < |s.fetches| && s.fetches[j].key == key ==> s.fetches[j].stored.None?
  {
    ReachableInv(s);
    assert EntryOK(s, key);
  }

  /** The cache refines its history: whatever callers, fetches, loops and sessions did, a lookup
      answers as the log says, and a cancelled waiter gets the last stored result or the timeout. */
  lemma CacheRefinesHistory(s: Machine, key: Key)
    requires Reachable(s)
    ensures Shape(s)
    ensures Lookup(s.r, s.now, key) == HistoryLookup(s.r.Ttl(key), key in s.r.producers, s.log, s.now, key)
    ensures Fallback(s.r, key) == HistoryFallback(s.log, key)
  {
    ReachableInv(s);
    LookupIsHistory(s, key);
  }

  // ------------------------------------------------------------------ sessions

  predicate Ended(s: Machine) {
    !s.r.active && s.r.stops != []
  }

  /** While no session is open (and one has been), nothing is cached, every fetch still running
      belongs to an older generation, and no lookup hits or starts a fetch. */
  lemma EndedIsEmpty(s: Machine, key: Key)
    requires Reachable(s) && Ended(s)
    ensures s.r.entries == map[]
    ensures forall id :: 0 <= id < |s.fetches| ==> s.fetches[id].gen < s.r.gen
    ensures !Lookup(s.r, s.now, key).Hit? && !Lookup(s.r, s.now, key).Start?
    ensures Lookup(s.r, s.now, key).SessionOver? <==> key !in s.r.inflight && key in s.r.producers
  {
    ReachableInv(s);
    forall id | 0 <= id < |s.fetches| ensures s.fetches[id].gen < s.r.gen {
      Unfold(s, id);
    }
  }

  predicate Activates(step: Step) {
    step == SetSession(true)
  }

  lemma EndedStep(s: Machine, step: Step)
    requires Inv(s) && Ended(s) && Enabled(s, step) && !Activates(step)
    ensures var t := Apply(s, step);
      Ended(t) && |t.fetches| == |s.fetches| && t.r.gen >= s.r.gen
  {
  }

  /** Over any run without an activation, an ended cache stays ended and empty and registers no
      fetch: producers that still start were registered before the end. */
  lemma {:induction false} EndedStaysIdle(s: Machine, steps: seq<Step>)
    requires Inv(s) && Ended(s) && CanRun(s, steps)
    requires forall k :: 0 <= k < |steps| ==> !Activates(steps[k])
    ensures var t := RunTo(s, steps);
      Ended(t) && t.r.entries == map[] && |t.fetches| == |s.fetches| && t.r.gen >= s.r.gen
    decreases |steps|
  {
    if steps != [] {
      var t := Apply(s, steps[0]);
      assert !Activates(steps[0]);
      StepInv(s, steps[0]);
      EndedStep(s, steps[0]);
      forall k | 0 <= k < |steps[1..]| ensures !Activates(steps[1..][k]) {
        assert steps[1..][k] == steps[k + 1];
      }
      EndedStaysIdle(t, steps[1..]);
    }
  }

  predicate NoActivation(steps: seq<Step>) {
    forall k :: 0 <= k < |steps| ==> !Activates(steps[k])
  }

  lemma NeverSpawnedAgain(s: Machine, step: Step, id: nat)
    requires Inv(s) && Ended(s) && Enabled(s, step) && !Activates(step)
    ensures At(Apply(s, step), id, Spawned) ==> At(s, id, Spawned)
  {
    EndedStep(s, step);
  }

  lemma {:induction false} CalledWasSpawned(s: Machine, steps: seq<Step>, id: nat)
    requires Inv(s) && Ended(s) && CanRun(s, steps) && NoActivation(steps) && RunProducer(id) in steps
    ensures At(s, id, Spawned)
    decreases |steps|
  {
    if steps[0] != RunProducer(id) {
      assert !Activates(steps[0]);
      StepInv(s, steps[0]);
      EndedStep(s, steps[0]);
      CalledWasSpawned(Apply(s, steps[0]), steps[1..], id);
      NeverSpawnedAgain(s, steps[0], id);
    }
  }

  /** A run that calls the producer of fetch `id` before another session opens. */
  ghost predicate CallsLate(s: Machine, steps: seq<Step>, id: nat)
    requires Shape(s)
  {
    CanRun(s, steps) && NoActivation(steps) && RunProducer(id) in steps
  }

  /** After a session end a producer can still be called, before another session opens, exactly
      for the fetches that were registered and not yet running: the session check guards the
      registration of a fetch, not the call of its producer. */
  lemma LateProducersExactly(s: Machine, id: nat)
    requires Inv(s) && Ended(s)
    ensures (exists steps :: CallsLate(s, steps, id)) <==> At(s, id, Spawned)
  {
    if At(s, id, Spawned) {
      var step := RunProducer(id);
      assert [step][1..] == [] && step in [step];
      assert CanRun(Apply(s, step), []);
      assert CallsLate(s, [step], id);
    } else if steps :| CallsLate(s, steps, id) {
      CalledWasSpawned(s, steps, id);
    }
  }

  /** From the second session on, every entry comes from a fetch registered in that very session. */
  lemma SessionIsolation(s: Machine, key: Key)
    requires Reachable(s) && |s.r.stops| >= 2 && key in s.r.entries
    ensures s.r.active && OriginCall(s.log, key) < |s.fetches|
    ensures var f := s.fetches[OriginCall(s.log, key)];
      f.session == |s.r.stops| && f.gen == s.r.gen && StoredRun(f, key, s.r.entries[key].reply)
  {
    ReachableInv(s);
    EntryOrigin(s, key);
    assert EntryOK(s, key);
    Unfold(s, OriginCall(s.log, key));
  }

  /** Every session opened after an earlier one ended starts with an empty cache. */
  lemma SessionStartsEmpty(s: Machine)
    requires Reachable(s) && Ended(s)
    ensures var t := Apply(s, SetSession(true));
      t.r.active && t.r.entries == map[] && t.r.gen == s.r.gen
      && forall id :: 0 <= id < |t.fetches| ==> t.fetches[id].gen < t.r.gen
  {
    EndedIsEmpty(s, "");
  }

  // ------------------------------------------------------------------ fetch rate

  /** Two runs of a key registered under one generation with no flush between them start at
      least the key's lifetime apart, whoever asked for them. */
  lemma RunsApart(s: Machine, i: nat, j: nat)
    requires Inv(s) && i < j < |s.fetches|
    requires s.fetches[i].key == s.fetches[j].key && s.fetches[i].gen == s.fetches[j].gen
    requires s.fetches[i].flushes == s.fetches[j].flushes && s.fetches[j].started.Some?
    ensures s.fetches[i].started.Some?
    ensures s.fetches[i].started.value + s.r.Ttl(s.fetches[i].key) <= s.fetches[j].started.value
  {
    assert PairOK(s, i, j);
    Unfold(s, i);
    Unfold(s, j);
  }

  /** The runs of `key` under one generation and flush count that started within a window. */
  function StartsWithin(s: Machine, key: Key, gen: nat, flushes: nat, from: nat, length: nat): set<nat> {
    set id: nat | id < |s.fetches| && s.fetches[id].key == key && s.fetches[id].gen == gen
      && s.fetches[id].flushes == flushes && s.fetches[id].started.Some?
      && from <= s.fetches[id].started.value <= from + length
  }

  lemma {:induction false} Largest(ids: set<nat>) returns (m: nat)
    requires ids != {}
    ensures m in ids && forall x :: x in ids ==> x <= m
  {
    var x :| x in ids;
    if ids == {x} {
      m := x;
    } else {
      m := Largest(ids - {x});
      assert forall y :: y in ids ==> y == x || y in ids - {x};
      if m < x { m := x; }
    }
  }

  lemma Without(ids: set<nat>, m: nat)
    requires m in ids
    ensures |ids - {m}| == |ids| - 1
  {
    assert ids == (ids - {m}) + {m};
  }

  lemma NoTimes(d: nat)
    ensures 0 * d == 0
  {
  }

  lemma OneMoreTimes(n: int, d: nat)
    ensures n * d == (n - 1) * d + d
  {
  }

  lemma {:induction false} SpreadOut(s: Machine, key: Key, gen: nat, flushes: nat, from: nat, ids: set<nat>)
    returns (m: nat)
    requires Inv(s) && ids != {}
    requires forall id :: id in ids ==>
      && id < |s.fetches| && s.fetches[id].key == key && s.fetches[id].gen == gen
      && s.fetches[id].flushes == flushes && s.fetches[id].started.Some? && from <= s.fetches[id].started.value
    ensures m in ids && forall x :: x in ids ==> x <= m
    ensures s.fetches[m].started.value >= from + (|ids| - 1) * s.r.Ttl(key)
    decreases |ids|
  {
    m := Largest(ids);
    var rest := ids - {m};
    Without(ids, m);
    if rest == {} {
      NoTimes(s.r.Ttl(key));
    } else {
      var k := SpreadOut(s, key, gen, flushes, from, rest);
      assert k in ids && k < m;
      RunsApart(s, k, m);
      OneMoreTimes(|ids| - 1, s.r.Ttl(key));
    }
  }

  /** Any window of length T starts at most floor(T / ttl) + 1 runs of a key. */
  lemma FetchRate(s: Machine, key: Key, gen: nat, flushes: nat, from: nat, length: nat)
    requires Inv(s) && s.r.Ttl(key) > 0
    ensures |StartsWithin(s, key, gen, flushes, from, length)| <= length / s.r.Ttl(key) + 1
  {
    var ids := StartsWithin(s, key, gen, flushes, from, length);
    if ids != {} {
      var m := SpreadOut(s, key, gen, flushes, from, ids);
      DivisionBound(|ids| - 1, s.r.Ttl(key), length);
    }
  }

  lemma DivisionBound(n: nat, d: nat, length: nat)
    requires d > 0 && n * d <= length
    ensures n <= length / d
  {
    if n >= length / d + 1 {
      MulMonotone(length / d + 1, n, d);
    }
  }

  lemma MulMonotone(a: nat, b: nat, d: nat)
    requires a <= b
    ensures a * d <= b * d
  {
  }

  // ------------------------------------------------------------------ replies and waiters

  /** Every answer is right, judged by the event log alone. An answer given at once was the hit
      of a result younger than its lifetime, 404 for a key nobody produces, or 503 with the session
      over, nothing fresh stored and no fetch of the key in flight. An answer waited for is the
      complete result of the very fetch that was joined or started. A cancelled caller got what was
      stored when it was cancelled, else the timeout error. */
  lemma RepliesAreRight(s: Machine, c: nat)
    requires Reachable(s) && c < |s.callers| && s.callers[c].progress.Replied?
    ensures var x := s.callers[c];
      var reply, at := x.progress.reply, x.progress.at;
      && x.asked.cut <= |s.log| && at.cut <= |s.log|
      && var past, later := s.log[..x.asked.cut], s.log[..at.cut];
         var stored := LastStored(past, x.key);
         var ttl := if x.key in s.r.ttls then s.r.ttls[x.key] else 0;
         var hit := stored.Some? && x.asked.now < stored.value.entry.fetched + ttl;
         var flying := InFlight(past, x.key);
         match x.progress.basis
         case AtOnce =>
           && at == x.asked
           && if hit then reply == stored.value.entry.reply && HeldRun(s, at.cut, x.key)
              else
                && flying.None?
                && if x.key !in s.r.producers then reply == Reply("{\"error\":\"unknown endpoint\"}", 404)
                   else OverIn(past) && reply == Reply("{\"error\":\"session ended\"}", 503)
         case Shared =>
           && !hit
           && var call := if flying.Some? then flying.value else Runs(past);
              && call < |s.fetches| && s.fetches[call].key == x.key
              && s.fetches[call].phase == Complete && s.fetches[call].result == Some(reply)
         case Cancelled =>
           && x.cancellable && !hit && x.asked.cut <= at.cut && x.asked.now <= at.now
           && match LastStored(later, x.key)
              case Some(o) => reply == o.entry.reply && HeldRun(s, at.cut, x.key)
              case None => reply == Reply("{\"error\":\"timed out waiting for background refresh\"}", 503)
    ensures var x := s.callers[c];
      x.key !in s.r.producers ==>
        x.progress == Replied(Reply("{\"error\":\"unknown endpoint\"}", 404), AtOnce, x.asked)
  {
    ReachableInv(s);
    var x := s.callers[c];
    assert CallerOK(s, x);
    match Asked(s, x)
    case Hit(_) => Unfold(s, LastStored(s.log[..x.asked.cut], x.key).value.call);
    case Join(call) => Unfold(s, call);
    case _ =>
  }

  /** How many of its own steps a fetch still has to take. */
  function Left(f: Fetch): nat {
    match f.phase
    case Spawned => 6
    case Running => 5
    case Returned => 4
    case Stored => 3
    case Shown => 2
    case Removed => 1
    case Complete => 0
  }

  function OwnStep(step: Step, id: nat): nat {
    match step
    case RunProducer(i) => if i == id then 1 else 0
    case ProducerReturns(i, _) => if i == id then 1 else 0
    case StoreResult(i) => if i == id then 1 else 0
    case ShowResult(i) => if i == id then 1 else 0
    case RemoveCall(i) => if i == id then 1 else 0
    case CloseDone(i) => if i == id then 1 else 0
    case _ => 0
  }

  function OwnSteps(steps: seq<Step>, id: nat): nat {
    if steps == [] then 0 else OwnStep(steps[0], id) + OwnSteps(steps[1..], id)
  }

  lemma LeftStep(s: Machine, step: Step, id: nat)
    requires Inv(s) && Enabled(s, step) && id < |s.fetches|
    ensures id < |Apply(s, step).fetches|
    ensures Left(Apply(s, step).fetches[id]) + OwnStep(step, id) == Left(s.fetches[id])
  {
  }

  /** Over any run a fetch gets closer to closing `done` by exactly the steps it took itself. */
  lemma {:induction false} FetchProgress(s: Machine, steps: seq<Step>, id: nat)
    requires Inv(s) && CanRun(s, steps) && id < |s.fetches|
    ensures id < |RunTo(s, steps).fetches|
    ensures Left(RunTo(s, steps).fetches[id]) + OwnSteps(steps, id) == Left(s.fetches[id])
    decreases |steps|
  {
    if steps != [] {
      LeftStep(s, steps[0], id);
      StepInv(s, steps[0]);
      FetchProgress(Apply(s, steps[0]), steps[1..], id);
    }
  }

  /** The step a fetch goroutine can take next; `reply` is what its producer would return. */
  function NextOwn(s: Machine, id: nat, reply: Reply): Step
    requires id < |s.fetches|
  {
    match s.fetches[id].phase
    case Spawned => RunProducer(id)
    case Running => ProducerReturns(id, reply)
    case Returned => StoreResult(id)
    case Stored => ShowResult(id)
    case Shown => RemoveCall(id)
    case _ => CloseDone(id)
  }

  /** A waiter is never abandoned: the fetch it waits for can always take its next step until
      `done` is closed, and from then on the waiter can pick up the complete result. */
  lemma WaiterRelease(s: Machine, c: nat, reply: Reply)
    requires Reachable(s) && c < |s.callers| && s.callers[c].progress.Waiting?
    ensures var id := s.callers[c].progress.call;
      && id < |s.fetches| && s.fetches[id].key == s.callers[c].key
      && (Left(s.fetches[id]) > 0 ==> s.r.calls[id].done.Open? && Enabled(s, NextOwn(s, id, reply)))
      && (Left(s.fetches[id]) == 0 ==>
            && Enabled(s, Deliver(c)) && s.fetches[id].result.Some?
            && Apply(s, Deliver(c)).callers[c].progress == Replied(s.fetches[id].result.value, Shared, Now(s)))
  {
    ReachableInv(s);
    assert CallerOK(s, s.callers[c]);
    Unfold(s, s.callers[c].progress.call);
  }

  // ------------------------------------------------------------------ channels and loops

  /** No channel is ever closed twice; `done` is closed exactly when its fetch is through, and
      the one open stop channel, if any, is the newest one of an active session. */
  lemma ChannelsCloseOnce(s: Machine)
    requires Reachable(s)
    ensures forall id :: 0 <= id < |s.r.calls| ==>
      !s.r.calls[id].done.Panicked? && (s.r.calls[id].done.Closed? <==> s.fetches[id].phase == Complete)
    ensures forall i :: 0 <= i < |s.r.stops| ==>
      !s.r.stops[i].Panicked? && (s.r.stops[i].Open? <==> s.r.active && i == |s.r.stops| - 1)
    ensures s.r.active ==> s.r.stops != [] && !s.loops[|s.loops| - 1].phase.Exited?
  {
    ReachableInv(s);
    forall id | 0 <= id < |s.r.calls|
      ensures !s.r.calls[id].done.Panicked? && (s.r.calls[id].done.Closed? <==> s.fetches[id].phase == Complete)
    {
      Unfold(s, id);
    }
    if s.r.active { assert LoopOK(s, |s.loops| - 1); }
  }

  function Scans(steps: seq<Step>, i: nat): nat {
    if steps == [] then 0 else (if steps[0] == LoopScan(i) then 1 else 0) + Scans(steps[1..], i)
  }

  lemma LateStep(s: Machine, step: Step, i: nat)
    requires Inv(s) && Enabled(s, step) && i < |s.loops| && s.r.stops[i].Closed?
    ensures var t := Apply(s, step);
      && i < |t.loops| && t.r.stops[i].Closed?
      && t.loops[i].lateRounds == s.loops[i].lateRounds + (if step == LoopScan(i) then 1 else 0)
  {
    assert s.r.stops[i] == if s.r.active && i == |s.r.stops| - 1 then Open else Closed;
  }

  /** Once its stop channel is closed, a loop begins at most one more refresh round, ever. */
  lemma {:induction false} LoopWindsDown(s: Machine, steps: seq<Step>, i: nat)
    requires Inv(s) && CanRun(s, steps) && i < |s.loops| && s.r.stops[i].Closed?
    ensures i < |RunTo(s, steps).loops|
    ensures Scans(steps, i) + s.loops[i].lateRounds == RunTo(s, steps).loops[i].lateRounds <= 1
    decreases |steps|
  {
    if steps == [] {
      assert LoopOK(s, i);
    } else {
      LateStep(s, steps[0], i);
      StepInv(s, steps[0]);
      LoopWindsDown(Apply(s, steps[0]), steps[1..], i);
    }
  }

  // ------------------------------------------------------------------ what is not promised

  lemma DuringFetch() returns (s: Machine)
    ensures Reachable(s) && Shape(s) && s.r.active && s.r.gen == 0 && s.r.stop == Some(0) && s.r.stops == [Open]
    ensures s.r.ttls == map["k" := 1] && s.r.entries == map[] && s.r.inflight == map["k" := 0]
    ensures |s.fetches| == 1 && s.fetches[0].phase == Spawned && s.fetches[0].gen == 0 && |s.callers| == 1
  {
    s := Init(map["k" := 1], {"k"});
    ReachableInit(map["k" := 1], {"k"});
    s := Then(s, SetSession(true));
    s := Then(s, HttpGet("k"));
  }

  lemma EndedDuringFetch() returns (s: Machine)
    ensures Reachable(s) && Shape(s) && Ended(s) && s.r.gen == 1 && |s.r.stops| == 1
    ensures s.r.ttls == map["k" := 1] && s.r.entries == map[] && s.r.inflight == map["k" := 0]
    ensures |s.fetches| == 1 && s.fetches[0].phase == Spawned && s.fetches[0].gen == 0 && |s.callers| == 1
  {
    s := DuringFetch();
    s := Then(s, SetSession(false));
  }

  /** It does happen: an ended session's fetch about to call its producer. */
  lemma ProducerMayStartAfterTheEnd() returns (s: Machine, id: nat)
    ensures Reachable(s) && Shape(s) && Ended(s) && Enabled(s, RunProducer(id))
  {
    s := EndedDuringFetch();
    id := 0;
  }

  /** In an open session a lookup is made to wait for a fetch of an earlier one exactly if nothing
      fresh is stored and the run in flight did not begin in this session. */
  lemma JoinsOldExactly(s: Machine, key: Key)
    requires Reachable(s) && s.r.active
    ensures Shape(s)
    ensures
      var o, stored, flying := Lookup(s.r, s.now, key), LastStored(s.log, key), InFlight(s.log, key);
      (o.Join? && o.call < |s.fetches| && s.fetches[o.call].gen < s.r.gen) <==>
        && !(stored.Some? && s.now < stored.value.entry.fetched + s.r.Ttl(key))
        && flying.Some? && !BeganThisSession(s.log, flying.value)
  {
    ReachableInv(s);
    LookupIsHistory(s, key);
    if key in s.r.inflight { Unfold(s, s.r.inflight[key]); }
  }

  /** A caller of a new session may be made to wait for a fetch of an earlier one. */
  lemma OldFetchMayServeNewSession() returns (s: Machine, c: nat)
    ensures Reachable(s) && Shape(s) && s.r.active && c == |s.callers| - 1 && WaitsFor(s, c)
    ensures s.callers[c].progress.call < |s.fetches|
    ensures s.fetches[s.callers[c].progress.call].gen < s.r.gen
  {
    s := EndedDuringFetch();
    s := Then(s, SetSession(true));
    s := Then(s, HttpGet("k"));
    c := 1;
  }

  lemma Then(s: Machine, step: Step) returns (t: Machine)
    requires Reachable(s) && Shape(s) && Enabled(s, step)
    ensures Shape(t) && t == Apply(s, step) && Reachable(t)
  {
    ReachableStep(s, step);
    t := Apply(s, step);
  }
}
