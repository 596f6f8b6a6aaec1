/** The refresher under concurrency: any number of callers, fetch goroutines, background loops
    and session switches, interleaved one critical section at a time (refresher.go:93-236).

    `Machine` adds to the shared state the goroutines' own positions and, as history that no
    step's guard reads, time stamps, counters and an event log. A run is a sequence of steps;
    the invariant `Inv` holds in every state of every run. */
module CacheMachine {
  import opened Base
  import opened Refresher

  /** Where the goroutine of one fetch stands: spawned, inside the producer, holding its result,
      past the guarded store, past publishing to the call, past removal, past closing `done`. */
  datatype Phase = Spawned | Running | Returned | Stored | Shown | Removed | Complete

  /** One fetch goroutine. From `born` on the fields are history. */
  datatype Fetch = Fetch(
    key: Key, gen: nat, phase: Phase, result: Option<Reply>,
    born: nat, started: Option<nat>, stored: Option<nat>, flushes: nat, session: nat)

  datatype LoopPhase = Committed | Round(todo: set<Key>, asked: set<nat>) | Selecting | Exited

  /** The background loop of one session; loop `i` watches stop channel `i`. `lateRounds` counts
      the rounds it began after that channel was closed. */
  datatype Loop = Loop(phase: LoopPhase, lateRounds: nat)

  /** A position in the event log and on the clock (history). */
  datatype Moment = Moment(cut: nat, now: nat)

  /** How a caller got its answer: from its lookup, from the fetch it waited for, or because its
      context went away (history). */
  datatype Basis = AtOnce | Shared | Cancelled

  datatype Progress = Waiting(call: nat) | Replied(reply: Reply, basis: Basis, at: Moment)

  datatype Caller = Caller(key: Key, cancellable: bool, asked: Moment, progress: Progress)

  datatype Event =
    | RunBegan(call: nat, key: Key)
    | RunEnded(call: nat, key: Key, reply: Reply, at: nat)
    | RunRemoved(call: nat, key: Key)
    | Woke
    | Slept
    | Flushed

  datatype Machine = Machine(
    r: State, now: nat, fetches: seq<Fetch>, loops: seq<Loop>, callers: seq<Caller>,
    flushes: nat, log: seq<Event>)

  datatype Step =
    | Advance(d: nat)
    | SetSession(on: bool)
    | Flush
    | HttpGet(key: Key)
    | Deliver(caller: nat)
    | Cancel(caller: nat)
    | RunProducer(id: nat)
    | ProducerReturns(id: nat, reply: Reply)
    | StoreResult(id: nat)
    | ShowResult(id: nat)
    | RemoveCall(id: nat)
    | CloseDone(id: nat)
    | LoopScan(i: nat)
    | LoopGet(i: nat, key: Key)
    | LoopRoundDone(i: nat)
    | LoopTick(i: nat)
    | LoopStop(i: nat)

  function Init(ttls: map<Key, nat>, producers: set<Key>): Machine {
    Machine(NewRefresher(ttls, producers), 0, [], [], [], 0, [])
  }

  // ------------------------------------------------------------------ reference history

  /** The run of `call` began after the last session end recorded in the log. */
  predicate BeganThisSession(log: seq<Event>, call: nat) {
    log != [] &&
    match log[|log| - 1]
    case Slept => false
    case RunBegan(c, _) => c == call || BeganThisSession(log[..|log| - 1], call)
    case _ => BeganThisSession(log[..|log| - 1], call)
  }

  datatype Origin = Origin(call: nat, entry: Entry)

  /** What the log alone says is cached for `key`: the last run of that key that both began in
      the current session and ended since the cache was last dropped. */
  function LastStored(log: seq<Event>, key: Key): Option<Origin> {
    if log == [] then None
    else
      var front := log[..|log| - 1];
      match log[|log| - 1]
      case Slept => None
      case Flushed => None
      case RunEnded(call, k, reply, at) =>
        if k == key && BeganThisSession(front, call) then Some(Origin(call, Entry(reply, at)))
        else LastStored(front, key)
      case _ => LastStored(front, key)
  }

  function OriginCall(log: seq<Event>, key: Key): nat {
    match LastStored(log, key)
    case Some(o) => o.call
    case None => 0
  }

  /** The run of `key` that began and was not removed yet. */
  function InFlight(log: seq<Event>, key: Key): Option<nat> {
    if log == [] then None
    else
      match log[|log| - 1]
      case RunBegan(call, k) => if k == key then Some(call) else InFlight(log[..|log| - 1], key)
      case RunRemoved(_, k) => if k == key then None else InFlight(log[..|log| - 1], key)
      case _ => InFlight(log[..|log| - 1], key)
  }

  function Runs(log: seq<Event>): nat {
    if log == [] then 0
    else Runs(log[..|log| - 1]) + (if log[|log| - 1].RunBegan? then 1 else 0)
  }

  predicate WokeIn(log: seq<Event>) {
    exists i :: 0 <= i < |log| && log[i] == Woke
  }

  /** A session was opened and the last switch closed it. */
  predicate OverIn(log: seq<Event>) {
    log != [] &&
    match log[|log| - 1]
    case Woke => false
    case Slept => WokeIn(log)
    case _ => OverIn(log[..|log| - 1])
  }

  /** A lookup as the event log alone decides it. */
  function HistoryLookup(ttl: nat, produced: bool, log: seq<Event>, now: nat, key: Key): Outcome {
    var stored := LastStored(log, key);
    if stored.Some? && now < stored.value.entry.fetched + ttl then Hit(stored.value.entry.reply)
    else if InFlight(log, key).Some? then Join(InFlight(log, key).value)
    else if !produced then NoProducer
    else if OverIn(log) then SessionOver
    else Start(Runs(log))
  }

  /** What the event log alone says a cancelled waiter is answered with. */
  function HistoryFallback(log: seq<Event>, key: Key): Reply {
    match LastStored(log, key)
    case Some(o) => o.entry.reply
    case None => TIMED_OUT
  }

  // ------------------------------------------------------------------ transitions

  predicate Shape(s: Machine) {
    && s.r.Allocated()
    && |s.fetches| == |s.r.calls|
    && |s.loops| == |s.r.stops|
    && s.r.stop == (if s.r.stops == [] then None else Some(|s.r.stops| - 1))
  }

  predicate WaitsFor(s: Machine, c: nat) {
    c < |s.callers| && s.callers[c].progress.Waiting? && s.callers[c].progress.call < |s.r.calls|
  }

  predicate At(s: Machine, id: nat, phase: Phase) {
    id < |s.fetches| && s.fetches[id].phase == phase
  }

  predicate Enabled(s: Machine, step: Step)
    requires Shape(s)
  {
    match step
    case Advance(_) => true
    case SetSession(_) => true
    case Flush => true
    case HttpGet(_) => true
    case Deliver(c) => WaitsFor(s, c) && !s.r.calls[s.callers[c].progress.call].done.Open?
    case Cancel(c) => WaitsFor(s, c) && s.callers[c].cancellable
    case RunProducer(id) => At(s, id, Spawned)
    case ProducerReturns(id, _) => At(s, id, Running)
    case StoreResult(id) => At(s, id, Returned) && s.fetches[id].result.Some?
    case ShowResult(id) => At(s, id, Stored) && s.fetches[id].result.Some?
    case RemoveCall(id) => At(s, id, Shown)
    case CloseDone(id) => At(s, id, Removed)
    case LoopScan(i) => i < |s.loops| && s.loops[i].phase.Committed?
    case LoopGet(i, key) => i < |s.loops| && s.loops[i].phase.Round? && key in s.loops[i].phase.todo
    case LoopRoundDone(i) =>
      && i < |s.loops| && s.loops[i].phase.Round? && s.loops[i].phase.todo == {}
      && forall c :: c in s.loops[i].phase.asked ==> c < |s.callers| && s.callers[c].progress.Replied?
    case LoopTick(i) => i < |s.loops| && s.loops[i].phase.Selecting?
    case LoopStop(i) => i < |s.loops| && s.loops[i].phase.Selecting? && !s.r.stops[i].Open?
  }

  function WithFetch(s: Machine, id: nat, f: Fetch): Machine
    requires id < |s.fetches|
  {
    s.(fetches := s.fetches[id := f])
  }

  function WithLoop(s: Machine, i: nat, loop: Loop): Machine
    requires i < |s.loops|
  {
    s.(loops := s.loops[i := loop])
  }

  function Now(s: Machine): Moment {
    Moment(|s.log|, s.now)
  }

  function Answer(s: Machine, c: nat, reply: Reply, basis: Basis): Machine
    requires c < |s.callers|
  {
    s.(callers := s.callers[c := s.callers[c].(progress := Replied(reply, basis, Now(s)))])
  }

  /** A goroutine executes the critical section of `get`. */
  function Enter(s: Machine, key: Key, cancellable: bool): (t: Machine)
    requires Shape(s)
    ensures Shape(t) && t.loops == s.loops
  {
    var outcome := Lookup(s.r, s.now, key);
    var progress :=
      match outcome
      case Hit(reply) => Replied(reply, AtOnce, Now(s))
      case Join(call) => Waiting(call)
      case NoProducer => Replied(UNKNOWN_ENDPOINT, AtOnce, Now(s))
      case SessionOver => Replied(SESSION_ENDED, AtOnce, Now(s))
      case Start(call) => Waiting(call);
    var entered := s.(r := AfterLookup(s.r, s.now, key),
                      callers := s.callers + [Caller(key, cancellable, Now(s), progress)]);
    if outcome.Start? then
      entered.(fetches := s.fetches + [Fetch(key, s.r.gen, Spawned, None, s.now, None, None, s.flushes, |s.r.stops|)],
               log := s.log + [RunBegan(outcome.call, key)])
    else entered
  }

  /** A session switch, with the loop goroutine that a new session spawns. */
  function SwitchTo(s: Machine, on: bool): (t: Machine)
    requires Shape(s)
    ensures Shape(t)
  {
    var r := Switched(s.r, on);
    s.(r := r,
       loops := if |r.stops| > |s.r.stops| then s.loops + [Loop(Committed, 0)] else s.loops,
       log := s.log + [if on then Woke else Slept])
  }

  function Apply(s: Machine, step: Step): (t: Machine)
    requires Shape(s) && Enabled(s, step)
    ensures Shape(t)
  {
    match step
    case Advance(d) => s.(now := s.now + d)
    case SetSession(on) => SwitchTo(s, on)
    case Flush => s.(r := s.r.(entries := map[]), flushes := s.flushes + 1, log := s.log + [Flushed])
    case HttpGet(key) => Enter(s, key, true)
    case Deliver(c) =>
      var call := s.callers[c].progress.call;
      Answer(s, c, s.r.calls[call].reply, Shared)
    case Cancel(c) => Answer(s, c, Fallback(s.r, s.callers[c].key), Cancelled)
    case RunProducer(id) =>
      WithFetch(s, id, s.fetches[id].(phase := Running, started := Some(s.now)))
    case ProducerReturns(id, reply) =>
      WithFetch(s, id, s.fetches[id].(phase := Returned, result := Some(reply)))
    case StoreResult(id) =>
      var f := s.fetches[id];
      WithFetch(s, id, f.(phase := Stored, stored := if f.gen == s.r.gen then Some(s.now) else None))
        .(r := Store(s.r, s.now, f.key, f.gen, f.result.value),
          log := s.log + [RunEnded(id, f.key, f.result.value, s.now)])
    case ShowResult(id) =>
      WithFetch(s, id, s.fetches[id].(phase := Shown)).(r := Publish(s.r, id, s.fetches[id].result.value))
    case RemoveCall(id) =>
      WithFetch(s, id, s.fetches[id].(phase := Removed))
        .(r := Remove(s.r, s.fetches[id].key), log := s.log + [RunRemoved(id, s.fetches[id].key)])
    case CloseDone(id) =>
      WithFetch(s, id, s.fetches[id].(phase := Complete)).(r := CloseCall(s.r, id))
    case LoopScan(i) =>
      var late := if s.r.stops[i].Open? then 0 else 1;
      WithLoop(s, i, Loop(Round(StaleKeys(s.r, s.now), {}), s.loops[i].lateRounds + late))
    case LoopGet(i, key) =>
      var round := s.loops[i].phase;
      WithLoop(Enter(s, key, false), i,
               s.loops[i].(phase := Round(round.todo - {key}, round.asked + {|s.callers|})))
    case LoopRoundDone(i) => WithLoop(s, i, s.loops[i].(phase := Selecting))
    case LoopTick(i) =>
      WithLoop(s, i, s.loops[i].(phase := if s.r.stops[i].Open? then Committed else Exited))
    case LoopStop(i) => WithLoop(s, i, s.loops[i].(phase := Exited))
  }

  /** A run is any sequence of enabled steps. */
  predicate CanRun(s: Machine, steps: seq<Step>)
    requires Shape(s)
    decreases |steps|
  {
    steps != [] ==> Enabled(s, steps[0]) && CanRun(Apply(s, steps[0]), steps[1..])
  }

  function RunTo(s: Machine, steps: seq<Step>): (t: Machine)
    requires Shape(s) && CanRun(s, steps)
    ensures Shape(t)
    decreases |steps|
  {
    if steps == [] then s else RunTo(Apply(s, steps[0]), steps[1..])
  }

  ghost predicate Reachable(s: Machine) {
    exists ttls, producers, steps ::
      CanRun(Init(ttls, producers), steps) && RunTo(Init(ttls, producers), steps) == s
  }

  // ------------------------------------------------------------------ invariant

  predicate Live(f: Fetch) {
    f.phase != Removed && f.phase != Complete
  }

  predicate Ran(f: Fetch) {
    f.phase != Spawned && f.phase != Running
  }

  predicate PastStore(f: Fetch) {
    Ran(f) && f.phase != Returned
  }

  predicate PastShow(f: Fetch) {
    PastStore(f) && f.phase != Stored
  }

  /** Registration, publication and the two channel-like facts of one fetch. */
  predicate LifecycleOK(s: Machine, id: nat)
    requires Shape(s) && id < |s.fetches|
  {
    var f, c := s.fetches[id], s.r.calls[id];
    && (Live(f) <==> f.key in s.r.inflight && s.r.inflight[f.key] == id)
    && f.key in s.r.producers
    && (f.result.Some? <==> Ran(f))
    && c.reply == (if PastShow(f) && f.result.Some? then f.result.value else ZERO_REPLY)
    && c.done == (if f.phase == Complete then Closed else Open)
  }

  predicate TimesOK(s: Machine, id: nat)
    requires Shape(s) && id < |s.fetches|
  {
    var f := s.fetches[id];
    && f.born <= s.now
    && (f.started.Some? <==> f.phase != Spawned)
    && (f.started.Some? ==> f.born <= f.started.value <= s.now)
    && (f.stored.Some? ==> PastStore(f) && f.started.Some? && f.started.value <= f.stored.value <= s.now)
    && f.flushes <= s.flushes
    && (f.stored.Some? && f.gen == s.r.gen && f.flushes == s.flushes ==>
          f.key in s.r.entries && s.r.entries[f.key].fetched >= f.stored.value)
  }

  predicate SessionOK(s: Machine, id: nat)
    requires Shape(s) && id < |s.fetches|
  {
    var f := s.fetches[id];
    && f.gen <= s.r.gen
    && (PastStore(f) && f.gen == s.r.gen ==> f.stored.Some?)
    && (f.gen == s.r.gen ==>
          || (s.r.active && f.session == |s.r.stops|)
          || (f.session == 0 && |s.r.stops| <= 1 && (|s.r.stops| == 1 ==> s.r.active)))
    && (BeganThisSession(s.log, id) <==> f.gen == s.r.gen)
  }

  /** Runs of one key are serialized, and within a generation (and without a flush) the later
      one is registered only when the earlier one's stored result has expired. */
  predicate PairOK(s: Machine, i: nat, j: nat)
    requires i < j < |s.fetches|
  {
    s.fetches[i].key == s.fetches[j].key ==>
      && !Live(s.fetches[i])
      && (s.fetches[i].gen == s.fetches[j].gen && s.fetches[i].flushes == s.fetches[j].flushes ==>
            && s.fetches[i].stored.Some?
            && s.fetches[i].stored.value + s.r.Ttl(s.fetches[i].key) <= s.fetches[j].born)
  }

  /** The cached entry is what the log says, and it is the stored result of the newest run. */
  predicate EntryOK(s: Machine, key: Key)
    requires Shape(s)
  {
    && (key in s.r.entries <==> LastStored(s.log, key).Some?)
    && (key in s.r.entries ==>
          var o := LastStored(s.log, key).value;
          && s.r.entries[key] == o.entry
          && o.call < |s.fetches|
          && StoredRun(s.fetches[o.call], key, o.entry.reply)
          && s.fetches[o.call].stored == Some(o.entry.fetched)
          && s.fetches[o.call].gen == s.r.gen
          && forall j :: o.call < j < |s.fetches| && s.fetches[j].key == key ==> s.fetches[j].stored.None?)
  }

  predicate StoredRun(f: Fetch, key: Key, reply: Reply) {
    f.key == key && f.result == Some(reply) && f.stored.Some?
  }

  predicate StopsOK(s: Machine)
    requires Shape(s)
  {
    && (forall i :: 0 <= i < |s.r.stops| ==>
          s.r.stops[i] == (if s.r.active && i == |s.r.stops| - 1 then Open else Closed))
    && (s.r.active ==> s.r.stops != [])
    && (!s.r.active && s.r.stops != [] ==> s.r.entries == map[])
  }

  predicate InflightOK(s: Machine)
    requires Shape(s)
  {
    forall key :: key in s.r.inflight ==>
      s.fetches[s.r.inflight[key]].key == key && Live(s.fetches[s.r.inflight[key]])
  }

  predicate LoopOK(s: Machine, i: nat)
    requires Shape(s) && i < |s.loops|
  {
    var loop := s.loops[i];
    && loop.lateRounds <= 1
    && (s.r.stops[i].Open? ==> !loop.phase.Exited? && loop.lateRounds == 0)
    && (loop.phase.Committed? ==> loop.lateRounds == 0)
    && (loop.phase.Round? ==> loop.phase.todo <= s.r.ttls.Keys
                              && forall c :: c in loop.phase.asked ==> c < |s.callers|)
  }

  /** What the event log, cut off where the caller looked, says about its lookup. */
  function Asked(s: Machine, c: Caller): Outcome
    requires c.asked.cut <= |s.log|
  {
    HistoryLookup(s.r.Ttl(c.key), c.key in s.r.producers, s.log[..c.asked.cut], c.asked.now, c.key)
  }

  /** What the log held for `key` at that point is the stored result of a run. */
  predicate HeldRun(s: Machine, cut: nat, key: Key)
    requires cut <= |s.log|
  {
    match LastStored(s.log[..cut], key)
    case Some(o) => o.call < |s.fetches| && StoredRun(s.fetches[o.call], key, o.entry.reply)
    case None => true
  }

  /** A caller that joined or started `call` still waits for that very call, or got its complete
      result, or was cancelled and got what was stored at that moment, else the timeout error. */
  predicate AwaitOK(s: Machine, c: Caller, call: nat) {
    && call < |s.fetches| && s.fetches[call].key == c.key
    && match c.progress
       case Waiting(id) => id == call
       case Replied(reply, basis, at) =>
         && c.asked.cut <= at.cut <= |s.log| && c.asked.now <= at.now <= s.now
         && if basis == Shared then s.fetches[call].phase == Complete && s.fetches[call].result == Some(reply)
            else
              && basis == Cancelled && c.cancellable
              && reply == HistoryFallback(s.log[..at.cut], c.key) && HeldRun(s, at.cut, c.key)
  }

  /** Every caller got what the log says its lookup came to: a hit, 404 and 503 at once, the rest
      by waiting. */
  predicate CallerOK(s: Machine, c: Caller) {
    && c.asked.cut <= |s.log| && c.asked.now <= s.now
    && match Asked(s, c)
       case Hit(reply) => c.progress == Replied(reply, AtOnce, c.asked) && HeldRun(s, c.asked.cut, c.key)
       case NoProducer => c.progress == Replied(UNKNOWN_ENDPOINT, AtOnce, c.asked)
       case SessionOver => c.progress == Replied(SESSION_ENDED, AtOnce, c.asked)
       case Join(call) => AwaitOK(s, c, call)
       case Start(call) => AwaitOK(s, c, call)
  }

  /** Everything about fetches, entries and sessions; loops and callers are separate. */
  ghost predicate FetchInv(s: Machine) {
    && Shape(s)
    && (forall id :: 0 <= id < |s.fetches| ==> LifecycleOK(s, id))
    && (forall id :: 0 <= id < |s.fetches| ==> TimesOK(s, id))
    && (forall id :: 0 <= id < |s.fetches| ==> SessionOK(s, id))
    && (forall i, j :: 0 <= i < j < |s.fetches| ==> PairOK(s, i, j))
    && (forall key :: EntryOK(s, key))
    && StopsOK(s)
    && InflightOK(s)
  }

  /** The log alone tells what is in flight and whether the session is over. */
  ghost predicate HistoryOK(s: Machine)
    requires Shape(s)
  {
    && (forall key :: InFlight(s.log, key) == if key in s.r.inflight then Some(s.r.inflight[key]) else None)
    && Runs(s.log) == |s.r.calls|
    && (WokeIn(s.log) <==> s.r.stops != [])
    && (OverIn(s.log) <==> Over(s.r))
  }

  ghost predicate Inv(s: Machine) {
    && FetchInv(s)
    && HistoryOK(s)
    && (forall i :: 0 <= i < |s.loops| ==> LoopOK(s, i))
    && (forall c :: 0 <= c < |s.callers| ==> CallerOK(s, s.callers[c]))
  }

  lemma InitInv(ttls: map<Key, nat>, producers: set<Key>)
    ensures Inv(Init(ttls, producers))
  {
  }

  lemma LogGrows(log: seq<Event>, e: Event)
    ensures (log + [e])[..|log|] == log
  {
  }

  /** The facts about one fetch that every step lemma starts from. */
  lemma Unfold(s: Machine, id: nat)
    requires FetchInv(s) && id < |s.fetches|
    ensures LifecycleOK(s, id) && TimesOK(s, id) && SessionOK(s, id)
  {
  }

  lemma OnlyTimePasses(s: Machine, t: Machine)
    requires FetchInv(s) && Shape(t)
    requires t.r == s.r && t.fetches == s.fetches && t.log == s.log && t.flushes == s.flushes && t.now >= s.now
    ensures FetchInv(t)
  {
    forall id | 0 <= id < |t.fetches| ensures LifecycleOK(t, id) && TimesOK(t, id) && SessionOK(t, id) {
      Unfold(s, id);
    }
    forall i, j | 0 <= i < j < |t.fetches| ensures PairOK(t, i, j) {
      assert PairOK(s, i, j);
    }
    forall key ensures EntryOK(t, key) {
      assert EntryOK(s, key);
    }
  }

  lemma SwitchKeeps(s: Machine, on: bool)
    requires FetchInv(s)
    ensures FetchInv(Apply(s, SetSession(on)))
  {
    var t := Apply(s, SetSession(on));
    LogGrows(s.log, if on then Woke else Slept);
    forall id | 0 <= id < |t.fetches| ensures LifecycleOK(t, id) && TimesOK(t, id) && SessionOK(t, id) {
      Unfold(s, id);
    }
    forall i, j | 0 <= i < j < |t.fetches| ensures PairOK(t, i, j) {
      assert PairOK(s, i, j);
    }
    forall key ensures EntryOK(t, key) {
      assert EntryOK(s, key);
    }
  }

  lemma FlushKeeps(s: Machine)
    requires FetchInv(s)
    ensures FetchInv(Apply(s, Flush))
  {
    var t := Apply(s, Flush);
    LogGrows(s.log, Flushed);
    forall id | 0 <= id < |t.fetches| ensures LifecycleOK(t, id) && TimesOK(t, id) && SessionOK(t, id) {
      Unfold(s, id);
    }
    forall i, j | 0 <= i < j < |t.fetches| ensures PairOK(t, i, j) {
      assert PairOK(s, i, j);
    }
  }

  lemma EnterKeeps(s: Machine, key: Key, cancellable: bool)
    requires FetchInv(s)
    ensures FetchInv(Enter(s, key, cancellable))
  {
    var t := Enter(s, key, cancellable);
    if !Lookup(s.r, s.now, key).Start? {
      OnlyTimePasses(s, t);
    } else {
      RegisterKeeps(s, key, t);
    }
  }

  lemma RegisterKeepsPairs(s: Machine, key: Key, t: Machine)
    requires FetchInv(s) && Lookup(s.r, s.now, key).Start?
    requires t == Enter(s, key, true) || t == Enter(s, key, false)
    ensures forall i, j :: 0 <= i < j < |t.fetches| ==> PairOK(t, i, j)
    ensures forall k :: EntryOK(t, k)
  {
    LogGrows(s.log, RunBegan(|s.fetches|, key));
    forall i, j | 0 <= i < j < |t.fetches| ensures PairOK(t, i, j) {
      if j < |s.fetches| { assert PairOK(s, i, j); } else { Unfold(s, i); }
    }
    forall k ensures EntryOK(t, k) {
      assert EntryOK(s, k);
    }
  }

  lemma RegisterKeepsTimes(s: Machine, key: Key, t: Machine)
    requires FetchInv(s) && Lookup(s.r, s.now, key).Start?
    requires t == Enter(s, key, true) || t == Enter(s, key, false)
    ensures forall id :: 0 <= id < |t.fetches| ==> TimesOK(t, id) && SessionOK(t, id)
  {
    LogGrows(s.log, RunBegan(|s.fetches|, key));
    forall id | 0 <= id < |t.fetches| ensures TimesOK(t, id) && SessionOK(t, id) {
      if id < |s.fetches| { Unfold(s, id); }
    }
  }

  lemma RegisterKeeps(s: Machine, key: Key, t: Machine)
    requires FetchInv(s) && Lookup(s.r, s.now, key).Start?
    requires t == Enter(s, key, true) || t == Enter(s, key, false)
    ensures FetchInv(t)
  {
    RegisterKeepsPairs(s, key, t);
    RegisterKeepsTimes(s, key, t);
    forall id | 0 <= id < |t.fetches| ensures LifecycleOK(t, id) {
      if id < |s.fetches| { assert LifecycleOK(s, id); }
    }
  }

  predicate IsFetchStep(step: Step, id: nat) {
    || step == RunProducer(id) || (step.ProducerReturns? && step.id == id)
    || step == ShowResult(id) || step == CloseDone(id)
  }

  /** One fetch moves on without touching entries: it is enough to look at that fetch. */
  lemma OneFetchMoves(s: Machine, t: Machine, id: nat, f: Fetch, c: FetchCall)
    requires FetchInv(s) && id < |s.fetches|
    requires t == s.(fetches := s.fetches[id := f],
                     r := s.r.(calls := s.r.calls[id := c],
                               inflight := if Live(s.fetches[id]) && !Live(f)
                                           then s.r.inflight - {f.key} else s.r.inflight))
    requires var g := s.fetches[id];
      && f.key == g.key && f.gen == g.gen && f.flushes == g.flushes && f.stored == g.stored && f.born == g.born
      && (Live(f) ==> Live(g)) && (f.stored.Some? ==> f.result == g.result)
    requires Shape(t) ==> LifecycleOK(t, id) && TimesOK(t, id) && SessionOK(t, id)
    ensures FetchInv(t)
  {
    SameEntries(s, t, id, f);
    assert LifecycleOK(s, id);
    forall k | 0 <= k < |t.fetches| ensures LifecycleOK(t, k) {
      assert LifecycleOK(s, k);
    }
    forall k | 0 <= k < |t.fetches| ensures TimesOK(t, k) && SessionOK(t, k) {
      assert TimesOK(s, k) && SessionOK(s, k);
    }
  }

  lemma SameEntries(s: Machine, t: Machine, id: nat, f: Fetch)
    requires FetchInv(s) && id < |s.fetches| && Shape(t)
    requires t.fetches == s.fetches[id := f] && t.log == s.log
    requires t.r.entries == s.r.entries && t.r.gen == s.r.gen && t.r.ttls == s.r.ttls
    requires var g := s.fetches[id];
      && f.key == g.key && f.gen == g.gen && f.flushes == g.flushes && f.stored == g.stored && f.born == g.born
      && (Live(f) ==> Live(g)) && (f.stored.Some? ==> f.result == g.result)
    ensures forall i, j :: 0 <= i < j < |t.fetches| ==> PairOK(t, i, j)
    ensures forall key :: EntryOK(t, key)
  {
    forall i, j | 0 <= i < j < |t.fetches| ensures PairOK(t, i, j) {
      assert PairOK(s, i, j);
    }
    forall key ensures EntryOK(t, key) {
      assert EntryOK(s, key);
    }
  }

  /** Steps of a fetch that touch neither entries nor the log. */
  lemma FetchStepKeeps(s: Machine, step: Step, id: nat)
    requires FetchInv(s) && Enabled(s, step) && IsFetchStep(step, id)
    ensures FetchInv(Apply(s, step))
  {
    var t := Apply(s, step);
    Unfold(s, id);
    assert s.r.calls[id := s.r.calls[id]] == s.r.calls;
    OneFetchMoves(s, t, id, t.fetches[id], t.r.calls[id]);
  }

  /** That a run was removed changes nothing the log says about entries and sessions. */
  lemma RemovalLogged(u: Machine, e: Event)
    requires FetchInv(u) && e.RunRemoved?
    ensures FetchInv(u.(log := u.log + [e]))
  {
    var t := u.(log := u.log + [e]);
    LogGrows(u.log, e);
    forall k | 0 <= k < |t.fetches| ensures LifecycleOK(t, k) && TimesOK(t, k) && SessionOK(t, k) {
      Unfold(u, k);
    }
    forall i, j | 0 <= i < j < |t.fetches| ensures PairOK(t, i, j) {
      assert PairOK(u, i, j);
    }
    forall key ensures EntryOK(t, key) {
      assert EntryOK(u, key);
    }
  }

  lemma RemoveKeeps(s: Machine, id: nat)
    requires FetchInv(s) && Enabled(s, RemoveCall(id))
    ensures FetchInv(Apply(s, RemoveCall(id)))
  {
    var t := Apply(s, RemoveCall(id));
    var u := t.(log := s.log);
    Unfold(s, id);
    assert s.r.calls[id := s.r.calls[id]] == s.r.calls;
    OneFetchMoves(s, u, id, u.fetches[id], u.r.calls[id]);
    RemovalLogged(u, RunRemoved(id, s.fetches[id].key));
  }

  lemma StoreKeepsFetches(s: Machine, id: nat)
    requires FetchInv(s) && Enabled(s, StoreResult(id))
    ensures var t := Apply(s, StoreResult(id));
      && InflightOK(t) && StopsOK(t)
      && forall k :: 0 <= k < |t.fetches| ==> LifecycleOK(t, k) && TimesOK(t, k) && SessionOK(t, k)
  {
    var t := Apply(s, StoreResult(id));
    LogGrows(s.log, RunEnded(id, s.fetches[id].key, s.fetches[id].result.value, s.now));
    Unfold(s, id);
    forall k | 0 <= k < |t.fetches| ensures LifecycleOK(t, k) {
      assert LifecycleOK(s, k);
    }
    forall k | 0 <= k < |t.fetches| ensures TimesOK(t, k) && SessionOK(t, k) {
      Unfold(s, k);
    }
  }

  lemma StoreKeepsEntries(s: Machine, id: nat)
    requires FetchInv(s) && Enabled(s, StoreResult(id))
    ensures var t := Apply(s, StoreResult(id)); forall key :: EntryOK(t, key)
  {
    var t := Apply(s, StoreResult(id));
    var f := s.fetches[id];
    LogGrows(s.log, RunEnded(id, f.key, f.result.value, s.now));
    assert SessionOK(s, id) && TimesOK(s, id);
    forall j | id < j < |s.fetches| ensures s.fetches[j].key != f.key {
      assert PairOK(s, id, j);
      assert LifecycleOK(s, id);
    }
    forall key ensures EntryOK(t, key) {
      assert EntryOK(s, key);
    }
  }

  lemma StoreKeeps(s: Machine, id: nat)
    requires FetchInv(s) && Enabled(s, StoreResult(id))
    ensures FetchInv(Apply(s, StoreResult(id)))
  {
    var t := Apply(s, StoreResult(id));
    StoreKeepsFetches(s, id);
    StoreKeepsEntries(s, id);
    forall i, j | 0 <= i < j < |t.fetches| ensures PairOK(t, i, j) {
      assert PairOK(s, i, j);
    }
  }

  lemma FetchInvKept(s: Machine, step: Step)
    requires FetchInv(s) && Enabled(s, step)
    ensures FetchInv(Apply(s, step))
  {
    match step
    case SetSession(on) => SwitchKeeps(s, on);
    case Flush => FlushKeeps(s);
    case HttpGet(key) => EnterKeeps(s, key, true);
    case LoopGet(i, key) =>
      EnterKeeps(s, key, false);
      OnlyTimePasses(Enter(s, key, false), Apply(s, step));
    case StoreResult(id) => StoreKeeps(s, id);
    case RunProducer(id) => FetchStepKeeps(s, step, id);
    case ProducerReturns(id, _) => FetchStepKeeps(s, step, id);
    case ShowResult(id) => FetchStepKeeps(s, step, id);
    case RemoveCall(id) => RemoveKeeps(s, id);
    case CloseDone(id) => FetchStepKeeps(s, step, id);
    case _ => OnlyTimePasses(s, Apply(s, step));
  }

  lemma HistoryGrows(s: Machine, log: seq<Event>, e: Event)
    requires log == s.log + [e]
    ensures WokeIn(log) <==> WokeIn(s.log) || e == Woke
    ensures Runs(log) == Runs(s.log) + if e.RunBegan? then 1 else 0
  {
    LogGrows(s.log, e);
    if i :| 0 <= i < |s.log| && s.log[i] == Woke { assert log[i] == Woke; }
    if e == Woke { assert log[|s.log|] == Woke; }
  }

  lemma HistorySwitches(s: Machine, on: bool)
    requires Shape(s) && StopsOK(s) && HistoryOK(s)
    ensures HistoryOK(Apply(s, SetSession(on)))
  {
    var e := if on then Woke else Slept;
    LogGrows(s.log, e);
    HistoryGrows(s, s.log + [e], e);
  }

  lemma HistoryEntered(s: Machine, key: Key, cancellable: bool)
    requires Shape(s) && HistoryOK(s)
    ensures HistoryOK(Enter(s, key, cancellable))
  {
    var e := RunBegan(|s.r.calls|, key);
    LogGrows(s.log, e);
    HistoryGrows(s, s.log + [e], e);
  }

  lemma HistoryLogged(s: Machine, step: Step)
    requires Shape(s) && HistoryOK(s) && Enabled(s, step) && (step.Flush? || step.StoreResult? || step.RemoveCall?)
    ensures HistoryOK(Apply(s, step))
  {
    var log := Apply(s, step).log;
    LogGrows(s.log, log[|s.log|]);
    HistoryGrows(s, log, log[|s.log|]);
  }

  lemma HistoryKept(s: Machine, step: Step)
    requires Shape(s) && StopsOK(s) && HistoryOK(s) && Enabled(s, step)
    ensures HistoryOK(Apply(s, step))
  {
    var t := Apply(s, step);
    if step.SetSession? {
      HistorySwitches(s, step.on);
    } else if step.HttpGet? {
      HistoryEntered(s, step.key, true);
    } else if step.LoopGet? {
      HistoryEntered(s, step.key, false);
    } else if step.Flush? || step.StoreResult? || step.RemoveCall? {
      HistoryLogged(s, step);
    } else {
      assert t.log == s.log && t.r.inflight == s.r.inflight && t.r.stop == s.r.stop && t.r.stops == s.r.stops;
    }
  }

  lemma LoopStays(s: Machine, t: Machine, i: nat)
    requires Shape(s) && Shape(t) && i < |s.loops| && i < |t.loops| && LoopOK(s, i)
    requires t.loops[i] == s.loops[i] && t.r.ttls == s.r.ttls && |t.callers| >= |s.callers|
    requires t.r.stops[i].Open? ==> s.r.stops[i].Open?
    ensures LoopOK(t, i)
  {
  }

  lemma LoopMoves(s: Machine, step: Step, i: nat)
    requires Inv(s) && Enabled(s, step)
    requires step == LoopScan(i) || (step.LoopGet? && step.i == i) || step == LoopRoundDone(i)
             || step == LoopTick(i) || step == LoopStop(i)
    ensures i < |s.loops| && LoopOK(Apply(s, step), i)
  {
    assert LoopOK(s, i);
  }

  lemma StopsOnlyClose(s: Machine, on: bool)
    requires Shape(s) && StopsOK(s)
    ensures var t := SwitchTo(s, on);
      |t.loops| >= |s.loops| && forall i :: 0 <= i < |s.loops| && t.r.stops[i].Open? ==> s.r.stops[i].Open?
  {
  }

  lemma LoopFrame(s: Machine, step: Step)
    requires Shape(s) && StopsOK(s) && Enabled(s, step)
    ensures var t := Apply(s, step);
      && t.r.ttls == s.r.ttls && |t.callers| >= |s.callers| && |t.loops| >= |s.loops|
      && forall i :: 0 <= i < |s.loops| && t.r.stops[i].Open? ==> s.r.stops[i].Open?
  {
    if step.SetSession? {
      StopsOnlyClose(s, step.on);
    } else {
      assert Apply(s, step).r.stops == s.r.stops;
    }
  }

  lemma LoopsKept(s: Machine, step: Step)
    requires Inv(s) && Enabled(s, step)
    ensures var t := Apply(s, step);
      forall i :: 0 <= i < |t.loops| ==> LoopOK(t, i)
  {
    var t := Apply(s, step);
    LoopFrame(s, step);
    forall i | 0 <= i < |t.loops| ensures LoopOK(t, i) {
      if i < |s.loops| && t.loops[i] == s.loops[i] {
        LoopStays(s, t, i);
      } else {
        NewLoop(s, step, i);
      }
    }
  }

  /** The one loop a step starts or moves. */
  lemma NewLoop(s: Machine, step: Step, i: nat)
    requires Inv(s) && Enabled(s, step)
    requires var t := Apply(s, step); i < |t.loops| && !(i < |s.loops| && t.loops[i] == s.loops[i])
    ensures LoopOK(Apply(s, step), i)
  {
    if step.SetSession? {
      assert Apply(s, step).loops[i] == Loop(Committed, 0);
    } else {
      LoopMoves(s, step, i);
    }
  }

  /** A fetch keeps its key and generation, and its start, result and store time once it has them. */
  predicate Grows(f: Fetch, g: Fetch) {
    && g.key == f.key && g.gen == f.gen
    && (f.started.Some? ==> g.started == f.started)
    && (f.result.Some? ==> g.result == f.result)
    && (f.stored.Some? ==> g.stored == f.stored)
    && (f.phase == Complete ==> g.phase == Complete)
  }

  lemma FetchesOnlyGrow(s: Machine, step: Step, id: nat)
    requires FetchInv(s) && Enabled(s, step) && id < |s.fetches|
    ensures var t := Apply(s, step);
      id < |t.fetches| && Grows(s.fetches[id], t.fetches[id])
  {
    assert LifecycleOK(s, id);
    assert TimesOK(s, id);
  }

  lemma EntryOrigin(s: Machine, key: Key)
    requires FetchInv(s) && key in s.r.entries
    ensures var o := OriginCall(s.log, key);
      && o < |s.fetches| && StoredRun(s.fetches[o], key, s.r.entries[key].reply)
      && s.fetches[o].stored == Some(s.r.entries[key].fetched) && s.r.entries[key].fetched <= s.now
  {
    assert EntryOK(s, key);
    Unfold(s, OriginCall(s.log, key));
  }

  /** The log alone decides every lookup and every answer to a cancelled waiter. */
  lemma LookupIsHistory(s: Machine, key: Key)
    requires FetchInv(s) && HistoryOK(s)
    ensures Lookup(s.r, s.now, key) == HistoryLookup(s.r.Ttl(key), key in s.r.producers, s.log, s.now, key)
    ensures Fallback(s.r, key) == HistoryFallback(s.log, key)
    ensures HeldRun(s, |s.log|, key)
  {
    assert EntryOK(s, key);
    assert s.log[..|s.log|] == s.log;
  }

  lemma RegistryStays(s: Machine, step: Step)
    requires Shape(s) && Enabled(s, step)
    ensures var t := Apply(s, step);
      s.log <= t.log && s.now <= t.now && t.r.producers == s.r.producers && t.r.ttls == s.r.ttls
  {
  }

  /** `t` is `s` later: the log and the fetches only grew. */
  predicate Follows(s: Machine, t: Machine) {
    && s.log <= t.log && s.now <= t.now
    && t.r.producers == s.r.producers && t.r.ttls == s.r.ttls
    && |s.fetches| <= |t.fetches|
    && forall id :: 0 <= id < |s.fetches| ==> Grows(s.fetches[id], t.fetches[id])
  }

  lemma CutStays(s: Machine, t: Machine, cut: nat, key: Key)
    requires Follows(s, t) && cut <= |s.log|
    ensures t.log[..cut] == s.log[..cut]
    ensures HeldRun(s, cut, key) ==> HeldRun(t, cut, key)
  {
    assert t.log[..cut] == s.log[..cut];
    if LastStored(s.log[..cut], key).Some? && HeldRun(s, cut, key) {
      var call := LastStored(s.log[..cut], key).value.call;
      assert Grows(s.fetches[call], t.fetches[call]);
    }
  }

  lemma AwaitCarries(s: Machine, t: Machine, c: Caller, call: nat)
    requires Follows(s, t) && AwaitOK(s, c, call)
    ensures AwaitOK(t, c, call)
  {
    assert Grows(s.fetches[call], t.fetches[call]);
    if c.progress.Replied? && c.progress.basis == Cancelled { CutStays(s, t, c.progress.at.cut, c.key); }
  }

  lemma AnswerCarries(s: Machine, t: Machine, c: Caller)
    requires Follows(s, t) && CallerOK(s, c)
    ensures CallerOK(t, c)
  {
    CutStays(s, t, c.asked.cut, c.key);
    assert Asked(t, c) == Asked(s, c);
    match Asked(s, c)
    case Join(call) => AwaitCarries(s, t, c, call);
    case Start(call) => AwaitCarries(s, t, c, call);
    case _ =>
  }

  lemma StepFollows(s: Machine, step: Step)
    requires FetchInv(s) && Enabled(s, step)
    ensures Follows(s, Apply(s, step))
  {
    var t := Apply(s, step);
    RegistryStays(s, step);
    assert |s.fetches| <= |t.fetches|;
    forall id | 0 <= id < |s.fetches| ensures Grows(s.fetches[id], t.fetches[id]) {
      FetchesOnlyGrow(s, step, id);
    }
  }

  lemma EnterAnswers(s: Machine, key: Key, cancellable: bool)
    requires FetchInv(s) && HistoryOK(s)
    ensures var t := Enter(s, key, cancellable);
      |t.callers| == |s.callers| + 1 && CallerOK(t, t.callers[|s.callers|])
  {
    LookupIsHistory(s, key);
    var t := Enter(s, key, cancellable);
    var c := t.callers[|s.callers|];
    assert t.log[..|s.log|] == s.log[..|s.log|] == s.log;
    assert Asked(t, c) == Lookup(s.r, s.now, key);
  }

  lemma DeliverAnswers(s: Machine, c: nat)
    requires FetchInv(s) && Enabled(s, Deliver(c)) && CallerOK(s, s.callers[c])
    ensures var t := Apply(s, Deliver(c)); CallerOK(t, t.callers[c])
  {
    var t := Apply(s, Deliver(c));
    assert Asked(t, t.callers[c]) == Asked(s, s.callers[c]);
    Unfold(s, s.callers[c].progress.call);
  }

  lemma CancelAnswers(s: Machine, c: nat)
    requires FetchInv(s) && HistoryOK(s) && Enabled(s, Cancel(c)) && CallerOK(s, s.callers[c])
    ensures var t := Apply(s, Cancel(c)); CallerOK(t, t.callers[c])
  {
    var t := Apply(s, Cancel(c));
    LookupIsHistory(s, s.callers[c].key);
    assert t.log[..|s.log|] == s.log;
    assert Asked(t, t.callers[c]) == Asked(s, s.callers[c]);
  }

  lemma LoopGetAnswers(s: Machine, i: nat, key: Key)
    requires FetchInv(s) && HistoryOK(s) && Enabled(s, LoopGet(i, key))
    ensures var t := Apply(s, LoopGet(i, key));
      |t.callers| == |s.callers| + 1 && CallerOK(t, t.callers[|s.callers|])
  {
    EnterAnswers(s, key, false);
    var u, t := Enter(s, key, false), Apply(s, LoopGet(i, key));
    assert t.callers == u.callers && Follows(u, t);
    AnswerCarries(u, t, u.callers[|s.callers|]);
  }

  /** The one caller a step adds or answers. */
  lemma NewAnswer(s: Machine, step: Step, c: nat)
    requires Inv(s) && Enabled(s, step)
    requires var t := Apply(s, step); c < |t.callers| && !(c < |s.callers| && t.callers[c] == s.callers[c])
    ensures CallerOK(Apply(s, step), Apply(s, step).callers[c])
  {
    if step.HttpGet? {
      EnterAnswers(s, step.key, true);
    } else if step.LoopGet? {
      LoopGetAnswers(s, step.i, step.key);
    } else if step.Deliver? {
      assert CallerOK(s, s.callers[c]);
      DeliverAnswers(s, c);
    } else if step.Cancel? {
      assert CallerOK(s, s.callers[c]);
      CancelAnswers(s, c);
    }
  }

  lemma CallersKept(s: Machine, step: Step)
    requires Inv(s) && Enabled(s, step)
    ensures var t := Apply(s, step);
      forall c :: 0 <= c < |t.callers| ==> CallerOK(t, t.callers[c])
  {
    var t := Apply(s, step);
    StepFollows(s, step);
    forall c | 0 <= c < |t.callers| ensures CallerOK(t, t.callers[c]) {
      if c < |s.callers| && t.callers[c] == s.callers[c] {
        AnswerCarries(s, t, s.callers[c]);
      } else {
        NewAnswer(s, step, c);
      }
    }
  }

  lemma StepInv(s: Machine, step: Step)
    requires Inv(s) && Enabled(s, step)
    ensures Inv(Apply(s, step))
  {
    FetchInvKept(s, step);
    HistoryKept(s, step);
    LoopsKept(s, step);
    CallersKept(s, step);
  }

  lemma {:induction false} RunInv(s: Machine, steps: seq<Step>)
    requires Inv(s) && CanRun(s, steps)
    ensures Inv(RunTo(s, steps))
    decreases |steps|
  {
    if steps != [] {
      StepInv(s, steps[0]);
      RunInv(Apply(s, steps[0]), steps[1..]);
    }
  }

  lemma ReachableInv(s: Machine)
    requires Reachable(s)
    ensures Inv(s)
  {
    var ttls, producers, steps :|
      CanRun(Init(ttls, producers), steps) && RunTo(Init(ttls, producers), steps) == s;
    InitInv(ttls, producers);
    RunInv(Init(ttls, producers), steps);
  }

  lemma {:induction false} RunAppend(s: Machine, steps: seq<Step>, step: Step)
    requires Shape(s) && CanRun(s, steps) && Enabled(RunTo(s, steps), step)
    ensures CanRun(s, steps + [step]) && RunTo(s, steps + [step]) == Apply(RunTo(s, steps), step)
    decreases |steps|
  {
    if steps == [] {
      assert [step][1..] == [];
    } else {
      assert (steps + [step])[1..] == steps[1..] + [step];
      RunAppend(Apply(s, steps[0]), steps[1..], step);
    }
  }

  lemma ReachableInit(ttls: map<Key, nat>, producers: set<Key>)
    ensures Reachable(Init(ttls, producers))
  {
    assert CanRun(Init(ttls, producers), []) && RunTo(Init(ttls, producers), []) == Init(ttls, producers);
  }

  lemma ReachableStep(s: Machine, step: Step)
    requires Reachable(s) && Shape(s) && Enabled(s, step)
    ensures Reachable(Apply(s, step))
  {
    var ttls, producers, steps :|
      CanRun(Init(ttls, producers), steps) && RunTo(Init(ttls, producers), steps) == s;
    RunAppend(Init(ttls, producers), steps, step);
  }
}
