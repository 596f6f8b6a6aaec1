/** The session-scoped cache of refresher.go, one member per critical section of `r.mu`.

    `State` is the value of the mutable fields; the functions say what each section does to it;
    the class `Cache` carries the same fields as mutable state, and every method of it is proved
    against the corresponding function. What the sections achieve together, under every
    interleaving of callers, fetches, loops and sessions, is proved in CacheMachine. */
module Refresher {
  import opened Base

  type Key = string

  /** A response body and its HTTP status, cached and served verbatim. */
  datatype Reply = Reply(body: string, status: int)

  datatype Entry = Entry(reply: Reply, fetched: nat)

  /** The object every caller of one fetch shares: `reply` is meaningful once `done` is closed. */
  datatype FetchCall = FetchCall(done: Chan, reply: Reply)

  const ZERO_REPLY := Reply("", 0)
  const UNKNOWN_ENDPOINT := Reply("{\"error\":\"unknown endpoint\"}", 404)
  const SESSION_ENDED := Reply("{\"error\":\"session ended\"}", 503)
  const TIMED_OUT := Reply("{\"error\":\"timed out waiting for background refresh\"}", 503)

  const SECOND: nat := 1_000_000_000
  const DEFAULT_TTLS: map<Key, nat> :=
    map["zpool" := 6 * SECOND, "arc" := 6 * SECOND, "sysinfo" := 6 * SECOND, "smart" := 60 * SECOND]

  /** `stops` and `calls` are the heaps of stop channels and fetch calls ever allocated;
      `stop` and `inflight` refer into them. */
  datatype State = State(
    ttls: map<Key, nat>, producers: set<Key>,
    entries: map<Key, Entry>, inflight: map<Key, nat>,
    active: bool, gen: nat, stop: Option<nat>,
    stops: seq<Chan>, calls: seq<FetchCall>)
  {
    /** The duration a missing key reads as is zero. */
    function Ttl(key: Key): nat {
      if key in ttls then ttls[key] else 0
    }

    predicate Allocated() {
      && (stop.Some? ==> stop.value < |stops|)
      && forall k :: k in inflight ==> inflight[k] < |calls|
    }

    predicate Fresh(now: nat, key: Key) {
      key in entries && now - entries[key].fetched < Ttl(key)
    }
  }

  /** The refresher as constructed: no session, nothing cached, no stop channel yet. */
  function NewRefresher(ttls: map<Key, nat>, producers: set<Key>): State {
    State(ttls, producers, map[], map[], false, 0, None, [], [])
  }

  function Switched(r: State, on: bool): State
    requires r.Allocated()
  {
    if on then
      if r.active then r
      else r.(active := true, stop := Some(|r.stops|), stops := r.stops + [Open])
    else
      r.(active := false, gen := r.gen + 1, entries := map[],
         stops := if r.stop.Some? && r.stops[r.stop.value].Open?
                  then r.stops[r.stop.value := Close(r.stops[r.stop.value])] else r.stops)
  }

  /** How the critical section of `get` ends. */
  datatype Outcome =
    | Hit(reply: Reply)    // served from the cache
    | Join(call: nat)      // wait for a fetch somebody else started
    | NoProducer           // 404
    | SessionOver          // 503, no fetch may start any more
    | Start(call: nat)     // this caller starts the fetch

  predicate Over(r: State)
    requires r.Allocated()
  {
    r.stop.Some? && !r.stops[r.stop.value].Open?
  }

  function Lookup(r: State, now: nat, key: Key): Outcome
    requires r.Allocated()
  {
    if r.Fresh(now, key) then Hit(r.entries[key].reply)
    else if key in r.inflight then Join(r.inflight[key])
    else if key !in r.producers then NoProducer
    else if Over(r) then SessionOver
    else Start(|r.calls|)
  }

  function AfterLookup(r: State, now: nat, key: Key): State
    requires r.Allocated()
  {
    if Lookup(r, now, key).Start?
    then r.(inflight := r.inflight[key := |r.calls|], calls := r.calls + [FetchCall(Open, ZERO_REPLY)])
    else r
  }

  /** The guarded store of a finished fetch that started under generation `gen`. */
  function Store(r: State, now: nat, key: Key, gen: nat, reply: Reply): State {
    if gen == r.gen then r.(entries := r.entries[key := Entry(reply, now)]) else r
  }

  function Publish(r: State, call: nat, reply: Reply): State
    requires call < |r.calls|
  {
    r.(calls := r.calls[call := r.calls[call].(reply := reply)])
  }

  function Remove(r: State, key: Key): State {
    r.(inflight := r.inflight - {key})
  }

  function CloseCall(r: State, call: nat): State
    requires call < |r.calls|
  {
    r.(calls := r.calls[call := r.calls[call].(done := Close(r.calls[call].done))])
  }

  /** What a caller whose context went away is answered with. */
  function Fallback(r: State, key: Key): Reply {
    if key in r.entries then r.entries[key].reply else TIMED_OUT
  }

  function StaleKeys(r: State, now: nat): set<Key> {
    set key | key in r.ttls && (key !in r.entries || now - r.entries[key].fetched >= r.ttls[key])
  }

  /** A refresh round asks for exactly the keys whose lookup would not be a cache hit. */
  lemma StaleIsNotHit(r: State, now: nat, key: Key)
    requires r.Allocated() && key in r.ttls
    ensures key in StaleKeys(r, now) <==> !Lookup(r, now, key).Hit?
  {
  }

  class Cache {
    const ttls: map<Key, nat>
    const producers: set<Key>
    var entries: map<Key, Entry>
    var inflight: map<Key, nat>
    var active: bool
    var gen: nat
    var stop: Option<nat>
    var stops: seq<Chan>
    var calls: seq<FetchCall>

    ghost function View(): State
      reads this
    {
      State(ttls, producers, entries, inflight, active, gen, stop, stops, calls)
    }

    ghost predicate Valid()
      reads this
    {
      View().Allocated()
    }

    constructor (ttls: map<Key, nat>, producers: set<Key>)
      ensures Valid() && View() == NewRefresher(ttls, producers)
    {
      this.ttls, this.producers := ttls, producers;
      entries, inflight := map[], map[];
      active, gen, stop := false, 0, None;
      stops, calls := [], [];
    }

    /** Starts or stops a session; `loop` names the stop channel of the goroutine it spawns. */
    method SetActive(on: bool) returns (loop: Option<nat>)
      requires Valid()
      modifies this
      ensures Valid() && View() == Switched(old(View()), on)
      ensures loop == if on && !old(active) then stop else None
      ensures active == on
      ensures !on ==> entries == map[] && gen == old(gen) + 1 && !(stop.Some? && stops[stop.value].Open?)
      ensures forall i :: 0 <= i < |old(stops)| && stops[i].Panicked? ==> old(stops)[i].Panicked?
    {
      loop := None;
      if on {
        if active {
          return;
        }
        active := true;
        stop := Some(|stops|);
        stops := stops + [Open];
        loop := stop;
        return;
      }
      active := false;
      gen := gen + 1;
      if stop.Some? {
        match stops[stop.value] {
          case Open => stops := stops[stop.value := Close(Open)];
          case _ =>
        }
      }
      entries := map[];
    }

    method Get(now: nat, key: Key) returns (outcome: Outcome)
      requires Valid()
      modifies this
      ensures Valid() && View() == AfterLookup(old(View()), now, key)
      ensures outcome == Lookup(old(View()), now, key)
      ensures outcome.Join? || outcome.Start? ==> key in inflight && inflight[key] == outcome.call
    {
      var ttl := if key in ttls then ttls[key] else 0;
      if key in entries && now - entries[key].fetched < ttl {
        return Hit(entries[key].reply);
      }
      if key in inflight {
        return Join(inflight[key]);
      }
      if key !in producers {
        return NoProducer;
      }
      if stop.Some? && !stops[stop.value].Open? {
        return SessionOver;
      }
      outcome := Start(|calls|);
      inflight := inflight[key := |calls|];
      calls := calls + [FetchCall(Open, ZERO_REPLY)];
    }

    method StoreResult(now: nat, key: Key, startGen: nat, reply: Reply)
      requires Valid()
      modifies this
      ensures Valid() && View() == Store(old(View()), now, key, startGen, reply)
    {
      if startGen == gen {
        entries := entries[key := Entry(reply, now)];
      }
    }

    method PublishResult(call: nat, reply: Reply)
      requires Valid() && call < |calls|
      modifies this
      ensures Valid() && View() == Publish(old(View()), call, reply)
    {
      calls := calls[call := calls[call].(reply := reply)];
    }

    method RemoveCall(key: Key)
      requires Valid()
      modifies this
      ensures Valid() && View() == Remove(old(View()), key)
    {
      inflight := inflight - {key};
    }

    method CloseDone(call: nat)
      requires Valid() && call < |calls|
      modifies this
      ensures Valid() && View() == CloseCall(old(View()), call)
    {
      calls := calls[call := calls[call].(done := Close(calls[call].done))];
    }

    /** The answer of a waiter whose context is gone. */
    method Cancelled(key: Key) returns (reply: Reply)
      requires Valid()
      ensures reply == Fallback(View(), key)
    {
      if key in entries {
        return entries[key].reply;
      }
      return TIMED_OUT;
    }

    /** The scan of `refreshAll`: every key whose entry is missing or expired, once each. */
    method Scan(now: nat) returns (keys: seq<Key>)
      requires Valid()
      ensures forall key :: key in keys <==> key in StaleKeys(View(), now)
      ensures forall key :: key in keys <==> key in ttls && !Lookup(View(), now, key).Hit?
      ensures forall i, j :: 0 <= i < j < |keys| ==> keys[i] != keys[j]
    {
      keys := [];
      var rest := ttls.Keys;
      while rest != {}
        invariant rest <= ttls.Keys
        invariant forall key :: key in keys <==> key in StaleKeys(View(), now) && key !in rest
        invariant forall i, j :: 0 <= i < j < |keys| ==> keys[i] != keys[j]
        decreases rest
      {
        var key :| key in rest;
        if key !in entries || now - entries[key].fetched >= ttls[key] {
          keys := keys + [key];
        }
        rest := rest - {key};
      }
      forall key | key in ttls ensures key in keys <==> !Lookup(View(), now, key).Hit? {
        StaleIsNotHit(View(), now, key);
      }
    }

    method Flush()
      requires Valid()
      modifies this
      ensures Valid() && View() == old(View()).(entries := map[])
    {
      entries := map[];
    }
  }
}
