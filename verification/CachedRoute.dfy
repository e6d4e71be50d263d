/** workers/lib/server/lib/cachedRoute.js: single-flight answers to concurrent requests. The atomic
    steps are the stretches of code between awaits; the LRU may drop a key at any moment. */
module CachedRoute {
  import opened Wrappers

  type Id = nat

  /** What a handler resolves to; only `undefined` is not served from the cache. */
  datatype Value = Undefined | Null | Data(body: string)

  /** A rejection reason; `if (err)` tells the two kinds apart. */
  datatype Thrown = Falsy | Truthy(message: string)

  datatype Outcome = Resolved(value: Value) | Rejected(reason: Thrown)

  /** A request suspended at `await func()`. */
  datatype Call = Leader(key: string) | Overwriter(key: string)

  datatype Settlement = Settlement(id: Id, outcome: Outcome)

  datatype State = State(lru: map<string, Value>, queued: map<string, seq<Id>>, calls: map<Id, Call>,
                         settled: seq<Settlement>)

  datatype Event = Arrive(id: Id, key: string, overwrite: bool) | Return(id: Id, value: Value) | Throw(id: Id,
                          reason: Thrown) | Evict(key: string)

  // ---------- the steps ----------

  function SettleAll(ids: seq<Id>, outcome: Outcome): seq<Settlement> {
    seq(|ids|, i requires 0 <= i < |ids| => Settlement(ids[i], outcome))
  }

  /** What dequeueRequests hands the waiters of a call: a falsy error resolves them with null. */
  function ForWaiters(outcome: Outcome): Outcome {
    if outcome == Rejected(Falsy) then Resolved(Null) else outcome
  }

  function Arrived(s: State, id: Id, key: string, overwrite: bool): State {
    if overwrite then s.(calls := s.calls[id := Overwriter(key)])
    else if key in s.lru && s.lru[key] != Undefined then
      s.(settled := s.settled + [Settlement(id, Resolved(s.lru[key]))])
    else if key in s.queued then s.(queued := s.queued[key := s.queued[key] + [id]])
    else s.(queued := s.queued[key := []], calls := s.calls[id := Leader(key)])
  }

  /** The requests waiting on a call: an overwriting one has none. */
  function WaitersOf(s: State, id: Id): seq<Id>
    requires id in s.calls
  {
    if s.calls[id].Leader? && s.calls[id].key in s.queued then s.queued[s.calls[id].key] else []
  }

  /** The call `id` ends: a result is cached, a leader's waiters are settled, then itself. */
  function Ended(s: State, id: Id, outcome: Outcome): State
    requires id in s.calls
  {
    var key := s.calls[id].key;
    State(if outcome.Resolved? then s.lru[key := outcome.value] else s.lru,
          if s.calls[id].Leader? then s.queued - {key} else s.queued,
          s.calls - {id},
          s.settled + (SettleAll(WaitersOf(s, id), ForWaiters(outcome)) + [Settlement(id, outcome)]))
  }

  // ---------- the code ----------

  class Gateway {
    var lru: map<string, Value>
    var queuedRequests: map<string, seq<Id>>
    var calls: map<Id, Call>
    var settled: seq<Settlement>

    function Abs(): State
      reads this
    {
      State(lru, queuedRequests, calls, settled)
    }

    constructor ()
      ensures Abs() == State(map[], map[], map[], [])
    {
      lru, queuedRequests, calls, settled := map[], map[], map[], [];
    }

    /** Settles every waiter of `key` in the order they joined, then forgets the key. */
    method DequeueRequests(key: string, data: Value, err: Option<Thrown>)
      requires key in queuedRequests
      modifies this`queuedRequests, this`settled
      ensures queuedRequests == old(queuedRequests) - {key}
      ensures settled == old(settled) + SettleAll(old(queuedRequests)[key],
                                                  if err.Some? && err.value.Truthy? then Rejected(err.value)
                                                  else Resolved(data))
    {
      var waiters := queuedRequests[key];
      var outcome := if err.Some? && err.value.Truthy? then Rejected(err.value) else Resolved(data);
      for i := 0 to |waiters|
        invariant settled == old(settled) + SettleAll(waiters[..i], outcome)
        invariant queuedRequests == old(queuedRequests)
      {
        assert SettleAll(waiters[..i + 1], outcome) ==
               SettleAll(waiters[..i], outcome) + [Settlement(waiters[i], outcome)];
        settled := settled + [Settlement(waiters[i], outcome)];
      }
      assert waiters[..|waiters|] == waiters;
      queuedRequests := queuedRequests - {key};
    }

    /** cachedRoute from its start to the first await or return. */
    method Request(id: Id, key: string, overwriteCache: bool)
      modifies this
      ensures Abs() == Arrived(old(Abs()), id, key, overwriteCache)
    {
      if overwriteCache {
        calls := calls[id := Overwriter(key)];
        return;
      }
      if key in lru && lru[key] != Undefined {
        settled := settled + [Settlement(id, Resolved(lru[key]))];
        return;
      }
      if key in queuedRequests {
        queuedRequests := queuedRequests[key := queuedRequests[key] + [id]];
        return;
      }
      queuedRequests := queuedRequests[key := []];
      calls := calls[id := Leader(key)];
    }

    /** cachedRoute after its handler returned. */
    method OnReturn(id: Id, data: Value)
      requires id in calls && (calls[id].Leader? ==> calls[id].key in queuedRequests)
      modifies this
      ensures Abs() == Ended(old(Abs()), id, Resolved(data))
    {
      var call := calls[id];
      lru := lru[call.key := data];
      if call.Leader? { DequeueRequests(call.key, data, None); }
      settled := settled + [Settlement(id, Resolved(data))];
      calls := calls - {id};
      assert settled == Ended(old(Abs()), id, Resolved(data)).settled;
    }

    /** cachedRoute after its handler threw. */
    method OnThrow(id: Id, err: Thrown)
      requires id in calls && (calls[id].Leader? ==> calls[id].key in queuedRequests)
      modifies this
      ensures Abs() == Ended(old(Abs()), id, Rejected(err))
    {
      var call := calls[id];
      if call.Leader? { DequeueRequests(call.key, Null, Some(err)); }
      settled := settled + [Settlement(id, Rejected(err))];
      calls := calls - {id};
      assert settled == Ended(old(Abs()), id, Rejected(err)).settled;
    }
  }

  // ---------- runs, with what each request did ----------

  /** Where a request stands: running its handler, waiting on a key, or answered. */
  datatype Place = Calling | Waiting(key: string) | Done

  /** `asked` is the key each request came for, `joined` names the leader a waiter joined, `results` the
      outcome of each ended call, `made` the values handlers returned for each key. */
  datatype History = History(place: map<Id, Place>, asked: map<Id, string>, leaderOf: map<string, Id>,
                             joined: map<Id, Id>, results: map<Id, Outcome>, made: set<(string, Value)>)

  datatype Run = Run(s: State, h: History)

  function Start(): Run {
    Run(State(map[], map[], map[], []), History(map[], map[], map[], map[], map[], {}))
  }

  predicate Enabled(r: Run, e: Event) {
    match e
    case Arrive(id, key, overwrite) => id !in r.h.place
    case Return(id, value) => id in r.s.calls
    case Throw(id, reason) => id in r.s.calls
    case Evict(key) => true
  }

  function PlaceOnArrival(s: State, key: string, overwrite: bool): Place {
    if overwrite then Calling
    else if key in s.lru && s.lru[key] != Undefined then Done
    else if key in s.queued then Waiting(key)
    else Calling
  }

  function AfterArrival(r: Run, id: Id, key: string, overwrite: bool): Run {
    var place := PlaceOnArrival(r.s, key, overwrite);
    Run(Arrived(r.s, id, key, overwrite),
        r.h.(place := r.h.place[id := place],
             asked := r.h.asked[id := key],
             leaderOf := if place == Calling && !overwrite then r.h.leaderOf[key := id] else r.h.leaderOf,
             joined := if place == Waiting(key) && key in r.h.leaderOf then r.h.joined[id := r.h.leaderOf[key]]
                       else r.h.joined))
  }

  function Answered(place: map<Id, Place>, waiters: seq<Id>, id: Id): map<Id, Place> {
    map x | x in place :: if x == id || x in waiters then Done else place[x]
  }

  function AfterEnd(r: Run, id: Id, outcome: Outcome): Run
    requires id in r.s.calls
  {
    var call := r.s.calls[id];
    Run(Ended(r.s, id, outcome),
        r.h.(place := Answered(r.h.place, WaitersOf(r.s, id), id),
             leaderOf := if call.Leader? then r.h.leaderOf - {call.key} else r.h.leaderOf,
             results := r.h.results[id := outcome],
             made := if outcome.Resolved? then r.h.made + {(call.key, outcome.value)} else r.h.made))
  }

  /** Queued keys are the keys with a leader, one leader each. */
  ghost predicate WellFormed(r: Run) {
    && r.s.queued.Keys == r.h.leaderOf.Keys
    && (forall k :: k in r.h.leaderOf ==> r.h.leaderOf[k] in r.s.calls && r.s.calls[r.h.leaderOf[k]] == Leader(k))
    && (forall id :: id in r.s.calls && r.s.calls[id].Leader? ==>
          r.s.calls[id].key in r.h.leaderOf && r.h.leaderOf[r.s.calls[id].key] == id)
  }

  function Step(r: Run, e: Event): Run
    requires Enabled(r, e)
  {
    match e
    case Arrive(id, key, overwrite) => AfterArrival(r, id, key, overwrite)
    case Return(id, value) => AfterEnd(r, id, Resolved(value))
    case Throw(id, reason) => AfterEnd(r, id, Rejected(reason))
    case Evict(key) => r.(s := r.s.(lru := r.s.lru - {key}))
  }

  // ---------- the invariant ----------

  ghost predicate DistinctIds(ids: seq<Id>) {
    forall i, j :: 0 <= i < j < |ids| ==> ids[i] != ids[j]
  }

  ghost predicate DistinctSettlements(settled: seq<Settlement>) {
    forall i, j :: 0 <= i < j < |settled| ==> settled[i].id != settled[j].id
  }

  ghost predicate IsSettled(settled: seq<Settlement>, id: Id) {
    exists i :: 0 <= i < |settled| && settled[i].id == id
  }

  /** A request is running exactly if its place says so. */
  ghost predicate Running(r: Run) {
    forall id :: id in r.s.calls <==> id in r.h.place && r.h.place[id] == Calling
  }

  /** A request waits once in one queue exactly if its place says so. */
  ghost predicate Queued(r: Run) {
    && (forall k :: k in r.s.queued ==> DistinctIds(r.s.queued[k]))
    && (forall k, w :: k in r.s.queued && w in r.s.queued[k] ==> w in r.h.place && r.h.place[w] == Waiting(k))
    && (forall w :: w in r.h.place && r.h.place[w].Waiting? ==>
          r.h.place[w].key in r.s.queued && w in r.s.queued[r.h.place[w].key])
  }

  /** A request is settled at most once, and exactly if its place says so. */
  ghost predicate SettledOnce(r: Run) {
    && DistinctSettlements(r.s.settled)
    && (forall id :: IsSettled(r.s.settled, id) <==> id in r.h.place && r.h.place[id] == Done)
  }

  /** A waiter belongs to the leader still running for its key. */
  ghost predicate Joined(r: Run) {
    && (forall w :: w in r.h.joined ==> w in r.h.place && r.h.place[w] != Calling)
    && (forall w :: w in r.h.place && r.h.place[w].Waiting? ==>
          w in r.h.joined && r.h.place[w].key in r.h.leaderOf && r.h.joined[w] == r.h.leaderOf[r.h.place[w].key])
  }

  /** What a settled request was told: a waiter its leader's outcome, a caller its own, a hit a value
      some call returned for the key it asked for. */
  ghost predicate Told(h: History, st: Settlement) {
    if st.id in h.joined then h.joined[st.id] in h.results && st.outcome == ForWaiters(h.results[h.joined[st.id]])
    else if st.id in h.results then st.outcome == h.results[st.id]
    else st.id in h.asked && st.outcome.Resolved? && (h.asked[st.id], st.outcome.value) in h.made
  }

  ghost predicate AllTold(r: Run) {
    && (forall i :: 0 <= i < |r.s.settled| ==> Told(r.h, r.s.settled[i]))
    && (forall k :: k in r.s.lru ==> (k, r.s.lru[k]) in r.h.made)
    && (forall id :: id in r.h.results ==> id in r.h.place && r.h.place[id] == Done)
  }

  ghost predicate Inv(r: Run) {
    WellFormed(r) && Running(r) && Queued(r) && SettledOnce(r) && Joined(r) && AllTold(r)
  }

  lemma AppendDistinct(a: seq<Settlement>, b: seq<Settlement>)
    requires DistinctSettlements(a) && DistinctSettlements(b)
    requires forall i, j :: 0 <= i < |a| && 0 <= j < |b| ==> a[i].id != b[j].id
    ensures DistinctSettlements(a + b)
  {
  }

  lemma AppendSettled(a: seq<Settlement>, b: seq<Settlement>, id: Id)
    ensures IsSettled(a + b, id) <==> IsSettled(a, id) || IsSettled(b, id)
  {
    if i :| 0 <= i < |a| && a[i].id == id { assert (a + b)[i].id == id; }
    if j :| 0 <= j < |b| && b[j].id == id { assert (a + b)[|a| + j].id == id; }
  }

  lemma ArriveKeepsCalls(r: Run, id: Id, key: string, overwrite: bool)
    requires WellFormed(r) && Running(r) && id !in r.h.place
    ensures WellFormed(AfterArrival(r, id, key, overwrite)) && Running(AfterArrival(r, id, key, overwrite))
  {
    assert id !in r.s.calls;
  }

  lemma ArriveKeepsQueues(r: Run, id: Id, key: string, overwrite: bool)
    requires WellFormed(r) && Queued(r) && id !in r.h.place
    ensures Queued(AfterArrival(r, id, key, overwrite))
  {
    if PlaceOnArrival(r.s, key, overwrite) == Waiting(key) {
      assert id !in r.s.queued[key];
      AppendId(r.s.queued[key], id);
    }
  }

  lemma AppendId(ids: seq<Id>, id: Id)
    requires DistinctIds(ids) && id !in ids
    ensures DistinctIds(ids + [id]) && forall w :: w in ids + [id] <==> w in ids || w == id
  {
  }

  lemma SettleOne(settled: seq<Settlement>, st: Settlement)
    requires DistinctSettlements(settled) && !IsSettled(settled, st.id)
    ensures DistinctSettlements(settled + [st])
    ensures forall x :: IsSettled(settled + [st], x) <==> IsSettled(settled, x) || x == st.id
  {
    AppendDistinct(settled, [st]);
    forall x ensures IsSettled(settled + [st], x) <==> IsSettled(settled, x) || x == st.id {
      AppendSettled(settled, [st], x);
      assert [st][0].id == st.id;
    }
  }

  lemma ArriveSettlesOnce(r: Run, id: Id, key: string, overwrite: bool)
    requires WellFormed(r) && SettledOnce(r) && id !in r.h.place
    ensures SettledOnce(AfterArrival(r, id, key, overwrite))
  {
    if PlaceOnArrival(r.s, key, overwrite) == Done {
      SettleOne(r.s.settled, Settlement(id, Resolved(r.s.lru[key])));
    }
  }

  lemma ArriveTells(r: Run, id: Id, key: string, overwrite: bool)
    requires Inv(r) && id !in r.h.place
    ensures AllTold(AfterArrival(r, id, key, overwrite))
  {
    var r' := AfterArrival(r, id, key, overwrite);
    forall i | 0 <= i < |r'.s.settled| ensures Told(r'.h, r'.s.settled[i]) {
      if i < |r.s.settled| {
        OldToldOnArrival(r, id, key, overwrite, i);
      } else {
        HitTold(r, id, key, overwrite);
      }
    }
    ArriveKeepsResults(r, id, key, overwrite);
  }

  lemma OldToldOnArrival(r: Run, id: Id, key: string, overwrite: bool, i: int)
    requires SettledOnce(r) && AllTold(r) && WellFormed(r) && id !in r.h.place && 0 <= i < |r.s.settled|
    ensures Told(AfterArrival(r, id, key, overwrite).h, r.s.settled[i])
  {
    assert IsSettled(r.s.settled, r.s.settled[i].id) && Told(r.h, r.s.settled[i]);
  }

  lemma HitTold(r: Run, id: Id, key: string, overwrite: bool)
    requires WellFormed(r) && Joined(r) && AllTold(r) && id !in r.h.place
    requires PlaceOnArrival(r.s, key, overwrite) == Done
    ensures Told(AfterArrival(r, id, key, overwrite).h, Settlement(id, Resolved(r.s.lru[key])))
  {
  }

  lemma ArriveKeepsResults(r: Run, id: Id, key: string, overwrite: bool)
    requires WellFormed(r) && AllTold(r) && id !in r.h.place
    ensures var r' := AfterArrival(r, id, key, overwrite);
            (forall k :: k in r'.s.lru ==> (k, r'.s.lru[k]) in r'.h.made) &&
            (forall x :: x in r'.h.results ==> x in r'.h.place && r'.h.place[x] == Done)
  {
  }

  lemma ArriveKeepsJoined(r: Run, id: Id, key: string, overwrite: bool)
    requires WellFormed(r) && Joined(r) && id !in r.h.place
    ensures Joined(AfterArrival(r, id, key, overwrite))
  {
  }

  lemma EndKeepsCalls(r: Run, id: Id, outcome: Outcome)
    requires WellFormed(r) && Running(r) && Queued(r) && id in r.s.calls
    ensures WellFormed(AfterEnd(r, id, outcome)) && Running(AfterEnd(r, id, outcome))
  {
    assert forall w :: w in WaitersOf(r.s, id) ==> r.h.place[w] != Calling;
  }

  lemma EndKeepsQueues(r: Run, id: Id, outcome: Outcome)
    requires WellFormed(r) && Running(r) && Queued(r) && id in r.s.calls
    ensures Queued(AfterEnd(r, id, outcome))
  {
    assert forall w :: w in WaitersOf(r.s, id) ==> r.h.place[w] == Waiting(r.s.calls[id].key);
  }

  lemma EndSettlesOnce(r: Run, id: Id, outcome: Outcome)
    requires WellFormed(r) && Running(r) && Queued(r) && SettledOnce(r) && id in r.s.calls
    ensures SettledOnce(AfterEnd(r, id, outcome))
  {
    var waiters, told := WaitersOf(r.s, id), SettleAll(WaitersOf(r.s, id), ForWaiters(outcome));
    assert forall w :: w in waiters ==> r.h.place[w].Waiting?;
    WaitersSettled(r.s.settled, waiters, ForWaiters(outcome), id, outcome);
    assert AfterEnd(r, id, outcome).s.settled == r.s.settled + (told + [Settlement(id, outcome)]);
  }

  lemma WaitersSettled(settled: seq<Settlement>, waiters: seq<Id>, forWaiters: Outcome, id: Id, outcome: Outcome)
    requires DistinctSettlements(settled) && DistinctIds(waiters) && id !in waiters && !IsSettled(settled, id)
    requires forall w :: w in waiters ==> !IsSettled(settled, w)
    ensures var all := settled + (SettleAll(waiters, forWaiters) + [Settlement(id, outcome)]);
            DistinctSettlements(all) && forall x :: IsSettled(all, x) <==>
              IsSettled(settled, x) || x in waiters || x == id
  {
    var told := SettleAll(waiters, forWaiters);
    forall i, j | 0 <= i < |settled| && 0 <= j < |told|
      ensures settled[i].id != told[j].id
    {
      assert IsSettled(settled, settled[i].id) && waiters[j] in waiters;
    }
    AppendDistinct(settled, told);
    forall x ensures IsSettled(settled + told, x) <==> IsSettled(settled, x) || x in waiters {
      AppendSettled(settled, told, x);
      SettleAllIds(waiters, forWaiters, x);
    }
    SettleOne(settled + told, Settlement(id, outcome));
    assert settled + (told + [Settlement(id, outcome)]) == (settled + told) + [Settlement(id, outcome)];
  }

  lemma SettleAllIds(ids: seq<Id>, outcome: Outcome, x: Id)
    ensures IsSettled(SettleAll(ids, outcome), x) <==> x in ids
  {
    if i :| 0 <= i < |ids| && ids[i] == x { assert SettleAll(ids, outcome)[i].id == x; }
  }

  lemma EndKeepsJoined(r: Run, id: Id, outcome: Outcome)
    requires Inv(r) && id in r.s.calls
    ensures Joined(AfterEnd(r, id, outcome))
  {
  }

  lemma EndTells(r: Run, id: Id, outcome: Outcome)
    requires Inv(r) && id in r.s.calls
    ensures AllTold(AfterEnd(r, id, outcome))
  {
    var r' := AfterEnd(r, id, outcome);
    forall i | 0 <= i < |r'.s.settled| ensures Told(r'.h, r'.s.settled[i]) {
      var n, waiters := |r.s.settled|, WaitersOf(r.s, id);
      if i < n {
        OldTold(r, id, outcome, i);
      } else if i < n + |waiters| {
        assert r'.s.settled[i] == SettleAll(waiters, ForWaiters(outcome))[i - n];
        WaiterTold(r, id, outcome, waiters[i - n]);
      } else {
        OwnTold(r, id, outcome);
      }
    }
    EndResultsDone(r, id, outcome);
  }

  lemma WaiterTold(r: Run, id: Id, outcome: Outcome, w: Id)
    requires Inv(r) && id in r.s.calls && w in WaitersOf(r.s, id)
    ensures Told(AfterEnd(r, id, outcome).h, Settlement(w, ForWaiters(outcome)))
  {
    assert r.h.place[w] == Waiting(r.s.calls[id].key);
  }

  lemma OwnTold(r: Run, id: Id, outcome: Outcome)
    requires Inv(r) && id in r.s.calls
    ensures Told(AfterEnd(r, id, outcome).h, Settlement(id, outcome))
  {
  }

  lemma EndResultsDone(r: Run, id: Id, outcome: Outcome)
    requires Inv(r) && id in r.s.calls
    ensures var r' := AfterEnd(r, id, outcome);
            (forall k :: k in r'.s.lru ==> (k, r'.s.lru[k]) in r'.h.made) &&
            (forall x :: x in r'.h.results ==> x in r'.h.place && r'.h.place[x] == Done)
  {
  }

  lemma OldTold(r: Run, id: Id, outcome: Outcome, i: int)
    requires Inv(r) && id in r.s.calls && 0 <= i < |r.s.settled|
    ensures Told(AfterEnd(r, id, outcome).h, r.s.settled[i])
  {
    var st := r.s.settled[i];
    assert Told(r.h, st) && IsSettled(r.s.settled, st.id);
  }

  /** No step, at any interleaving, breaks the invariant. */
  lemma StepKeepsInv(r: Run, e: Event)
    requires Inv(r) && Enabled(r, e)
    ensures Inv(Step(r, e))
  {
    match e
    case Arrive(id, key, overwrite) =>
      ArriveKeepsCalls(r, id, key, overwrite);
      ArriveKeepsQueues(r, id, key, overwrite);
      ArriveSettlesOnce(r, id, key, overwrite);
      ArriveTells(r, id, key, overwrite);
      ArriveKeepsJoined(r, id, key, overwrite);
    case Return(id, value) => EndKeepsInv(r, id, Resolved(value));
    case Throw(id, reason) => EndKeepsInv(r, id, Rejected(reason));
    case Evict(key) =>
  }

  lemma EndKeepsInv(r: Run, id: Id, outcome: Outcome)
    requires Inv(r) && id in r.s.calls
    ensures Inv(AfterEnd(r, id, outcome))
  {
    EndKeepsCalls(r, id, outcome);
    EndKeepsQueues(r, id, outcome);
    EndSettlesOnce(r, id, outcome);
    EndKeepsJoined(r, id, outcome);
    EndTells(r, id, outcome);
  }

  // ---------- theorems over runs ----------

  predicate Possible(r: Run, events: seq<Event>)
    decreases |events|
  {
    events == [] || (Enabled(r, events[0]) && Possible(Step(r, events[0]), events[1..]))
  }

  /** The run of a sequence of events: any interleaving of arrivals, returns, throws and evictions. */
  function Exec(r: Run, events: seq<Event>): Run
    requires Possible(r, events)
    decreases |events|
  {
    if events == [] then r else Exec(Step(r, events[0]), events[1..])
  }

  lemma {:induction false} RunKeepsInv(r: Run, events: seq<Event>)
    requires Inv(r) && Possible(r, events)
    ensures Inv(Exec(r, events))
    decreases |events|
  {
    if events != [] {
      StepKeepsInv(r, events[0]);
      RunKeepsInv(Step(r, events[0]), events[1..]);
    }
  }

  /** A key is queued exactly while one leader computes it, and never two. */
  lemma OneLeaderPerQueuedKey(events: seq<Event>, key: string)
    requires Possible(Start(), events)
    ensures var s := Exec(Start(), events).s;
            (key in s.queued <==> exists id :: id in s.calls && s.calls[id] == Leader(key)) &&
            (forall i, j :: i in s.calls && j in s.calls && s.calls[i] == Leader(key) && s.calls[j] == Leader(key) ==>
              i == j)
  {
    RunKeepsInv(Start(), events);
    var r := Exec(Start(), events);
    if key in r.s.queued { assert r.s.calls[r.h.leaderOf[key]] == Leader(key); }
  }

  /** Nobody is settled twice; a request that joined a leader is told that leader's outcome, unless
      that was a falsy rejection, once the leader has ended, and until then the leader is still running
      with the request in its queue. */
  lemma WaitersFollowTheirLeader(events: seq<Event>, w: Id)
    requires Possible(Start(), events) && w in Exec(Start(), events).h.joined
    ensures var r := Exec(Start(), events);
            var leader := r.h.joined[w];
            DistinctSettlements(r.s.settled) &&
            if IsSettled(r.s.settled, w) then
              leader in r.h.results && Settlement(w, ForWaiters(r.h.results[leader])) in r.s.settled &&
              (ForWaiters(r.h.results[leader]) == r.h.results[leader] <==> r.h.results[leader] != Rejected(Falsy))
            else
              leader in r.s.calls && r.s.calls[leader].Leader? && r.s.calls[leader].key in r.s.queued &&
              w in r.s.queued[r.s.calls[leader].key]
  {
    RunKeepsInv(Start(), events);
    var r := Exec(Start(), events);
    if IsSettled(r.s.settled, w) {
      var i :| 0 <= i < |r.s.settled| && r.s.settled[i].id == w;
      assert Told(r.h, r.s.settled[i]);
    }
  }

  /** When no handler is running, every request that ever arrived has been settled. */
  lemma NobodyLeftWaiting(events: seq<Event>, id: Id)
    requires Possible(Start(), events) && Exec(Start(), events).s.calls == map[]
    requires id in Exec(Start(), events).h.place
    ensures IsSettled(Exec(Start(), events).s.settled, id)
  {
    RunKeepsInv(Start(), events);
  }

  /** Every cached value was returned by a handler called for that key. */
  lemma CachedValuesWereReturned(events: seq<Event>, key: string)
    requires Possible(Start(), events) && key in Exec(Start(), events).s.lru
    ensures (key, Exec(Start(), events).s.lru[key]) in Exec(Start(), events).h.made
    ensures exists i, j :: 0 <= i < j < |events| && events[i].Arrive? && events[i].key == key &&
                           events[j] == Return(events[i].id, Exec(Start(), events).s.lru[key])
  {
    RunKeepsInv(Start(), events);
    MadeByEvents(events, key, Exec(Start(), events).s.lru[key]);
  }

  /** A request answered from the cache was told a value that a call for its own key returned. */
  lemma HitsWereReturned(events: seq<Event>, n: nat, st: Settlement)
    requires Possible(Start(), events) && n < |events| && events[n].Arrive? && events[n].id == st.id
    requires st in Exec(Start(), events).s.settled
    requires st.id !in Exec(Start(), events).h.joined && st.id !in Exec(Start(), events).h.results
    ensures st.outcome.Resolved? &&
            exists i, j :: 0 <= i < j < |events| && events[i].Arrive? && events[i].key == events[n].key &&
                           events[j] == Return(events[i].id, st.outcome.value)
  {
    RunKeepsInv(Start(), events);
    AskedForKey(events, n);
    var i :| 0 <= i < |Exec(Start(), events).s.settled| && Exec(Start(), events).s.settled[i] == st;
    assert Told(Exec(Start(), events).h, st);
    MadeByEvents(events, events[n].key, st.outcome.value);
  }

  // ---------- what is served, and who runs a handler ----------

  /** The run before event `n`. */
  ghost function Before(events: seq<Event>, n: nat): Run
    requires n <= |events| && Possible(Start(), events[..n])
  {
    Exec(Start(), events[..n])
  }

  /** `e` leaves what is cached for `key` alone: no eviction of the key, no return of a call for it. */
  ghost predicate Spares(events: seq<Event>, key: string, e: Event) {
    && e != Evict(key)
    && (e.Return? ==> forall i :: 0 <= i < |events| && events[i].Arrive? && events[i].id == e.id ==>
                                    events[i].key != key)
  }

  /** A value some call returned is served to every plain request for its key that arrives later, until
      the key is evicted or another call for it returns. */
  lemma ReturnIsServed(events: seq<Event>, i: nat, j: nat, n: nat)
    requires Possible(Start(), events) && i < j < n < |events|
    requires events[i].Arrive? && events[j].Return? && events[j].id == events[i].id && events[j].value != Undefined
    requires forall m :: j < m < n ==> Spares(events, events[i].key, events[m])
    requires events[n].Arrive? && events[n].key == events[i].key && !events[n].overwrite
    ensures Possible(Start(), events[..n]) && Possible(Start(), events[..n + 1])
    ensures Before(events, n + 1).s.settled ==
            Before(events, n).s.settled + [Settlement(events[n].id, Resolved(events[j].value))]
    ensures Before(events, n + 1).s.calls == Before(events, n).s.calls
  {
    PrefixStep(events, n);
    StaysCached(events, i, j, n);
  }

  /** An undefined result is never served: the next plain request waits or runs its own handler. */
  lemma UndefinedIsNotServed(events: seq<Event>, i: nat, j: nat, n: nat)
    requires Possible(Start(), events) && i < j < n < |events|
    requires events[i].Arrive? && events[j].Return? && events[j].id == events[i].id && events[j].value == Undefined
    requires forall m :: j < m < n ==> Spares(events, events[i].key, events[m])
    requires events[n].Arrive? && events[n].key == events[i].key && !events[n].overwrite
    ensures Possible(Start(), events[..n]) && Possible(Start(), events[..n + 1])
    ensures Before(events, n + 1).s.settled == Before(events, n).s.settled
  {
    PrefixStep(events, n);
    StaysCached(events, i, j, n);
  }

  lemma {:induction false} StaysCached(events: seq<Event>, i: nat, j: nat, n: nat)
    requires Possible(Start(), events) && i < j < n <= |events|
    requires events[i].Arrive? && events[j].Return? && events[j].id == events[i].id
    requires forall m :: j < m < n ==> Spares(events, events[i].key, events[m])
    ensures Possible(Start(), events[..n])
    ensures var lru := Before(events, n).s.lru; events[i].key in lru && lru[events[i].key] == events[j].value
    decreases n
  {
    PrefixStep(events, n - 1);
    if j == n - 1 {
      CallHasItsArrival(events, i, j);
      ReturnIsCached(Before(events, j), events[j]);
    } else {
      StaysCached(events, i, j, n - 1);
      assert Spares(events, events[i].key, events[n - 1]);
      if events[n - 1].Return? { ReturnedCallArrived(events, n - 1); }
      SparedStaysCached(Before(events, n - 1), events[n - 1], events[i].key);
    }
  }

  lemma ReturnIsCached(r: Run, e: Event)
    requires Enabled(r, e) && e.Return?
    ensures var key, lru := r.s.calls[e.id].key, Step(r, e).s.lru; key in lru && lru[key] == e.value
  {
  }

  lemma SparedStaysCached(r: Run, e: Event, key: string)
    requires Enabled(r, e) && key in r.s.lru && e != Evict(key)
    requires e.Return? ==> r.s.calls[e.id].key != key
    ensures key in Step(r, e).s.lru && Step(r, e).s.lru[key] == r.s.lru[key]
  {
  }

  /** The key of a returning call is one it arrived with. */
  lemma ReturnedCallArrived(events: seq<Event>, m: nat)
    requires Possible(Start(), events) && m < |events| && events[m].Return?
    ensures Possible(Start(), events[..m]) && events[m].id in Before(events, m).s.calls
    ensures exists i :: 0 <= i < m && events[i].Arrive? && events[i].id == events[m].id &&
                        events[i].key == Before(events, m).s.calls[events[m].id].key
  {
    PrefixStep(events, m);
    var i := CallsArrived(events[..m], events[m].id);
    assert events[..m][i] == events[i];
  }

  /** A running call came by the one arrival of its request: for its key, and overwriting or not. */
  lemma CallHasItsArrival(events: seq<Event>, i: nat, n: nat)
    requires Possible(Start(), events) && i < n <= |events| && events[i].Arrive? && Possible(Start(), events[..n])
    requires events[i].id in Before(events, n).s.calls
    ensures Before(events, n).s.calls[events[i].id] ==
            if events[i].overwrite then Overwriter(events[i].key) else Leader(events[i].key)
  {
    var a := CallsArrived(events[..n], events[i].id);
    assert events[..n][a] == events[a];
    if a < i { ArrivesOnce(events, a, i); }
    if i < a { ArrivesOnce(events, i, a); }
  }

  /** No request arrives twice. */
  lemma ArrivesOnce(events: seq<Event>, i: nat, j: nat)
    requires Possible(Start(), events) && i < j < |events| && events[i].Arrive? && events[j].Arrive?
    ensures events[i].id != events[j].id
  {
    PrefixStep(events, j);
    assert events[..j][i] == events[i];
    AskedForKey(events[..j], i);
  }

  /** An overwriting request is never answered on arrival, whatever is cached or queued: it runs its own
      handler, and whatever that returns is what it is told. */
  lemma OverwriteRunsItsHandler(events: seq<Event>, n: nat, v: Value)
    requires Possible(Start(), events) && n < |events| && events[n].Arrive? && events[n].overwrite
    ensures Possible(Start(), events[..n]) && Possible(Start(), events[..n + 1])
    ensures var was, r := Before(events, n).s, Before(events, n + 1);
            r.s.settled == was.settled && r.s.lru == was.lru && r.s.queued == was.queued &&
            events[n].id !in was.calls && r.s.calls.Keys == was.calls.Keys + {events[n].id} &&
            Enabled(r, Return(events[n].id, v)) &&
            Step(r, Return(events[n].id, v)).s.settled == was.settled + [Settlement(events[n].id, Resolved(v))]
  {
    PrefixStep(events, n);
    RunKeepsInv(Start(), events[..n]);
    var r := Before(events, n + 1);
    assert SettleAll(WaitersOf(r.s, events[n].id), Resolved(v)) == [];
  }

  /** One handler at a time: while a plain request's handler runs, a further plain request for the key
      starts none. It is answered at once or waits for that handler. */
  lemma SecondRequestWaits(events: seq<Event>, i: nat, n: nat)
    requires Possible(Start(), events) && i < n < |events|
    requires events[i].Arrive? && events[n].Arrive? && events[i].key == events[n].key
    requires !events[i].overwrite && !events[n].overwrite
    requires Possible(Start(), events[..n]) && events[i].id in Before(events, n).s.calls
    ensures Possible(Start(), events[..n + 1]) && Before(events, n + 1).s.calls == Before(events, n).s.calls
    ensures var r := Before(events, n + 1);
            IsSettled(r.s.settled, events[n].id) ||
            (events[n].id in r.h.joined && r.h.joined[events[n].id] == events[i].id)
  {
    PrefixStep(events, n);
    RunKeepsInv(Start(), events[..n]);
    CallHasItsArrival(events, i, n);
    var r := Before(events, n + 1);
    if PlaceOnArrival(Before(events, n).s, events[n].key, false) == Done {
      assert r.s.settled[|r.s.settled| - 1].id == events[n].id;
    }
  }

  /** A request whose handler returns is told what it returned; one whose handler throws is told that,
      and nothing is cached. */
  lemma CallersAreTold(events: seq<Event>, n: nat)
    requires Possible(Start(), events) && n < |events|
    ensures Possible(Start(), events[..n]) && Possible(Start(), events[..n + 1])
    ensures events[n].Return? ==> Settlement(events[n].id, Resolved(events[n].value)) in Before(events, n + 1).s.settled
    ensures events[n].Throw? ==> Settlement(events[n].id, Rejected(events[n].reason)) in Before(events, n + 1).s.settled
    ensures events[n].Throw? ==> Before(events, n + 1).s.lru == Before(events, n).s.lru
  {
    PrefixStep(events, n);
  }

  lemma {:induction false} PrefixStep(events: seq<Event>, n: nat)
    requires Possible(Start(), events) && n < |events|
    ensures Possible(Start(), events[..n]) && Possible(Start(), events[..n + 1])
    ensures Enabled(Before(events, n), events[n])
    ensures Before(events, n + 1) == Step(Before(events, n), events[n])
    decreases |events| - n
  {
    if n + 1 < |events| {
      PrefixStep(events, n + 1);
    } else {
      assert events[..n + 1] == events;
    }
    assert events[..n + 1] == events[..n] + [events[n]];
    ExecSnoc(Start(), events[..n], events[n]);
  }

  // ---------- what the history means ----------

  /** The key recorded for a request is the one it arrived with. */
  lemma {:induction false} AskedForKey(events: seq<Event>, n: nat)
    requires Possible(Start(), events) && n < |events| && events[n].Arrive?
    ensures var h := Exec(Start(), events).h;
            events[n].id in h.place && events[n].id in h.asked && h.asked[events[n].id] == events[n].key
    decreases |events|
  {
    var front, e := events[..|events| - 1], events[|events| - 1];
    assert events == front + [e];
    ExecSnoc(Start(), front, e);
    if n < |front| {
      assert front[n] == events[n];
      AskedForKey(front, n);
      AskedStays(Exec(Start(), front), e, events[n].id);
    }
  }

  lemma AskedStays(r: Run, e: Event, id: Id)
    requires Enabled(r, e) && id in r.h.place && id in r.h.asked
    ensures var h := Step(r, e).h; id in h.place && id in h.asked && h.asked[id] == r.h.asked[id]
  {
  }

  lemma {:induction false} ExecSnoc(r: Run, events: seq<Event>, e: Event)
    requires Possible(r, events + [e])
    ensures Possible(r, events) && Enabled(Exec(r, events), e)
    ensures Exec(r, events + [e]) == Step(Exec(r, events), e)
    decreases |events|
  {
    if events != [] {
      assert (events + [e])[1..] == events[1..] + [e];
      ExecSnoc(Step(r, events[0]), events[1..], e);
    } else {
      assert events + [e] == [e];
      assert [e][1..] == [];
    }
  }

  /** A running call arrived for its key. */
  lemma {:induction false} CallsArrived(events: seq<Event>, id: Id) returns (i: nat)
    requires Possible(Start(), events) && id in Exec(Start(), events).s.calls
    ensures i < |events| && events[i].Arrive? && events[i].id == id
    ensures Exec(Start(), events).s.calls[id] ==
            if events[i].overwrite then Overwriter(events[i].key) else Leader(events[i].key)
    decreases |events|
  {
    var front, e := events[..|events| - 1], events[|events| - 1];
    assert events == front + [e];
    ExecSnoc(Start(), front, e);
    var before := Exec(Start(), front);
    RunKeepsInv(Start(), front);
    CallStarted(before, e, id);
    if id in before.s.calls {
      i := CallsArrived(front, id);
      assert events[i] == front[i];
    } else {
      i := |front|;
    }
  }

  /** A call in the new state was running before, or its request has just arrived. */
  lemma CallStarted(r: Run, e: Event, id: Id)
    requires Inv(r) && Enabled(r, e) && id in Step(r, e).s.calls
    ensures id in r.s.calls ==> Step(r, e).s.calls[id] == r.s.calls[id]
    ensures id !in r.s.calls ==>
              e.Arrive? && e.id == id &&
              Step(r, e).s.calls[id] == if e.overwrite then Overwriter(e.key) else Leader(e.key)
  {
  }

  /** A value made for a key was returned by a call that had arrived for it. */
  lemma {:induction false} MadeByEvents(events: seq<Event>, key: string, v: Value)
    requires Possible(Start(), events) && (key, v) in Exec(Start(), events).h.made
    ensures exists i, j :: 0 <= i < j < |events| && events[i].Arrive? && events[i].key == key &&
                           events[j] == Return(events[i].id, v)
    decreases |events|
  {
    if events != [] {
      var front, e := events[..|events| - 1], events[|events| - 1];
      assert events == front + [e];
      ExecSnoc(Start(), front, e);
      if (key, v) in Exec(Start(), front).h.made {
        MadeByEvents(front, key, v);
        var i, j :| 0 <= i < j < |front| && front[i].Arrive? && front[i].key == key &&
                    front[j] == Return(front[i].id, v);
        assert events[i] == front[i] && events[j] == front[j];
      } else {
        var i := CallsArrived(front, e.id);
        assert events[i] == front[i] && events[|front|] == e;
      }
    }
  }

  /** A handler rejecting with a falsy reason rejects its own request but resolves the waiter. */
  lemma FalsyErrorResolvesWaiters()
    ensures var events := [Arrive(0, "k", false), Arrive(1, "k", false), Throw(0, Falsy)];
            Possible(Start(), events) &&
            Exec(Start(), events).s.settled == [Settlement(1, Resolved(Null)), Settlement(0, Rejected(Falsy))]
  {
    var a, b, c := Arrive(0, "k", false), Arrive(1, "k", false), Throw(0, Falsy);
    var r1 := Step(Start(), a);
    var r2 := Step(r1, b);
    var r3 := Step(r2, c);
    assert r1.s.queued == map["k" := []] && r1.s.calls == map[0 := Leader("k")];
    assert r2.s.queued["k"] == [1];
    assert r3.s.settled == [Settlement(1, Resolved(Null)), Settlement(0, Rejected(Falsy))];
    assert [a, b, c][1..] == [b, c] && [b, c][1..] == [c] && [c][1..] == [];
    assert Possible(r2, [c]) && Exec(r2, [c]) == r3;
    assert Possible(r1, [b, c]) && Exec(r1, [b, c]) == r3;
  }
}
