/** One worker process: its table of active tasks, its per-scope semaphores and its cache of scope
    keys. With three streams it is the insights worker, with one the stats worker. */
module Worker {
  import opened Basics
  import opened Streams
  import opened Envelopes

  datatype Config = Config(streams: nat, concurrency: int, maxPerScope: nat)

  datatype Task =
    | Resolving                       // scope key not yet known
    | Waiting(key: string)            // on the semaphore of its scope
    | Running(sem: Option<string>)    // in the handler; None: no semaphore
    | Finished

  /** `_active_tasks` is keyed by message id alone, whatever the stream. */
  type Tasks = map<Id, Task>

  /** A message handed to _spawn; an unreadable one is no envelope of any kind. */
  datatype Arrival = Arrival(id: Id, readable: bool)

  datatype State = State(recovered: nat, active: Tasks, permits: map<string, nat>)

  datatype Event =
    | Recover(batch: seq<Arrival>)             // _recover_pending of the next stream
    | Poll(batches: seq<seq<Arrival>>)         // one round of the run loop: reap, XREADGROUP, spawn
    | Resolve(id: Id, key: Option<string>)
    | Acquire(id: Id)
    | Finish(id: Id)                      // handler over, or the task cancelled

  function Spawned(active: Tasks, a: Arrival): Tasks {
    if !a.readable || a.id in active then active else active[a.id := Resolving]
  }

  /** The ids that are acknowledged and dropped. */
  function Dropped(batch: seq<Arrival>): seq<Id> {
    if batch == [] then [] else (if batch[0].readable then [] else [batch[0].id]) + Dropped(batch[1..])
  }

  function DroppedEach(batches: seq<seq<Arrival>>): seq<Id> {
    if batches == [] then [] else Dropped(batches[0]) + DroppedEach(batches[1..])
  }

  function SpawnedAll(active: Tasks, batch: seq<Arrival>): Tasks
    decreases batch
  {
    if batch == [] then active else SpawnedAll(Spawned(active, batch[0]), batch[1..])
  }

  function SpawnedEach(active: Tasks, batches: seq<seq<Arrival>>): Tasks
    decreases batches
  {
    if batches == [] then active else SpawnedEach(SpawnedAll(active, batches[0]), batches[1..])
  }

  function Reaped(active: Tasks): Tasks {
    map id | id in active && !active[id].Finished? :: active[id]
  }

  function Slots(cfg: Config, active: Tasks): int {
    cfg.concurrency - |Reaped(active)|
  }

  /** XREADGROUP's COUNT, like XAUTOCLAIM's, holds for each stream by itself. */
  predicate Fits(batches: seq<seq<Arrival>>, streams: nat, slots: int) {
    |batches| <= streams && forall i :: 0 <= i < |batches| ==> |batches[i]| <= slots
  }

  /** `semaphores.setdefault(key, Semaphore(max_per_scope))`. */
  function Permits(cfg: Config, s: State, key: string): nat {
    if key in s.permits then s.permits[key] else cfg.maxPerScope
  }

  predicate Enabled(cfg: Config, s: State, e: Event) {
    match e
    case Recover(batch) => s.recovered < cfg.streams && |batch| <= cfg.concurrency
    case Poll(batches) =>
      s.recovered == cfg.streams
      && if Slots(cfg, s.active) <= 0 then batches == [] else Fits(batches, cfg.streams, Slots(cfg, s.active))
    case Resolve(id, _) => id in s.active && s.active[id].Resolving?
    case Acquire(id) => id in s.active && s.active[id].Waiting? && Permits(cfg, s, s.active[id].key) > 0
    case Finish(id) => id in s.active && !s.active[id].Finished?
  }

  function Next(cfg: Config, s: State, e: Event): State
    requires Enabled(cfg, s, e)
  {
    match e
    case Recover(batch) => s.(recovered := s.recovered + 1, active := SpawnedAll(s.active, batch))
    case Poll(batches) => s.(active := SpawnedEach(Reaped(s.active), batches))
    case Resolve(id, key) =>
      if key.Some? && key.value != "" then
        s.(active := s.active[id := Waiting(key.value)],
           permits := s.permits[key.value := Permits(cfg, s, key.value)])
      else s.(active := s.active[id := Running(None)])
    case Acquire(id) =>
      var key := s.active[id].key;
      s.(active := s.active[id := Running(Some(key))], permits := s.permits[key := Permits(cfg, s, key) - 1])
    case Finish(id) =>
      var s' := s.(active := s.active[id := Finished]);
      if s.active[id].Running? && s.active[id].sem.Some?
      then s'.(permits := s.permits[s.active[id].sem.value := Permits(cfg, s, s.active[id].sem.value) + 1])
      else s'
  }

  const INITIAL := State(0, map[], map[])

  predicate Run(cfg: Config, s: State, events: seq<Event>)
    decreases events
  {
    events == [] || (Enabled(cfg, s, events[0]) && Run(cfg, Next(cfg, s, events[0]), events[1..]))
  }

  function After(cfg: Config, s: State, events: seq<Event>): State
    requires Run(cfg, s, events)
    decreases events
  {
    if events == [] then s else After(cfg, Next(cfg, s, events[0]), events[1..])
  }

  // ---- Active tasks --------------------------------------------------------------------------

  lemma {:induction false} SpawnedSize(active: Tasks, batch: seq<Arrival>)
    ensures |active| <= |SpawnedAll(active, batch)| <= |active| + |batch|
    ensures forall id :: id in SpawnedAll(active, batch) <==> id in active || Arrival(id, true) in batch
    ensures forall id :: id in SpawnedAll(active, batch) ==>
      SpawnedAll(active, batch)[id] == if id in active then active[id] else Resolving
    decreases batch
  {
    if batch != [] {
      var next := Spawned(active, batch[0]);
      assert batch[0].readable && batch[0].id !in active ==> next.Keys == active.Keys + {batch[0].id};
      assert |next.Keys| == |next| && |active.Keys| == |active|;
      SpawnedSize(next, batch[1..]);
      assert forall a :: a in batch <==> a == batch[0] || a in batch[1..];
    }
  }

  lemma {:induction false} SpawnedEachSize(active: Tasks, batches: seq<seq<Arrival>>, slots: nat)
    requires Fits(batches, |batches|, slots)
    ensures |SpawnedEach(active, batches)| <= |active| + |batches| * slots
    ensures var all := SpawnedEach(active, batches);
      && (forall id :: id in active ==> id in all && all[id] == active[id])
      && (forall id :: id in all && id !in active ==> all[id] == Resolving)
    decreases batches
  {
    if batches != [] {
      SpawnedSize(active, batches[0]);
      SpawnedEachSize(SpawnedAll(active, batches[0]), batches[1..], slots);
      assert |batches| * slots == (|batches| - 1) * slots + slots;
    }
  }

  lemma {:induction false} DroppedExactly(batch: seq<Arrival>, id: Id)
    ensures multiset(Dropped(batch))[id] == multiset(batch)[Arrival(id, false)]
  {
    if batch != [] {
      var first := if batch[0].readable then [] else [batch[0].id];
      DroppedExactly(batch[1..], id);
      assert batch == [batch[0]] + batch[1..];
      assert multiset(Dropped(batch)) == multiset(first) + multiset(Dropped(batch[1..]));
    }
  }

  lemma {:induction false} DroppedEachExactly(batches: seq<seq<Arrival>>, id: Id)
    ensures id in DroppedEach(batches) <==> exists batch <- batches :: Arrival(id, false) in batch
  {
    if batches != [] {
      DroppedEachExactly(batches[1..], id);
      DroppedExactly(batches[0], id);
      assert id in Dropped(batches[0]) <==> id in multiset(Dropped(batches[0]));
      assert forall batch :: batch in batches <==> batch == batches[0] || batch in batches[1..];
      assert multiset(batches[0])[Arrival(id, false)] > 0 <==> Arrival(id, false) in batches[0];
      assert DroppedEach(batches) == Dropped(batches[0]) + DroppedEach(batches[1..]);
    }
  }

  lemma {:induction false} SpawnedEachExactly(active: Tasks, batches: seq<seq<Arrival>>, id: Id)
    ensures id in SpawnedEach(active, batches)
            <==> id in active || exists batch <- batches :: Arrival(id, true) in batch
    decreases batches
  {
    if batches != [] {
      SpawnedSize(active, batches[0]);
      SpawnedEachExactly(SpawnedAll(active, batches[0]), batches[1..], id);
      assert forall batch :: batch in batches <==> batch == batches[0] || batch in batches[1..];
    }
  }

  predicate ArrivesIn(e: Event, id: Id) {
    match e
    case Recover(batch) => Arrival(id, true) in batch
    case Poll(batches) => exists batch <- batches :: Arrival(id, true) in batch
    case _ => false
  }

  /** A message has a task exactly from its arrival until its finished task is reaped by a poll; an
      arrival under the id of an active task changes nothing. */
  lemma TableExactly(cfg: Config, s: State, e: Event, id: Id)
    requires Enabled(cfg, s, e)
    ensures var kept := id in s.active && !(e.Poll? && s.active[id].Finished?);
      && (id in Next(cfg, s, e).active <==> kept || ArrivesIn(e, id))
      && (!kept && ArrivesIn(e, id) ==> Next(cfg, s, e).active[id] == Resolving)
      && (kept && (e.Recover? || e.Poll?) ==> Next(cfg, s, e).active[id] == s.active[id])
  {
    match e
    case Recover(batch) => SpawnedSize(s.active, batch);
    case Poll(batches) =>
      SpawnedEachExactly(Reaped(s.active), batches, id);
      if batches != [] {
        SpawnedEachSize(Reaped(s.active), batches, Slots(cfg, s.active));
      }
    case _ =>
  }

  predicate Bounded(cfg: Config, s: State) {
    s.recovered <= cfg.streams && |s.active| <= s.recovered * Cap(cfg)
  }

  function Cap(cfg: Config): nat {
    if cfg.concurrency <= 0 then 0 else cfg.concurrency
  }

  lemma ReapedSize(active: Tasks)
    ensures |Reaped(active)| <= |active|
  {
    assert Reaped(active).Keys <= active.Keys;
    SubsetSize(Reaped(active).Keys, active.Keys);
  }

  lemma PollArithmetic(streams: nat, batches: nat, slots: nat, running: nat, total: nat)
    requires 1 <= batches <= streams && total == running + slots
    ensures running + batches * slots <= streams * total
  {
    assert streams * total == streams * running + streams * slots;
    Product(batches, streams, slots);
    Product(1, streams, running);
  }

  lemma PollSize(cfg: Config, active: Tasks, batches: seq<seq<Arrival>>)
    requires batches != [] && Slots(cfg, active) > 0 && Fits(batches, cfg.streams, Slots(cfg, active))
    ensures |SpawnedEach(Reaped(active), batches)| <= cfg.streams * Cap(cfg)
  {
    var slots, running := Slots(cfg, active), Reaped(active);
    SpawnedEachCount(running, batches, slots);
    PollArithmetic(cfg.streams, |batches|, slots, |running|, Cap(cfg));
  }

  lemma SpawnedEachCount(active: Tasks, batches: seq<seq<Arrival>>, slots: nat)
    requires Fits(batches, |batches|, slots)
    ensures |SpawnedEach(active, batches)| <= |active| + |batches| * slots
  {
    SpawnedEachSize(active, batches, slots);
  }

  lemma PollBounded(cfg: Config, s: State, batches: seq<seq<Arrival>>)
    requires Bounded(cfg, s) && Enabled(cfg, s, Poll(batches))
    ensures Bounded(cfg, Next(cfg, s, Poll(batches)))
  {
    ReapedSize(s.active);
    if batches != [] {
      PollSize(cfg, s.active, batches);
    }
  }

  lemma OneMore(a: nat, c: nat)
    ensures (a + 1) * c == a * c + c
  {
  }

  lemma RecoverBounded(cfg: Config, s: State, batch: seq<Arrival>)
    requires Bounded(cfg, s) && Enabled(cfg, s, Recover(batch))
    ensures Bounded(cfg, Next(cfg, s, Recover(batch)))
  {
    SpawnedSize(s.active, batch);
    OneMore(s.recovered, Cap(cfg));
  }

  lemma SameTasks(cfg: Config, s: State, e: Event)
    requires Enabled(cfg, s, e) && !e.Recover? && !e.Poll?
    ensures Next(cfg, s, e).active.Keys == s.active.Keys && Next(cfg, s, e).recovered == s.recovered
  {
  }

  lemma BoundedStep(cfg: Config, s: State, e: Event)
    requires Bounded(cfg, s) && Enabled(cfg, s, e)
    ensures Bounded(cfg, Next(cfg, s, e))
  {
    match e
    case Recover(batch) => RecoverBounded(cfg, s, batch);
    case Poll(batches) => PollBounded(cfg, s, batches);
    case _ =>
      SameTasks(cfg, s, e);
      SameSize(s.active, Next(cfg, s, e).active);
  }

  lemma SameSize(a: Tasks, b: Tasks)
    requires a.Keys == b.Keys
    ensures |a| == |b|
  {
    assert |a| == |a.Keys| && |b| == |b.Keys|;
  }

  lemma {:induction false} BoundedAlways(cfg: Config, s: State, events: seq<Event>)
    requires Bounded(cfg, s) && Run(cfg, s, events)
    ensures Bounded(cfg, After(cfg, s, events))
    decreases events
  {
    if events != [] {
      BoundedStep(cfg, s, events[0]);
      BoundedAlways(cfg, Next(cfg, s, events[0]), events[1..]);
    }
  }

  /** Startup recovery and COUNT both apply per stream, so the bound is |streams| * concurrency. */
  lemma ActiveTasksBounded(cfg: Config, events: seq<Event>)
    requires Run(cfg, INITIAL, events)
    ensures |After(cfg, INITIAL, events).active| <= cfg.streams * Cap(cfg)
  {
    BoundedAlways(cfg, INITIAL, events);
    Product(After(cfg, INITIAL, events).recovered, cfg.streams, Cap(cfg));
  }

  lemma Product(a: nat, b: nat, c: nat)
    requires a <= b
    ensures a * c <= b * c
  {
  }

  /** A full batch of ids that no other stream's batch holds. */
  function Claimed(cfg: Config, stream: nat): seq<Arrival> {
    seq(Cap(cfg), i requires 0 <= i < Cap(cfg) => Arrival(Id(stream, i), true))
  }

  lemma RecoverFull(cfg: Config, s: State) returns (s': State)
    requires cfg.concurrency > 0 && s.recovered < cfg.streams
    requires forall id :: id in s.active ==> id.ms < s.recovered
    ensures Enabled(cfg, s, Recover(Claimed(cfg, s.recovered)))
    ensures s' == Next(cfg, s, Recover(Claimed(cfg, s.recovered)))
    ensures |s'.active| == |s.active| + Cap(cfg)
    ensures forall id :: id in s'.active ==> id.ms < s'.recovered
  {
    var batch := Claimed(cfg, s.recovered);
    s' := Next(cfg, s, Recover(batch));
    FreshBatch(s.active, batch);
    SpawnedSize(s.active, batch);
  }

  /** Two recoveries that each claim as much as they may. */
  lemma TwoRecoveries(cfg: Config) returns (events: seq<Event>)
    requires cfg.concurrency > 0 && cfg.streams >= 2
    ensures Run(cfg, INITIAL, events) && |After(cfg, INITIAL, events).active| == Cap(cfg) + Cap(cfg)
  {
    var s1 := RecoverFull(cfg, INITIAL);
    var s2 := RecoverFull(cfg, s1);
    var b := Recover(Claimed(cfg, s1.recovered));
    Prefixed(cfg, s1, b, []);
    Prefixed(cfg, INITIAL, Recover(Claimed(cfg, 0)), [b] + []);
    events := [Recover(Claimed(cfg, 0))] + ([b] + []);
  }

  lemma Prefixed(cfg: Config, s: State, e: Event, rest: seq<Event>)
    requires Enabled(cfg, s, e) && Run(cfg, Next(cfg, s, e), rest)
    ensures Run(cfg, s, [e] + rest) && After(cfg, s, [e] + rest) == After(cfg, Next(cfg, s, e), rest)
  {
    assert ([e] + rest)[1..] == rest;
  }

  lemma {:induction false} FreshBatch(active: Tasks, batch: seq<Arrival>)
    requires forall a <- batch :: a.readable && a.id !in active
    requires forall i, j :: 0 <= i < j < |batch| ==> batch[i].id != batch[j].id
    ensures |SpawnedAll(active, batch)| == |active| + |batch|
    decreases batch
  {
    if batch != [] {
      var next := Spawned(active, batch[0]);
      assert next.Keys == active.Keys + {batch[0].id};
      assert |next.Keys| == |next| && |active.Keys| == |active|;
      FreshBatch(next, batch[1..]);
    }
  }

  function FullFrom(cfg: Config, stream: nat): seq<seq<Arrival>>
    decreases cfg.streams - stream
  {
    if stream >= cfg.streams then [] else [Claimed(cfg, stream)] + FullFrom(cfg, stream + 1)
  }

  lemma {:induction false} FullFromFits(cfg: Config, stream: nat)
    requires stream <= cfg.streams && cfg.concurrency >= 0
    ensures Fits(FullFrom(cfg, stream), cfg.streams - stream, cfg.concurrency)
    decreases cfg.streams - stream
  {
    if stream < cfg.streams {
      FullFromFits(cfg, stream + 1);
    }
  }

  lemma {:induction false} FullFromSpawns(cfg: Config, stream: nat, active: Tasks)
    requires stream <= cfg.streams && forall id :: id in active ==> id.ms < stream
    ensures |SpawnedEach(active, FullFrom(cfg, stream))| == |active| + (cfg.streams - stream) * Cap(cfg)
    decreases cfg.streams - stream
  {
    if stream < cfg.streams {
      var batch := Claimed(cfg, stream);
      FreshBatch(active, batch);
      SpawnedSize(active, batch);
      FullFromSpawns(cfg, stream + 1, SpawnedAll(active, batch));
      assert (cfg.streams - stream) * Cap(cfg) == (cfg.streams - (stream + 1)) * Cap(cfg) + Cap(cfg);
    }
  }

  /** The bound of |streams| * concurrency is reached: an idle worker's next poll may bring that much. */
  lemma OnePollReachesBound(cfg: Config, s: State)
    requires s.recovered == cfg.streams && s.active == map[] && cfg.concurrency > 0
    ensures Enabled(cfg, s, Poll(FullFrom(cfg, 0)))
    ensures |Next(cfg, s, Poll(FullFrom(cfg, 0))).active| == cfg.streams * Cap(cfg)
  {
    assert Reaped(s.active) == map[];
    FullFromFits(cfg, 0);
    FullFromSpawns(cfg, 0, map[]);
  }

  /** `worker_concurrency` caps the active tasks of every run, if and only if the worker consumes at
      most one stream (or the setting allows no task at all). */
  lemma ConcurrencyIsCapExactly(cfg: Config)
    ensures (forall events :: Run(cfg, INITIAL, events) ==> |After(cfg, INITIAL, events).active| <= Cap(cfg))
            <==> cfg.streams <= 1 || cfg.concurrency <= 0
  {
    if cfg.streams <= 1 || cfg.concurrency <= 0 {
      forall events | Run(cfg, INITIAL, events) ensures |After(cfg, INITIAL, events).active| <= Cap(cfg) {
        ActiveTasksBounded(cfg, events);
      }
    } else {
      var events := TwoRecoveries(cfg);
      assert Run(cfg, INITIAL, events) && |After(cfg, INITIAL, events).active| > Cap(cfg);
    }
  }

  // ---- Handlers per scope --------------------------------------------------------------------

  function RunningOn(active: Tasks, key: string): set<Id> {
    set id | id in active && active[id] == Running(Some(key))
  }

  ghost predicate PermitsTrue(cfg: Config, s: State) {
    forall key :: PermitSum(cfg, s, key) == cfg.maxPerScope
  }

  lemma BatchRunsNone(cfg: Config, s: State, e: Event, key: string)
    requires Enabled(cfg, s, e) && (e.Recover? || e.Poll?)
    ensures RunningOn(Next(cfg, s, e).active, key) == RunningOn(s.active, key)
  {
    match e
    case Recover(batch) => SpawnedSize(s.active, batch);
    case Poll(batches) =>
      if batches != [] {
        SpawnedEachSize(Reaped(s.active), batches, Slots(cfg, s.active));
      }
    case _ =>
  }

  function PermitSum(cfg: Config, s: State, key: string): int {
    |RunningOn(s.active, key)| + Permits(cfg, s, key)
  }

  lemma ResolvePermits(cfg: Config, s: State, id: Id, resolved: Option<string>, key: string)
    requires Enabled(cfg, s, Resolve(id, resolved))
    ensures PermitSum(cfg, Next(cfg, s, Resolve(id, resolved)), key) == PermitSum(cfg, s, key)
  {
    assert RunningOn(Next(cfg, s, Resolve(id, resolved)).active, key) == RunningOn(s.active, key);
  }

  lemma AcquirePermits(cfg: Config, s: State, id: Id, key: string)
    requires Enabled(cfg, s, Acquire(id))
    ensures PermitSum(cfg, Next(cfg, s, Acquire(id)), key) == PermitSum(cfg, s, key)
  {
    var was, now := RunningOn(s.active, key), RunningOn(Next(cfg, s, Acquire(id)).active, key);
    assert id !in was;
    assert now == if s.active[id].key == key then was + {id} else was;
  }

  lemma FinishPermits(cfg: Config, s: State, id: Id, key: string)
    requires Enabled(cfg, s, Finish(id))
    ensures PermitSum(cfg, Next(cfg, s, Finish(id)), key) == PermitSum(cfg, s, key)
  {
    var was, now := RunningOn(s.active, key), RunningOn(Next(cfg, s, Finish(id)).active, key);
    assert id in was <==> s.active[id] == Running(Some(key));
    assert now == was - {id};
  }

  lemma BatchPermits(cfg: Config, s: State, e: Event, key: string)
    requires Enabled(cfg, s, e) && (e.Recover? || e.Poll?)
    ensures PermitSum(cfg, Next(cfg, s, e), key) == PermitSum(cfg, s, key)
  {
    BatchRunsNone(cfg, s, e, key);
  }

  lemma PermitsStep(cfg: Config, s: State, e: Event, key: string)
    requires Enabled(cfg, s, e)
    ensures PermitSum(cfg, Next(cfg, s, e), key) == PermitSum(cfg, s, key)
  {
    match e
    case Resolve(id, resolved) => ResolvePermits(cfg, s, id, resolved, key);
    case Acquire(id) => AcquirePermits(cfg, s, id, key);
    case Finish(id) => FinishPermits(cfg, s, id, key);
    case _ => BatchPermits(cfg, s, e, key);
  }

  lemma {:induction false} PermitsAlways(cfg: Config, s: State, events: seq<Event>)
    requires PermitsTrue(cfg, s) && Run(cfg, s, events)
    ensures PermitsTrue(cfg, After(cfg, s, events))
    decreases events
  {
    if events != [] {
      forall key ensures PermitSum(cfg, Next(cfg, s, events[0]), key) == cfg.maxPerScope {
        PermitsStep(cfg, s, events[0], key);
      }
      PermitsAlways(cfg, Next(cfg, s, events[0]), events[1..]);
    }
  }

  /** At most `max_per_graph` handlers run at once for one resolved scope key, and the semaphore
      has exactly the permits that are not in use. */
  lemma HandlersPerScopeBounded(cfg: Config, events: seq<Event>, key: string)
    requires Run(cfg, INITIAL, events)
    ensures var s := After(cfg, INITIAL, events);
      |RunningOn(s.active, key)| <= cfg.maxPerScope
      && Permits(cfg, s, key) == cfg.maxPerScope - |RunningOn(s.active, key)|
  {
    assert forall k :: RunningOn(INITIAL.active, k) == {};
    PermitsAlways(cfg, INITIAL, events);
    assert PermitSum(cfg, After(cfg, INITIAL, events), key) == cfg.maxPerScope;
  }

  // ---- Which handlers go through a semaphore ---------------------------------------------------

  /** The key that a message id was last resolved to, given what it was before the events. */
  function LastKey(events: seq<Event>, id: Id, before: Option<string>): Option<string>
    decreases events
  {
    if events == [] then before
    else LastKey(events[1..], id, if events[0].Resolve? && events[0].id == id then events[0].key else before)
  }

  /** A key that stands for a scope; None and the empty key stand for none. */
  predicate Scoped(key: Option<string>) {
    key.Some? && key.value != ""
  }

  /** A task waits for, or runs with, the semaphore of the key it was resolved to, if that is one. */
  predicate Obeys(active: Tasks, id: Id, key: Option<string>) {
    id in active ==>
      match active[id]
      case Waiting(k) => Scoped(key) && key.value == k
      case Running(sem) => sem == if Scoped(key) then key else None
      case _ => true
  }

  lemma ObeysStep(cfg: Config, s: State, e: Event, id: Id, key: Option<string>)
    requires Enabled(cfg, s, e) && Obeys(s.active, id, key)
    ensures Obeys(Next(cfg, s, e).active, id, if e.Resolve? && e.id == id then e.key else key)
  {
    match e
    case Recover(batch) => SpawnedSize(s.active, batch);
    case Poll(batches) =>
      if batches != [] {
        SpawnedEachSize(Reaped(s.active), batches, Slots(cfg, s.active));
      }
    case _ =>
  }

  lemma {:induction false} ObeysAlways(cfg: Config, s: State, events: seq<Event>, id: Id, before: Option<string>)
    requires Run(cfg, s, events) && Obeys(s.active, id, before)
    ensures Obeys(After(cfg, s, events).active, id, LastKey(events, id, before))
    decreases events
  {
    if events != [] {
      var key := if events[0].Resolve? && events[0].id == id then events[0].key else before;
      ObeysStep(cfg, s, events[0], id, before);
      ObeysAlways(cfg, Next(cfg, s, events[0]), events[1..], id, key);
    }
  }

  /** In any run a handler runs without a semaphore exactly when its message was resolved to no key,
      or to the empty one. */
  lemma UnlimitedExactly(cfg: Config, events: seq<Event>, id: Id)
    requires Run(cfg, INITIAL, events)
    requires var active := After(cfg, INITIAL, events).active; id in active && active[id].Running?
    ensures After(cfg, INITIAL, events).active[id].sem.None? <==> !Scoped(LastKey(events, id, None))
    ensures Scoped(LastKey(events, id, None)) ==>
      After(cfg, INITIAL, events).active[id].sem == LastKey(events, id, None)
  {
    ObeysAlways(cfg, INITIAL, events, id, None);
  }

  /** A message resolved to no scope is in its handler at once; one of a scope is exactly when the
      scope has a free permit, and takes that one. */
  lemma EntersWhenFree(cfg: Config, s: State, id: Id, key: Option<string>)
    requires Enabled(cfg, s, Resolve(id, key))
    ensures var s' := Next(cfg, s, Resolve(id, key));
      if !Scoped(key) then s'.active[id] == Running(None) && s'.permits == s.permits
      else
        (Enabled(cfg, s', Acquire(id)) <==> Permits(cfg, s, key.value) > 0)
        && (Enabled(cfg, s', Acquire(id)) ==>
              Next(cfg, s', Acquire(id)).active[id] == Running(key)
              && Permits(cfg, Next(cfg, s', Acquire(id)), key.value) == Permits(cfg, s, key.value) - 1)
  {
  }

  /** Whatever it is at, a task can end; a handler gives its permit back, the next poll forgets the
      task, and the id may come again. */
  lemma TaskCanEnd(cfg: Config, s: State, id: Id)
    requires s.recovered == cfg.streams && id in s.active && !s.active[id].Finished?
    ensures Enabled(cfg, s, Finish(id))
    ensures var s' := Next(cfg, s, Finish(id));
      && (forall key ::
            Permits(cfg, s', key) == Permits(cfg, s, key) + if s.active[id] == Running(Some(key)) then 1 else 0)
      && (Enabled(cfg, s', Poll([])) ==> id !in Next(cfg, s', Poll([])).active)
  {
  }

  function HandlersOf(cfg: Config, events: seq<Event>, key: string): set<Id>
    requires Run(cfg, INITIAL, events)
  {
    var active := After(cfg, INITIAL, events).active;
    set id | id in active && active[id].Running? && LastKey(events, id, None) == Some(key)
  }

  /** The cap on a scope is real: in any run, the handlers at work whose messages were resolved to
      one key number at most `max_per_graph`. */
  lemma ResolvedHandlersBounded(cfg: Config, events: seq<Event>, key: string)
    requires Run(cfg, INITIAL, events) && key != ""
    ensures |HandlersOf(cfg, events, key)| <= cfg.maxPerScope
  {
    var running := RunningOn(After(cfg, INITIAL, events).active, key);
    forall id | id in HandlersOf(cfg, events, key) ensures id in running {
      ObeysAlways(cfg, INITIAL, events, id, None);
    }
    SubsetSize(HandlersOf(cfg, events, key), running);
    HandlersPerScopeBounded(cfg, events, key);
  }

  // ---- The consumer object -------------------------------------------------------------------

  class InsightsJobConsumer {
    const cfg: Config
    var active: Tasks
    var dropped: seq<Id>        // acknowledged without a task

    constructor (cfg: Config)
      ensures this.cfg == cfg && active == map[] && dropped == []
    {
      this.cfg, active, dropped := cfg, map[], [];
    }

    /** An unreadable message is acknowledged and dropped; an id that is active stays as it is. */
    method Spawn(a: Arrival)
      modifies this`active, this`dropped
      ensures active == Spawned(old(active), a)
      ensures dropped == old(dropped) + if a.readable then [] else [a.id]
    {
      if !a.readable {
        dropped := dropped + [a.id];
        return;
      }
      if a.id in active {
        return;
      }
      active := active[a.id := Resolving];
    }

    method SpawnBatch(batch: seq<Arrival>)
      modifies this`active, this`dropped
      ensures active == SpawnedAll(old(active), batch) && dropped == old(dropped) + Dropped(batch)
    {
      var i := 0;
      while i < |batch|
        invariant i <= |batch| && SpawnedAll(active, batch[i..]) == SpawnedAll(old(active), batch)
        invariant dropped + Dropped(batch[i..]) == old(dropped) + Dropped(batch)
      {
        Spawn(batch[i]);
        i := i + 1;
      }
    }

    /** Exactly the finished tasks leave the table. */
    method ReapDoneTasks()
      modifies this`active
      ensures active == Reaped(old(active))
    {
      ghost var before := active;
      var done := set id | id in active && active[id].Finished?;
      while done != {}
        invariant forall id :: id in active <==> id in before && (id in done || !before[id].Finished?)
        invariant forall id :: id in active ==> active[id] == before[id]
        invariant forall id :: id in done ==> id in before && before[id].Finished?
        decreases done
      {
        var id :| id in done;
        active := active - {id};
        done := done - {id};
      }
    }

    /** One round of the run loop; `arrived` answers the XREADGROUP with its per-stream COUNT. */
    method PollOnce(arrived: seq<seq<Arrival>>)
      requires Slots(cfg, active) > 0 ==> Fits(arrived, cfg.streams, Slots(cfg, active))
      modifies this`active, this`dropped
      ensures active == SpawnedEach(Reaped(old(active)), if Slots(cfg, old(active)) > 0 then arrived else [])
      ensures dropped == old(dropped) + DroppedEach(if Slots(cfg, old(active)) > 0 then arrived else [])
    {
      ReapDoneTasks();
      var slots := cfg.concurrency - |active|;
      if slots <= 0 {
        return;
      }
      ghost var reaped := active;
      var i := 0;
      while i < |arrived|
        invariant i <= |arrived| && SpawnedEach(active, arrived[i..]) == SpawnedEach(reaped, arrived)
        invariant dropped + DroppedEach(arrived[i..]) == old(dropped) + DroppedEach(arrived)
      {
        SpawnBatch(arrived[i]);
        i := i + 1;
      }
    }
  }

  // ---- The scope-key cache ---------------------------------------------------------------------

  const CACHE_MAX := 1024

  /** The data source's row in the database, or a failed query. */
  datatype Lookup = Failed | NoRow | Found(provider: string, graph: string)

  /** The semaphore key a lookup resolves to. */
  function KeyOf(ds: string, l: Lookup): Option<string> {
    match l
    case Found(provider, graph) =>
      if provider != "" && graph != "" then Some(provider + ":" + graph)
      else if provider != "" then Some(provider)
      else Some(ds)
    case _ => None
  }

  /** Two sources on providers, whose ids hold no colon, share a semaphore exactly when they are the
      same graph of the same provider. */
  lemma SameKeyExactly(ds: string, ds': string, a: Lookup, b: Lookup)
    requires a.Found? && b.Found? && a.provider != "" && b.provider != ""
    requires ':' !in a.provider && ':' !in b.provider
    ensures KeyOf(ds, a) == KeyOf(ds', b) <==> a == b
  {
    var p, q := a.provider, b.provider;
    assert p + ":" + a.graph == p + (":" + a.graph) && q + ":" + b.graph == q + (":" + b.graph);
    if a.graph != "" && b.graph != "" {
      if KeyOf(ds, a) == KeyOf(ds', b) {
        FirstPart(':', p, a.graph, q, b.graph);
      }
    } else if a.graph != "" {
      assert (p + ":" + a.graph)[|p|] == ':';
    } else if b.graph != "" {
      assert (q + ":" + b.graph)[|q|] == ':';
    }
  }

  /** A source whose row names no provider is limited by itself alone, one without a row not at all. */
  lemma LoneSource(ds: string, ds': string, a: Lookup, b: Lookup)
    requires a.Found? && b.Found? && a.provider == "" && b.provider == ""
    ensures KeyOf(ds, a) == KeyOf(ds', b) <==> ds == ds'
    ensures ds != "" ==> Scoped(KeyOf(ds, a))
    ensures !Scoped(KeyOf(ds, NoRow)) && !Scoped(KeyOf(ds, Failed))
  {
  }

  /** A stats or purge job on a graph shares its semaphore with exactly the discovery jobs of that
      graph. */
  lemma DiscoveryShares(ds: string, provider: string, graph: string, e: Envelope)
    requires e.DiscoveryJob? && provider != "" && graph != "" && ':' !in provider && ':' !in e.provider
    ensures KeyOf(ds, Found(provider, graph)) == Some(ScopeKey(e)) <==> e.provider == provider && e.asset == graph
  {
    assert provider + ":" + graph == provider + (":" + graph) && ScopeKey(e) == e.provider + (":" + e.asset);
    if provider + ":" + graph == ScopeKey(e) {
      FirstPart(':', provider, graph, e.provider, e.asset);
    }
  }

  /** `_scope_key_cache`, a dict with its insertion order. */
  class ScopeKeyCache {
    var keys: map<string, Option<string>>
    var order: seq<string>

    ghost predicate Valid()
      reads this
    {
      && |order| <= CACHE_MAX
      && (forall i, j :: 0 <= i < j < |order| ==> order[i] != order[j])
      && (forall ds :: ds in keys <==> ds in order)
    }

    /** Every cached key is what the database `db` says now. */
    ghost predicate Agrees(db: string -> Lookup)
      reads this
    {
      forall ds :: ds in keys ==> !db(ds).Failed? && keys[ds] == KeyOf(ds, db(ds))
    }

    constructor ()
      ensures Valid() && keys == map[]
    {
      keys, order := map[], [];
    }

    /** The insertion after a miss; in between, another task may have inserted the same source. */
    method Store(ds: string, key: Option<string>)
      requires Valid()
      modifies this
      ensures Valid() && ds in keys && keys[ds] == key
      ensures forall x :: x in keys && x != ds ==> x in old(keys) && keys[x] == old(keys[x])
      ensures var full := |old(order)| >= CACHE_MAX;
        && keys == (if full then old(keys) - {old(order)[0]} else old(keys))[ds := key]
        && order == (var kept := if full then old(order)[1..] else old(order); if ds in kept then kept else kept + [ds])
    {
      if |order| >= CACHE_MAX {
        var oldest := order[0];
        keys := keys - {oldest};
        order := order[1..];
      }
      if ds !in keys {
        order := order + [ds];
      }
      keys := keys[ds := key];
    }

    /** With the database unchanged the answer is the one the database gives, cached or not; a
        failed query answers None and caches nothing. */
    method ResolveScopeLockKey(e: Envelope, answer: Lookup, ghost db: string -> Lookup) returns (key: Option<string>)
      requires Valid() && Agrees(db)
      requires !e.DiscoveryJob? ==> answer == Failed || answer == db(e.dataSource)
      modifies this
      ensures Valid() && Agrees(db)
      ensures e.DiscoveryJob? ==> key == Some(ScopeKey(e)) && keys == old(keys)
      ensures !e.DiscoveryJob? && (e.dataSource in old(keys) || answer != Failed) ==>
        key == KeyOf(e.dataSource, db(e.dataSource)) && e.dataSource in keys
      ensures !e.DiscoveryJob? && e.dataSource !in old(keys) && answer == Failed ==> key == None && keys == old(keys)
    {
      if e.DiscoveryJob? {
        return Some(ScopeKey(e));
      }
      var ds := e.dataSource;
      if ds in keys {
        return keys[ds];
      }
      if answer.Failed? {
        return None;
      }
      key := KeyOf(ds, answer);
      Store(ds, key);
    }

    /** The bound on the cache is a bound on the number of cached sources. */
    lemma CacheSize()
      requires Valid()
      ensures |keys| <= CACHE_MAX
    {
      assert keys.Keys == set ds | ds in order;
      DistinctCount(order);
      assert |keys| == |keys.Keys|;
    }
  }

  lemma {:induction false} DistinctCount(s: seq<string>)
    ensures |set x | x in s| <= |s|
    decreases s
  {
    if s == [] {
      assert (set x | x in s) == {};
    } else {
      assert (set x | x in s) == (set x | x in s[1..]) + {s[0]};
      DistinctCount(s[1..]);
    }
  }
}
