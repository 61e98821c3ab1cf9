/** The backfill that stamps levels on aggregated edges until none is stale. */
module Backfill {
  import opened Basics

  type LevelMap = map<string, int>

  /** An aggregated edge: the first label of each end, and its stamp. */
  datatype Edge = Edge(source: Option<string>, target: Option<string>, stamp: Option<Stamp>)

  datatype Stamp = Stamp(sourceLevel: int, targetLevel: int, digest: string)

  const UNKNOWN_LEVEL := -1

  /** The level of a label; a missing label or a label that the map does not hold is unknown. */
  function Level(m: LevelMap, name: Option<string>): int {
    if name.Some? && name.value in m then m[name.value] else UNKNOWN_LEVEL
  }

  predicate Stale(e: Edge, digest: string) {
    e.stamp.None? || e.stamp.value.digest != digest
  }

  function Stamped(e: Edge, m: LevelMap, digest: string): Edge {
    e.(stamp := Some(Stamp(Level(m, e.source), Level(m, e.target), digest)))
  }

  function StaleCount(edges: seq<Edge>, digest: string): nat {
    if edges == [] then 0 else (if Stale(edges[0], digest) then 1 else 0) + StaleCount(edges[1..], digest)
  }

  /** What every edge looks like once none is stale. */
  function AllStamped(edges: seq<Edge>, m: LevelMap, digest: string): (r: seq<Edge>)
    ensures |r| == |edges|
    ensures forall i :: 0 <= i < |edges| ==>
        r[i] == (if Stale(edges[i], digest) then Stamped(edges[i], m, digest) else edges[i])
  {
    seq(|edges|, i requires 0 <= i < |edges| =>
      if Stale(edges[i], digest) then Stamped(edges[i], m, digest) else edges[i])
  }

  /** `after` is `before` with some of its stale edges stamped. */
  predicate PartlyStamped(before: seq<Edge>, after: seq<Edge>, m: LevelMap, digest: string) {
    && |after| == |before|
    && forall i :: 0 <= i < |before| ==>
        after[i] == before[i] || (Stale(before[i], digest) && after[i] == Stamped(before[i], m, digest))
  }

  lemma {:induction false} CountPositive(edges: seq<Edge>, digest: string)
    ensures StaleCount(edges, digest) <= |edges|
    ensures StaleCount(edges, digest) > 0 <==> exists i :: 0 <= i < |edges| && Stale(edges[i], digest)
  {
    if edges != [] {
      CountPositive(edges[1..], digest);
      if StaleCount(edges[1..], digest) > 0 {
        var i :| 0 <= i < |edges[1..]| && Stale(edges[1..][i], digest);
        assert Stale(edges[i + 1], digest);
      }
      if i :| 0 <= i < |edges| && Stale(edges[i], digest) {
        assert i > 0 ==> Stale(edges[1..][i - 1], digest);
      }
    }
  }

  lemma {:induction false} StampingCounts(edges: seq<Edge>, i: nat, e: Edge, digest: string)
    requires i < |edges| && Stale(edges[i], digest) && !Stale(e, digest)
    ensures StaleCount(edges[i := e], digest) == StaleCount(edges, digest) - 1
    decreases i
  {
    if i == 0 {
      assert edges[0 := e][1..] == edges[1..];
    } else {
      assert edges[i := e][1..] == edges[1..][i - 1 := e];
      StampingCounts(edges[1..], i - 1, e, digest);
    }
  }

  // ---- One run --------------------------------------------------------------------------------

  /** One chunk: up to `limit` stale edges are stamped, and which ones is left open. */
  method BackfillChunk(edges: array<Edge>, m: LevelMap, digest: string, limit: nat) returns (updated: nat)
    modifies edges
    ensures PartlyStamped(old(edges[..]), edges[..], m, digest)
    ensures StaleCount(edges[..], digest) == StaleCount(old(edges[..]), digest) - updated
    ensures updated == if StaleCount(old(edges[..]), digest) < limit then StaleCount(old(edges[..]), digest) else limit
    ensures updated == 0 ==> edges[..] == old(edges[..])
  {
    updated := 0;
    ghost var before := edges[..];
    CountPositive(before, digest);
    while updated < limit && exists i :: 0 <= i < edges.Length && Stale(edges[i], digest)
      invariant updated <= limit && (updated == 0 ==> edges[..] == before)
      invariant PartlyStamped(before, edges[..], m, digest)
      invariant StaleCount(edges[..], digest) == StaleCount(before, digest) - updated
      decreases limit - updated
    {
      ghost var now := edges[..];
      var i :| 0 <= i < edges.Length && Stale(edges[i], digest);
      assert now[i] == edges[i] && edges[i] == before[i];
      edges[i] := Stamped(edges[i], m, digest);
      assert edges[..] == now[i := Stamped(now[i], m, digest)];
      StampingCounts(now, i, Stamped(now[i], m, digest), digest);
      updated := updated + 1;
    }
    CountPositive(edges[..], digest);
    assert forall i :: 0 <= i < edges.Length ==> edges[i] == edges[..][i];
  }

  /** The whole run. Unless the batch size is 0 it ends with every edge stamped, each stale edge
      exactly once and the fresh ones untouched; `total` is the number that was stale. */
  method Backfill(edges: array<Edge>, m: LevelMap, digest: string, batch: nat) returns (total: nat, chunks: nat)
    modifies edges
    ensures batch > 0 ==>
        && edges[..] == AllStamped(old(edges[..]), m, digest)
        && total == StaleCount(old(edges[..]), digest)
        && (chunks - 2) * batch < total <= (chunks - 1) * batch
    ensures batch == 0 ==> edges[..] == old(edges[..]) && total == 0 && chunks == 1
  {
    ghost var before := edges[..];
    total, chunks := 0, 0;
    while true
      invariant PartlyStamped(before, edges[..], m, digest)
      invariant StaleCount(edges[..], digest) == StaleCount(before, digest) - total
      invariant total == chunks * batch || StaleCount(edges[..], digest) == 0
      invariant total <= chunks * batch
      invariant chunks > 0 ==> (chunks - 1) * batch < total
      invariant batch == 0 ==> chunks == 0 && edges[..] == before
      decreases StaleCount(edges[..], digest)
    {
      ghost var was := edges[..];
      var updated := BackfillChunk(edges, m, digest, batch);
      PartlyTwice(before, was, edges[..], m, digest);
      total := total + updated;
      chunks := chunks + 1;
      assert chunks * batch == (chunks - 1) * batch + batch;
      if updated == 0 {
        assert batch > 0 && chunks > 1 ==> (chunks - 2) * batch < total;
        break;
      }
    }
    if batch > 0 {
      CountPositive(edges[..], digest);
      assert edges[..] == AllStamped(before, m, digest);
    }
  }

  lemma PartlyTwice(a: seq<Edge>, b: seq<Edge>, c: seq<Edge>, m: LevelMap, digest: string)
    requires PartlyStamped(a, b, m, digest) && PartlyStamped(b, c, m, digest)
    ensures PartlyStamped(a, c, m, digest)
  {
  }

  // ---- Over any runs and ontology edits -------------------------------------------------------

  /** Chunks of any runs with any maps, in any order, among new and deleted edges. */
  datatype Event =
    | Chunk(m: LevelMap, chosen: set<nat>)
    | Ingest(source: Option<string>, target: Option<string>)
    | Delete(i: nat)

  type Digest = LevelMap -> string

  predicate Enabled(edges: seq<Edge>, digest: Digest, e: Event) {
    match e
    case Chunk(m, chosen) => forall i <- chosen :: i < |edges| && Stale(edges[i], digest(m))
    case Ingest(_, _) => true
    case Delete(i) => i < |edges|
  }

  function Next(edges: seq<Edge>, digest: Digest, e: Event): seq<Edge>
    requires Enabled(edges, digest, e)
  {
    match e
    case Chunk(m, chosen) =>
      seq(|edges|, i requires 0 <= i < |edges| =>
        if i in chosen then Stamped(edges[i], m, digest(m)) else edges[i])
    case Ingest(source, target) => edges + [Edge(source, target, None)]
    case Delete(i) => edges[..i] + edges[i + 1..]
  }

  predicate Run(edges: seq<Edge>, digest: Digest, events: seq<Event>)
    decreases events
  {
    events == [] || (Enabled(edges, digest, events[0]) && Run(Next(edges, digest, events[0]), digest, events[1..]))
  }

  function After(edges: seq<Edge>, digest: Digest, events: seq<Event>): seq<Edge>
    requires Run(edges, digest, events)
    decreases events
  {
    if events == [] then edges else After(Next(edges, digest, events[0]), digest, events[1..])
  }

  /** A stamp with a map's digest holds that map's levels. */
  ghost predicate Honest(e: Edge, digest: Digest) {
    forall m: LevelMap :: e.stamp.Some? && e.stamp.value.digest == digest(m) ==>
      e == Stamped(e, m, digest(m))
  }

  ghost predicate AllHonest(edges: seq<Edge>, digest: Digest) {
    forall i :: 0 <= i < |edges| ==> Honest(edges[i], digest)
  }

  /** Maps with the same digest give every label the same level. */
  ghost predicate TellsApart(digest: Digest) {
    forall a: LevelMap, b: LevelMap, name :: digest(a) == digest(b) ==> Level(a, name) == Level(b, name)
  }

  /** Every change a chunk of a run makes is one step of this machine. */
  lemma ChunkIsStep(before: seq<Edge>, after: seq<Edge>, m: LevelMap, digest: Digest)
    requires PartlyStamped(before, after, m, digest(m))
    ensures exists chosen ::
        Enabled(before, digest, Chunk(m, chosen)) && Next(before, digest, Chunk(m, chosen)) == after
  {
    var chosen := set i: nat | i < |before| && Stale(before[i], digest(m)) && after[i] != before[i];
    assert Enabled(before, digest, Chunk(m, chosen));
    assert Next(before, digest, Chunk(m, chosen)) == after;
  }

  lemma StampedIsHonest(e: Edge, m: LevelMap, digest: Digest)
    requires TellsApart(digest)
    ensures Honest(Stamped(e, m, digest(m)), digest)
  {
    var s := Stamped(e, m, digest(m));
    forall other: LevelMap | s.stamp.value.digest == digest(other) ensures s == Stamped(s, other, digest(other)) {
      assert Level(other, e.source) == Level(m, e.source) && Level(other, e.target) == Level(m, e.target);
    }
  }

  lemma StepKeepsHonest(edges: seq<Edge>, digest: Digest, e: Event)
    requires TellsApart(digest) && AllHonest(edges, digest) && Enabled(edges, digest, e)
    ensures AllHonest(Next(edges, digest, e), digest)
  {
    var next := Next(edges, digest, e);
    match e
    case Chunk(m, chosen) =>
      forall i | 0 <= i < |next| ensures Honest(next[i], digest) {
        StampedIsHonest(edges[i], m, digest);
      }
    case Ingest(_, _) =>
    case Delete(k) =>
      forall i | 0 <= i < |next| ensures Honest(next[i], digest) {
        assert next[i] == edges[if i < k then i else i + 1];
      }
  }

  lemma {:induction false} RunKeepsHonest(edges: seq<Edge>, digest: Digest, events: seq<Event>)
    requires TellsApart(digest) && AllHonest(edges, digest) && Run(edges, digest, events)
    ensures AllHonest(After(edges, digest, events), digest)
    decreases events
  {
    if events != [] {
      StepKeepsHonest(edges, digest, events[0]);
      RunKeepsHonest(Next(edges, digest, events[0]), digest, events[1..]);
    }
  }

  ghost predicate HonestAfter(digest: Digest, events: seq<Event>) {
    Run([], digest, events) ==> AllHonest(After([], digest, events), digest)
  }

  /** Two maps that share a digest but not a level: one stamp is enough to be wrong. */
  lemma SharedDigestMisleads(digest: Digest, a: LevelMap, b: LevelMap, name: Option<string>)
    returns (events: seq<Event>)
    requires digest(a) == digest(b) && Level(a, name) != Level(b, name)
    ensures !HonestAfter(digest, events)
  {
    var bare := Edge(name, name, None);
    var stamped := Stamped(bare, a, digest(a));
    var ingest, chunk := Ingest(name, name), Chunk(a, {0});
    events := [ingest, chunk];
    assert Next([], digest, ingest) == [bare];
    assert Next([bare], digest, chunk) == [stamped];
    assert [chunk][1..] == [] && events[1..] == [chunk];
    assert Run([stamped], digest, []) && Run([bare], digest, [chunk]) && Run([], digest, events);
    assert After([], digest, events) == After([bare], digest, [chunk]) == [stamped];
    assert stamped != Stamped(stamped, b, digest(b));
    assert !Honest([stamped][0], digest);
  }

  /** Stamps are right over all runs and edits exactly when the digest tells maps apart that give
      some label different levels; SHA-256 of the map is taken to do so. */
  lemma HonestExactly(digest: Digest)
    ensures TellsApart(digest) <==> forall events :: HonestAfter(digest, events)
  {
    if TellsApart(digest) {
      forall events | Run([], digest, events) ensures AllHonest(After([], digest, events), digest) {
        RunKeepsHonest([], digest, events);
      }
    } else {
      var a: LevelMap, b: LevelMap, name :| digest(a) == digest(b) && Level(a, name) != Level(b, name);
      var events := SharedDigestMisleads(digest, a, b, name);
    }
  }

  /** After a run with a map, filtering by stamped levels finds exactly the edges whose labels have
      those levels, whatever maps earlier runs stamped. */
  lemma FilterAfterBackfill(edges: seq<Edge>, m: LevelMap, digest: Digest, x: int, y: int, i: nat)
    requires AllHonest(edges, digest) && i < |edges|
    ensures var e := AllStamped(edges, m, digest(m))[i];
      && e.stamp.Some?
      && ((e.stamp.value.sourceLevel == x && e.stamp.value.targetLevel == y)
          <==> Level(m, edges[i].source) == x && Level(m, edges[i].target) == y)
  {
    assert Honest(edges[i], digest);
  }

  // ---- What the script's header says ------------------------------------------------------------

  predicate Known(m: LevelMap, name: Option<string>) {
    name.Some? && name.value in m
  }

  /** With no negative levels in the map, a filter for a real level never finds an unknown label. */
  lemma UnknownIsNoLevel(m: LevelMap, name: Option<string>)
    requires forall l <- m :: m[l] >= 0
    ensures Level(m, name) >= 0 <==> Known(m, name)
    ensures Known(m, name) ==> Level(m, name) == m[name.value]
  {
  }

  /** The levels as documented: both unknown as soon as one label is. */
  function Documented(e: Edge, m: LevelMap): (int, int) {
    if Known(m, e.source) && Known(m, e.target) then (Level(m, e.source), Level(m, e.target))
    else (UNKNOWN_LEVEL, UNKNOWN_LEVEL)
  }

  /** The stamp of an edge is the documented one, except where exactly one label is known and its
      level is a real one: that end is stamped by itself. */
  lemma DocumentedExactly(e: Edge, m: LevelMap, digest: string)
    ensures var stamp := Stamped(e, m, digest).stamp.value;
      (stamp.sourceLevel, stamp.targetLevel) == Documented(e, m)
      <==> (Known(m, e.source) <==> Known(m, e.target))
           || (Level(m, e.source) == UNKNOWN_LEVEL && Level(m, e.target) == UNKNOWN_LEVEL)
  {
  }

  /** A level filter on known levels finds an edge by one end although the header says it cannot. */
  lemma HalfKnownIsFound(m: LevelMap, name: string, digest: string) returns (e: Edge)
    requires name in m && m[name] != UNKNOWN_LEVEL
    ensures Documented(e, m) == (UNKNOWN_LEVEL, UNKNOWN_LEVEL)
    ensures Stamped(e, m, digest).stamp == Some(Stamp(m[name], UNKNOWN_LEVEL, digest))
  {
    e := Edge(Some(name), None, None);
  }
}
