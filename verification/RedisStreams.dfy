/** The Redis wiring of the insights service, operation by operation: claims, XADD, the
    dead-letter queue with its redrive, and the MINID trim. Each operation runs alone here; their
    interleavings are the step machine's subject. */
module RedisStreams {
  import opened Basics
  import opened Streams
  import opened Envelopes
  import opened DlqPaging

  const DLQ_MAXLEN := 5000

  const ALL_STREAMS := [Stats, Discovery, Purge]

  /** One job stream with its group's pending ids, oldest first. `last` outlives the entries. */
  datatype JobStream = JobStream(rows: seq<Row>, last: Id, pending: seq<Id>)

  datatype RedriveOutcome =
    | Redriven(id: Id, stream: Stream, count: int)
    | DlqEntryNotFound
    | InvalidOriginalStream
    | RedriveLimitExceeded

  datatype TrimResult = TrimResult(trimmed: nat, skipped: bool)

  /** The id Redis gives a new entry: the least one behind the last and not behind the clock. */
  function NewId(last: Id, now: nat): (id: Id)
    ensures Before(last, id) && now <= id.ms
    ensures forall other :: Before(last, other) && now <= other.ms ==> !Before(other, id)
  {
    if last.ms < now then Id(now, 0) else Id(last.ms, last.sn + 1)
  }

  ghost predicate RowsUpTo(rows: seq<Row>, last: Id) {
    Ascending(rows) && forall i :: 0 <= i < |rows| ==> !Before(last, rows[i].id)
  }

  ghost predicate StreamOk(js: JobStream) {
    RowsUpTo(js.rows, js.last) && Increasing(js.pending)
  }

  function StreamNamed(name: string): Option<Stream> {
    if name == StreamName(Stats) then Some(Stats)
    else if name == StreamName(Discovery) then Some(Discovery)
    else if name == StreamName(Purge) then Some(Purge)
    else None
  }

  lemma NamedExactly(name: string, s: Stream)
    ensures StreamNamed(name) == Some(s) <==> name == StreamName(s)
  {
  }

  /** The stream named in a DLQ row that send_to_dlq wrote is the stream the message came from. */
  lemma PayloadNamesItsStream(c: Codec, f: Fields, msgId: string, stream: Stream, reason: string)
    ensures StreamNamed(GetOr(DlqPayload(f, msgId, stream, reason), "original_stream", "")) == Some(stream)
  {
    NamedExactly(StreamName(stream), stream);
  }

  function Find(rows: seq<Row>, id: Id): Option<Row> {
    if rows == [] then None else if rows[0].id == id then Some(rows[0]) else Find(rows[1..], id)
  }

  lemma {:induction false} FindIs(rows: seq<Row>, id: Id)
    ensures Find(rows, id).Some? <==> Has(rows, id)
    ensures Find(rows, id).Some? ==> Find(rows, id).value.id == id && Find(rows, id).value in rows
    decreases rows
  {
    if rows != [] {
      FindIs(rows[1..], id);
      if rows[0].id == id {
        assert Has(rows, id);
      } else if Has(rows, id) {
        var i :| 0 <= i < |rows| && rows[i].id == id;
        assert rows[1..][i - 1].id == id;
      }
    }
  }

  function Without(rows: seq<Row>, id: Id): seq<Row> {
    if rows == [] then []
    else if rows[0].id == id then Without(rows[1..], id)
    else [rows[0]] + Without(rows[1..], id)
  }

  lemma {:induction false} WithoutIs(rows: seq<Row>, id: Id)
    ensures forall r :: r in Without(rows, id) <==> r in rows && r.id != id
    ensures Ascending(rows) ==> Ascending(Without(rows, id))
    decreases rows
  {
    if rows != [] {
      WithoutIs(rows[1..], id);
      var rest := Without(rows[1..], id);
      if Ascending(rows) && rows[0].id != id {
        forall i | 0 <= i < |rest| ensures Before(rows[0].id, rest[i].id) {
          assert rest[i] in rest && rest[i] in rows[1..];
        }
      }
    }
  }

  /** How many leading entries lie below the cutoff. */
  function Below(rows: seq<Row>, cutoff: nat): (n: nat)
    ensures n <= |rows|
    ensures forall i :: 0 <= i < n ==> rows[i].id.ms < cutoff
    ensures n < |rows| ==> cutoff <= rows[n].id.ms
  {
    if rows == [] || cutoff <= rows[0].id.ms then 0 else 1 + Below(rows[1..], cutoff)
  }

  predicate OwesOlder(js: JobStream, cutoff: nat) {
    exists i :: 0 <= i < |js.pending| && js.pending[i].ms < cutoff
  }

  /** The outcome of trimming one stream: skipped exactly when Redis failed or something pending is
      below the cutoff; otherwise a prefix below the cutoff goes, as long as the approximate XTRIM is
      willing to, and short of that only when nothing below the cutoff is left. */
  ghost predicate TrimOutcome(before: JobStream, after: JobStream, res: TrimResult, cutoff: nat, willing: nat,
                              failed: bool) {
    && (res.skipped <==> failed || OwesOlder(before, cutoff))
    && after.last == before.last && after.pending == before.pending
    && res.trimmed <= |before.rows| && after.rows == before.rows[res.trimmed..]
    && (forall i :: 0 <= i < res.trimmed ==> before.rows[i].id.ms < cutoff)
    && (res.skipped ==> res.trimmed == 0)
    && res.trimmed <= willing
    && (!res.skipped && res.trimmed < willing ==> forall r <- after.rows :: cutoff <= r.id.ms)
  }

  /** No pending entry is lost to a trim. */
  lemma TrimKeepsPending(before: JobStream, after: JobStream, res: TrimResult, cutoff: nat, willing: nat, failed: bool,
                         id: Id)
    requires TrimOutcome(before, after, res, cutoff, willing, failed)
    requires id in before.pending && Has(before.rows, id)
    ensures Has(after.rows, id)
  {
    var i :| 0 <= i < |before.rows| && before.rows[i].id == id;
    var j :| 0 <= j < |before.pending| && before.pending[j] == id;
    assert before.pending[j].ms == before.rows[i].id.ms;
    assert res.trimmed <= i;
    assert after.rows[i - res.trimmed].id == id;
  }

  function Willing(drops: map<Stream, nat>, jobs: map<Stream, JobStream>, s: Stream): nat
    requires s in jobs
  {
    if s in drops then drops[s] else |jobs[s].rows|
  }

  method TrimOne(js: JobStream, cutoff: nat, drop: nat, failed: bool) returns (after: JobStream, res: TrimResult)
    requires StreamOk(js)
    ensures StreamOk(after) && TrimOutcome(js, after, res, cutoff, drop, failed)
  {
    if failed {
      return js, TrimResult(0, true);
    }
    if |js.pending| > 0 && js.pending[0].ms < cutoff {
      assert OwesOlder(js, cutoff);
      return js, TrimResult(0, true);
    }
    assert forall k :: 0 < k < |js.pending| ==> Before(js.pending[0], js.pending[k]);
    var below := Below(js.rows, cutoff);
    var n := if drop < below then drop else below;
    after, res := js.(rows := js.rows[n..]), TrimResult(n, false);
    if n == below && below < |js.rows| {
      forall r <- after.rows ensures cutoff <= r.id.ms {
        var i :| 0 <= i < |after.rows| && after.rows[i] == r;
        assert i > 0 ==> Before(js.rows[n].id, js.rows[n + i].id);
      }
    }
  }

  lemma SlotsApart(slot: Slot)
    ensures forall other: Slot :: other != slot ==> DedupKey(other) != DedupKey(slot)
  {
    forall other: Slot | other != slot ensures DedupKey(other) != DedupKey(slot) {
      if DedupKey(other) == DedupKey(slot) {
        DedupKeyInjective(other, slot);
      }
    }
  }

  class RedisStreams {
    const redriveLimit: int
    var claims: map<string, nat>         // SET NX EX keys with the time they expire at, ms
    var jobs: map<Stream, JobStream>
    var dlq: seq<Row>
    var dlqLast: Id

    ghost predicate Valid()
      reads this
    {
      (forall s: Stream :: s in jobs && StreamOk(jobs[s])) && RowsUpTo(dlq, dlqLast)
    }

    constructor (redriveLimit: int)
      ensures Valid() && this.redriveLimit == redriveLimit
      ensures claims == map[] && dlq == [] && forall s: Stream :: jobs[s] == JobStream([], Id(0, 0), [])
    {
      this.redriveLimit := redriveLimit;
      claims, dlq, dlqLast := map[], [], Id(0, 0);
      var empty := JobStream([], Id(0, 0), []);
      jobs := map[Stats := empty, Discovery := empty, Purge := empty];
      new;
      forall s: Stream ensures s in jobs && jobs[s] == empty {
        match s
        case Stats =>
        case Discovery =>
        case Purge =>
      }
    }

    predicate Held(slot: Slot, now: nat)
      reads this
    {
      DedupKey(slot) in claims && now < claims[DedupKey(slot)]
    }

    /** SET NX EX: takes a free or expired claim for the given time and leaves a held one, and its
        expiry, as they are. Redis refuses an EX of 0. */
    method TryClaim(slot: Slot, ttlSecs: nat, now: nat) returns (claimed: bool)
      requires ttlSecs >= 1
      modifies this`claims
      ensures claimed <==> !old(Held(slot, now))
      ensures claims == if claimed then old(claims)[DedupKey(slot) := now + 1000 * ttlSecs] else old(claims)
      ensures Held(slot, now) && (claimed ==> forall at: nat :: Held(slot, at) <==> at < now + 1000 * ttlSecs)
      ensures forall other: Slot, at: nat :: other != slot ==> Held(other, at) == old(Held(other, at))
    {
      claimed := !Held(slot, now);
      if claimed {
        claims := claims[DedupKey(slot) := now + 1000 * ttlSecs];
      }
      SlotsApart(slot);
    }

    /** Releasing one slot leaves every other slot's claim as it was. */
    method ReleaseClaim(slot: Slot)
      modifies this`claims
      ensures claims == old(claims) - {DedupKey(slot)}
      ensures forall at: nat :: !Held(slot, at)
      ensures forall other: Slot, at: nat :: other != slot ==> Held(other, at) == old(Held(other, at))
    {
      claims := claims - {DedupKey(slot)};
      SlotsApart(slot);
    }

    method Enqueue(stream: Stream, fields: Fields, now: nat) returns (id: Id)
      requires Valid()
      modifies this`jobs
      ensures Valid() && Before(old(jobs[stream].last), id) && now <= id.ms
      ensures jobs == old(jobs)[stream :=
                old(jobs[stream]).(rows := old(jobs[stream].rows) + [Row(id, fields)], last := id)]
    {
      var js := jobs[stream];
      id := NewId(js.last, now);
      jobs := jobs[stream := js.(rows := js.rows + [Row(id, fields)], last := id)];
    }

    /** XADD with an approximate MAXLEN: Redis may keep more than DLQ_MAXLEN rows, never fewer of
        the newest. It evicts as many as it is willing to, and stops short of that only at the limit. */
    method SendToDlq(msgId: string, fields: Fields, reason: string, stream: Stream, now: nat, willing: nat)
      returns (id: Id, evicted: nat)
      requires Valid()
      modifies this`dlq, this`dlqLast
      ensures Valid() && Before(old(dlqLast), id)
      ensures evicted == 0 || evicted + DLQ_MAXLEN <= |old(dlq)| + 1
      ensures evicted <= |old(dlq)| && evicted <= willing && (evicted < willing ==> |dlq| <= DLQ_MAXLEN)
      ensures dlq == old(dlq)[evicted..] + [Row(id, DlqPayload(fields, msgId, stream, reason))]
    {
      id := NewId(dlqLast, now);
      var rows := dlq + [Row(id, DlqPayload(fields, msgId, stream, reason))];
      var surplus := if |rows| <= DLQ_MAXLEN then 0 else |rows| - DLQ_MAXLEN;
      evicted := if willing < surplus then willing else surplus;
      assert rows[evicted..] == dlq[evicted..] + [Row(id, DlqPayload(fields, msgId, stream, reason))];
      dlq := rows[evicted..];
      dlqLast := id;
    }

    method ListDlqEntries(cursor: Id, limit: int) returns (entries: seq<Row>, next: Option<Id>)
      requires Valid()
      ensures entries == Page(dlq, cursor, limit) && next == NextCursor(entries, limit)
      ensures limit <= 0 ==> entries == [] && next == None
    {
      if limit <= 0 {
        return [], None;
      }
      var rows := From(dlq, cursor);
      entries := if |rows| <= limit then rows else rows[..limit];
      next := None;
      if |entries| >= limit {
        var last := entries[|entries| - 1].id;
        next := Some(Id(last.ms, last.sn + 1));
      }
    }

    method DeleteDlqEntry(id: Id) returns (deleted: bool)
      requires Valid()
      modifies this`dlq
      ensures Valid() && (deleted <==> Has(old(dlq), id)) && !Has(dlq, id)
      ensures forall r :: r in dlq <==> r in old(dlq) && r.id != id
    {
      FindIs(dlq, id);
      WithoutIs(dlq, id);
      deleted := Find(dlq, id).Some?;
      var kept := Without(dlq, id);
      forall i | 0 <= i < |kept| ensures !Before(dlqLast, kept[i].id) && kept[i].id != id {
        assert kept[i] in kept && kept[i] in dlq;
      }
      dlq := kept;
    }

    /** XADD to the original stream first, then XDEL, which may fail (`xdelOk`). */
    method RedriveDlqEntry(c: Codec, id: Id, now: nat, xdelOk: bool) returns (res: RedriveOutcome)
      requires Valid()
      modifies this`jobs, this`dlq
      ensures Valid()
      ensures res.DlqEntryNotFound? <==> !Has(old(dlq), id)
      ensures !res.Redriven? ==> jobs == old(jobs) && dlq == old(dlq)
      ensures Has(old(dlq), id) ==>
        exists row :: row in old(dlq) && row.id == id
          && var name := GetOr(row.fields, "original_stream", "");
          && (res.InvalidOriginalStream? <==> forall s :: name != StreamName(s))
          && (res.RedriveLimitExceeded? <==>
                (exists s :: name == StreamName(s)) && RedriveCount(c, row.fields) >= redriveLimit)
          && (res.Redriven? ==>
                && name == StreamName(res.stream) && res.count == RedriveCount(c, row.fields) + 1
                && Before(old(jobs[res.stream].last), res.id)
                && jobs == old(jobs)[res.stream := old(jobs[res.stream]).(
                     rows := old(jobs[res.stream].rows) + [Row(res.id, RedriveFields(c, row.fields))], last := res.id)])
      ensures res.Redriven? && !xdelOk ==> dlq == old(dlq)
      ensures res.Redriven? && xdelOk ==>
        !Has(dlq, id) && forall r :: r in dlq <==> r in old(dlq) && r.id != id
    {
      FindIs(dlq, id);
      var found := Find(dlq, id);
      if found.None? {
        return DlqEntryNotFound;
      }
      var row := found.value;
      var target := StreamNamed(GetOr(row.fields, "original_stream", ""));
      forall s ensures target == Some(s) <==> GetOr(row.fields, "original_stream", "") == StreamName(s) {
        NamedExactly(GetOr(row.fields, "original_stream", ""), s);
      }
      if target.None? {
        return InvalidOriginalStream;
      }
      var count := RedriveCount(c, row.fields);
      if count >= redriveLimit {
        return RedriveLimitExceeded;
      }
      var newId := Enqueue(target.value, RedriveFields(c, row.fields), now);
      if xdelOk {
        var _ := DeleteDlqEntry(id);
      }
      res := Redriven(newId, target.value, count + 1);
    }

    /** `drops[s]` is how many entries the approximate XTRIM is prepared to drop; on the streams in
        `down` Redis fails. */
    method TrimStreamsByMinid(now: nat, cutoffAge: nat, drops: map<Stream, nat>, down: set<Stream>)
      returns (results: map<Stream, TrimResult>)
      requires Valid()
      modifies this`jobs
      ensures Valid()
      ensures var cutoff := if cutoffAge <= now then now - cutoffAge else 0;
        forall s: Stream :: s in results
          && TrimOutcome(old(jobs[s]), jobs[s], results[s], cutoff, Willing(drops, old(jobs), s), s in down)
    {
      var cutoff := if cutoffAge <= now then now - cutoffAge else 0;
      ghost var before := jobs;
      results := map[];
      var i := 0;
      while i < |ALL_STREAMS|
        invariant i <= |ALL_STREAMS| && Valid()
        invariant forall k :: 0 <= k < |ALL_STREAMS| ==> (ALL_STREAMS[k] in results <==> k < i)
        invariant forall s: Stream ::
          if s in results then TrimOutcome(before[s], jobs[s], results[s], cutoff, Willing(drops, before, s), s in down)
          else jobs[s] == before[s]
      {
        var s := ALL_STREAMS[i];
        var after, res := TrimOne(jobs[s], cutoff, Willing(drops, jobs, s), s in down);
        jobs := jobs[s := after];
        results := results[s := res];
        i := i + 1;
      }
      forall s: Stream ensures s in results {
        assert ALL_STREAMS[0] in results && ALL_STREAMS[1] in results && ALL_STREAMS[2] in results;
        match s
        case Stats =>
        case Discovery =>
        case Purge =>
      }
    }
  }
}
