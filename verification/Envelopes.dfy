/** The three job envelopes on the wire: stream fields, parsing, the DLQ payload and the redriven
    fields, and how they appear in the step machine. */
module Envelopes {
  import opened Basics
  import opened Streams
  import JobProtocol

  type Fields = map<string, string>

  /** `str`/`int` and `isoformat`/`fromisoformat`, with instants as integers. */
  datatype Codec = Codec(
    showInt: int -> string, readInt: string -> Option<int>,
    showTime: int -> string, readTime: string -> Option<int>
  )

  ghost predicate Faithful(c: Codec) {
    && c.showInt(0) == "0"
    && (forall n :: c.readInt(c.showInt(n)) == Some(n))
    && (forall t :: c.readTime(c.showTime(t)) == Some(t))
  }

  datatype Envelope =
    | StatsJob(dataSource: string, workspace: string, enqueuedAt: int, attempt: int)
    | DiscoveryJob(provider: string, asset: string, enqueuedAt: int, attempt: int)
    | PurgeJob(job: string, dataSource: string, workspace: string, enqueuedAt: int, attempt: int)

  function KindOf(e: Envelope): Stream {
    match e
    case StatsJob(_, _, _, _) => Stats
    case DiscoveryJob(_, _, _, _) => Discovery
    case PurgeJob(_, _, _, _, _) => Purge
  }

  function ScopeKey(e: Envelope): string {
    match e
    case StatsJob(ds, _, _, _) => ds
    case DiscoveryJob(provider, asset, _, _) => provider + ":" + asset
    case PurgeJob(_, ds, _, _, _) => ds
  }

  /** Two jobs of one kind are about the same thing exactly when they share their scope. */
  lemma SameScopeExactly(a: Envelope, b: Envelope)
    requires KindOf(a) == KindOf(b) && (a.DiscoveryJob? ==> ':' !in a.provider && ':' !in b.provider)
    ensures ScopeKey(a) == ScopeKey(b)
            <==> if a.DiscoveryJob? then a.provider == b.provider && a.asset == b.asset
                 else a.dataSource == b.dataSource
  {
    if a.DiscoveryJob? {
      assert ScopeKey(a) == a.provider + (":" + a.asset) && ScopeKey(b) == b.provider + (":" + b.asset);
      if ScopeKey(a) == ScopeKey(b) {
        FirstPart(':', a.provider, a.asset, b.provider, b.asset);
      }
    }
  }

  function ToFields(c: Codec, e: Envelope): Fields {
    match e
    case StatsJob(ds, ws, at, n) =>
      map["kind" := "stats_poll", "data_source_id" := ds, "workspace_id" := ws,
          "enqueued_at" := c.showTime(at), "attempt" := c.showInt(n)]
    case DiscoveryJob(provider, asset, at, n) =>
      map["kind" := "discovery", "provider_id" := provider, "asset_name" := asset,
          "enqueued_at" := c.showTime(at), "attempt" := c.showInt(n)]
    case PurgeJob(job, ds, ws, at, n) =>
      map["kind" := "purge", "job_id" := job, "data_source_id" := ds, "workspace_id" := ws,
          "enqueued_at" := c.showTime(at), "attempt" := c.showInt(n)]
  }

  function GetOr(f: Fields, k: string, default: string): string {
    if k in f then f[k] else default
  }

  /** The kind that parse_envelope dispatches on. */
  function WireKind(f: Fields): string {
    GetOr(f, "kind", "stats_poll")
  }

  function Parse(c: Codec, f: Fields): Option<Envelope> {
    if "enqueued_at" !in f || c.readTime(f["enqueued_at"]).None? || c.readInt(GetOr(f, "attempt", "1")).None?
    then None
    else
      var at := c.readTime(f["enqueued_at"]).value;
      var n := c.readInt(GetOr(f, "attempt", "1")).value;
      if WireKind(f) == "stats_poll" then
        if "data_source_id" in f && "workspace_id" in f
        then Some(StatsJob(f["data_source_id"], f["workspace_id"], at, n)) else None
      else if WireKind(f) == "discovery" then
        if "provider_id" in f then Some(DiscoveryJob(f["provider_id"], GetOr(f, "asset_name", ""), at, n)) else None
      else if WireKind(f) == "purge" then
        if "job_id" in f && "data_source_id" in f && "workspace_id" in f
        then Some(PurgeJob(f["job_id"], f["data_source_id"], f["workspace_id"], at, n)) else None
      else None
  }

  lemma ReadsBack(c: Codec, at: int, n: int)
    requires Faithful(c)
    ensures c.readTime(c.showTime(at)) == Some(at) && c.readInt(c.showInt(n)) == Some(n)
  {
  }

  lemma ParseOfToFields(c: Codec, e: Envelope)
    requires Faithful(c)
    ensures Parse(c, ToFields(c, e)) == Some(e) && WireKind(ToFields(c, e)) == KindName(KindOf(e))
  {
    match e
    case StatsJob(_, _, at, n) => ReadsBack(c, at, n);
    case DiscoveryJob(_, _, at, n) => ReadsBack(c, at, n);
    case PurgeJob(_, _, _, at, n) => ReadsBack(c, at, n);
  }

  // ---- Dead letters ------------------------------------------------------------------------

  /** send_to_dlq: the fields it is given, with the kind of the stream written over theirs. */
  function DlqPayload(f: Fields, msgId: string, stream: Stream, reason: string): Fields {
    f["original_msg_id" := msgId]["original_stream" := StreamName(stream)]["kind" := KindName(stream)]
    ["reason" := reason]["redrive_count" := GetOr(f, "redrive_count", "0")]
  }

  /** The counter of a DLQ row or of a message; an unreadable one counts as 0. */
  function RedriveCount(c: Codec, f: Fields): int {
    match c.readInt(GetOr(f, "redrive_count", "0"))
    case Some(n) => n
    case None => 0
  }

  const JOB_FIELDS :=
    {"enqueued_at", "attempt", "data_source_id", "workspace_id", "provider_id", "asset_name", "job_id"}

  const DLQ_ONLY := {"original_msg_id", "original_stream", "reason"}

  /** What redrive_dlq_entry XADDs to the original stream. */
  function RedriveFields(c: Codec, p: Fields): Fields {
    (p - DLQ_ONLY)["redrive_count" := c.showInt(RedriveCount(c, p) + 1)]
  }

  function Redriven(c: Codec, f: Fields, msgId: string, stream: Stream, reason: string): Fields {
    RedriveFields(c, DlqPayload(f, msgId, stream, reason))
  }

  /** A dead-lettered and redriven message means what it meant, if and only if the kind it was
      read as is the kind of its stream: send_to_dlq writes the latter over the former. */
  lemma RedriveKeepsMeaningExactly(c: Codec, f: Fields, msgId: string, stream: Stream, reason: string)
    requires Parse(c, f).Some?
    ensures Parse(c, Redriven(c, f, msgId, stream, reason)) == Parse(c, f) <==> WireKind(f) == KindName(stream)
  {
    var r := Redriven(c, f, msgId, stream, reason);
    assert WireKind(r) == KindName(stream);
    assert forall k :: k in JOB_FIELDS ==> (k in r <==> k in f) && (k in f ==> r[k] == f[k]);
  }

  /** For one: a purge envelope found on the stats stream comes back from the DLQ as a stats poll. */
  lemma PurgeRedrivenAsStats(c: Codec, e: Envelope, msgId: string, reason: string)
    requires Faithful(c) && e.PurgeJob?
    ensures Parse(c, Redriven(c, ToFields(c, e), msgId, Stats, reason))
            == Some(StatsJob(e.dataSource, e.workspace, e.enqueuedAt, e.attempt))
  {
    ParseOfToFields(c, e);
    var r := Redriven(c, ToFields(c, e), msgId, Stats, reason);
    assert WireKind(r) == "stats_poll";
    assert forall k :: k in JOB_FIELDS && k in ToFields(c, e) ==> k in r && r[k] == ToFields(c, e)[k];
  }

  /** The recovery path dead-letters the message's own fields, so the counter survives and a redrive
      adds one to it. */
  lemma RecoveryKeepsCount(c: Codec, f: Fields, msgId: string, stream: Stream, reason: string)
    requires Faithful(c)
    ensures RedriveCount(c, DlqPayload(f, msgId, stream, reason)) == RedriveCount(c, f)
    ensures RedriveCount(c, Redriven(c, f, msgId, stream, reason)) == RedriveCount(c, f) + 1
  {
    assert c.readInt(c.showInt(RedriveCount(c, f) + 1)) == Some(RedriveCount(c, f) + 1);
  }

  /** The in-handler path dead-letters fields rebuilt from the envelope: the counter starts over. */
  lemma HandlerForgetsCount(c: Codec, e: Envelope, msgId: string, stream: Stream, reason: string)
    requires Faithful(c)
    ensures RedriveCount(c, DlqPayload(ToFields(c, e), msgId, stream, reason)) == 0
  {
    assert c.readInt(c.showInt(0)) == Some(0);
  }

  /** A counter that is absent or no number counts as none: the next redrive is the first. */
  lemma UnreadableCounter(c: Codec, p: Fields)
    requires Faithful(c) && ("redrive_count" !in p || c.readInt(p["redrive_count"]).None?)
    ensures RedriveCount(c, p) == 0 && RedriveCount(c, RedriveFields(c, p)) == 1
  {
    assert c.readInt(c.showInt(0)) == Some(0) && c.readInt(c.showInt(1)) == Some(1);
  }

  // ---- How fields appear in the step machine -------------------------------------------------

  /** What the protocol sees of a message with fields `f` that is `hops` redrives old. */
  function View(c: Codec, f: Fields, hops: nat): JobProtocol.Entry {
    match Parse(c, f)
    case None => JobProtocol.Entry(false, "", "", 0, 0)
    case Some(e) =>
      JobProtocol.Entry(true, ScopeKey(e), if e.PurgeJob? then e.job else "", RedriveCount(c, f), hops)
  }

  /** The machine's DLQ rows and redriven copies are what the field operations produce. */
  lemma ProtocolSeesFields(c: Codec, f: Fields, msgId: string, stream: Stream, reason: string, hops: nat)
    requires Faithful(c) && Parse(c, f).Some? && WireKind(f) == KindName(stream)
    ensures View(c, DlqPayload(f, msgId, stream, reason), hops) == View(c, f, hops)
    ensures View(c, DlqPayload(ToFields(c, Parse(c, f).value), msgId, stream, reason), hops)
            == View(c, f, hops).(redrives := 0)
    ensures View(c, Redriven(c, f, msgId, stream, reason), hops + 1) == JobProtocol.CopyOf(View(c, f, hops))
  {
    var p := DlqPayload(f, msgId, stream, reason);
    var e := Parse(c, f).value;
    var q := DlqPayload(ToFields(c, e), msgId, stream, reason);
    RedriveKeepsMeaningExactly(c, f, msgId, stream, reason);
    RecoveryKeepsCount(c, f, msgId, stream, reason);
    HandlerForgetsCount(c, e, msgId, stream, reason);
    ParseOfToFields(c, e);
    PayloadParses(c, f, msgId, stream, reason);
    PayloadParses(c, ToFields(c, e), msgId, stream, reason);
  }

  lemma PayloadParses(c: Codec, f: Fields, msgId: string, stream: Stream, reason: string)
    requires WireKind(f) == KindName(stream)
    ensures Parse(c, DlqPayload(f, msgId, stream, reason)) == Parse(c, f)
  {
    var p := DlqPayload(f, msgId, stream, reason);
    assert forall k :: k in JOB_FIELDS ==> (k in p <==> k in f) && (k in f ==> p[k] == f[k]);
  }

  /** Fields that no envelope can read are the machine's foreign message, and no others are. */
  lemma ProtocolSeesForeign(c: Codec, f: Fields, hops: nat, s: JobProtocol.State, key: Key)
    requires JobProtocol.ProducerCan(s, JobProtocol.AppendForeign(key))
    ensures View(c, f, hops).parseable <==> Parse(c, f).Some?
    ensures Parse(c, f).None? ==>
      JobProtocol.ProducerQueue(s, JobProtocol.AppendForeign(key)) == JobProtocol.AddMessage(s.q, key, View(c, f, hops))
  {
  }

  /** A fresh message as the producers enqueue it. */
  lemma ProtocolSeesProducer(c: Codec, e: Envelope)
    requires Faithful(c)
    ensures View(c, ToFields(c, e), 0)
            == JobProtocol.Entry(true, ScopeKey(e), if e.PurgeJob? then e.job else "", 0, 0)
  {
    ParseOfToFields(c, e);
    assert c.readInt(c.showInt(0)) == Some(0);
  }
}
