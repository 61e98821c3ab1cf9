/** Identities on the Redis side of the insights queue: the three job streams, stream message
    ids, and the slots that the producers' SET NX claims protect. */
module Streams {

  datatype Stream = Stats | Discovery | Purge

  /** A stream message id `<ms>-<seq>`; Redis orders ids lexicographically. */
  datatype Id = Id(ms: nat, sn: nat)

  predicate Before(a: Id, b: Id) {
    a.ms < b.ms || (a.ms == b.ms && a.sn < b.sn)
  }

  /** A message: ids are unique within one stream only. */
  datatype Key = Key(stream: Stream, id: Id)

  /** What one dedup claim covers. */
  datatype Slot = Slot(stream: Stream, scope: string)

  function StreamName(s: Stream): string {
    match s
    case Stats => "insights.jobs.stats"
    case Discovery => "insights.jobs.discovery"
    case Purge => "insights.jobs.purge"
  }

  function KindName(s: Stream): string {
    match s
    case Stats => "stats_poll"
    case Discovery => "discovery"
    case Purge => "purge"
  }

  function DedupPrefix(s: Stream): string {
    match s
    case Stats => "insights:stats"
    case Discovery => "insights:discovery"
    case Purge => "insights:purge"
  }

  /** The Redis key of the claim for one slot. */
  function DedupKey(slot: Slot): string {
    DedupPrefix(slot.stream) + ":pending:" + slot.scope
  }

  /** Two slots share a Redis key only when they are the same slot, so a claim taken for one
      (kind, scope) never blocks or releases another. */
  lemma DedupKeyInjective(a: Slot, b: Slot)
    requires DedupKey(a) == DedupKey(b)
    ensures a == b
  {
    var ka, kb := DedupKey(a), DedupKey(b);
    assert ka[9] == DedupPrefix(a.stream)[9] && kb[9] == DedupPrefix(b.stream)[9];
    assert a.stream == b.stream;
    var n := |DedupPrefix(a.stream) + ":pending:"|;
    assert ka[n..] == a.scope && kb[n..] == b.scope;
  }
}
