/** The last call's duration, which travels with the outcomes: a fold-back keeps the newer one, so
    unlike the failure streak it survives a failed flush. */
module AdmissionDurations {
  import opened Basics
  import opened AdmissionController

  /** Of one provider: the latest duration recorded, and what it was at the last report, if any. */
  datatype Seen = Seen(ms: Option<int>, reported: Option<Option<int>>)

  const NOTHING := Seen(None, None)

  function See(v: Seen, e: Event, p: string): Seen {
    match e
    case Latency(q, ms) => if q == p && ms >= 0 then v.(ms := Some(ms)) else v
    case Report(q, _) => if q == p then v.(reported := Some(v.ms)) else v
    case _ => v
  }

  function SeenIn(events: seq<Event>, p: string, v: Seen): Seen
    decreases events
  {
    if events == [] then v else SeenIn(events[1..], p, See(v, events[0], p))
  }

  /** Once everything reported has reached the table, its duration is that of the last report. */
  predicate DurationTrue(s: State, p: string, v: Seen) {
    v.reported.Some? && p !in s.pending && !InSome(s.flights, p) ==>
      p in s.table && s.table[p].lastMs == v.reported.value
  }

  function Flight(s: State): Buffer {
    if s.flights == [] then map[] else s.flights[0]
  }

  /** With one drain at a time, the duration of the last report is in the buffer, or else under way,
      or else in the table; and nothing is known anywhere before the first duration is. */
  predicate Placed(s: State, p: string, v: Seen) {
    && LastMs(s.durations, p) == v.ms
    && |s.flights| <= 1
    && (p in s.pending ==> v.reported.Some? && !Empty(s.pending[p]) && s.pending[p].lastMs == v.reported.value)
    && (p in Flight(s) ==> v.reported.Some? && !Empty(Flight(s)[p]))
    && (p in s.table ==> v.reported.Some?)
    && (p in Flight(s) && p !in s.pending ==> Flight(s)[p].lastMs == v.reported.value)
    && (v.reported.Some? && p !in Flight(s) && p !in s.pending ==>
          p in s.table && s.table[p].lastMs == v.reported.value)
    && (v.reported == Some(None) ==>
          (p in Flight(s) ==> Flight(s)[p].lastMs.None?) && (p in s.table ==> s.table[p].lastMs.None?))
    && (v.reported.Some? && v.reported.value.Some? ==> v.ms.Some?)
  }

  lemma PlacedStep(env: Env, s: State, e: Event, p: string, v: Seen)
    requires !env.drainsOverlap && Enabled(s, e) && Allowed(env, s, e) && Placed(s, p, v)
    ensures Placed(Next(s, e), p, See(v, e, p))
  {
    if e.Commit? || e.CommitFails? {
      assert e.flight == 0 && Landed(s.flights, 0) == [];
    } else if e.Swap? && s.pending != map[] {
      assert Next(s, e).flights == [s.pending];
    }
  }

  lemma {:induction false} PlacedAlways(env: Env, s: State, events: seq<Event>, p: string, v: Seen)
    requires !env.drainsOverlap && RunIn(env, s, events) && Placed(s, p, v)
    ensures Run(s, events) && Placed(After(s, events), p, SeenIn(events, p, v))
    decreases events
  {
    if events != [] {
      PlacedStep(env, s, events[0], p, v);
      PlacedAlways(env, Next(s, events[0]), events[1..], p, See(v, events[0], p));
    }
  }

  ghost predicate DurationsSettle(env: Env, events: seq<Event>) {
    RunIn(env, INITIAL, events) ==>
      Run(INITIAL, events) && forall p :: DurationTrue(After(INITIAL, events), p, SeenIn(events, p, NOTHING))
  }

  function Busy(p: string, ms: int, pending: Buffer, flights: seq<Buffer>): State {
    State(map[p := 0], map[p := ms], pending, flights, map[])
  }

  /** With an older report under way and a newer one buffered: the newer one is committed first. */
  lemma Overtaking(env: Env, p: string) returns (events: seq<Event>)
    requires env.drainsOverlap
    ensures var s := Busy(p, 7, map[p := Outcome(1, 0, 0, Some(7))], [map[p := Outcome(1, 0, 0, Some(5))]]);
      && RunIn(env, s, events) && Run(s, events)
      && After(s, events) == State(map[p := 0], map[p := 7], map[], [], map[p := Health(2, 0, 0, Some(5))])
    ensures forall v :: SeenIn(events, p, v) == v
  {
    var first, second := map[p := Outcome(1, 0, 0, Some(5))], map[p := Outcome(1, 0, 0, Some(7))];
    var s5, s6 := Busy(p, 7, second, [first]), Busy(p, 7, map[], [first, second]);
    var s7 := State(map[p := 0], map[p := 7], map[], [first], map[p := Health(1, 0, 0, Some(7))]);
    var s8 := State(map[p := 0], map[p := 7], map[], [], map[p := Health(2, 0, 0, Some(5))]);
    assert p in second && Next(s5, Swap) == s6;
    assert Upserted(map[], second) == s7.table && Landed([first, second], 1) == [first] && Next(s6, Commit(1)) == s7;
    assert Upserted(s7.table, first) == s8.table && Next(s7, Commit(0)) == s8;
    events := Before(env, s7, Commit(0), []);
    SeesFirst(Commit(0), [], p);
    var two := Before(env, s6, Commit(1), events);
    SeesFirst(Commit(1), events, p);
    events := Before(env, s5, Swap, two);
    SeesFirst(Swap, two, p);
  }

  lemma SeesFirst(e: Event, rest: seq<Event>, p: string)
    ensures forall v :: SeenIn([e] + rest, p, v) == SeenIn(rest, p, See(v, e, p))
  {
    assert ([e] + rest)[1..] == rest;
  }

  /** A slow drain is overtaken by the one after it, and then puts its older duration back. */
  lemma OldDurationComesLast(env: Env, p: string) returns (events: seq<Event>)
    requires env.drainsOverlap
    ensures RunIn(env, INITIAL, events) && Run(INITIAL, events)
    ensures SeenIn(events, p, NOTHING).reported == Some(Some(7))
    ensures After(INITIAL, events) == State(map[p := 0], map[p := 7], map[], [], map[p := Health(2, 0, 0, Some(5))])
  {
    var first, second := map[p := Outcome(1, 0, 0, Some(5))], map[p := Outcome(1, 0, 0, Some(7))];
    var s1 := State(map[], map[p := 5], map[], [], map[]);
    var s2, s3, s4 := Busy(p, 5, first, []), Busy(p, 5, map[], [first]), Busy(p, 7, map[], [first]);
    assert Next(INITIAL, Latency(p, 5)) == s1 && Next(s1, Report(p, true)) == s2;
    assert p in first && Next(s2, Swap) == s3 && Next(s3, Latency(p, 7)) == s4;
    assert Next(s4, Report(p, true)) == Busy(p, 7, second, [first]);
    var five := Overtaking(env, p);
    var four := Before(env, s4, Report(p, true), five);
    SeesFirst(Report(p, true), five, p);
    var three := Before(env, s3, Latency(p, 7), four);
    SeesFirst(Latency(p, 7), four, p);
    var two := Before(env, s2, Swap, three);
    SeesFirst(Swap, three, p);
    var one := Before(env, s1, Report(p, true), two);
    SeesFirst(Report(p, true), two, p);
    events := Before(env, INITIAL, Latency(p, 5), one);
    SeesFirst(Latency(p, 5), one, p);
  }

  /** Once everything is flushed the table shows, for every provider that reported, its duration as
      of the last report, in every run of an environment, if and only if drains do not overlap
      there: failed commits do no harm. */
  lemma DurationsSettleExactly(env: Env)
    ensures (forall events :: DurationsSettle(env, events)) <==> !env.drainsOverlap
  {
    if !env.drainsOverlap {
      forall events | RunIn(env, INITIAL, events) ensures DurationsSettle(env, events) {
        PlacedAlways(env, INITIAL, events, "", NOTHING);
        forall p ensures Run(INITIAL, events) && DurationTrue(After(INITIAL, events), p, SeenIn(events, p, NOTHING)) {
          PlacedAlways(env, INITIAL, events, p, NOTHING);
          var s := After(INITIAL, events);
          if p in Flight(s) {
            assert s.flights[0] in s.flights;
          }
        }
      }
    } else {
      var events := OldDurationComesLast(env, "p");
      assert !DurationTrue(After(INITIAL, events), "p", SeenIn(events, "p", NOTHING));
      assert !DurationsSettle(env, events);
    }
  }

  /** A flush without a duration leaves the one in the table, whatever process wrote it, and one with
      a duration replaces it. */
  lemma FlushKeepsDuration(t: Table, snapshot: Buffer, p: string)
    requires p in snapshot && !Empty(snapshot[p])
    ensures var row := Upserted(t, snapshot)[p];
      if snapshot[p].lastMs.Some? then row.lastMs == snapshot[p].lastMs
      else row.lastMs == if p in t then t[p].lastMs else None
  {
  }
}
