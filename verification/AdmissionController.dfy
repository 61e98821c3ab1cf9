/** The per-worker outcome buffer of admission control and its flush to `provider_health_window`. */
module AdmissionController {
  import opened Basics

  /** Buffered deltas of one provider; `streak` is its consecutive-failure count. */
  datatype Outcome = Outcome(ok: nat, failed: nat, streak: nat, lastMs: Option<int>)

  /** A row of provider_health_window. */
  datatype Health = Health(ok: nat, failed: nat, streak: nat, lastMs: Option<int>)

  type Buffer = map<string, Outcome>
  type Table = map<string, Health>

  datatype Event =
    | Latency(p: string, ms: int)
    | Report(p: string, succeeded: bool)
    | Swap                      // drain takes the buffer
    | Commit(flight: nat)       // a drain's transaction commits
    | CommitFails(flight: nat)  // it does not, and the snapshot is folded back

  datatype State = State(
    streaks: map<string, nat>,
    durations: map<string, int>,
    pending: Buffer,
    flights: seq<Buffer>,       // snapshots of drains under way
    table: Table
  )

  const INITIAL := State(map[], map[], map[], [], map[])

  function Streak(streaks: map<string, nat>, p: string): nat {
    if p in streaks then streaks[p] else 0
  }

  function NewStreak(streaks: map<string, nat>, p: string, succeeded: bool): nat {
    if succeeded then 0 else Streak(streaks, p) + 1
  }

  function Buffered(b: Buffer, p: string, succeeded: bool, streak: nat, lastMs: Option<int>): Buffer {
    var o := if p in b then b[p] else Outcome(0, 0, 0, None);
    b[p := Outcome(o.ok + (if succeeded then 1 else 0), o.failed + (if succeeded then 0 else 1), streak, lastMs)]
  }

  function LastMs(durations: map<string, int>, p: string): Option<int> {
    if p in durations then Some(durations[p]) else None
  }

  predicate Empty(o: Outcome) {
    o.ok == 0 && o.failed == 0
  }

  function UpsertedRow(t: Table, p: string, o: Outcome): Health {
    if p in t
    then Health(t[p].ok + o.ok, t[p].failed + o.failed, o.streak, if o.lastMs.Some? then o.lastMs else t[p].lastMs)
    else Health(o.ok, o.failed, o.streak, o.lastMs)
  }

  function Upserted(t: Table, snapshot: Buffer): Table {
    map p | p in t.Keys + snapshot.Keys && (p in t || !Empty(snapshot[p])) ::
      if p in snapshot && !Empty(snapshot[p]) then UpsertedRow(t, p, snapshot[p]) else t[p]
  }

  function FoldedOutcome(existing: Outcome, o: Outcome): Outcome {
    existing.(ok := existing.ok + o.ok, failed := existing.failed + o.failed, streak := o.streak)
  }

  function Folded(pending: Buffer, snapshot: Buffer): Buffer {
    map p | p in pending.Keys + snapshot.Keys ::
      if p !in snapshot then pending[p]
      else if p !in pending then snapshot[p]
      else FoldedOutcome(pending[p], snapshot[p])
  }

  function Landed(flights: seq<Buffer>, i: nat): seq<Buffer>
    requires i < |flights|
  {
    flights[..i] + flights[i + 1..]
  }

  predicate Enabled(s: State, e: Event) {
    (e.Commit? || e.CommitFails?) ==> e.flight < |s.flights|
  }

  function Next(s: State, e: Event): State
    requires Enabled(s, e)
  {
    match e
    case Latency(p, ms) => if ms < 0 then s else s.(durations := s.durations[p := ms])
    case Report(p, succeeded) =>
      var streak := NewStreak(s.streaks, p, succeeded);
      s.(streaks := s.streaks[p := streak],
         pending := Buffered(s.pending, p, succeeded, streak, LastMs(s.durations, p)))
    case Swap => if s.pending == map[] then s else s.(pending := map[], flights := s.flights + [s.pending])
    case Commit(i) => s.(table := Upserted(s.table, s.flights[i]), flights := Landed(s.flights, i))
    case CommitFails(i) => s.(pending := Folded(s.pending, s.flights[i]), flights := Landed(s.flights, i))
  }

  predicate Run(s: State, events: seq<Event>)
    decreases events
  {
    events == [] || (Enabled(s, events[0]) && Run(Next(s, events[0]), events[1..]))
  }

  function After(s: State, events: seq<Event>): State
    requires Run(s, events)
    decreases events
  {
    if events == [] then s else After(Next(s, events[0]), events[1..])
  }

  // ---- Conservation --------------------------------------------------------------------------
  // Successes and failures are counted the same way; `good` says which.

  function Count(o: Outcome, good: bool): nat {
    if good then o.ok else o.failed
  }

  function InBuffer(b: Buffer, p: string, good: bool): nat {
    if p in b then Count(b[p], good) else 0
  }

  function InTable(t: Table, p: string, good: bool): nat {
    if p !in t then 0 else if good then t[p].ok else t[p].failed
  }

  function InFlights(flights: seq<Buffer>, p: string, good: bool): nat {
    if flights == [] then 0 else InBuffer(flights[0], p, good) + InFlights(flights[1..], p, good)
  }

  /** Outcomes of the provider that exist anywhere. */
  function Total(s: State, p: string, good: bool): nat {
    InTable(s.table, p, good) + InBuffer(s.pending, p, good) + InFlights(s.flights, p, good)
  }

  function ReportedBy(e: Event, p: string, good: bool): nat {
    if e == Report(p, good) then 1 else 0
  }

  function Reported(events: seq<Event>, p: string, good: bool): nat {
    if events == [] then 0 else ReportedBy(events[0], p, good) + Reported(events[1..], p, good)
  }

  lemma {:induction false} FlightsJoin(a: seq<Buffer>, b: seq<Buffer>, p: string, good: bool)
    ensures InFlights(a + b, p, good) == InFlights(a, p, good) + InFlights(b, p, good)
    decreases a
  {
    if a == [] {
      assert a + b == b;
    } else {
      assert (a + b)[1..] == a[1..] + b;
      FlightsJoin(a[1..], b, p, good);
    }
  }

  lemma {:induction false} FlightLands(flights: seq<Buffer>, i: nat, p: string, good: bool)
    requires i < |flights|
    ensures InFlights(flights, p, good) == InFlights(Landed(flights, i), p, good) + InBuffer(flights[i], p, good)
    decreases i
  {
    var rest := flights[i + 1..];
    assert flights == flights[..i] + flights[i..] && flights[i..][1..] == rest;
    FlightsJoin(flights[..i], flights[i..], p, good);
    FlightsJoin(flights[..i], rest, p, good);
  }

  lemma UpsertConserves(t: Table, snapshot: Buffer, p: string, good: bool)
    ensures InTable(Upserted(t, snapshot), p, good) == InTable(t, p, good) + InBuffer(snapshot, p, good)
  {
  }

  lemma FoldConserves(pending: Buffer, snapshot: Buffer, p: string, good: bool)
    ensures InBuffer(Folded(pending, snapshot), p, good) == InBuffer(pending, p, good) + InBuffer(snapshot, p, good)
  {
  }

  lemma SwapConserves(flights: seq<Buffer>, pending: Buffer, p: string, good: bool)
    ensures InFlights(flights + [pending], p, good) == InFlights(flights, p, good) + InBuffer(pending, p, good)
  {
    FlightsJoin(flights, [pending], p, good);
    assert [pending][1..] == [];
  }

  lemma ReportCounts(b: Buffer, q: string, succeeded: bool, streak: nat, lastMs: Option<int>, p: string, good: bool)
    ensures InBuffer(Buffered(b, q, succeeded, streak, lastMs), p, good)
            == InBuffer(b, p, good) + ReportedBy(Report(q, succeeded), p, good)
  {
  }

  lemma StepConserves(s: State, e: Event, p: string, good: bool)
    requires Enabled(s, e)
    ensures Total(Next(s, e), p, good) == Total(s, p, good) + ReportedBy(e, p, good)
  {
    match e
    case Latency(_, _) =>
    case Report(q, succeeded) =>
      ReportCounts(s.pending, q, succeeded, NewStreak(s.streaks, q, succeeded), LastMs(s.durations, q), p, good);
    case Swap =>
      SwapConserves(s.flights, s.pending, p, good);
    case Commit(i) =>
      FlightLands(s.flights, i, p, good);
      UpsertConserves(s.table, s.flights[i], p, good);
    case CommitFails(i) =>
      FlightLands(s.flights, i, p, good);
      FoldConserves(s.pending, s.flights[i], p, good);
  }

  lemma {:induction false} RunConserves(s: State, events: seq<Event>, p: string, good: bool)
    requires Run(s, events)
    ensures Total(After(s, events), p, good) == Total(s, p, good) + Reported(events, p, good)
    decreases events
  {
    if events != [] {
      StepConserves(s, events[0], p, good);
      RunConserves(Next(s, events[0]), events[1..], p, good);
    }
  }

  /** For any interleaving of reports, concurrent drains, commits and failed commits, what the
      table, the buffer and the drains under way hold together is what was reported: nothing is
      lost and nothing is counted twice. */
  lemma OutcomesConserved(events: seq<Event>, p: string, good: bool)
    requires Run(INITIAL, events)
    ensures var s := After(INITIAL, events);
      InTable(s.table, p, good) + InBuffer(s.pending, p, good) + InFlights(s.flights, p, good)
      == Reported(events, p, good)
  {
    RunConserves(INITIAL, events, p, good);
    assert InTable(map[], p, good) == InBuffer(map[], p, good) == InFlights([], p, good) == 0;
  }

  // ---- The consecutive-failure count -----------------------------------------------------------

  /** How many reports of the provider failed since its last success; `before` failures came earlier. */
  function FailuresSince(events: seq<Event>, p: string, before: nat): nat
    decreases events
  {
    if events == [] then before
    else
      FailuresSince(events[1..], p,
                    if events[0] == Report(p, true) then 0
                    else if events[0] == Report(p, false) then before + 1
                    else before)
  }

  lemma {:induction false} StreakIs(s: State, events: seq<Event>, p: string)
    requires Run(s, events)
    ensures Streak(After(s, events).streaks, p) == FailuresSince(events, p, Streak(s.streaks, p))
    decreases events
  {
    if events != [] {
      StreakIs(Next(s, events[0]), events[1..], p);
    }
  }

  /** In any run the in-memory streak counts the failures reported since the last success, whatever
      was flushed, folded back or lost in between. */
  lemma StreakCountsFailures(events: seq<Event>, p: string)
    requires Run(INITIAL, events)
    ensures Streak(After(INITIAL, events).streaks, p) == FailuresSince(events, p, 0)
  {
    StreakIs(INITIAL, events, p);
  }

  /** Every buffered streak is the in-memory one, which is the value to be persisted. */
  ghost predicate StreaksFresh(s: State) {
    forall p :: p in s.pending ==> s.pending[p].streak == Streak(s.streaks, p)
  }

  lemma StreaksStayFresh(s: State, e: Event)
    requires StreaksFresh(s) && Enabled(s, e) && !e.CommitFails?
    ensures StreaksFresh(Next(s, e))
  {
  }

  /** Folding back a failed flush restores the snapshot's streaks, so the buffer stays right exactly
      when no streak of the snapshot has changed since the swap. */
  lemma FoldBackFreshExactly(s: State, i: nat)
    requires StreaksFresh(s) && i < |s.flights|
    ensures StreaksFresh(Next(s, CommitFails(i)))
            <==> forall p :: p in s.flights[i] ==> s.flights[i][p].streak == Streak(s.streaks, p)
  {
    var snapshot, s' := s.flights[i], Next(s, CommitFails(i));
    forall p | p in snapshot ensures p in s'.pending && s'.pending[p].streak == snapshot[p].streak {
    }
  }

  /** What the environment may do: transactions may fail, and drains may run beside each other. */
  datatype Env = Env(commitsFail: bool, drainsOverlap: bool)

  predicate Allowed(env: Env, s: State, e: Event) {
    && (e.CommitFails? ==> env.commitsFail)
    && (e.Swap? && s.pending != map[] ==> env.drainsOverlap || s.flights == [])
  }

  predicate RunIn(env: Env, s: State, events: seq<Event>)
    decreases events
  {
    events == []
    || (Enabled(s, events[0]) && Allowed(env, s, events[0]) && RunIn(env, Next(s, events[0]), events[1..]))
  }

  predicate InSome(flights: seq<Buffer>, p: string) {
    exists f <- flights :: p in f
  }

  /** Once everything reported has reached the table, its streak is the in-memory one. */
  ghost predicate TableTrue(s: State) {
    forall p :: p in s.streaks && p !in s.pending && !InSome(s.flights, p) ==>
      p in s.table && s.table[p].streak == s.streaks[p]
  }

  ghost predicate SettlesTrue(env: Env, events: seq<Event>) {
    RunIn(env, INITIAL, events) ==> Run(INITIAL, events) && TableTrue(After(INITIAL, events))
  }

  /** With one drain at a time and no failing commit: where the latest streak of a provider is. */
  ghost predicate InStep(s: State) {
    && |s.flights| <= 1 && PendingInStep(s)
    && (forall f :: f in s.flights ==> FlightInStep(s, f))
    && TableTrue(s)
  }

  predicate PendingInStep(s: State) {
    forall p :: p in s.pending ==>
      p in s.streaks && !Empty(s.pending[p]) && s.pending[p].streak == s.streaks[p]
  }

  predicate FlightInStep(s: State, f: Buffer) {
    forall p :: p in f ==>
      p in s.streaks && !Empty(f[p]) && (p !in s.pending ==> f[p].streak == s.streaks[p])
  }

  lemma ReportFlights(s: State, p: string, succeeded: bool, f: Buffer)
    requires FlightInStep(s, f)
    ensures FlightInStep(Next(s, Report(p, succeeded)), f)
  {
  }

  lemma ReportTable(s: State, p: string, succeeded: bool)
    requires TableTrue(s)
    ensures TableTrue(Next(s, Report(p, succeeded)))
  {
  }

  lemma ReportPending(s: State, p: string, succeeded: bool)
    requires PendingInStep(s)
    ensures PendingInStep(Next(s, Report(p, succeeded)))
  {
  }

  lemma ReportInStep(s: State, p: string, succeeded: bool)
    requires InStep(s)
    ensures InStep(Next(s, Report(p, succeeded)))
  {
    var s' := Next(s, Report(p, succeeded));
    ReportPending(s, p, succeeded);
    ReportTable(s, p, succeeded);
    forall f | f in s'.flights ensures FlightInStep(s', f) {
      ReportFlights(s, p, succeeded, f);
    }
  }

  lemma SwapInStep(s: State)
    requires InStep(s) && s.flights == []
    ensures InStep(Next(s, Swap))
  {
    if s.pending != map[] {
      assert Next(s, Swap).flights == [s.pending];
    }
  }

  lemma UpsertedStreak(t: Table, f: Buffer, p: string)
    ensures p in f && !Empty(f[p]) ==> p in Upserted(t, f) && Upserted(t, f)[p].streak == f[p].streak
    ensures p !in f && p in t ==> p in Upserted(t, f) && Upserted(t, f)[p] == t[p]
  {
  }

  /** The committed streak of a provider is the last one, unless there is a newer one buffered. */
  lemma CommitTable(s: State, f: Buffer, p: string)
    requires FlightInStep(s, f) && TableTrue(s) && s.flights == [f] && p in s.streaks && p !in s.pending
    ensures var table := Upserted(s.table, f); p in table && table[p].streak == s.streaks[p]
  {
    UpsertedStreak(s.table, f, p);
    if p !in f {
      assert !InSome([f], p);
    }
  }

  lemma CommitInStep(s: State)
    requires InStep(s) && |s.flights| == 1
    ensures InStep(Next(s, Commit(0)))
  {
    var s', f := Next(s, Commit(0)), s.flights[0];
    assert s'.flights == [] && s.flights == [f] && f in s.flights;
    forall p | p in s.streaks && p !in s.pending ensures p in s'.table && s'.table[p].streak == s.streaks[p] {
      CommitTable(s, f, p);
    }
    assert PendingInStep(s');
  }

  lemma LatencyInStep(s: State, p: string, ms: int)
    requires InStep(s)
    ensures InStep(Next(s, Latency(p, ms)))
  {
    var s' := Next(s, Latency(p, ms));
    forall f | f in s'.flights ensures FlightInStep(s', f) {
      assert FlightInStep(s, f);
    }
  }

  lemma StepInStep(s: State, e: Event)
    requires InStep(s) && Enabled(s, e) && Allowed(Env(false, false), s, e)
    ensures InStep(Next(s, e))
  {
    if e.Latency? {
      LatencyInStep(s, e.p, e.ms);
    } else if e.Report? {
      ReportInStep(s, e.p, e.succeeded);
    } else if e.Swap? && s.pending != map[] {
      SwapInStep(s);
    } else if e.Commit? {
      CommitInStep(s);
    }
  }

  lemma {:induction false} RunInStep(s: State, events: seq<Event>)
    requires InStep(s) && RunIn(Env(false, false), s, events)
    ensures Run(s, events) && InStep(After(s, events))
    decreases events
  {
    if events != [] {
      StepInStep(s, events[0]);
      RunInStep(Next(s, events[0]), events[1..]);
    }
  }

  /** A failure, a flush that fails, and a success in between: the table ends up with a streak of 1
      although the last call succeeded. */
  lemma StaleStreakReachesTable(env: Env, p: string) returns (events: seq<Event>)
    requires env.commitsFail
    ensures RunIn(env, INITIAL, events) && Run(INITIAL, events)
    ensures After(INITIAL, events) == State(map[p := 0], map[], map[], [], map[p := Health(1, 1, 1, None)])
  {
    var lost, kept := map[p := Outcome(0, 1, 1, None)], map[p := Outcome(1, 0, 0, None)];
    var both := map[p := Outcome(1, 1, 1, None)];
    var s1 := State(map[p := 1], map[], lost, [], map[]);
    var s2 := State(map[p := 1], map[], map[], [lost], map[]);
    var s3 := State(map[p := 0], map[], kept, [lost], map[]);
    var s4 := State(map[p := 0], map[], both, [], map[]);
    var s5 := State(map[p := 0], map[], map[], [both], map[]);
    var s6 := State(map[p := 0], map[], map[], [], map[p := Health(1, 1, 1, None)]);
    assert Next(INITIAL, Report(p, false)) == s1;
    assert p in lost && Next(s1, Swap) == s2;
    assert Next(s2, Report(p, true)) == s3;
    assert Folded(kept, lost) == both && Next(s3, CommitFails(0)) == s4;
    assert p in both && Next(s4, Swap) == s5;
    assert Upserted(map[], both) == s6.table && Next(s5, Commit(0)) == s6;
    events := Before(env, s5, Commit(0), []);
    events := Before(env, s4, Swap, events);
    events := Before(env, s3, CommitFails(0), events);
    events := Before(env, s2, Report(p, true), events);
    events := Before(env, s1, Swap, events);
    events := Before(env, INITIAL, Report(p, false), events);
  }

  /** No commit fails, but the flush of a failure is overtaken by the shutdown drain of the success
      that came after: again the table says 1. */
  lemma OvertakenStreakReachesTable(env: Env, p: string) returns (events: seq<Event>)
    requires env.drainsOverlap
    ensures RunIn(env, INITIAL, events) && Run(INITIAL, events)
    ensures After(INITIAL, events) == State(map[p := 0], map[], map[], [], map[p := Health(1, 1, 1, None)])
  {
    var first, second := map[p := Outcome(0, 1, 1, None)], map[p := Outcome(1, 0, 0, None)];
    var s1 := State(map[p := 1], map[], first, [], map[]);
    var s2 := State(map[p := 1], map[], map[], [first], map[]);
    var s3 := State(map[p := 0], map[], second, [first], map[]);
    var s4 := State(map[p := 0], map[], map[], [first, second], map[]);
    var s5 := State(map[p := 0], map[], map[], [first], map[p := Health(1, 0, 0, None)]);
    var s6 := State(map[p := 0], map[], map[], [], map[p := Health(1, 1, 1, None)]);
    assert Next(INITIAL, Report(p, false)) == s1;
    assert p in first && Next(s1, Swap) == s2;
    assert Next(s2, Report(p, true)) == s3;
    assert p in second && Next(s3, Swap) == s4;
    assert Upserted(map[], second) == s5.table && Landed([first, second], 1) == [first] && Next(s4, Commit(1)) == s5;
    assert Upserted(s5.table, first) == s6.table && Next(s5, Commit(0)) == s6;
    events := Before(env, s5, Commit(0), []);
    events := Before(env, s4, Commit(1), events);
    events := Before(env, s3, Swap, events);
    events := Before(env, s2, Report(p, true), events);
    events := Before(env, s1, Swap, events);
    events := Before(env, INITIAL, Report(p, false), events);
  }

  lemma Before(env: Env, s: State, e: Event, rest: seq<Event>) returns (events: seq<Event>)
    requires Enabled(s, e) && Allowed(env, s, e) && RunIn(env, Next(s, e), rest) && Run(Next(s, e), rest)
    ensures events == [e] + rest && RunIn(env, s, events) && Run(s, events)
    ensures After(s, events) == After(Next(s, e), rest)
  {
    events := [e] + rest;
    assert events[1..] == rest;
  }

  /** Once everything is flushed the table's streak of every provider is the in-memory one, in every
      run of an environment, if and only if commits do not fail there and drains do not overlap. */
  lemma StreaksSettleExactly(env: Env)
    ensures (forall events :: SettlesTrue(env, events)) <==> !env.commitsFail && !env.drainsOverlap
  {
    if !env.commitsFail && !env.drainsOverlap {
      forall events | RunIn(env, INITIAL, events) ensures SettlesTrue(env, events) {
        RunInStep(INITIAL, events);
      }
    } else {
      var events;
      if env.commitsFail {
        events := StaleStreakReachesTable(env, "p");
      } else {
        events := OvertakenStreakReachesTable(env, "p");
      }
      assert "p" in After(INITIAL, events).streaks;
      assert !SettlesTrue(env, events);
    }
  }

  // ---- The controller object -------------------------------------------------------------------

  class AdmissionController {
    var streaks: map<string, nat>
    var durations: map<string, int>
    var pending: Buffer
    var table: Table            // provider_health_window

    constructor ()
      ensures streaks == map[] && durations == map[] && pending == map[] && table == map[]
    {
      streaks, durations, pending, table := map[], map[], map[], map[];
    }

    /** The controller's part of a state. */
    ghost predicate Shows(s: State)
      reads this
    {
      s.streaks == streaks && s.durations == durations && s.pending == pending && s.table == table
    }

    method RecordLatency(p: string, ms: int, ghost s: State)
      requires Shows(s)
      modifies this`durations
      ensures Shows(Next(s, Latency(p, ms)))
    {
      if ms < 0 {
        return;
      }
      durations := durations[p := ms];
    }

    method PersistOutcome(p: string, succeeded: bool)
      modifies this`pending
      ensures pending == Buffered(old(pending), p, succeeded, Streak(streaks, p), LastMs(durations, p))
    {
      var o := if p in pending then pending[p] else Outcome(0, 0, 0, None);
      if succeeded {
        o := o.(ok := o.ok + 1);
      } else {
        o := o.(failed := o.failed + 1);
      }
      pending := pending[p := o.(streak := Streak(streaks, p), lastMs := LastMs(durations, p))];
    }

    method ReportSuccess(p: string, ghost s: State)
      requires Shows(s)
      modifies this`streaks, this`pending
      ensures Shows(Next(s, Report(p, true)))
    {
      streaks := streaks[p := 0];
      PersistOutcome(p, true);
    }

    method ReportFailure(p: string, ghost s: State)
      requires Shows(s)
      modifies this`streaks, this`pending
      ensures Shows(Next(s, Report(p, false)))
    {
      streaks := streaks[p := Streak(streaks, p) + 1];
      PersistOutcome(p, false);
    }

    /** drain, up to the database: the buffer is swapped for an empty one. */
    method BeginDrain(ghost s: State) returns (snapshot: Buffer)
      requires Shows(s)
      modifies this`pending
      ensures Shows(Next(s, Swap)) && snapshot == s.pending
    {
      snapshot, pending := pending, map[];
    }

    /** drain, from the database on: one upsert per provider and a commit, or the fold-back. */
    method FinishDrain(snapshot: Buffer, committed: bool, ghost s: State, ghost i: nat)
      requires Shows(s) && i < |s.flights| && s.flights[i] == snapshot
      modifies this`pending, this`table
      ensures Shows(Next(s, if committed then Commit(i) else CommitFails(i)))
    {
      if committed {
        table := Upsert(table, snapshot);
      } else {
        pending := FoldBack(pending, snapshot);
      }
    }
  }

  method Upsert(table: Table, snapshot: Buffer) returns (t: Table)
    ensures t == Upserted(table, snapshot)
  {
    t := table;
    var todo := snapshot.Keys;
    while todo != {}
      invariant todo <= snapshot.Keys
      invariant forall p :: p in t <==> p in table || (p in snapshot && p !in todo && !Empty(snapshot[p]))
      invariant forall p :: p in t ==>
          t[p] == (if p in snapshot && p !in todo && !Empty(snapshot[p]) then UpsertedRow(table, p, snapshot[p])
                   else table[p])
      decreases todo
    {
      var p :| p in todo;
      if !Empty(snapshot[p]) {
        t := t[p := UpsertedRow(t, p, snapshot[p])];
      }
      todo := todo - {p};
    }
  }

  method FoldBack(pending: Buffer, snapshot: Buffer) returns (b: Buffer)
    ensures b == Folded(pending, snapshot)
  {
    b := pending;
    var todo := snapshot.Keys;
    while todo != {}
      invariant todo <= snapshot.Keys
      invariant forall p :: p in b <==> p in pending || (p in snapshot && p !in todo)
      invariant forall p :: p in b ==>
          b[p] == (if p !in snapshot || p in todo then pending[p]
                   else if p in pending then FoldedOutcome(pending[p], snapshot[p])
                   else snapshot[p])
      decreases todo
    {
      var p :| p in todo;
      if p in b {
        b := b[p := FoldedOutcome(b[p], snapshot[p])];
      } else {
        b := b[p := snapshot[p]];
      }
      todo := todo - {p};
    }
  }
}
