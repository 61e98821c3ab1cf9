/** What can become of a message, and when the MINID trim is safe for the pending entries list. */
module NoSilentLoss {
  import opened Streams
  import opened JobProtocol

  /** A DLQ row was written for the message. */
  ghost predicate DeadLettered(dl: DeadLetters, k: Key) {
    exists row :: row in dl.buried && dl.buried[row].origin == k
  }

  /** Where a message can be, or what must have happened to it. */
  ghost predicate AccountedFor(s: State, k: Key) {
    || k in s.q.undelivered
    || k in s.q.pel
    || k in s.h.committed
    || (k in s.h.softAcked && !k.stream.Purge?)
    || DeadLettered(s.dl, k)
    || k in s.t.trimmed
    || k in s.t.lost
  }

  /** A task about to acknowledge has the reason for it behind it. */
  ghost predicate Justified(s: State, d: Delivery) {
    d in s.tasks
    ==> match s.tasks[d]
        case Committed => d.key in s.h.committed
        case Buried => DeadLettered(s.dl, d.key)
        case SoftAcking => !d.key.stream.Purge?
        case _ => true
  }

  ghost predicate AllAccounted(s: State) {
    && (forall k :: k in s.q.log && s.q.log[k].parseable ==> AccountedFor(s, k))
    && (forall d :: d in s.tasks ==> Justified(s, d))
  }

  /** The histories only grow. */
  ghost predicate Remembers(s: State, s': State) {
    && s.h.committed <= s'.h.committed
    && s.h.softAcked <= s'.h.softAcked
    && s.t.trimmed <= s'.t.trimmed
    && s.t.lost <= s'.t.lost
    && (forall row :: row in s.dl.buried ==> row in s'.dl.buried && s'.dl.buried[row] == s.dl.buried[row])
  }

  lemma RemembersStep(cfg: Config, s: State, step: Step)
    requires Enabled(cfg, s, step)
    ensures Remembers(s, Next(cfg, s, step))
  {
  }

  lemma DeadLetteredKept(s: State, s': State, k: Key)
    requires Remembers(s, s')
    ensures DeadLettered(s.dl, k) ==> DeadLettered(s'.dl, k)
  {
    forall row | row in s.dl.buried && s.dl.buried[row].origin == k ensures DeadLettered(s'.dl, k) {
      assert row in s'.dl.buried;
    }
  }

  lemma Kept(s: State, s': State, k: Key)
    requires Remembers(s, s') && AccountedFor(s, k)
    requires k in s.q.undelivered || k in s.q.pel ==> AccountedFor(s', k)
    ensures AccountedFor(s', k)
  {
    DeadLetteredKept(s, s', k);
  }

  /** Only an XACK or an XTRIM makes a message leave both the stream's unread part and the PEL. */
  lemma Leaves(cfg: Config, s: State, step: Step, k: Key)
    requires Shape(s) && AllAccounted(s) && Enabled(cfg, s, step)
    requires k in s.q.log && s.q.log[k].parseable && (k in s.q.undelivered || k in s.q.pel)
    ensures AccountedFor(Next(cfg, s, step), k)
  {
    match step
    case Work(d, a) =>
      assert Justified(s, d);
      if a.Ack? && d.key == k {
        RemembersStep(cfg, s, step);
        DeadLetteredKept(s, Next(cfg, s, step), k);
      }
    case Trim(a) =>
    case _ =>
  }

  lemma JustifiedKept(s: State, s': State, x: Delivery)
    requires Remembers(s, s') && Justified(s, x) && (x in s'.tasks ==> x in s.tasks && s'.tasks[x] == s.tasks[x])
    ensures Justified(s', x)
  {
    DeadLetteredKept(s, s', x.key);
  }

  lemma WorkJustified(cfg: Config, s: State, d: Delivery, a: TaskAct)
    requires TaskCan(s, d, a)
    ensures Justified(Next(cfg, s, Work(d, a)), d)
  {
    var s' := Next(cfg, s, Work(d, a));
    if a.WriteDlq? {
      assert s'.dl.buried[a.row].origin == d.key;
    }
  }

  lemma JustifiedStep(cfg: Config, s: State, step: Step, x: Delivery)
    requires AllAccounted(s) && Enabled(cfg, s, step)
    ensures Justified(Next(cfg, s, step), x)
  {
    RemembersStep(cfg, s, step);
    assert x in s.tasks ==> Justified(s, x);
    if step.Work? && step.d == x {
      WorkJustified(cfg, s, x, step.act);
    } else if !(step.Deliver? || step.Reclaim?) {
      JustifiedKept(s, Next(cfg, s, step), x);
    } else if x in s.tasks && Next(cfg, s, step).tasks[x] == s.tasks[x] {
      JustifiedKept(s, Next(cfg, s, step), x);
    }
  }

  lemma AccountedStep(cfg: Config, s: State, step: Step)
    requires Shape(s) && AllAccounted(s) && Enabled(cfg, s, step)
    ensures AllAccounted(Next(cfg, s, step))
  {
    var s' := Next(cfg, s, step);
    QueueStep(cfg, s, step);
    RemembersStep(cfg, s, step);
    forall k | k in s'.q.log && s'.q.log[k].parseable ensures AccountedFor(s', k) {
      if k in s.q.log {
        if k in s.q.undelivered || k in s.q.pel {
          Leaves(cfg, s, step, k);
        }
        Kept(s, s', k);
      } else {
        AddedIsUndelivered(cfg, s, step, k);
      }
    }
    forall d ensures Justified(s', d) {
      JustifiedStep(cfg, s, step, d);
    }
  }

  lemma AddedIsUndelivered(cfg: Config, s: State, step: Step, k: Key)
    requires Enabled(cfg, s, step) && k in Next(cfg, s, step).q.log && k !in s.q.log
    ensures k in Next(cfg, s, step).q.undelivered
  {
  }

  lemma {:induction false} AccountedAlways(cfg: Config, r: Regime, s: State, steps: seq<Step>)
    requires Shape(s) && AllAccounted(s) && Run(cfg, r, s, steps)
    ensures AllAccounted(After(cfg, r, s, steps))
    decreases steps
  {
    if steps != [] {
      ShapeStep(cfg, s, steps[0]);
      AccountedStep(cfg, s, steps[0]);
      AccountedAlways(cfg, r, Next(cfg, s, steps[0]), steps[1..]);
    }
  }

  // ---- The trim ---------------------------------------------------------------------------

  /** Above an active trimmer's cutoff lies everything it could take from a consumer. */
  predicate TrimmerSafe(q: Queue, t: Trimmer) {
    t.cutoff <= q.now && PendingFrom(q, t.stream, t.cutoff) && UndeliveredFrom(q, t.stream, t.cutoff)
  }

  predicate TrimmersSafe(s: State, lost: set<Key>) {
    s.t.lost == lost && forall t :: t in s.t.trimmers ==> TrimmerSafe(s.q, s.t.trimmers[t])
  }

  lemma AddedIsRecent(cfg: Config, s: State, step: Step)
    requires Enabled(cfg, s, step)
    ensures forall k :: k in Next(cfg, s, step).q.undelivered && k !in s.q.undelivered ==> s.q.now <= k.id.ms
  {
  }

  lemma TrimmerKept(cfg: Config, s: State, step: Step, t: Trimmer)
    requires MessageShape(s.q) && Enabled(cfg, s, step) && TrimmerSafe(s.q, t)
    ensures TrimmerSafe(Next(cfg, s, step).q, t)
  {
    QueueStep(cfg, s, step);
    AddedIsRecent(cfg, s, step);
  }

  lemma TrimStep(cfg: Config, s: State, step: Step, lost: set<Key>)
    requires MessageShape(s.q) && TrimmersSafe(s, lost) && Enabled(cfg, s, step) && TrimSafe(s, step)
    ensures TrimmersSafe(Next(cfg, s, step), lost)
  {
    forall t | TrimmerSafe(s.q, t) ensures TrimmerSafe(Next(cfg, s, step).q, t) {
      TrimmerKept(cfg, s, step, t);
    }
    match step
    case Trim(a) =>
      if a.Xtrim? {
        assert TrimmerSafe(s.q, s.t.trimmers[a.t]);
        assert a.removed * s.q.pel.Keys == {};
      }
    case _ =>
  }

  ghost predicate NoChecks(steps: seq<Step>) {
    forall i :: 0 <= i < |steps| ==> !(steps[i].Trim? && steps[i].ta.CheckTrim?)
  }

  lemma {:induction false} TrimAlways(cfg: Config, r: Regime, s: State, steps: seq<Step>, lost: set<Key>)
    requires Shape(s) && TrimmersSafe(s, lost) && Run(cfg, r, s, steps)
    requires r.trimSafe || NoChecks(steps)
    ensures TrimmersSafe(After(cfg, r, s, steps), lost)
    decreases steps
  {
    if steps != [] {
      ShapeStep(cfg, s, steps[0]);
      TrimStep(cfg, s, steps[0], lost);
      TrimAlways(cfg, r, Next(cfg, s, steps[0]), steps[1..], lost);
    }
  }

  /** Every parseable message ever XADDed is undelivered, pending, committed, soft-acknowledged
      (never a purge), dead-lettered, or trimmed, whatever stopped between any two steps. */
  lemma EveryMessageAccountedFor(cfg: Config, r: Regime, steps: seq<Step>, k: Key)
    requires Run(cfg, r, INITIAL, steps)
    requires var s := After(cfg, r, INITIAL, steps); k in s.q.log && s.q.log[k].parseable
    ensures AccountedFor(After(cfg, r, INITIAL, steps), k)
  {
    AccountedAlways(cfg, r, INITIAL, steps);
  }

  /** When each passing trim check saw no undelivered entry below its cutoff, nothing pending is
      ever trimmed, whatever was delivered, acknowledged, reclaimed or added between the XPENDING
      and the XTRIM. */
  lemma TrimSparesPending(cfg: Config, r: Regime, steps: seq<Step>)
    requires Run(cfg, r, INITIAL, steps) && r.trimSafe
    ensures After(cfg, r, INITIAL, steps).t.lost == {}
  {
    TrimAlways(cfg, r, INITIAL, steps, {});
  }

  /** With no step between check and trim the condition on undelivered entries is not needed. */
  lemma AtomicTrimSparesPending(cfg: Config, s: State, t: nat, stream: Stream, cutoff: nat, removed: set<Key>)
    requires Enabled(cfg, s, Trim(CheckTrim(t, stream, cutoff)))
    requires Enabled(cfg, Next(cfg, s, Trim(CheckTrim(t, stream, cutoff))), Trim(Xtrim(t, removed)))
    ensures var s' := Next(cfg, Next(cfg, s, Trim(CheckTrim(t, stream, cutoff))), Trim(Xtrim(t, removed)));
      s'.q.pel == s.q.pel && s'.t.lost == s.t.lost
  {
    var s1 := Next(cfg, s, Trim(CheckTrim(t, stream, cutoff)));
    assert removed * s1.q.pel.Keys == {};
  }

  predicate OldestOf(q: Queue, k: Key) {
    k in q.undelivered
    && forall j :: j in q.undelivered && j.stream == k.stream && j != k ==> Before(k.id, j.id)
  }

  lemma {:induction false} OldestExists(q: Queue, k: Key, rest: set<Key>) returns (o: Key)
    requires k in q.undelivered && rest <= q.undelivered
    requires forall j :: j in q.undelivered - rest && j.stream == k.stream && j != k ==> Before(k.id, j.id)
    ensures OldestOf(q, o) && o.stream == k.stream && (o == k || Before(o.id, k.id))
    decreases rest
  {
    if j :| j in rest && j.stream == k.stream && j != k && !Before(k.id, j.id) {
      assert Before(j.id, k.id);
      o := OldestExists(q, j, rest - {j});
    } else {
      o := k;
    }
  }

  /** Conversely, an undelivered entry below the cutoff can be lost: one delivery between the
      check and the trim is enough. */
  lemma StaleBacklogCanBeLost(cfg: Config, s: State, t: nat, stream: Stream, cutoff: nat, k: Key)
    returns (o: Key, steps: seq<Step>)
    requires Shape(s) && Enabled(cfg, s, Trim(CheckTrim(t, stream, cutoff)))
    requires k in s.q.undelivered && k.stream == stream && k.id.ms < cutoff
    ensures o !in s.t.lost
    ensures steps == [Trim(CheckTrim(t, stream, cutoff)), Deliver(o), Trim(Xtrim(t, {o}))]
    ensures Run(cfg, ANY, s, steps) && o in After(cfg, ANY, s, steps).t.lost
  {
    o := OldestExists(s.q, k, s.q.undelivered);
    var a, b, c := Trim(CheckTrim(t, stream, cutoff)), Deliver(o), Trim(Xtrim(t, {o}));
    steps := [a, b, c];
    var s1 := Next(cfg, s, a);
    var s2 := Next(cfg, s1, b);
    var s3 := Next(cfg, s2, c);
    assert steps[1..] == [b, c] && [b, c][1..] == [c] && [c][1..] == [];
    assert Run(cfg, ANY, s3, []);
    assert Run(cfg, ANY, s2, [c]) && After(cfg, ANY, s2, [c]) == s3;
    assert Run(cfg, ANY, s1, [b, c]) && After(cfg, ANY, s1, [b, c]) == s3;
  }

  /** A trim whose cutoff is not ahead of the server clock and whose check has just passed: every
      continuation spares what is pending, if and only if no undelivered entry is below the cutoff. */
  lemma TrimSafeExactly(cfg: Config, s: State, t: nat, stream: Stream, cutoff: nat)
    requires Shape(s) && s.t.trimmers == map[] && cutoff <= s.q.now
    requires Enabled(cfg, s, Trim(CheckTrim(t, stream, cutoff)))
    ensures var s1 := Next(cfg, s, Trim(CheckTrim(t, stream, cutoff)));
      (forall steps :: Run(cfg, ANY, s1, steps) && NoChecks(steps) ==> After(cfg, ANY, s1, steps).t.lost == s.t.lost)
      <==> UndeliveredFrom(s.q, stream, cutoff)
  {
    var s1 := Next(cfg, s, Trim(CheckTrim(t, stream, cutoff)));
    ShapeStep(cfg, s, Trim(CheckTrim(t, stream, cutoff)));
    if UndeliveredFrom(s.q, stream, cutoff) {
      forall steps | Run(cfg, ANY, s1, steps) && NoChecks(steps)
        ensures After(cfg, ANY, s1, steps).t.lost == s.t.lost
      {
        TrimAlways(cfg, ANY, s1, steps, s.t.lost);
      }
    } else {
      var k :| k in s.q.undelivered && k.stream == stream && k.id.ms < cutoff;
      var o, steps := StaleBacklogCanBeLost(cfg, s, t, stream, cutoff, k);
      assert After(cfg, ANY, s1, steps[1..]) == After(cfg, ANY, s, steps);
      assert NoChecks(steps[1..]) && Run(cfg, ANY, s1, steps[1..]);
    }
  }

  // ---- Environments in which trims are safe -----------------------------------------------------

  const OLD := Key(Stats, Id(0, 0))

  lemma OldMessage(cfg: Config, r: Regime, steps: seq<Step>, s: State) returns (steps': seq<Step>, s': State)
    requires Leads(cfg, r, steps, s) && s.c == INITIAL.c && s.q == INITIAL.q
    ensures steps' == steps + [Produce(Claim(0, Stats, "ds", "")), Produce(Append(0, Id(0, 0)))]
    ensures Leads(cfg, r, steps', s') && s'.t == s.t
    ensures s'.q == Queue(0, map[OLD := Entry(true, "ds", "", 0, 0)], {OLD}, map[])
  {
    steps', s' := Then(cfg, r, steps, s, Produce(Claim(0, Stats, "ds", "")));
    steps', s' := Then(cfg, r, steps', s', Produce(Append(0, Id(0, 0))));
  }

  lemma DeliveredAndTrimmed(cfg: Config, r: Regime, steps: seq<Step>, s: State) returns (steps': seq<Step>, s': State)
    requires Leads(cfg, r, steps, s) && s.t == Trims(map[0 := Trimmer(Stats, 1)], {}, {})
    requires s.q.log == map[OLD := Entry(true, "ds", "", 0, 0)] && s.q.undelivered == {OLD} && s.q.pel == map[]
    ensures Leads(cfg, r, steps', s') && s'.t.lost == {OLD}
    ensures steps' == steps + [Deliver(OLD), Trim(Xtrim(0, {OLD}))]
  {
    steps', s' := Then(cfg, r, steps, s, Deliver(OLD));
    steps', s' := Then(cfg, r, steps', s', Trim(Xtrim(0, {OLD})));
  }

  /** The check passes over an unread message that is older than its cutoff. */
  lemma StaleCutoffLoses(cfg: Config, r: Regime) returns (steps: seq<Step>, s: State)
    requires !r.trimSafe
    ensures Leads(cfg, r, steps, s) && s.t.lost == {OLD}
  {
    NoSteps(cfg, r);
    steps, s := OldMessage(cfg, r, [], INITIAL);
    steps, s := Then(cfg, r, steps, s, Produce(Tick(1)));
    steps, s := Then(cfg, r, steps, s, Trim(CheckTrim(0, Stats, 1)));
    assert s.t == Trims(map[0 := Trimmer(Stats, 1)], {}, {});
    steps, s := DeliveredAndTrimmed(cfg, r, steps, s);
  }

  /** The check sees nothing unread at all, but its cutoff, from a client's clock, is ahead of the
      server's: a message that comes after the check is older. */
  lemma FutureCutoffLoses(cfg: Config, r: Regime) returns (steps: seq<Step>, s: State)
    requires !r.trimSafe
    ensures Leads(cfg, r, steps, s) && s.t.lost == {OLD}
    ensures steps[0] == Trim(CheckTrim(0, Stats, 1)) && forall step <- steps[1..] :: !(step.Trim? && step.ta.CheckTrim?)
  {
    NoSteps(cfg, r);
    steps, s := Then(cfg, r, [], INITIAL, Trim(CheckTrim(0, Stats, 1)));
    assert s.t == Trims(map[0 := Trimmer(Stats, 1)], {}, {});
    steps, s := OldMessage(cfg, r, steps, s);
    steps, s := DeliveredAndTrimmed(cfg, r, steps, s);
  }

  ghost predicate SparesPending(cfg: Config, r: Regime, steps: seq<Step>) {
    Run(cfg, r, INITIAL, steps) ==> After(cfg, r, INITIAL, steps).t.lost == {}
  }

  /** No run of an environment trims a pending entry, if and only if the environment lets no check
      pass over an unread entry below its cutoff, nor with a cutoff ahead of the server's clock. */
  lemma TrimSparesPendingExactly(cfg: Config, r: Regime)
    ensures (forall steps :: SparesPending(cfg, r, steps)) <==> r.trimSafe
  {
    if r.trimSafe {
      forall steps | Run(cfg, r, INITIAL, steps) ensures After(cfg, r, INITIAL, steps).t.lost == {} {
        TrimSparesPending(cfg, r, steps);
      }
    } else {
      var steps, s := StaleCutoffLoses(cfg, r);
      assert OLD in s.t.lost && !SparesPending(cfg, r, steps);
    }
  }
}
