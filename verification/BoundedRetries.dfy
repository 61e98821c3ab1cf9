/** How often a message's handler can be started. */
module BoundedRetries {
  import opened Streams
  import opened JobProtocol

  predicate IsStart(step: Step, k: Key) {
    step.Work? && step.act.StartHandler? && step.d.key == k
  }

  /** Handler starts of one message in a run. */
  function Starts(steps: seq<Step>, k: Key): nat {
    if steps == [] then 0 else (if IsStart(steps[0], k) then 1 else 0) + Starts(steps[1..], k)
  }

  function StartedOf(h: History, k: Key): set<Delivery> {
    set d | d in h.started && d.key == k
  }

  /** A first delivery, or one that XPENDING still counted below the limit. */
  predicate MayStart(cfg: Config, d: Delivery) {
    d.n == 1 || d.n < cfg.maxAttempts
  }

  predicate StartInv(cfg: Config, s: State) {
    && (forall d :: d in s.h.started ==> MayStart(cfg, d))
    && (forall d :: d in s.tasks && s.tasks[d].Spawned? ==> MayStart(cfg, d) && d !in s.h.started)
    && (forall d :: d in s.tasks && s.tasks[d].Recovered? ==> d !in s.h.started)
  }

  lemma WorkStartInv(cfg: Config, s: State, d: Delivery, a: TaskAct)
    requires Shape(s) && StartInv(cfg, s) && TaskCan(s, d, a) && (Answers(s, Work(d, a)) || cfg.maxAttempts <= 1)
    ensures var pc := PcAfter(cfg, s, d, a);
      && (pc.Spawned? ==> MayStart(cfg, d) && d !in s.h.started)
      && !pc.Recovered?
      && (a.StartHandler? ==> MayStart(cfg, d))
  {
    assert TaskShape(s.q, d);
  }

  lemma StartInvStep(cfg: Config, s: State, step: Step)
    requires Shape(s) && StartInv(cfg, s) && Enabled(cfg, s, step) && (Answers(s, step) || cfg.maxAttempts <= 1)
    ensures StartInv(cfg, Next(cfg, s, step))
  {
    match step
    case Work(d, a) => WorkStartInv(cfg, s, d, a);
    case Deliver(key) => assert forall n :: Delivery(key, n) !in s.h.started;
    case Reclaim(key) => assert forall d :: d in s.h.started && d.key == key ==> d.n <= s.q.pel[key];
    case _ =>
  }

  lemma StartedStep(cfg: Config, s: State, step: Step, k: Key)
    requires StartInv(cfg, s) && Enabled(cfg, s, step)
    ensures var s' := Next(cfg, s, step);
      |StartedOf(s'.h, k)| == |StartedOf(s.h, k)| + (if IsStart(step, k) then 1 else 0)
  {
    var s' := Next(cfg, s, step);
    if IsStart(step, k) {
      assert StartedOf(s'.h, k) == StartedOf(s.h, k) + {step.d};
    } else {
      assert StartedOf(s'.h, k) == StartedOf(s.h, k);
    }
  }

  lemma {:induction false} StartsCounted(cfg: Config, r: Regime, s: State, steps: seq<Step>, k: Key)
    requires Shape(s) && StartInv(cfg, s) && Run(cfg, r, s, steps) && (r.answers || cfg.maxAttempts <= 1)
    ensures StartInv(cfg, After(cfg, r, s, steps))
    ensures |StartedOf(After(cfg, r, s, steps).h, k)| == |StartedOf(s.h, k)| + Starts(steps, k)
    decreases steps
  {
    if steps != [] {
      ShapeStep(cfg, s, steps[0]);
      StartInvStep(cfg, s, steps[0]);
      StartedStep(cfg, s, steps[0], k);
      StartsCounted(cfg, r, Next(cfg, s, steps[0]), steps[1..], k);
    }
  }

  function StartLimit(cfg: Config): nat {
    if cfg.maxAttempts <= 2 then 1 else cfg.maxAttempts - 1
  }

  lemma {:induction false} AtMost(ds: set<Delivery>, k: Key, n: nat)
    requires forall d :: d in ds ==> d.key == k && 1 <= d.n <= n
    ensures |ds| <= n
    decreases n
  {
    if n == 0 {
      assert ds == {};
    } else {
      AtMost(ds - {Delivery(k, n)}, k, n - 1);
    }
  }

  /** Over any run in which every XPENDING lookup finds its message, with crashes anywhere and
      reclaims of running messages, a message's handler is started at most
      max(1, max_delivery_attempts - 1) times. With one attempt lookups do not matter. */
  lemma StartsBounded(cfg: Config, r: Regime, steps: seq<Step>, k: Key)
    requires Run(cfg, r, INITIAL, steps) && (r.answers || cfg.maxAttempts <= 1)
    ensures Starts(steps, k) <= StartLimit(cfg)
  {
    StartsCounted(cfg, r, INITIAL, steps, k);
    ShapeAlways(cfg, r, INITIAL, steps);
    var s := After(cfg, r, INITIAL, steps);
    assert StartedOf(INITIAL.h, k) == {};
    forall d | d in StartedOf(s.h, k) ensures d.key == k && 1 <= d.n <= StartLimit(cfg) {
      assert TaskShape(s.q, d) && MayStart(cfg, d);
    }
    AtMost(StartedOf(s.h, k), k, StartLimit(cfg));
  }

  // ---- Runs that start a handler often ------------------------------------------------------

  const POISONED := Key(Stats, Id(0, 0))

  /** After `steps` the message has been delivered `n` times, its handler started `n` times, and
      every worker that started it has died. */
  ghost predicate Crashed(cfg: Config, r: Regime, steps: seq<Step>, s: State, n: nat) {
    && Leads(cfg, r, steps, s)
    && s.tasks == map[] && s.q.pel == map[POISONED := n] && POISONED in s.q.log
    && s.q.log[POISONED] == Entry(true, "ds", "", 0, 0)
    && s.dl.buried == map[] && s.dl.present == {}
    && Starts(steps, POISONED) == n
  }

  lemma {:induction false} StartsOfExtended(steps: seq<Step>, step: Step, k: Key)
    ensures Starts(steps + [step], k) == Starts(steps, k) + (if IsStart(step, k) then 1 else 0)
    decreases steps
  {
    if steps == [] {
      assert steps + [step] == [step] && [step][1..] == [];
      assert Starts([step], k) == (if IsStart(step, k) then 1 else 0) + Starts([], k);
    } else {
      assert (steps + [step])[1..] == steps[1..] + [step];
      StartsOfExtended(steps[1..], step, k);
    }
  }

  lemma TookStep(cfg: Config, r: Regime, steps: seq<Step>, s: State, step: Step)
    returns (steps': seq<Step>, s': State)
    requires Leads(cfg, r, steps, s) && Enabled(cfg, s, step) && Allowed(r, s, step)
    ensures Leads(cfg, r, steps', s') && s' == Next(cfg, s, step) && steps' == steps + [step]
    ensures Starts(steps', POISONED) == Starts(steps, POISONED) + (if IsStart(step, POISONED) then 1 else 0)
  {
    steps', s' := Then(cfg, r, steps, s, step);
    StartsOfExtended(steps, step, POISONED);
  }

  lemma TookTurn(cfg: Config, r: Regime, steps: seq<Step>, s: State, d: Delivery, pc: Pc, a: TaskAct)
    returns (steps': seq<Step>, s': State)
    requires Leads(cfg, r, steps, s) && s.tasks == map[d := pc] && d.key == POISONED
    requires TaskCan(s, d, a) && (r.answers ==> Answers(s, Work(d, a)))
    ensures Leads(cfg, r, steps', s')
    ensures Starts(steps', POISONED) == Starts(steps, POISONED) + (if a.StartHandler? then 1 else 0)
    ensures var pc' := PcAfter(cfg, s, d, a); s'.tasks == if pc'.Ended? then map[] else map[d := pc']
    ensures s'.q == TaskQueue(s, d, a) && s'.c == TaskClaims(s, d, a) && s'.dl == TaskDlq(s, d, a)
  {
    steps', s' := Alone(cfg, r, steps, s, d, pc, a);
    StartsOfExtended(steps, Work(d, a), POISONED);
  }

  lemma Retaken(cfg: Config, r: Regime, steps: seq<Step>, s: State, n: nat) returns (steps': seq<Step>, s': State)
    requires Crashed(cfg, r, steps, s, n)
    ensures Leads(cfg, r, steps', s') && Starts(steps', POISONED) == n
    ensures s'.tasks == map[Delivery(POISONED, n + 1) := Recovered] && s'.dl == s.dl
    ensures s'.q == s.q.(pel := map[POISONED := n + 1])
  {
    steps', s' := TookStep(cfg, r, steps, s, Reclaim(POISONED));
  }

  lemma Enqueued(cfg: Config, r: Regime) returns (steps: seq<Step>, s: State)
    ensures Leads(cfg, r, steps, s) && Starts(steps, POISONED) == 0
    ensures s.tasks == map[] && s.q.pel == map[] && s.q.undelivered == {POISONED}
    ensures s.q.log == map[POISONED := Entry(true, "ds", "", 0, 0)]
    ensures s.dl.buried == map[] && s.dl.present == {}
    ensures |steps| == 2 && forall step <- steps :: step.Produce?
  {
    NoSteps(cfg, r);
    steps, s := TookStep(cfg, r, [], INITIAL, Produce(Claim(0, Stats, "ds", "")));
    steps, s := TookStep(cfg, r, steps, s, Produce(Append(0, Id(0, 0))));
  }

  lemma FirstCrash(cfg: Config, r: Regime) returns (steps: seq<Step>, s: State)
    ensures Crashed(cfg, r, steps, s, 1)
  {
    var d := Delivery(POISONED, 1);
    steps, s := Enqueued(cfg, r);
    steps, s := TookStep(cfg, r, steps, s, Deliver(POISONED));
    steps, s := TookTurn(cfg, r, steps, s, d, Spawned, StartHandler);
    steps, s := TookTurn(cfg, r, steps, s, d, Working, Die);
  }

  /** The reclaimed message is started again: its count is below the limit, or XPENDING fails and
      the count falls back to 1. */
  lemma NextCrash(cfg: Config, r: Regime, steps: seq<Step>, s: State, n: nat, answered: bool)
    returns (steps': seq<Step>, s': State)
    requires Crashed(cfg, r, steps, s, n) && 1 <= n && (r.answers ==> answered)
    requires if answered then n + 1 < cfg.maxAttempts else 1 < cfg.maxAttempts
    ensures Crashed(cfg, r, steps', s', n + 1)
  {
    var d := Delivery(POISONED, n + 1);
    steps', s' := Retaken(cfg, r, steps, s, n);
    steps', s' := TookTurn(cfg, r, steps', s', d, Recovered, CheckRecovered(answered));
    steps', s' := TookTurn(cfg, r, steps', s', d, Spawned, StartHandler);
    steps', s' := TookTurn(cfg, r, steps', s', d, Working, Die);
  }

  lemma Crashes(cfg: Config, r: Regime, n: nat, answered: bool) returns (steps: seq<Step>, s: State)
    requires n >= 1 && (r.answers ==> answered)
    requires n >= 2 ==> if answered then n < cfg.maxAttempts else 1 < cfg.maxAttempts
    ensures Crashed(cfg, r, steps, s, n)
  {
    steps, s := FirstCrash(cfg, r);
    var i := 1;
    while i < n
      invariant 1 <= i <= n && Crashed(cfg, r, steps, s, i)
    {
      steps, s := NextCrash(cfg, r, steps, s, i, answered);
      i := i + 1;
    }
  }

  ghost predicate InDlq(s: State) {
    s.dl.buried == map[0 := DlqRow(POISONED, Entry(true, "ds", "", 0, 0))] && s.dl.present == {0}
  }

  lemma Exhausted(cfg: Config, r: Regime, steps: seq<Step>, s: State, n: nat) returns (steps': seq<Step>, s': State)
    requires Crashed(cfg, r, steps, s, n) && 1 <= n && n + 1 >= cfg.maxAttempts
    ensures Leads(cfg, r, steps', s') && Starts(steps', POISONED) == n && InDlq(s')
    ensures s'.tasks == map[Delivery(POISONED, n + 1) := Buried]
    ensures s'.q == s.q.(pel := map[POISONED := n + 1])
  {
    var d := Delivery(POISONED, n + 1);
    steps', s' := Retaken(cfg, r, steps, s, n);
    assert s'.q.pel[POISONED] == n + 1 && CountSeen(s'.q, POISONED, true) == n + 1;
    steps', s' := TookTurn(cfg, r, steps', s', d, Recovered, CheckRecovered(true));
    assert s'.q.log[POISONED] == Entry(true, "ds", "", 0, 0);
    steps', s' := TookTurn(cfg, r, steps', s', d, Burying(true), WriteDlq(0));
  }

  lemma Settle(cfg: Config, r: Regime, steps: seq<Step>, s: State, n: nat) returns (steps': seq<Step>, s': State)
    requires Leads(cfg, r, steps, s) && POISONED in s.q.log && s.q.log[POISONED].scope == "ds" && InDlq(s)
    requires s.tasks == map[Delivery(POISONED, n) := Buried] && s.q.pel == map[POISONED := n]
    ensures Leads(cfg, r, steps', s') && Starts(steps', POISONED) == Starts(steps, POISONED) && InDlq(s')
    ensures s'.q.pel == map[] && s'.tasks == map[] && Slot(Stats, "ds") !in s'.c.held
  {
    var d := Delivery(POISONED, n);
    steps', s' := TookTurn(cfg, r, steps, s, d, Buried, Ack(true));
    steps', s' := TookTurn(cfg, r, steps', s', d, Releasing(true), Release);
  }

  /** The bound is reached in every environment: some run starts a handler that often; the next
      reclaim then dead-letters the message, acknowledges it and frees the claim. */
  lemma PoisonedMessageEndsInDlq(cfg: Config, r: Regime) returns (steps: seq<Step>, s: State)
    ensures Leads(cfg, r, steps, s) && Starts(steps, POISONED) == StartLimit(cfg)
    ensures InDlq(s) && s.q.pel == map[] && s.tasks == map[] && Slot(Stats, "ds") !in s.c.held
  {
    var n := StartLimit(cfg);
    steps, s := Crashes(cfg, r, n, true);
    steps, s := Exhausted(cfg, r, steps, s, n);
    steps, s := Settle(cfg, r, steps, s, n + 1);
  }

  /** The bound holds for every run of an environment if and only if lookups always find their
      message, or one attempt is all there is: a lookup that fails counts as a first delivery. */
  lemma StartsBoundedExactly(cfg: Config, r: Regime)
    ensures (forall steps, k :: Run(cfg, r, INITIAL, steps) ==> Starts(steps, k) <= StartLimit(cfg))
            <==> r.answers || cfg.maxAttempts <= 1
  {
    if r.answers || cfg.maxAttempts <= 1 {
      forall steps, k | Run(cfg, r, INITIAL, steps) ensures Starts(steps, k) <= StartLimit(cfg) {
        StartsBounded(cfg, r, steps, k);
      }
    } else {
      var steps, s := Crashes(cfg, r, StartLimit(cfg) + 1, false);
      assert Run(cfg, r, INITIAL, steps) && Starts(steps, POISONED) > StartLimit(cfg);
    }
  }

  // ---- Lookups that are answered with an empty list -----------------------------------------

  /** No lookup of the run errors. */
  ghost predicate AllReplied(steps: seq<Step>) {
    forall step <- steps | step.Work? ::
      (step.act.CheckRecovered? || step.act.ReadCount?) ==> step.act.answered
  }

  /** The first handler is at work, and deliveries 2 to `n` have been reclaimed from under it. */
  ghost predicate TakenFrom(cfg: Config, r: Regime, steps: seq<Step>, s: State, n: nat) {
    && Leads(cfg, r, steps, s) && AllReplied(steps) && Starts(steps, POISONED) == 1
    && s.q.pel == map[POISONED := n] && POISONED in s.q.log && s.q.log[POISONED] == Entry(true, "ds", "", 0, 0)
    && (forall d :: d in s.tasks <==> d.key == POISONED && 1 <= d.n <= n)
    && (forall d :: d in s.tasks ==> s.tasks[d] == if d.n == 1 then Working else Recovered)
  }

  lemma FirstAtWork(cfg: Config, r: Regime) returns (steps: seq<Step>, s: State)
    ensures TakenFrom(cfg, r, steps, s, 1)
  {
    var d := Delivery(POISONED, 1);
    steps, s := Enqueued(cfg, r);
    steps, s := TookStep(cfg, r, steps, s, Deliver(POISONED));
    steps, s := TookStep(cfg, r, steps, s, Work(d, StartHandler));
    assert s.tasks == map[d := Working];
  }

  lemma TakenAgain(cfg: Config, r: Regime, steps: seq<Step>, s: State, n: nat) returns (steps': seq<Step>, s': State)
    requires TakenFrom(cfg, r, steps, s, n) && n >= 1 && !r.apart
    ensures TakenFrom(cfg, r, steps', s', n + 1)
  {
    steps', s' := TookStep(cfg, r, steps, s, Reclaim(POISONED));
    assert s'.tasks == s.tasks[Delivery(POISONED, n + 1) := Recovered];
  }

  /** The first handler is done and has acknowledged; deliveries 2 to `m` have started theirs. */
  ghost predicate StartedTo(cfg: Config, r: Regime, steps: seq<Step>, s: State, m: nat, n: nat) {
    && Leads(cfg, r, steps, s) && AllReplied(steps) && Starts(steps, POISONED) == m
    && s.q.pel == map[] && POISONED in s.q.log && s.q.log[POISONED] == Entry(true, "ds", "", 0, 0)
    && (forall i: nat :: m < i <= n ==> Delivery(POISONED, i) in s.tasks && s.tasks[Delivery(POISONED, i)] == Recovered)
  }

  /** A step of one task that asks XPENDING nothing and starts nothing. */
  lemma Silent(cfg: Config, r: Regime, steps: seq<Step>, s: State, d: Delivery, a: TaskAct)
    returns (steps': seq<Step>, s': State)
    requires Leads(cfg, r, steps, s) && AllReplied(steps) && TaskCan(s, d, a) && (a.FinishHandler? || a.Ack?)
    ensures Leads(cfg, r, steps', s') && AllReplied(steps') && Starts(steps', POISONED) == Starts(steps, POISONED)
    ensures s'.q == TaskQueue(s, d, a) && s'.tasks == s.tasks[d := PcAfter(cfg, s, d, a)]
  {
    steps', s' := TookStep(cfg, r, steps, s, Work(d, a));
  }

  lemma FirstDone(cfg: Config, r: Regime, steps: seq<Step>, s: State, n: nat) returns (steps': seq<Step>, s': State)
    requires TakenFrom(cfg, r, steps, s, n) && n >= 1
    ensures StartedTo(cfg, r, steps', s', 1, n)
  {
    var d := Delivery(POISONED, 1);
    steps', s' := Silent(cfg, r, steps, s, d, FinishHandler(JobPending));
    steps', s' := Silent(cfg, r, steps', s', d, Ack(true));
    assert s'.q.pel == map[];
  }

  lemma NextStarts(cfg: Config, r: Regime, steps: seq<Step>, s: State, m: nat, n: nat)
    returns (steps': seq<Step>, s': State)
    requires StartedTo(cfg, r, steps, s, m, n) && 1 <= m < n && !r.answers && cfg.maxAttempts >= 2
    ensures StartedTo(cfg, r, steps', s', m + 1, n)
  {
    var d := Delivery(POISONED, m + 1);
    steps', s' := TookStep(cfg, r, steps, s, Work(d, CheckRecovered(true)));
    assert s'.tasks == s.tasks[d := Spawned];
    steps', s' := TookStep(cfg, r, steps', s', Work(d, StartHandler));
    assert s'.tasks == s.tasks[d := Working];
  }

  /** Errors are not needed to break the bound. Deliveries of one message overlap, the first one
      acknowledges, and every lookup after that is answered, with an empty list: the handler is
      started as often as one likes. */
  lemma EmptyRepliesStartAgain(cfg: Config, r: Regime, n: nat) returns (steps: seq<Step>, s: State)
    requires !r.answers && !r.apart && cfg.maxAttempts >= 2 && n >= 1
    ensures Leads(cfg, r, steps, s) && AllReplied(steps) && Starts(steps, POISONED) == n
  {
    steps, s := FirstAtWork(cfg, r);
    var i := 1;
    while i < n
      invariant 1 <= i <= n && TakenFrom(cfg, r, steps, s, i)
    {
      steps, s := TakenAgain(cfg, r, steps, s, i);
      i := i + 1;
    }
    steps, s := FirstDone(cfg, r, steps, s, n);
    i := 1;
    while i < n
      invariant 1 <= i <= n && StartedTo(cfg, r, steps, s, i, n)
    {
      steps, s := NextStarts(cfg, r, steps, s, i, n);
      i := i + 1;
    }
  }
}
