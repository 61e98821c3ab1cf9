/** How often a message can be redriven, and that a redrive never loses it. */
module RedriveBound {
  import opened Streams
  import opened JobProtocol

  // ---- A redrive never loses the message ---------------------------------------------------

  /** The row's message is in the stream again, one hop further on and with its content. */
  ghost predicate Redriven(q: Queue, dl: DeadLetters, row: nat) {
    exists k :: k in dl.copies && dl.copies[k] == row && k in q.log && row in dl.buried
      && k.stream == dl.buried[row].origin.stream && q.log[k] == CopyOf(dl.buried[row].entry)
  }

  ghost predicate RowsAccounted(s: State) {
    && (forall row :: row in s.dl.buried ==>
          row in s.dl.present || row in s.dl.evicted || Redriven(s.q, s.dl, row))
    && (forall op :: op in s.dl.operators && s.dl.operators[op].appended ==>
          Redriven(s.q, s.dl, s.dl.operators[op].row))
  }

  lemma RedrivenKept(cfg: Config, s: State, step: Step, row: nat)
    requires Shape(s) && Enabled(cfg, s, step) && Redriven(s.q, s.dl, row)
    ensures Redriven(Next(cfg, s, step).q, Next(cfg, s, step).dl, row)
  {
    var s' := Next(cfg, s, step);
    QueueStep(cfg, s, step);
    var k :| k in s.dl.copies && s.dl.copies[k] == row && k in s.q.log && row in s.dl.buried
      && k.stream == s.dl.buried[row].origin.stream && s.q.log[k] == CopyOf(s.dl.buried[row].entry);
    assert k in s'.dl.copies && s'.dl.copies[k] == row && s'.dl.buried[row] == s.dl.buried[row];
  }

  lemma RowsStep(cfg: Config, s: State, step: Step)
    requires Shape(s) && RowsAccounted(s) && Enabled(cfg, s, step)
    ensures RowsAccounted(Next(cfg, s, step))
  {
    var s' := Next(cfg, s, step);
    forall row | Redriven(s.q, s.dl, row) ensures Redriven(s'.q, s'.dl, row) {
      RedrivenKept(cfg, s, step, row);
    }
    match step
    case Operate(a) =>
      if a.AppendCopy? {
        var k := CopyKey(cfg, s, a);
        assert k in s'.dl.copies && s'.dl.copies[k] == s.dl.operators[a.op].row && k in s'.q.log;
      }
    case Work(d, a) =>
    case _ =>
  }

  lemma {:induction false} RowsAlways(cfg: Config, r: Regime, s: State, steps: seq<Step>)
    requires Shape(s) && RowsAccounted(s) && Run(cfg, r, s, steps)
    ensures RowsAccounted(After(cfg, r, s, steps))
    decreases steps
  {
    if steps != [] {
      ShapeStep(cfg, s, steps[0]);
      RowsStep(cfg, s, steps[0]);
      RowsAlways(cfg, r, Next(cfg, s, steps[0]), steps[1..]);
    }
  }

  /** At every point of every run, with operators crashing between XADD and XDEL and redriving the
      same row together, a DLQ row is in the DLQ, or its copy is in the original stream, or MAXLEN
      or an explicit delete removed it. */
  lemma RedriveIsLossless(cfg: Config, r: Regime, steps: seq<Step>, row: nat)
    requires Run(cfg, r, INITIAL, steps) && row in After(cfg, r, INITIAL, steps).dl.buried
    ensures var s := After(cfg, r, INITIAL, steps);
      row in s.dl.present || row in s.dl.evicted || Redriven(s.q, s.dl, row)
  {
    RowsAlways(cfg, r, INITIAL, steps);
  }

  // ---- How long a chain of redrives can get -------------------------------------------------

  predicate InHandler(pc: Pc) {
    pc.Spawned? || pc.Begun? || pc.Working? || pc.Idle? || pc.Denied? || pc.Failing?
  }

  predicate HandlerTask(cfg: Config, s: State, d: Delivery) {
    d in s.tasks
    ==> && (d.key in s.q.pel ==> s.q.pel[d.key] == d.n)
        && (InHandler(s.tasks[d]) ==> d.n == 1 || d.n < cfg.maxAttempts)
        && (s.tasks[d].Counted? ==> s.tasks[d].count < cfg.maxAttempts)
        && (s.tasks[d].Burying? ==> s.tasks[d].raw)
  }

  /** With deliveries apart there is one task per message, and it never dead-letters from inside
      the handler. */
  predicate HandlersNeverBury(cfg: Config, s: State) {
    && (forall d :: d in s.tasks ==> HandlerTask(cfg, s, d))
    && (forall d, e :: d in s.tasks && e in s.tasks && d.key == e.key ==> d == e)
  }

  predicate TrueCount(cfg: Config, e: Entry) {
    e.redrives == e.hops && (e.hops > 0 ==> e.hops <= cfg.redriveLimit)
  }

  predicate LogCounted(cfg: Config, q: Queue) {
    forall k :: k in q.log ==> TrueCount(cfg, q.log[k])
  }

  predicate ProducersCounted(c: Claims) {
    forall p :: p in c.producers ==> c.producers[p].entry.redrives == c.producers[p].entry.hops == 0
  }

  predicate RowsCounted(cfg: Config, dl: DeadLetters) {
    && (forall row :: row in dl.buried ==> dl.buried[row].entry.redrives == dl.buried[row].entry.hops)
    && (forall op :: op in dl.operators ==>
          dl.operators[op].row in dl.buried && dl.buried[dl.operators[op].row].entry.redrives < cfg.redriveLimit)
  }

  predicate CountersTrue(cfg: Config, s: State) {
    LogCounted(cfg, s.q) && ProducersCounted(s.c) && RowsCounted(cfg, s.dl)
  }

  lemma WorkHandlers(cfg: Config, s: State, d: Delivery, a: TaskAct, x: Delivery)
    requires Shape(s) && HandlersNeverBury(cfg, s) && TaskCan(s, d, a) && Answers(s, Work(d, a))
    requires cfg.maxAttempts >= 2
    ensures HandlerTask(cfg, Next(cfg, s, Work(d, a)), x)
  {
    assert TaskShape(s.q, d);
    assert HandlerTask(cfg, s, x);
    assert HandlerTask(cfg, s, d);
  }

  lemma ReceiveHandlers(cfg: Config, s: State, step: Step)
    requires Shape(s) && HandlersNeverBury(cfg, s) && Enabled(cfg, s, step) && Apart(s, step)
    requires step.Deliver? || step.Reclaim?
    ensures HandlersNeverBury(cfg, Next(cfg, s, step))
  {
    var s' := Next(cfg, s, step);
    assert forall d :: d in s.tasks ==> TaskShape(s.q, d) && d.key != step.key;
    forall d | d in s'.tasks ensures HandlerTask(cfg, s', d) {
      assert d in s.tasks ==> HandlerTask(cfg, s, d);
    }
  }

  lemma RestHandlers(cfg: Config, s: State, step: Step)
    requires Shape(s) && HandlersNeverBury(cfg, s) && Enabled(cfg, s, step)
    requires !step.Deliver? && !step.Reclaim? && !step.Work?
    ensures HandlersNeverBury(cfg, Next(cfg, s, step))
  {
    QueueStep(cfg, s, step);
    assert Next(cfg, s, step).tasks == s.tasks;
    assert forall k :: k in Next(cfg, s, step).q.pel ==> k in s.q.pel && Next(cfg, s, step).q.pel[k] == s.q.pel[k];
    forall d | d in s.tasks ensures HandlerTask(cfg, Next(cfg, s, step), d) {
      assert HandlerTask(cfg, s, d);
    }
  }

  lemma HandlersStep(cfg: Config, s: State, step: Step)
    requires Shape(s) && HandlersNeverBury(cfg, s) && Enabled(cfg, s, step)
    requires Answers(s, step) && Apart(s, step) && cfg.maxAttempts >= 2
    ensures HandlersNeverBury(cfg, Next(cfg, s, step))
  {
    match step
    case Deliver(_) => ReceiveHandlers(cfg, s, step);
    case Reclaim(_) => ReceiveHandlers(cfg, s, step);
    case Work(d, a) =>
      forall x ensures HandlerTask(cfg, Next(cfg, s, step), x) { WorkHandlers(cfg, s, d, a, x); }
    case _ => RestHandlers(cfg, s, step);
  }

  lemma LogCountedStep(cfg: Config, s: State, step: Step)
    requires CountersTrue(cfg, s) && Enabled(cfg, s, step)
    ensures LogCounted(cfg, Next(cfg, s, step).q)
  {
  }

  lemma TaskRowsCounted(cfg: Config, s: State, d: Delivery, a: TaskAct)
    requires CountersTrue(cfg, s) && TaskCan(s, d, a) && HandlerTask(cfg, s, d)
    ensures RowsCounted(cfg, TaskDlq(s, d, a))
  {
  }

  lemma OperatorRowsCounted(cfg: Config, s: State, a: OperatorAct)
    requires RowsCounted(cfg, s.dl) && OperatorCan(cfg, s, a)
    ensures RowsCounted(cfg, OperatorDlq(cfg, s, a))
  {
  }

  lemma RowsCountedStep(cfg: Config, s: State, step: Step)
    requires CountersTrue(cfg, s) && HandlersNeverBury(cfg, s) && Enabled(cfg, s, step)
    ensures RowsCounted(cfg, Next(cfg, s, step).dl)
  {
    match step
    case Work(d, a) => TaskRowsCounted(cfg, s, d, a);
    case Operate(a) => OperatorRowsCounted(cfg, s, a);
    case _ =>
  }

  lemma CountersStep(cfg: Config, s: State, step: Step)
    requires Shape(s) && CountersTrue(cfg, s) && HandlersNeverBury(cfg, s) && Enabled(cfg, s, step)
    ensures CountersTrue(cfg, Next(cfg, s, step))
  {
    LogCountedStep(cfg, s, step);
    RowsCountedStep(cfg, s, step);
  }

  lemma {:induction false} CountersAlways(cfg: Config, r: Regime, s: State, steps: seq<Step>)
    requires Shape(s) && CountersTrue(cfg, s) && HandlersNeverBury(cfg, s) && Run(cfg, r, s, steps)
    requires r.answers && r.apart && cfg.maxAttempts >= 2
    ensures CountersTrue(cfg, After(cfg, r, s, steps))
    decreases steps
  {
    if steps != [] {
      ShapeStep(cfg, s, steps[0]);
      HandlersStep(cfg, s, steps[0]);
      CountersStep(cfg, s, steps[0]);
      CountersAlways(cfg, r, Next(cfg, s, steps[0]), steps[1..]);
    }
  }

  /** No message is the product of more redrives than the limit. */
  ghost predicate ChainsBounded(cfg: Config, s: State) {
    forall k :: k in s.q.log ==> s.q.log[k].hops <= Limit(cfg)
  }

  function Limit(cfg: Config): nat {
    if cfg.redriveLimit <= 0 then 0 else cfg.redriveLimit
  }

  /** With XPENDING answering, deliveries of a message apart and two attempts or more. */
  lemma RedrivesBounded(cfg: Config, r: Regime, steps: seq<Step>)
    requires Run(cfg, r, INITIAL, steps) && r.answers && r.apart && cfg.maxAttempts >= 2
    ensures ChainsBounded(cfg, After(cfg, r, INITIAL, steps))
  {
    CountersAlways(cfg, r, INITIAL, steps);
  }

  // ---- Runs that get round the limit --------------------------------------------------------

  /** Only message `Id(0, n)` is unread, it is `n` redrives old, and nothing else is going on. */
  ghost predicate Resting(cfg: Config, r: Regime, steps: seq<Step>, s: State, n: nat) {
    && Leads(cfg, r, steps, s)
    && s.tasks == map[] && s.q.pel == map[] && s.q.undelivered == {Turn(n)} && s.q.now == 0
    && Turn(n) in s.q.log && s.q.log[Turn(n)].parseable && s.q.log[Turn(n)].hops == n
    && (forall k :: k in s.q.log ==> k.id.ms == 0 && k.id.sn <= n)
    && (forall row :: row in s.dl.buried ==> row < n)
    && s.dl.operators == map[]
  }

  function Turn(n: nat): Key {
    Key(Stats, Id(0, n))
  }

  /** Since the resting state `s` the message has been delivered `m` times, and there is one task
      at most. */
  ghost predicate InTurn(cfg: Config, r: Regime, s: State, steps': seq<Step>, s': State, n: nat, m: nat,
                         tasks: map<Delivery, Pc>) {
    && Leads(cfg, r, steps', s') && s'.tasks == tasks && Turn(n) in s.q.log
    && s'.q == s.q.(undelivered := {}, pel := map[Turn(n) := m]) && s'.dl == s.dl
  }

  lemma FirstTurn(cfg: Config, r: Regime) returns (steps: seq<Step>, s: State)
    ensures Resting(cfg, r, steps, s, 0)
  {
    NoSteps(cfg, r);
    steps, s := Then(cfg, r, [], INITIAL, Produce(Claim(0, Stats, "ds", "")));
    steps, s := Then(cfg, r, steps, s, Produce(Append(0, Id(0, 0))));
  }

  lemma TurnBegins(cfg: Config, r: Regime, steps: seq<Step>, s: State, n: nat) returns (steps': seq<Step>, s': State)
    requires Resting(cfg, r, steps, s, n)
    ensures InTurn(cfg, r, s, steps', s', n, 1, map[Delivery(Turn(n), 1) := Spawned])
  {
    steps', s' := Then(cfg, r, steps, s, Deliver(Turn(n)));
    assert s'.q == s.q.(undelivered := {}, pel := map[Turn(n) := 1]);
  }

  lemma Act(cfg: Config, r: Regime, s: State, steps: seq<Step>, now: State, n: nat, m: nat, d: Delivery, pc: Pc,
            a: TaskAct)
    returns (steps': seq<Step>, s': State)
    requires InTurn(cfg, r, s, steps, now, n, m, map[d := pc]) && d.key == Turn(n)
    requires TaskCan(now, d, a) && (r.answers ==> Answers(now, Work(d, a)))
    requires !a.Ack? && !a.AckMalformed? && !a.WriteDlq?
    ensures var pc' := PcAfter(cfg, now, d, a);
      InTurn(cfg, r, s, steps', s', n, m, if pc'.Ended? then map[] else map[d := pc'])
  {
    steps', s' := Alone(cfg, r, steps, now, d, pc, a);
  }

  /** A worker takes the message over and dies. */
  lemma TakeAndDie(cfg: Config, r: Regime, s: State, steps: seq<Step>, now: State, n: nat, m: nat,
                   tasks: map<Delivery, Pc>)
    returns (steps': seq<Step>, s': State)
    requires InTurn(cfg, r, s, steps, now, n, m, tasks) && Delivery(Turn(n), m + 1) !in tasks
    requires r.apart ==> tasks == map[]
    ensures InTurn(cfg, r, s, steps', s', n, m + 1, tasks)
  {
    var d := Delivery(Turn(n), m + 1);
    steps', s' := Then(cfg, r, steps, now, Reclaim(Turn(n)));
    assert d in s'.tasks && s'.q == s.q.(undelivered := {}, pel := map[Turn(n) := m + 1]);
    steps', s' := Then(cfg, r, steps', s', Work(d, Die));
    assert s'.tasks == tasks[d := if now.q.log[Turn(n)].parseable then Recovered else Malformed] - {d} == tasks;
  }

  lemma TakenOften(cfg: Config, r: Regime, s: State, steps: seq<Step>, now: State, n: nat, m: nat,
                   tasks: map<Delivery, Pc>, goal: nat)
    returns (steps': seq<Step>, s': State)
    requires InTurn(cfg, r, s, steps, now, n, m, tasks) && m <= goal && (r.apart ==> tasks == map[])
    requires forall d :: d in tasks ==> d.n <= m
    ensures InTurn(cfg, r, s, steps', s', n, goal, tasks)
  {
    steps', s' := steps, now;
    var i := m;
    while i < goal
      invariant m <= i <= goal && InTurn(cfg, r, s, steps', s', n, i, tasks)
    {
      steps', s' := TakeAndDie(cfg, r, s, steps', s', n, i, tasks);
      i := i + 1;
    }
  }

  /** What lets a handler reach its own failure path at the limit: one attempt is all there is, or a
      reclaim starts it there because its lookup failed, or it was at work all the while. */
  predicate Evades(cfg: Config, r: Regime) {
    cfg.maxAttempts <= 1 || !r.answers || !r.apart
  }

  lemma FailsAtOnce(cfg: Config, r: Regime, steps: seq<Step>, s: State, n: nat)
    returns (steps': seq<Step>, s': State)
    requires Resting(cfg, r, steps, s, n) && cfg.maxAttempts <= 1
    ensures InTurn(cfg, r, s, steps', s', n, 1, map[Delivery(Turn(n), 1) := Failing])
  {
    var d := Delivery(Turn(n), 1);
    steps', s' := TurnBegins(cfg, r, steps, s, n);
    steps', s' := Act(cfg, r, s, steps', s', n, 1, d, Spawned, StartHandler);
    steps', s' := Act(cfg, r, s, steps', s', n, 1, d, Working, HandlerFails);
  }

  lemma FailsOvertaken(cfg: Config, r: Regime, steps: seq<Step>, s: State, n: nat)
    returns (steps': seq<Step>, s': State)
    requires Resting(cfg, r, steps, s, n) && cfg.maxAttempts >= 2 && !r.apart
    ensures InTurn(cfg, r, s, steps', s', n, cfg.maxAttempts, map[Delivery(Turn(n), 1) := Failing])
  {
    var d := Delivery(Turn(n), 1);
    steps', s' := TurnBegins(cfg, r, steps, s, n);
    steps', s' := Act(cfg, r, s, steps', s', n, 1, d, Spawned, StartHandler);
    steps', s' := TakenOften(cfg, r, s, steps', s', n, 1, map[d := Working], cfg.maxAttempts);
    steps', s' := Act(cfg, r, s, steps', s', n, cfg.maxAttempts, d, Working, HandlerFails);
  }

  /** All deliveries but the last one died with their workers. */
  lemma TakenLast(cfg: Config, r: Regime, steps: seq<Step>, s: State, n: nat, m: nat)
    returns (steps': seq<Step>, s': State)
    requires Resting(cfg, r, steps, s, n) && m >= 1
    ensures InTurn(cfg, r, s, steps', s', n, m + 1, map[Delivery(Turn(n), m + 1) := Recovered])
  {
    steps', s' := TurnBegins(cfg, r, steps, s, n);
    steps', s' := Act(cfg, r, s, steps', s', n, 1, Delivery(Turn(n), 1), Spawned, Die);
    steps', s' := TakenOften(cfg, r, s, steps', s', n, 1, map[], m);
    steps', s' := Then(cfg, r, steps', s', Reclaim(Turn(n)));
    assert s'.q == s.q.(undelivered := {}, pel := map[Turn(n) := m + 1]);
    assert s'.tasks == map[Delivery(Turn(n), m + 1) := Recovered];
  }

  lemma FailsUncounted(cfg: Config, r: Regime, steps: seq<Step>, s: State, n: nat)
    returns (steps': seq<Step>, s': State)
    requires Resting(cfg, r, steps, s, n) && cfg.maxAttempts >= 2 && !r.answers
    ensures InTurn(cfg, r, s, steps', s', n, cfg.maxAttempts, map[Delivery(Turn(n), cfg.maxAttempts) := Failing])
  {
    var m := cfg.maxAttempts - 1;
    var d := Delivery(Turn(n), m + 1);
    steps', s' := TakenLast(cfg, r, steps, s, n, m);
    steps', s' := Act(cfg, r, s, steps', s', n, m + 1, d, Recovered, CheckRecovered(false));
    steps', s' := Act(cfg, r, s, steps', s', n, m + 1, d, Spawned, StartHandler);
    steps', s' := Act(cfg, r, s, steps', s', n, m + 1, d, Working, HandlerFails);
  }

  ghost predicate BuriedBy(cfg: Config, r: Regime, s: State, steps': seq<Step>, s': State, n: nat) {
    && Leads(cfg, r, steps', s') && s'.tasks == map[] && Turn(n) in s.q.log
    && s'.q == s.q.(undelivered := {}, pel := map[])
    && s'.dl == s.dl.(buried := s.dl.buried[n := DlqRow(Turn(n), s.q.log[Turn(n)].(redrives := 0))],
                      present := s.dl.present + {n})
  }

  lemma FailureReachesLimit(cfg: Config, r: Regime, s: State, steps: seq<Step>, now: State, n: nat, m: nat, d: Delivery)
    returns (steps': seq<Step>, s': State)
    requires InTurn(cfg, r, s, steps, now, n, m, map[d := Failing]) && d.key == Turn(n) && m >= cfg.maxAttempts
    ensures InTurn(cfg, r, s, steps', s', n, m, map[d := Burying(false)])
  {
    steps', s' := Act(cfg, r, s, steps, now, n, m, d, Failing, ReadCount(true));
    steps', s' := Act(cfg, r, s, steps', s', n, m, d, Counted(m), RecordFailure(false));
  }

  /** A handler that fails at the limit dead-letters rebuilt fields. */
  lemma FailureBuries(cfg: Config, r: Regime, s: State, steps: seq<Step>, now: State, n: nat, m: nat, d: Delivery)
    returns (steps': seq<Step>, s': State)
    requires InTurn(cfg, r, s, steps, now, n, m, map[d := Failing]) && d.key == Turn(n)
    requires m >= cfg.maxAttempts && n !in s.dl.buried
    ensures BuriedBy(cfg, r, s, steps', s', n)
  {
    steps', s' := FailureReachesLimit(cfg, r, s, steps, now, n, m, d);
    steps', s' := Alone(cfg, r, steps', s', d, Burying(false), WriteDlq(n));
    steps', s' := Alone(cfg, r, steps', s', d, Buried, Ack(true));
    steps', s' := Alone(cfg, r, steps', s', d, Releasing(true), Release);
  }

  lemma TurnBuried(cfg: Config, r: Regime, steps: seq<Step>, s: State, n: nat) returns (steps': seq<Step>, s': State)
    requires Resting(cfg, r, steps, s, n) && Evades(cfg, r)
    ensures BuriedBy(cfg, r, s, steps', s', n)
  {
    if cfg.maxAttempts <= 1 {
      steps', s' := FailsAtOnce(cfg, r, steps, s, n);
      steps', s' := FailureBuries(cfg, r, s, steps', s', n, 1, Delivery(Turn(n), 1));
    } else if !r.apart {
      steps', s' := FailsOvertaken(cfg, r, steps, s, n);
      steps', s' := FailureBuries(cfg, r, s, steps', s', n, cfg.maxAttempts, Delivery(Turn(n), 1));
    } else {
      steps', s' := FailsUncounted(cfg, r, steps, s, n);
      steps', s' := FailureBuries(cfg, r, s, steps', s', n, cfg.maxAttempts, Delivery(Turn(n), cfg.maxAttempts));
    }
  }

  lemma NextTurn(cfg: Config, r: Regime, steps: seq<Step>, s: State, n: nat) returns (steps': seq<Step>, s': State)
    requires Resting(cfg, r, steps, s, n) && Evades(cfg, r) && cfg.redriveLimit >= 1
    ensures Resting(cfg, r, steps', s', n + 1)
  {
    steps', s' := TurnBuried(cfg, r, steps, s, n);
    steps', s' := Then(cfg, r, steps', s', Operate(OpenRow(0, n)));
    assert s'.dl.operators == map[0 := Operator(n, false)];
    steps', s' := Then(cfg, r, steps', s', Operate(AppendCopy(0, Id(0, n + 1))));
    assert s'.dl.operators == map[0 := Operator(n, true)];
    steps', s' := Then(cfg, r, steps', s', Operate(DeleteRow(0)));
  }

  lemma Turns(cfg: Config, r: Regime, n: nat) returns (steps: seq<Step>, s: State)
    requires Evades(cfg, r) && cfg.redriveLimit >= 1
    ensures Resting(cfg, r, steps, s, n)
  {
    steps, s := FirstTurn(cfg, r);
    var i := 0;
    while i < n
      invariant i <= n && Resting(cfg, r, steps, s, i)
    {
      steps, s := NextTurn(cfg, r, steps, s, i);
      i := i + 1;
    }
  }

  /** No chain of redrives of any run of an environment exceeds DLQ_REDRIVE_LIMIT, if and only if
      nothing may be redriven, or there are two attempts or more and the environment keeps
      deliveries of a message apart and lets every lookup find its message. In all other
      environments chains of any length exist, because the in-handler path rebuilds the fields
      without the counter. */
  lemma RedrivesBoundedExactly(cfg: Config, r: Regime)
    ensures (forall steps :: Run(cfg, r, INITIAL, steps) ==> ChainsBounded(cfg, After(cfg, r, INITIAL, steps)))
            <==> cfg.redriveLimit <= 0 || (cfg.maxAttempts >= 2 && r.answers && r.apart)
  {
    if cfg.redriveLimit <= 0 {
      forall steps | Run(cfg, r, INITIAL, steps) ensures ChainsBounded(cfg, After(cfg, r, INITIAL, steps)) {
        NoRedrives(cfg, r, INITIAL, steps);
      }
    } else if cfg.maxAttempts >= 2 && r.answers && r.apart {
      forall steps | Run(cfg, r, INITIAL, steps) ensures ChainsBounded(cfg, After(cfg, r, INITIAL, steps)) {
        RedrivesBounded(cfg, r, steps);
      }
    } else {
      var steps, s := Turns(cfg, r, cfg.redriveLimit + 1);
      assert s.q.log[Turn(cfg.redriveLimit + 1)].hops > Limit(cfg);
      assert Run(cfg, r, INITIAL, steps) && !ChainsBounded(cfg, After(cfg, r, INITIAL, steps));
    }
  }

  ghost predicate NeverRedriven(s: State) {
    && (forall k :: k in s.q.log ==> s.q.log[k].hops == 0 && s.q.log[k].redrives >= 0)
    && (forall p :: p in s.c.producers ==> s.c.producers[p].entry.hops == 0 && s.c.producers[p].entry.redrives == 0)
    && (forall row :: row in s.dl.buried ==> s.dl.buried[row].entry.redrives >= 0)
    && s.dl.operators == map[]
  }

  lemma {:induction false} NoRedrives(cfg: Config, r: Regime, s: State, steps: seq<Step>)
    requires NeverRedriven(s) && Run(cfg, r, s, steps) && cfg.redriveLimit <= 0
    ensures NeverRedriven(After(cfg, r, s, steps))
    decreases steps
  {
    if steps != [] {
      NoRedriveStep(cfg, s, steps[0]);
      NoRedrives(cfg, r, Next(cfg, s, steps[0]), steps[1..]);
    }
  }

  lemma NoRedriveStep(cfg: Config, s: State, step: Step)
    requires NeverRedriven(s) && Enabled(cfg, s, step) && cfg.redriveLimit <= 0
    ensures NeverRedriven(Next(cfg, s, step))
  {
  }
}
