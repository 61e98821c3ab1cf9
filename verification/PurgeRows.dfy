/** The purge job row and its queue message: no purge is dropped while its row is still open. */
module PurgeRows {
  import opened Streams
  import opened JobProtocol
  import opened NoSilentLoss
  import opened RedriveBound

  /** A purge message that was delivered and is gone from the pending list, other than to the DLQ
      or to a trim. */
  ghost predicate Done(s: State, k: Key) {
    k in s.q.log && s.q.log[k].parseable && k.stream.Purge?
    && k !in s.q.undelivered && k !in s.q.pel && k !in s.t.trimmed && k !in s.t.lost
    && !DeadLettered(s.dl, k)
  }

  /** The task may go on to work on the row. */
  predicate InHand(pc: Pc) {
    pc.Spawned? || pc.Begun? || pc.Working? || pc.Idle? || pc.Committed?
  }

  predicate OneInHand(s: State) {
    forall d, e :: d in s.tasks && e in s.tasks && SameJob(s.q, d.key, e.key) ==>
      InHand(s.tasks[d]) && InHand(s.tasks[e]) ==> d == e
  }

  predicate LogKnown(q: Queue, j: Jobs) {
    forall k :: k in q.log && k.stream.Purge? && q.log[k].parseable ==> q.log[k].job in j.known
  }

  predicate ProducersKnown(c: Claims, j: Jobs) {
    forall p :: p in c.producers && c.producers[p].slot.stream.Purge? ==> c.producers[p].entry.job in j.known
  }

  predicate RowsKnown(s: State) {
    LogKnown(s.q, s.j) && ProducersKnown(s.c, s.j) && s.j.rows.Keys <= s.j.known
  }

  ghost predicate DoneSettled(s: State) {
    forall k :: Done(s, k) ==> Settled(s.j, s.q.log[k].job)
  }

  /** What a purge task's position says about its row. */
  ghost predicate TaskRow(s: State, d: Delivery) {
    d in s.tasks && d.key in s.q.log && d.key.stream.Purge?
    ==> && ((s.tasks[d].Idle? || s.tasks[d].Committed?) ==> Settled(s.j, s.q.log[d.key].job))
        && (s.tasks[d].Working? ==> forall k :: Done(s, k) ==> s.q.log[k].job != s.q.log[d.key].job)
  }

  ghost predicate PurgeInv(s: State) {
    OneInHand(s) && RowsKnown(s) && DoneSettled(s) && forall d :: d in s.tasks ==> TaskRow(s, d)
  }

  lemma JobsKnownGrow(cfg: Config, s: State, step: Step)
    requires Enabled(cfg, s, step) && s.j.rows.Keys <= s.j.known
    ensures s.j.known <= Next(cfg, s, step).j.known && Next(cfg, s, step).j.rows.Keys <= Next(cfg, s, step).j.known
  {
  }

  lemma LogKnownStep(cfg: Config, s: State, step: Step)
    requires Shape(s) && RowsKnown(s) && Enabled(cfg, s, step)
    ensures LogKnown(Next(cfg, s, step).q, s.j)
  {
    match step
    case Produce(a) =>
    case Operate(a) =>
      if a.AppendCopy? {
        assert RowShape(s.q, s.dl.buried[s.dl.operators[a.op].row]);
      }
    case _ => assert Next(cfg, s, step).q.log == s.q.log;
  }

  lemma ProducersKnownStep(cfg: Config, s: State, step: Step)
    requires ProducersKnown(s.c, s.j) && Enabled(cfg, s, step)
    ensures ProducersKnown(Next(cfg, s, step).c, s.j)
  {
    match step
    case Produce(a) =>
    case _ => assert Next(cfg, s, step).c.producers == s.c.producers;
  }

  lemma KnownStep(cfg: Config, s: State, step: Step)
    requires Shape(s) && RowsKnown(s) && Enabled(cfg, s, step)
    ensures RowsKnown(Next(cfg, s, step))
  {
    JobsKnownGrow(cfg, s, step);
    LogKnownStep(cfg, s, step);
    ProducersKnownStep(cfg, s, step);
  }

  /** Closing a row, or losing it, is final for every job that is known, resuming apart. */
  lemma SettledKept(cfg: Config, s: State, step: Step, job: string)
    requires Enabled(cfg, s, step) && Settled(s.j, job) && job in s.j.known
    requires !(step.JobRow? && step.ja.ResumeJobRow?)
    requires step.Work? && step.act.MarkRunning? ==> s.q.log[step.d.key].job != job
    ensures Settled(Next(cfg, s, step).j, job)
  {
  }

  /** The only way for a purge to become done is the XACK after a commit. */
  lemma BecomesDone(cfg: Config, s: State, step: Step, k: Key)
    requires Shape(s) && AllAccounted(s) && PurgeInv(s) && Enabled(cfg, s, step)
    requires Done(Next(cfg, s, step), k)
    ensures Done(s, k) || (step.Work? && step.act.Ack? && step.d.key == k && s.tasks[step.d].Committed?)
  {
    var s' := Next(cfg, s, step);
    QueueStep(cfg, s, step);
    RemembersStep(cfg, s, step);
    DeadLetteredKept(s, s', k);
    if k !in s.q.log {
      AddedIsUndelivered(cfg, s, step, k);
    } else if k in s.q.undelivered || k in s.q.pel {
      LeavesByAck(cfg, s, step, k);
      assert Justified(s, step.d);
    }
  }

  lemma LeavesByAck(cfg: Config, s: State, step: Step, k: Key)
    requires Shape(s) && Enabled(cfg, s, step)
    requires k in s.q.log && s.q.log[k].parseable && (k in s.q.undelivered || k in s.q.pel)
    requires var s' := Next(cfg, s, step);
      k !in s'.q.undelivered && k !in s'.q.pel && k !in s'.t.trimmed && k !in s'.t.lost
    ensures step.Work? && step.act.Ack? && step.d.key == k
  {
    match step
    case Work(d, a) =>
    case Trim(a) =>
    case _ =>
  }

  lemma DoneStep(cfg: Config, s: State, step: Step)
    requires Shape(s) && AllAccounted(s) && PurgeInv(s) && Enabled(cfg, s, step)
    requires !(step.JobRow? && step.ja.ResumeJobRow?)
    ensures DoneSettled(Next(cfg, s, step))
  {
    var s' := Next(cfg, s, step);
    QueueStep(cfg, s, step);
    forall k | Done(s', k) ensures Settled(s'.j, s'.q.log[k].job) {
      BecomesDone(cfg, s, step, k);
      assert step.Work? ==> TaskRow(s, step.d);
      SettledKept(cfg, s, step, s.q.log[k].job);
    }
  }

  lemma TaskRowOwn(cfg: Config, s: State, d: Delivery, a: TaskAct)
    requires Shape(s) && AllAccounted(s) && PurgeInv(s) && TaskCan(s, d, a)
    ensures TaskRow(Next(cfg, s, Work(d, a)), d)
  {
    var s' := Next(cfg, s, Work(d, a));
    assert TaskRow(s, d);
    forall k | Done(s', k) && !a.Ack? ensures Done(s, k) {
      BecomesDone(cfg, s, Work(d, a), k);
    }
  }

  lemma TaskRowOther(cfg: Config, s: State, step: Step, d: Delivery)
    requires Shape(s) && AllAccounted(s) && PurgeInv(s) && Enabled(cfg, s, step)
    requires d in s.tasks && !(step.Work? && step.d == d) && Next(cfg, s, step).tasks[d] == s.tasks[d]
    requires !(step.JobRow? && step.ja.ResumeJobRow?)
    ensures TaskRow(Next(cfg, s, step), d)
  {
    var s' := Next(cfg, s, step);
    QueueStep(cfg, s, step);
    assert TaskRow(s, d) && TaskShape(s.q, d);
    if d.key.stream.Purge? && s.q.log[d.key].parseable && InHand(s.tasks[d]) {
      var job := s.q.log[d.key].job;
      assert step.Work? && InHand(s.tasks[step.d]) ==> !SameJob(s.q, step.d.key, d.key);
      forall k | Done(s', k) && s.tasks[d].Working? ensures s'.q.log[k].job != job {
        BecomesDone(cfg, s, step, k);
      }
      if Settled(s.j, job) && (s.tasks[d].Idle? || s.tasks[d].Committed?) {
        SettledKept(cfg, s, step, job);
      }
    }
  }

  lemma TaskRowsStep(cfg: Config, s: State, step: Step, d: Delivery)
    requires Shape(s) && AllAccounted(s) && PurgeInv(s) && Enabled(cfg, s, step)
    requires d in Next(cfg, s, step).tasks && !(step.JobRow? && step.ja.ResumeJobRow?)
    ensures TaskRow(Next(cfg, s, step), d)
  {
    if step.Work? && step.d == d {
      TaskRowOwn(cfg, s, d, step.act);
    } else if d in s.tasks && Next(cfg, s, step).tasks[d] == s.tasks[d] {
      TaskRowOther(cfg, s, step, d);
    }
  }

  // ---- How an environment keeps two tasks from one row ----------------------------------------

  predicate OnePerJob(s: State) {
    forall d, e :: d in s.tasks && e in s.tasks && SameJob(s.q, d.key, e.key) ==> d == e
  }

  /** A reclaimed message is dead-lettered every time: the count that is read reaches the limit. */
  predicate ReclaimsNeverStart(cfg: Config, r: Regime) {
    cfg.maxAttempts <= 1 || (r.answers && cfg.maxAttempts <= 2)
  }

  predicate FirstOnly(s: State) {
    && (forall k :: k in s.q.pel ==> s.q.pel[k] >= 1)
    && (forall d :: d in s.tasks && s.tasks[d].Recovered? ==> d.n >= 2)
    && (forall d :: d in s.tasks && InHand(s.tasks[d]) ==> d.n == 1)
  }

  /** Without redrives a purge job has one message at most. */
  ghost predicate OneEach(q: Queue) {
    forall a, b :: SameJob(q, a, b) ==> a == b
  }

  predicate SentUsed(q: Queue, j: Jobs) {
    forall k :: k in q.log && k.stream.Purge? && q.log[k].parseable ==> q.log[k].job in j.used
  }

  /** No message of the job yet. */
  predicate Unsent(q: Queue, job: string) {
    forall k :: k in q.log && k.stream.Purge? && q.log[k].parseable ==> q.log[k].job != job
  }

  predicate AllUnsent(q: Queue, c: Claims, j: Jobs) {
    forall p :: p in c.producers && c.producers[p].slot.stream.Purge? ==>
      c.producers[p].entry.job in j.used && Unsent(q, c.producers[p].entry.job)
  }

  predicate OneProducer(c: Claims) {
    forall p, p' :: p in c.producers && p' in c.producers && ForOneJob(c, p, p') ==> p == p'
  }

  predicate ForOneJob(c: Claims, p: nat, p': nat)
    requires p in c.producers && p' in c.producers
  {
    && c.producers[p].slot.stream.Purge? && c.producers[p'].slot.stream.Purge?
    && c.producers[p].entry.job == c.producers[p'].entry.job
  }

  ghost predicate OneMessage(s: State) {
    OneEach(s.q) && SentUsed(s.q, s.j) && AllUnsent(s.q, s.c, s.j) && OneProducer(s.c)
  }

  /** The environments in which a purge message that is done has its row closed. */
  predicate Safe(cfg: Config, r: Regime) {
    r.noResume
    && (r.jobsApart || (cfg.redriveLimit <= 0 && (r.apart || ReclaimsNeverStart(cfg, r))))
  }

  ghost predicate Guarded(r: Regime, s: State) {
    && (r.jobsApart ==> OnePerJob(s))
    && (!r.jobsApart ==>
          OneMessage(s) && NeverRedriven(s) && if r.apart then OnePerJob(s) else FirstOnly(s))
  }

  lemma OnePerJobStep(cfg: Config, s: State, step: Step)
    requires Shape(s) && OnePerJob(s) && Enabled(cfg, s, step) && JobsApart(s, step)
    ensures OnePerJob(Next(cfg, s, step))
  {
    var s' := Next(cfg, s, step);
    QueueStep(cfg, s, step);
    assert forall d :: d in s.tasks ==> d.key in s.q.log;
    if step.Deliver? || step.Reclaim? {
      assert forall d :: d in s.tasks ==> !SameJob(s.q, d.key, step.key) && !SameJob(s.q, step.key, d.key);
    }
    forall d, e | d in s'.tasks && e in s'.tasks && SameJob(s'.q, d.key, e.key) ensures d == e {
      assert SameJob(s.q, d.key, e.key);
    }
  }

  lemma OneMessageApart(cfg: Config, s: State, step: Step)
    requires Shape(s) && OneMessage(s) && Enabled(cfg, s, step) && Apart(s, step)
    ensures JobsApart(s, step)
  {
    assert forall d :: d in s.tasks ==> TaskShape(s.q, d);
  }

  lemma OneEachAppend(q: Queue, q': Queue, k: Key, e: Entry)
    requires OneEach(q) && k !in q.log && q'.log == q.log[k := e]
    requires k.stream.Purge? && e.parseable ==> Unsent(q, e.job)
    ensures OneEach(q')
  {
    forall a, b | SameJob(q', a, b) ensures a == b {
      assert a != k && b != k ==> SameJob(q, a, b);
    }
  }

  lemma OneEachKept(q: Queue, q': Queue)
    requires OneEach(q) && q'.log == q.log
    ensures OneEach(q')
  {
    forall a, b | SameJob(q', a, b) ensures a == b {
      assert SameJob(q, a, b);
    }
  }

  lemma OneMessageAppend(cfg: Config, s: State, p: nat, id: Id)
    requires Shape(s) && OneMessage(s) && ProducerCan(s, Append(p, id))
    ensures OneMessage(Next(cfg, s, Produce(Append(p, id))))
  {
    var s' := Next(cfg, s, Produce(Append(p, id)));
    var k, e := Key(s.c.producers[p].slot.stream, id), s.c.producers[p].entry;
    OneEachAppend(s.q, s'.q, k, e);
    forall o | o in s'.c.producers && s'.c.producers[o].slot.stream.Purge?
      ensures Unsent(s'.q, s'.c.producers[o].entry.job)
    {
      assert k.stream.Purge? ==> !ForOneJob(s.c, o, p);
    }
  }

  lemma OneMessageClaim(cfg: Config, s: State, p: nat, stream: Stream, scope: string, job: string)
    requires Shape(s) && OneMessage(s) && ProducerCan(s, Claim(p, stream, scope, job))
    ensures OneMessage(Next(cfg, s, Produce(Claim(p, stream, scope, job))))
  {
    var s' := Next(cfg, s, Produce(Claim(p, stream, scope, job)));
    forall o, o' | o in s'.c.producers && o' in s'.c.producers && ForOneJob(s'.c, o, o') ensures o == o' {
      assert o != p && o' != p ==> ForOneJob(s.c, o, o');
    }
    assert stream.Purge? ==> Unsent(s.q, job);
  }

  lemma OneMessageForeign(cfg: Config, s: State, key: Key)
    requires Shape(s) && OneMessage(s) && ProducerCan(s, AppendForeign(key))
    ensures OneMessage(Next(cfg, s, Produce(AppendForeign(key))))
  {
    OneEachAppend(s.q, Next(cfg, s, Produce(AppendForeign(key))).q, key, Entry(false, "", "", 0, 0));
  }

  /** Nothing else sends. */
  lemma OneMessageRest(s: State, s': State)
    requires OneMessage(s) && s'.q.log == s.q.log && s'.j.used == s.j.used
    requires s'.c.producers.Keys <= s.c.producers.Keys
    requires forall p <- s'.c.producers :: s'.c.producers[p] == s.c.producers[p]
    ensures OneMessage(s')
  {
    OneEachKept(s.q, s'.q);
    forall p | p in s'.c.producers && s'.c.producers[p].slot.stream.Purge?
      ensures Unsent(s'.q, s'.c.producers[p].entry.job)
    {
      assert Unsent(s.q, s.c.producers[p].entry.job);
    }
    forall p, p' | p in s'.c.producers && p' in s'.c.producers && ForOneJob(s'.c, p, p') ensures p == p' {
      assert ForOneJob(s.c, p, p');
    }
  }

  lemma OneMessageStep(cfg: Config, s: State, step: Step)
    requires Shape(s) && OneMessage(s) && NeverRedriven(s) && Enabled(cfg, s, step)
    ensures OneMessage(Next(cfg, s, step))
  {
    if step.Produce? && step.pa.Claim? {
      OneMessageClaim(cfg, s, step.pa.p, step.pa.stream, step.pa.scope, step.pa.job);
    } else if step.Produce? && step.pa.Append? {
      OneMessageAppend(cfg, s, step.pa.p, step.pa.id);
    } else if step.Produce? && step.pa.AppendForeign? {
      OneMessageForeign(cfg, s, step.pa.key);
    } else {
      OneMessageRest(s, Next(cfg, s, step));
    }
  }

  lemma FirstOnlyWork(cfg: Config, r: Regime, s: State, d: Delivery, a: TaskAct)
    requires Shape(s) && FirstOnly(s) && TaskCan(s, d, a) && Allowed(r, s, Work(d, a)) && ReclaimsNeverStart(cfg, r)
    ensures InHand(PcAfter(cfg, s, d, a)) ==> d.n == 1
    ensures !PcAfter(cfg, s, d, a).Recovered?
  {
    assert TaskShape(s.q, d);
  }

  lemma FirstOnlyStep(cfg: Config, r: Regime, s: State, step: Step)
    requires Shape(s) && FirstOnly(s) && Enabled(cfg, s, step) && Allowed(r, s, step) && ReclaimsNeverStart(cfg, r)
    ensures FirstOnly(Next(cfg, s, step))
  {
    match step
    case Work(d, a) =>
      FirstOnlyWork(cfg, r, s, d, a);
      assert Next(cfg, s, step).tasks == TasksAfter(cfg, s, d, a);
    case Deliver(_) =>
    case Reclaim(_) =>
    case _ =>
      assert Next(cfg, s, step).tasks == s.tasks;
      assert forall k :: k in Next(cfg, s, step).q.pel ==> k in s.q.pel && Next(cfg, s, step).q.pel[k] == s.q.pel[k];
  }

  lemma GuardedStep(cfg: Config, r: Regime, s: State, step: Step)
    requires Shape(s) && Guarded(r, s) && Safe(cfg, r) && Enabled(cfg, s, step) && Allowed(r, s, step)
    ensures Guarded(r, Next(cfg, s, step))
  {
    if r.jobsApart {
      OnePerJobStep(cfg, s, step);
    } else {
      OneMessageStep(cfg, s, step);
      NoRedriveStep(cfg, s, step);
      if r.apart {
        OneMessageApart(cfg, s, step);
        OnePerJobStep(cfg, s, step);
      } else {
        FirstOnlyStep(cfg, r, s, step);
      }
    }
  }

  lemma GuardedHand(r: Regime, s: State)
    requires Guarded(r, s)
    ensures OneInHand(s)
  {
  }

  lemma {:induction false} PurgeAlways(cfg: Config, r: Regime, s: State, steps: seq<Step>)
    requires Shape(s) && AllAccounted(s) && PurgeInv(s) && Guarded(r, s) && Safe(cfg, r) && Run(cfg, r, s, steps)
    ensures PurgeInv(After(cfg, r, s, steps))
    decreases steps
  {
    if steps != [] {
      var step := steps[0];
      var s' := Next(cfg, s, step);
      ShapeStep(cfg, s, step);
      AccountedStep(cfg, s, step);
      KnownStep(cfg, s, step);
      GuardedStep(cfg, r, s, step);
      GuardedHand(r, s');
      DoneStep(cfg, s, step);
      forall d | d in s'.tasks ensures TaskRow(s', d) { TaskRowsStep(cfg, s, step, d); }
      PurgeAlways(cfg, r, s', steps[1..]);
    }
  }

  /** In a safe environment a purge message that has left the pending list has its row completed,
      failed, cancelled or deleted, unless the message is in the DLQ or was trimmed. */
  lemma PurgeLeavesOnlySettled(cfg: Config, r: Regime, steps: seq<Step>, k: Key)
    requires Run(cfg, r, INITIAL, steps) && Safe(cfg, r) && Done(After(cfg, r, INITIAL, steps), k)
    ensures var s := After(cfg, r, INITIAL, steps); Settled(s.j, s.q.log[k].job)
  {
    PurgeAlways(cfg, r, INITIAL, steps);
  }

  // ---- Every other environment breaks it ------------------------------------------------------

  const FIRST := Key(Purge, Id(0, 0))
  const THE_JOB := Entry(true, "ds", "job", 0, 0)

  /** Some purge message is done and its row is open. */
  ghost predicate Broken(s: State) {
    exists k :: Done(s, k) && !Settled(s.j, s.q.log[k].job)
  }

  ghost predicate Logged(s: State, log: map<Key, Entry>) {
    s.q.log == log && s.t == INITIAL.t && s.j.known == {"job"}
  }

  lemma Requested(cfg: Config, r: Regime) returns (steps: seq<Step>, s: State)
    ensures Leads(cfg, r, steps, s) && Logged(s, map[FIRST := THE_JOB]) && s.dl == INITIAL.dl && s.q.now == 0
    ensures s.q.undelivered == {FIRST} && s.q.pel == map[] && s.tasks == map[] && s.j.rows == map["job" := JobPending]
  {
    NoSteps(cfg, r);
    steps, s := Then(cfg, r, [], INITIAL, JobRow(CreateJobRow("job")));
    steps, s := Then(cfg, r, steps, s, Produce(Claim(0, Purge, "ds", "job")));
    steps, s := Then(cfg, r, steps, s, Produce(Append(0, Id(0, 0))));
  }

  lemma Taken(cfg: Config, r: Regime) returns (steps: seq<Step>, s: State)
    ensures Leads(cfg, r, steps, s) && Logged(s, map[FIRST := THE_JOB]) && s.dl == INITIAL.dl && s.q.now == 0
    ensures s.q.undelivered == {} && s.q.pel == map[FIRST := 1] && s.j.rows == map["job" := JobPending]
    ensures s.tasks == map[Delivery(FIRST, 1) := Spawned]
  {
    steps, s := Requested(cfg, r);
    steps, s := Then(cfg, r, steps, s, Deliver(FIRST));
  }

  /** A handler step of a task, away from the queue. */
  lemma Handle(cfg: Config, r: Regime, steps: seq<Step>, s: State, log: map<Key, Entry>, d: Delivery, a: TaskAct)
    returns (steps': seq<Step>, s': State)
    requires Leads(cfg, r, steps, s) && Logged(s, log) && TaskCan(s, d, a)
    requires a.StartHandler? || a.LookUpRow? || a.MarkRunning? || a.FinishHandler?
    ensures Leads(cfg, r, steps', s') && Logged(s', log) && s'.q == s.q && s'.dl == s.dl
    ensures s'.tasks == s.tasks[d := PcAfter(cfg, s, d, a)] && s'.j.rows == TaskJobs(s, d, a).rows
  {
    steps', s' := Then(cfg, r, steps, s, Work(d, a));
  }

  lemma AtWork(cfg: Config, r: Regime) returns (steps: seq<Step>, s: State)
    ensures Leads(cfg, r, steps, s) && Logged(s, map[FIRST := THE_JOB]) && s.dl == INITIAL.dl
    ensures s.q.undelivered == {} && s.q.pel == map[FIRST := 1] && s.j.rows == map["job" := JobPending]
    ensures s.tasks == map[Delivery(FIRST, 1) := Working]
  {
    steps, s := Taken(cfg, r);
    steps, s := Handle(cfg, r, steps, s, s.q.log, Delivery(FIRST, 1), StartHandler);
    steps, s := Handle(cfg, r, steps, s, s.q.log, Delivery(FIRST, 1), LookUpRow);
  }

  lemma FailedAndGone(cfg: Config, r: Regime) returns (steps: seq<Step>, s: State)
    ensures Leads(cfg, r, steps, s) && Logged(s, map[FIRST := THE_JOB]) && s.dl == INITIAL.dl
    ensures s.q.undelivered == {} && s.q.pel == map[] && s.j.rows == map["job" := JobFailed]
  {
    var d := Delivery(FIRST, 1);
    steps, s := AtWork(cfg, r);
    steps, s := Handle(cfg, r, steps, s, s.q.log, d, FinishHandler(JobFailed));
    assert s.tasks == map[d := Committed];
    steps, s := Tidy(cfg, r, steps, s, d, Ack(true));
  }

  /** A purge that failed and was acknowledged is resumed: its row is open, its message gone. */
  lemma ResumeReopensRow(cfg: Config, r: Regime) returns (steps: seq<Step>, s: State)
    requires !r.noResume
    ensures Leads(cfg, r, steps, s) && Broken(s)
  {
    var d := Delivery(FIRST, 1);
    steps, s := FailedAndGone(cfg, r);
    steps, s := Then(cfg, r, steps, s, JobRow(ResumeJobRow("job")));
    assert Done(s, FIRST);
  }

  /** One task completed the row and acknowledged; the other, which had read the row before, then
      writes `running` over it. */
  lemma SecondWriterReopens(cfg: Config, r: Regime, steps: seq<Step>, s: State, log: map<Key, Entry>,
                            d: Delivery, e: Delivery)
    returns (steps': seq<Step>, s': State)
    requires Leads(cfg, r, steps, s) && Logged(s, log) && SameJob(s.q, d.key, e.key) && d != e
    requires s.tasks == map[d := Working, e := Working] && s.q.undelivered == {} && d.key in s.q.pel
    requires s.q.log[d.key].job == "job" && "job" in s.j.rows && !DeadLettered(s.dl, d.key)
    ensures Leads(cfg, r, steps', s') && Broken(s')
  {
    steps', s' := Handle(cfg, r, steps, s, log, d, FinishHandler(JobCompleted));
    ghost var before := s';
    steps', s' := Then(cfg, r, steps', s', Work(d, Ack(true)));
    assert Logged(s', log) && s'.dl == s.dl && d.key !in s'.q.pel && s'.tasks[e] == Working && s'.j == before.j;
    steps', s' := Handle(cfg, r, steps', s', log, e, MarkRunning);
    assert Done(s', d.key);
  }

  lemma TakenTwice(cfg: Config, r: Regime) returns (steps: seq<Step>, s: State)
    requires !r.apart && !r.jobsApart
    ensures Leads(cfg, r, steps, s) && Logged(s, map[FIRST := THE_JOB]) && s.dl == INITIAL.dl
    ensures s.q.undelivered == {} && s.q.pel == map[FIRST := 2] && s.j.rows == map["job" := JobPending]
    ensures s.tasks == map[Delivery(FIRST, 1) := Working, Delivery(FIRST, 2) := Recovered]
  {
    steps, s := AtWork(cfg, r);
    steps, s := Then(cfg, r, steps, s, Reclaim(FIRST));
  }

  /** A purge is reclaimed from under its handler. The lookup counts it below the limit, or fails
      and counts it as new, so a second handler starts on the same row. */
  lemma OverlapReopensRow(cfg: Config, r: Regime) returns (steps: seq<Step>, s: State)
    requires !r.apart && !r.jobsApart && !ReclaimsNeverStart(cfg, r)
    ensures Leads(cfg, r, steps, s) && Broken(s)
  {
    var d, e := Delivery(FIRST, 1), Delivery(FIRST, 2);
    steps, s := TakenTwice(cfg, r);
    steps, s := Then(cfg, r, steps, s, Work(e, CheckRecovered(r.answers)));
    assert s.tasks == map[d := Working, e := Spawned] && s.j.rows == map["job" := JobPending];
    steps, s := Handle(cfg, r, steps, s, map[FIRST := THE_JOB], e, StartHandler);
    steps, s := Handle(cfg, r, steps, s, map[FIRST := THE_JOB], e, LookUpRow);
    assert s.tasks == map[d := Working, e := Working];
    steps, s := SecondWriterReopens(cfg, r, steps, s, map[FIRST := THE_JOB], d, e);
  }

  const ONCE := CopyOf(THE_JOB)
  const COPY_1 := Key(Purge, Id(0, 1))
  const COPY_2 := Key(Purge, Id(0, 2))

  /** Workers take the message over and die, `n` deliveries in all. */
  ghost predicate Orphaned(cfg: Config, r: Regime, steps: seq<Step>, s: State, n: nat) {
    && Leads(cfg, r, steps, s) && Logged(s, map[FIRST := THE_JOB]) && s.dl == INITIAL.dl && s.q.now == 0
    && s.q.undelivered == {} && s.q.pel == map[FIRST := n] && s.tasks == map[]
    && s.j.rows == map["job" := JobPending]
  }

  lemma OrphanedOnce(cfg: Config, r: Regime) returns (steps: seq<Step>, s: State)
    ensures Orphaned(cfg, r, steps, s, 1)
  {
    steps, s := Taken(cfg, r);
    steps, s := Then(cfg, r, steps, s, Work(Delivery(FIRST, 1), Die));
  }

  lemma OrphanedAgain(cfg: Config, r: Regime, steps: seq<Step>, s: State, n: nat)
    returns (steps': seq<Step>, s': State)
    requires Orphaned(cfg, r, steps, s, n)
    ensures Orphaned(cfg, r, steps', s', n + 1)
  {
    steps', s' := Then(cfg, r, steps, s, Reclaim(FIRST));
    assert s'.tasks == map[Delivery(FIRST, n + 1) := Recovered];
    steps', s' := Then(cfg, r, steps', s', Work(Delivery(FIRST, n + 1), Die));
  }

  lemma OrphanedTo(cfg: Config, r: Regime, n: nat) returns (steps: seq<Step>, s: State)
    requires n >= 1
    ensures Orphaned(cfg, r, steps, s, n)
  {
    steps, s := OrphanedOnce(cfg, r);
    var i := 1;
    while i < n
      invariant 1 <= i <= n && Orphaned(cfg, r, steps, s, i)
    {
      steps, s := OrphanedAgain(cfg, r, steps, s, i);
      i := i + 1;
    }
  }

  /** The purge is dead-lettered and off the pending list; its row still waits. */
  ghost predicate InDlq(cfg: Config, r: Regime, steps: seq<Step>, s: State) {
    && Leads(cfg, r, steps, s) && Logged(s, map[FIRST := THE_JOB]) && s.q.now == 0
    && s.q.undelivered == {} && s.q.pel == map[] && s.tasks == map[] && s.j.rows == map["job" := JobPending]
    && s.dl == INITIAL.dl.(buried := map[0 := DlqRow(FIRST, THE_JOB)], present := {0})
  }

  lemma ReachesLimit(cfg: Config, r: Regime) returns (steps: seq<Step>, s: State, d: Delivery)
    ensures Leads(cfg, r, steps, s) && Logged(s, map[FIRST := THE_JOB]) && s.dl == INITIAL.dl && s.q.now == 0
    ensures s.q.undelivered == {} && d.key == FIRST && s.q.pel == map[FIRST := d.n]
    ensures s.tasks == map[d := Burying(true)] && s.j.rows == map["job" := JobPending]
  {
    var n := if cfg.maxAttempts <= 1 then 1 else cfg.maxAttempts;
    d := Delivery(FIRST, n + 1);
    steps, s := OrphanedTo(cfg, r, n);
    steps, s := Then(cfg, r, steps, s, Reclaim(FIRST));
    assert s.tasks == map[d := Recovered];
    steps, s := Then(cfg, r, steps, s, Work(d, CheckRecovered(true)));
  }

  /** A step of the only task that does not touch the row. */
  lemma Tidy(cfg: Config, r: Regime, steps: seq<Step>, s: State, d: Delivery, a: TaskAct)
    returns (steps': seq<Step>, s': State)
    requires Leads(cfg, r, steps, s) && Logged(s, map[FIRST := THE_JOB])
    requires d in s.tasks && s.tasks == map[d := s.tasks[d]]
    requires TaskCan(s, d, a) && (a.WriteDlq? || a.Ack? || a.Release?)
    ensures Leads(cfg, r, steps', s') && Logged(s', map[FIRST := THE_JOB]) && s'.j.rows == s.j.rows
    ensures s'.q == TaskQueue(s, d, a) && s'.dl == TaskDlq(s, d, a)
    ensures var pc := PcAfter(cfg, s, d, a); s'.tasks == if pc.Ended? then map[] else map[d := pc]
  {
    steps', s' := Then(cfg, r, steps, s, Work(d, a));
  }

  lemma DeadLetteredPurge(cfg: Config, r: Regime) returns (steps: seq<Step>, s: State)
    ensures InDlq(cfg, r, steps, s)
  {
    var d;
    steps, s, d := ReachesLimit(cfg, r);
    steps, s := Tidy(cfg, r, steps, s, d, WriteDlq(0));
    steps, s := Tidy(cfg, r, steps, s, d, Ack(true));
    steps, s := Tidy(cfg, r, steps, s, d, Release);
  }

  const TRIPLED := map[FIRST := THE_JOB, COPY_1 := ONCE, COPY_2 := ONCE]

  ghost predicate CopiesFrom(s: State) {
    s.dl.buried == map[0 := DlqRow(FIRST, THE_JOB)] && s.j.rows == map["job" := JobPending]
  }

  /** Two operators read the DLQ row before either deletes it, and both redrive it. */
  lemma RedrivenTwice(cfg: Config, r: Regime) returns (steps: seq<Step>, s: State)
    requires cfg.redriveLimit >= 1
    ensures Leads(cfg, r, steps, s) && Logged(s, TRIPLED) && CopiesFrom(s)
    ensures s.q.undelivered == {COPY_1, COPY_2} && s.q.pel == map[] && s.tasks == map[]
  {
    steps, s := DeadLetteredPurge(cfg, r);
    steps, s := Then(cfg, r, steps, s, Operate(OpenRow(0, 0)));
    steps, s := Then(cfg, r, steps, s, Operate(OpenRow(1, 0)));
    assert s.dl.operators == map[0 := Operator(0, false), 1 := Operator(0, false)];
    steps, s := BothAppend(cfg, r, steps, s);
  }

  lemma BothAppend(cfg: Config, r: Regime, steps: seq<Step>, s: State) returns (steps': seq<Step>, s': State)
    requires Leads(cfg, r, steps, s) && Logged(s, map[FIRST := THE_JOB]) && CopiesFrom(s) && s.q.now == 0
    requires s.q.undelivered == {} && s.q.pel == map[] && s.tasks == map[]
    requires s.dl.operators == map[0 := Operator(0, false), 1 := Operator(0, false)]
    ensures Leads(cfg, r, steps', s') && Logged(s', TRIPLED) && CopiesFrom(s')
    ensures s'.q.undelivered == {COPY_1, COPY_2} && s'.q.pel == map[] && s'.tasks == map[]
  {
    steps', s' := Then(cfg, r, steps, s, Operate(AppendCopy(0, Id(0, 1))));
    assert s'.q == Queue(0, map[FIRST := THE_JOB, COPY_1 := ONCE], {COPY_1}, map[]);
    assert s'.dl.operators == map[0 := Operator(0, true), 1 := Operator(0, false)];
    steps', s' := Then(cfg, r, steps', s', Operate(AppendCopy(1, Id(0, 2))));
  }

  lemma BothDelivered(cfg: Config, r: Regime) returns (steps: seq<Step>, s: State)
    requires cfg.redriveLimit >= 1 && !r.jobsApart
    ensures Leads(cfg, r, steps, s) && Logged(s, TRIPLED) && CopiesFrom(s)
    ensures s.q.undelivered == {} && s.q.pel == map[COPY_1 := 1, COPY_2 := 1]
    ensures s.tasks == map[Delivery(COPY_1, 1) := Spawned, Delivery(COPY_2, 1) := Spawned]
  {
    steps, s := RedrivenTwice(cfg, r);
    steps, s := Then(cfg, r, steps, s, Deliver(COPY_1));
    steps, s := Then(cfg, r, steps, s, Deliver(COPY_2));
  }

  lemma BothBegin(cfg: Config, r: Regime) returns (steps: seq<Step>, s: State)
    requires cfg.redriveLimit >= 1 && !r.jobsApart
    ensures Leads(cfg, r, steps, s) && Logged(s, TRIPLED) && CopiesFrom(s)
    ensures s.q.undelivered == {} && s.q.pel == map[COPY_1 := 1, COPY_2 := 1]
    ensures s.tasks == map[Delivery(COPY_1, 1) := Working, Delivery(COPY_2, 1) := Working]
  {
    var d, e := Delivery(COPY_1, 1), Delivery(COPY_2, 1);
    steps, s := BothDelivered(cfg, r);
    steps, s := Handle(cfg, r, steps, s, TRIPLED, d, StartHandler);
    steps, s := Handle(cfg, r, steps, s, TRIPLED, e, StartHandler);
    assert s.tasks == map[d := Begun, e := Begun];
    steps, s := Handle(cfg, r, steps, s, TRIPLED, d, LookUpRow);
    steps, s := Handle(cfg, r, steps, s, TRIPLED, e, LookUpRow);
  }

  lemma RedrivesReopenRow(cfg: Config, r: Regime) returns (steps: seq<Step>, s: State)
    requires cfg.redriveLimit >= 1 && !r.jobsApart
    ensures Leads(cfg, r, steps, s) && Broken(s)
  {
    steps, s := BothBegin(cfg, r);
    steps, s := SecondWriterReopens(cfg, r, steps, s, TRIPLED, Delivery(COPY_1, 1), Delivery(COPY_2, 1));
  }

  ghost predicate KeepsRows(cfg: Config, r: Regime, steps: seq<Step>) {
    Run(cfg, r, INITIAL, steps) ==> !Broken(After(cfg, r, INITIAL, steps))
  }

  /** A done purge message has its row closed in every run of an environment, if and only if the
      environment is safe: no purge row is resumed, and deliveries of one job are apart, or nothing
      is redriven and no reclaim starts a second handler on a message. */
  lemma PurgeSafeExactly(cfg: Config, r: Regime)
    ensures (forall steps :: KeepsRows(cfg, r, steps)) <==> Safe(cfg, r)
  {
    if Safe(cfg, r) {
      forall steps | Run(cfg, r, INITIAL, steps) ensures !Broken(After(cfg, r, INITIAL, steps)) {
        PurgeAlways(cfg, r, INITIAL, steps);
      }
    } else {
      var steps, s := BreaksUnsafe(cfg, r);
      assert !KeepsRows(cfg, r, steps);
    }
  }

  lemma BreaksUnsafe(cfg: Config, r: Regime) returns (steps: seq<Step>, s: State)
    requires !Safe(cfg, r)
    ensures Leads(cfg, r, steps, s) && Broken(s)
  {
    if !r.noResume {
      steps, s := ResumeReopensRow(cfg, r);
    } else if cfg.redriveLimit >= 1 {
      steps, s := RedrivesReopenRow(cfg, r);
    } else {
      steps, s := OverlapReopensRow(cfg, r);
    }
  }
}
