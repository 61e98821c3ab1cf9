/** What becomes of a purge attempt that fails: `record_failure` closes the job's row on every
    failure, and a closed row is never worked on again. */
module PurgeRetries {
  import opened Streams
  import opened JobProtocol
  import opened RedriveBound
  import opened NoSilentLoss
  import opened PurgeRows

  // ---- A closed row stays untouched -----------------------------------------------------------

  predicate ForJob(s: State, d: Delivery, job: string) {
    d.key in s.q.log && d.key.stream.Purge? && s.q.log[d.key].job == job
  }

  /** A handler is past the look at the row and may call the provider. */
  predicate AtWorkOn(s: State, job: string) {
    exists d :: d in s.tasks && s.tasks[d].Working? && ForJob(s, d, job)
  }

  /** The row is closed or gone for good, and no handler is at work on it. */
  predicate Over(s: State, job: string) {
    job in s.j.known && Settled(s.j, job) && !AtWorkOn(s, job)
  }

  lemma OverStays(cfg: Config, s: State, step: Step, job: string)
    requires Shape(s) && Over(s, job) && Enabled(cfg, s, step) && !(step.JobRow? && step.ja.ResumeJobRow?)
    ensures Over(Next(cfg, s, step), job)
  {
    var s' := Next(cfg, s, step);
    QueueStep(cfg, s, step);
    assert forall d :: d in s.tasks && s.tasks[d].Working? ==> !ForJob(s, d, job);
    SettledKept(cfg, s, step, job);
    forall d | d in s'.tasks && s'.tasks[d].Working? ensures !ForJob(s', d, job) {
      assert ForJob(s', d, job) ==> ForJob(s, d, job) by {
        if d in s.tasks {
          assert TaskShape(s.q, d);
        }
      }
      assert d in s.tasks && s.tasks[d].Working? ==> !ForJob(s, d, job);
    }
  }

  /** Whatever is reclaimed, redriven, enqueued or crashes from then on: no handler of the job ever
      works again, unless the row is resumed. */
  lemma {:induction false} OverForGood(cfg: Config, r: Regime, s: State, steps: seq<Step>, job: string)
    requires Shape(s) && Over(s, job) && Run(cfg, r, s, steps) && r.noResume
    ensures Over(After(cfg, r, s, steps), job)
    decreases steps
  {
    if steps != [] {
      ShapeStep(cfg, s, steps[0]);
      OverStays(cfg, s, steps[0], job);
      OverForGood(cfg, r, Next(cfg, s, steps[0]), steps[1..], job);
    }
  }

  // ---- A failed attempt -----------------------------------------------------------------------

  lemma {:induction false} KnownAlways(cfg: Config, r: Regime, s: State, steps: seq<Step>)
    requires Shape(s) && RowsKnown(s) && Run(cfg, r, s, steps)
    ensures RowsKnown(After(cfg, r, s, steps)) && Shape(After(cfg, r, s, steps))
    decreases steps
  {
    if steps != [] {
      ShapeStep(cfg, s, steps[0]);
      KnownStep(cfg, s, steps[0]);
      KnownAlways(cfg, r, Next(cfg, s, steps[0]), steps[1..]);
    }
  }

  /** A reachable state in which a failed purge attempt has read its count, and its row is open. */
  ghost predicate FailedAt(cfg: Config, r: Regime, s: State, d: Delivery) {
    && (exists before :: Leads(cfg, r, before, s))
    && d in s.tasks && s.tasks[d].Counted? && d.key.stream.Purge? && d.key in s.q.log
    && s.q.log[d.key].parseable && s.q.log[d.key].job in s.j.rows && !Settled(s.j, s.q.log[d.key].job)
  }

  function Recorded(cfg: Config, s: State, d: Delivery, persisted: bool): State
    requires TaskCan(s, d, RecordFailure(persisted))
  {
    Next(cfg, s, Work(d, RecordFailure(persisted)))
  }

  /** Once the failure is in the row, and no other handler of the job was at work, none ever is: the
      message is delivered again, and there is nothing left to retry. */
  lemma PersistedFailureIsFinal(cfg: Config, r: Regime, s: State, d: Delivery, steps: seq<Step>)
    requires FailedAt(cfg, r, s, d) && TaskCan(s, d, RecordFailure(true)) && r.noResume
    requires !AtWorkOn(s, s.q.log[d.key].job) && Run(cfg, r, Recorded(cfg, s, d, true), steps)
    ensures Over(After(cfg, r, Recorded(cfg, s, d, true), steps), s.q.log[d.key].job)
  {
    var before :| Leads(cfg, r, before, s);
    var job, s' := s.q.log[d.key].job, Recorded(cfg, s, d, true);
    KnownAlways(cfg, r, INITIAL, before);
    ShapeStep(cfg, s, Work(d, RecordFailure(true)));
    forall x | x in s'.tasks && s'.tasks[x].Working? ensures !ForJob(s', x, job) {
      assert x in s.tasks && s.tasks[x].Working? ==> !ForJob(s, x, job);
    }
    OverForGood(cfg, r, s', steps, job);
  }

  ghost predicate From(cfg: Config, r: Regime, s: State, steps: seq<Step>, e: State) {
    Run(cfg, r, s, steps) && After(cfg, r, s, steps) == e
  }

  lemma FromThen(cfg: Config, r: Regime, s: State, steps: seq<Step>, e: State, step: Step)
    returns (steps': seq<Step>, e': State)
    requires From(cfg, r, s, steps, e) && Enabled(cfg, e, step) && Allowed(r, e, step)
    ensures From(cfg, r, s, steps', e') && e' == Next(cfg, e, step)
  {
    steps', e' := steps + [step], Next(cfg, e, step);
    assert [step][1..] == [] && Run(cfg, r, e', []) && Run(cfg, r, e, [step]);
    RunsCompose(cfg, r, s, steps, [step]);
  }

  /** The row is open, and the message waits for its next delivery. */
  ghost predicate Waiting(s: State, key: Key, n: nat) {
    && s.tasks == map[] && s.q.pel.Keys >= {key} && s.q.pel[key] == n && key.stream.Purge? && key in s.q.log
    && s.q.log[key].parseable && !Settled(s.j, s.q.log[key].job)
  }

  lemma Redelivered(cfg: Config, r: Regime, s: State, steps: seq<Step>, e: State, key: Key, n: nat)
    returns (steps': seq<Step>, e': State)
    requires From(cfg, r, s, steps, e) && Waiting(e, key, n) && n + 1 < cfg.maxAttempts
    ensures From(cfg, r, s, steps', e') && e'.tasks == map[Delivery(key, n + 1) := Spawned]
    ensures e'.q.log == e.q.log && e'.j == e.j
  {
    var d := Delivery(key, n + 1);
    steps', e' := FromThen(cfg, r, s, steps, e, Reclaim(key));
    assert e'.tasks == map[d := Recovered] && e'.q.pel[key] == n + 1;
    steps', e' := FromThen(cfg, r, s, steps', e', Work(d, CheckRecovered(true)));
  }

  /** A failure that did not reach the row is retried. */
  lemma UnpersistedIsRetried(cfg: Config, r: Regime, s: State, steps: seq<Step>, e: State, key: Key, n: nat)
    returns (steps': seq<Step>, e': State)
    requires From(cfg, r, s, steps, e) && Waiting(e, key, n) && n + 1 < cfg.maxAttempts
    ensures From(cfg, r, s, steps', e') && AtWorkOn(e', e.q.log[key].job)
  {
    var d := Delivery(key, n + 1);
    steps', e' := Redelivered(cfg, r, s, steps, e, key, n);
    steps', e' := FromThen(cfg, r, s, steps', e', Work(d, StartHandler));
    assert e'.tasks == map[d := Begun] && e'.j == e.j;
    steps', e' := FromThen(cfg, r, s, steps', e', Work(d, LookUpRow));
    assert ForJob(e', d, e.q.log[key].job);
  }

  ghost predicate CanWorkAgain(cfg: Config, r: Regime, s: State, job: string) {
    exists steps :: Run(cfg, r, s, steps) && AtWorkOn(After(cfg, r, s, steps), job)
  }

  /** After a failed purge attempt whose next delivery is still below the limit, some continuation
      works on the purge again if and only if the failure was not recorded in the row. */
  lemma RetriedExactly(cfg: Config, r: Regime, s: State, d: Delivery, persisted: bool)
    requires FailedAt(cfg, r, s, d) && s.tasks == map[d := s.tasks[d]] && r.noResume
    requires d.key in s.q.pel && s.q.pel[d.key] + 1 < cfg.maxAttempts && s.tasks[d].count < cfg.maxAttempts
    ensures CanWorkAgain(cfg, r, Recorded(cfg, s, d, persisted), s.q.log[d.key].job) <==> !persisted
  {
    var s', job := Recorded(cfg, s, d, persisted), s.q.log[d.key].job;
    assert !AtWorkOn(s, job);
    if persisted {
      forall steps | Run(cfg, r, s', steps) ensures !AtWorkOn(After(cfg, r, s', steps), job) {
        PersistedFailureIsFinal(cfg, r, s, d, steps);
      }
    } else {
      assert s'.tasks == map[d := Releasing(false)] && From(cfg, r, s', [], s');
      var steps, e := FromThen(cfg, r, s', [], s', Work(d, Release));
      assert Waiting(e, d.key, s.q.pel[d.key]);
      steps, e := UnpersistedIsRetried(cfg, r, s', steps, e, d.key, s.q.pel[d.key]);
      assert Run(cfg, r, s', steps) && AtWorkOn(After(cfg, r, s', steps), job);
    }
  }

  // ---- Such a run, and when failures are recorded ---------------------------------------------

  lemma AttemptFails(cfg: Config, r: Regime) returns (steps: seq<Step>, s: State)
    ensures Leads(cfg, r, steps, s) && Logged(s, map[FIRST := THE_JOB]) && s.dl == INITIAL.dl
    ensures s.q.undelivered == {} && s.q.pel == map[FIRST := 1] && s.j.rows == map["job" := JobPending]
    ensures s.tasks == map[Delivery(FIRST, 1) := Counted(1)]
  {
    var d := Delivery(FIRST, 1);
    steps, s := AtWork(cfg, r);
    steps, s := Then(cfg, r, steps, s, Work(d, HandlerFails));
    assert s.tasks == map[d := Failing] && s.q.pel == map[FIRST := 1] && s.j.rows == map["job" := JobPending];
    steps, s := Then(cfg, r, steps, s, Work(d, ReadCount(true)));
  }

  lemma FailureRecorded(cfg: Config, r: Regime) returns (steps: seq<Step>, s: State)
    requires cfg.maxAttempts >= 2
    ensures Leads(cfg, r, steps, s) && Logged(s, map[FIRST := THE_JOB]) && s.dl == INITIAL.dl
    ensures s.q.undelivered == {} && s.q.pel == map[FIRST := 1] && s.j.rows == map["job" := JobFailed]
    ensures s.tasks == map[]
  {
    var d := Delivery(FIRST, 1);
    steps, s := AttemptFails(cfg, r);
    steps, s := Then(cfg, r, steps, s, Work(d, RecordFailure(true)));
    assert s.tasks == map[d := Releasing(false)] && s.j.rows == map["job" := JobFailed];
    steps, s := Then(cfg, r, steps, s, Work(d, Release));
  }

  lemma RetryStarts(cfg: Config, r: Regime) returns (steps: seq<Step>, s: State)
    requires !ReclaimsNeverStart(cfg, r)
    ensures Leads(cfg, r, steps, s) && Logged(s, map[FIRST := THE_JOB]) && s.dl == INITIAL.dl
    ensures s.q.undelivered == {} && s.q.pel == map[FIRST := 2] && s.j.rows == map["job" := JobFailed]
    ensures s.tasks == map[Delivery(FIRST, 2) := Spawned]
  {
    var d := Delivery(FIRST, 2);
    steps, s := FailureRecorded(cfg, r);
    steps, s := Then(cfg, r, steps, s, Reclaim(FIRST));
    assert s.tasks == map[d := Recovered] && s.q.pel == map[FIRST := 2] && s.j.rows == map["job" := JobFailed];
    steps, s := Then(cfg, r, steps, s, Work(d, CheckRecovered(r.answers)));
  }

  /** The redelivered attempt finds its row closed. */
  lemma RetryEndsIdle(cfg: Config, r: Regime) returns (steps: seq<Step>, s: State)
    requires !ReclaimsNeverStart(cfg, r)
    ensures Leads(cfg, r, steps, s) && Logged(s, map[FIRST := THE_JOB]) && s.dl == INITIAL.dl
    ensures s.q.undelivered == {} && s.q.pel == map[FIRST := 2] && s.j.rows == map["job" := JobFailed]
    ensures s.tasks == map[Delivery(FIRST, 2) := Idle]
  {
    steps, s := RetryStarts(cfg, r);
    steps, s := Handle(cfg, r, steps, s, map[FIRST := THE_JOB], Delivery(FIRST, 2), StartHandler);
    steps, s := Handle(cfg, r, steps, s, map[FIRST := THE_JOB], Delivery(FIRST, 2), LookUpRow);
  }

  /** And is acknowledged: off the pending list, not in the DLQ, and not done. */
  lemma RetryIsAcknowledged(cfg: Config, r: Regime) returns (steps: seq<Step>, s: State)
    requires !ReclaimsNeverStart(cfg, r)
    ensures Leads(cfg, r, steps, s) && Done(s, FIRST) && s.j.rows == map["job" := JobFailed] && s.dl == INITIAL.dl
  {
    var d := Delivery(FIRST, 2);
    steps, s := RetryEndsIdle(cfg, r);
    steps, s := Handle(cfg, r, steps, s, map[FIRST := THE_JOB], d, FinishHandler(JobCompleted));
    assert s.tasks == map[d := Committed];
    steps, s := Tidy(cfg, r, steps, s, d, Ack(true));
  }

  predicate CountsPositive(s: State) {
    forall d :: d in s.tasks && s.tasks[d].Counted? ==> s.tasks[d].count >= 1
  }

  lemma CountsStayPositive(cfg: Config, s: State, step: Step)
    requires Shape(s) && CountsPositive(s) && Enabled(cfg, s, step)
    ensures CountsPositive(Next(cfg, s, step))
  {
    match step
    case Work(d, a) => assert TaskShape(s.q, d);
    case Deliver(_) =>
    case Reclaim(_) =>
    case _ => assert Next(cfg, s, step).tasks == s.tasks;
  }

  /** Every purge failure of the run is recorded after its attempts are exhausted, as documented. */
  predicate RecordedAtLimit(cfg: Config, r: Regime, s: State, steps: seq<Step>)
    requires Run(cfg, r, s, steps)
    decreases steps
  {
    steps == []
    || (InTime(cfg, s, steps[0]) && RecordedAtLimit(cfg, r, Next(cfg, s, steps[0]), steps[1..]))
  }

  predicate InTime(cfg: Config, s: State, step: Step)
    requires Enabled(cfg, s, step)
  {
    step.Work? && step.act.RecordFailure? && step.d.key.stream.Purge? ==> s.tasks[step.d].count >= cfg.maxAttempts
  }

  lemma {:induction false} OneAttemptInTime(cfg: Config, r: Regime, s: State, steps: seq<Step>)
    requires Shape(s) && CountsPositive(s) && Run(cfg, r, s, steps) && cfg.maxAttempts <= 1
    ensures RecordedAtLimit(cfg, r, s, steps)
    decreases steps
  {
    if steps != [] {
      ShapeStep(cfg, s, steps[0]);
      CountsStayPositive(cfg, s, steps[0]);
      OneAttemptInTime(cfg, r, Next(cfg, s, steps[0]), steps[1..]);
    }
  }

  lemma {:induction false} LastInTime(cfg: Config, r: Regime, s: State, steps: seq<Step>, step: Step)
    requires Run(cfg, r, s, steps) && Run(cfg, r, s, steps + [step]) && RecordedAtLimit(cfg, r, s, steps + [step])
    requires Enabled(cfg, After(cfg, r, s, steps), step)
    ensures InTime(cfg, After(cfg, r, s, steps), step)
    decreases steps
  {
    if steps == [] {
      assert steps + [step] == [step];
    } else {
      assert (steps + [step])[1..] == steps[1..] + [step] && (steps + [step])[0] == steps[0];
      LastInTime(cfg, r, Next(cfg, s, steps[0]), steps[1..], step);
    }
  }

  ghost predicate Timely(cfg: Config, r: Regime, steps: seq<Step>) {
    Run(cfg, r, INITIAL, steps) ==> RecordedAtLimit(cfg, r, INITIAL, steps)
  }

  /** Purge failures are recorded only after attempts are exhausted, in every run of whatever
      environment, if and only if one attempt is all there is. */
  lemma TimelyExactly(cfg: Config, r: Regime)
    ensures (forall steps :: Timely(cfg, r, steps)) <==> cfg.maxAttempts <= 1
  {
    if cfg.maxAttempts <= 1 {
      forall steps | Run(cfg, r, INITIAL, steps) ensures RecordedAtLimit(cfg, r, INITIAL, steps) {
        OneAttemptInTime(cfg, r, INITIAL, steps);
      }
    } else {
      var steps, s := AttemptFails(cfg, r);
      var step := Work(Delivery(FIRST, 1), RecordFailure(true));
      Extend(cfg, r, steps, s, step);
      if RecordedAtLimit(cfg, r, INITIAL, steps + [step]) {
        LastInTime(cfg, r, INITIAL, steps, step);
        assert false;
      }
      assert !Timely(cfg, r, steps + [step]);
    }
  }
}
