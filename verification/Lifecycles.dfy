/** Runs as one message, one dead letter or one purge row sees them: what each becomes is told by the
    steps about it alone, and by nothing else in the system. */
module Lifecycles {
  import opened Basics
  import opened Streams
  import opened JobProtocol

  // ---- Messages --------------------------------------------------------------------------------

  datatype Life = Absent | Unread | Pending(times: nat) | Gone

  function LifeOf(q: Queue, k: Key): Life {
    if k in q.undelivered then Unread
    else if k in q.pel then Pending(q.pel[k])
    else if k in q.log then Gone
    else Absent
  }

  /** What happens to one message: XADD, XREADGROUP, XAUTOCLAIM, XACK, XTRIM. */
  datatype Mark = Added | Read | TakenOver | Acknowledged | Trimmed

  function MarkOf(cfg: Config, s: State, step: Step, k: Key): Option<Mark>
    requires Enabled(cfg, s, step)
  {
    match step
    case Produce(Append(p, id)) => if k == Key(s.c.producers[p].slot.stream, id) then Some(Added) else None
    case Produce(AppendForeign(key)) => if k == key then Some(Added) else None
    case Operate(AppendCopy(op, id)) =>
      if k == Key(s.dl.buried[s.dl.operators[op].row].origin.stream, id) then Some(Added) else None
    case Deliver(key) => if k == key then Some(Read) else None
    case Reclaim(key) => if k == key then Some(TakenOver) else None
    case Work(d, Ack(true)) => if k == d.key then Some(Acknowledged) else None
    case Work(d, AckMalformed(true)) => if k == d.key then Some(Acknowledged) else None
    case Trim(Xtrim(_, removed)) => if k in removed then Some(Trimmed) else None
    case _ => None
  }

  /** The life of a message, whatever else goes on. */
  function Lived(l: Life, m: Option<Mark>): Life {
    match m
    case None => l
    case Some(Added) => Unread
    case Some(Read) => Pending(1)
    case Some(TakenOver) => if l.Pending? then Pending(l.times + 1) else l
    case Some(Acknowledged) => Gone
    case Some(Trimmed) => Gone
  }

  /** What can happen to a message at which time of its life. */
  predicate Timely(l: Life, m: Mark) {
    match m
    case Added => l.Absent?
    case Read => l.Unread?
    case TakenOver => l.Pending?
    case Acknowledged => l.Pending? || l.Gone?
    case Trimmed => !l.Absent?
  }

  ghost predicate StepsRightly(cfg: Config, s: State, step: Step, k: Key)
    requires Enabled(cfg, s, step)
  {
    var m := MarkOf(cfg, s, step, k);
    LifeOf(Next(cfg, s, step).q, k) == Lived(LifeOf(s.q, k), m) && (m.Some? ==> Timely(LifeOf(s.q, k), m.value))
  }

  lemma LifeOfAdded(cfg: Config, s: State, step: Step, k: Key)
    requires Shape(s) && Enabled(cfg, s, step) && (step.Produce? || step.Operate?)
    ensures StepsRightly(cfg, s, step, k)
  {
  }

  lemma LifeOfWorkedOn(cfg: Config, s: State, d: Delivery, a: TaskAct, k: Key)
    requires Shape(s) && Enabled(cfg, s, Work(d, a))
    ensures StepsRightly(cfg, s, Work(d, a), k)
  {
    assert TaskShape(s.q, d);
  }

  lemma LifeStep(cfg: Config, s: State, step: Step, k: Key)
    requires Shape(s) && Enabled(cfg, s, step)
    ensures StepsRightly(cfg, s, step, k)
  {
    match step
    case Produce(_) => LifeOfAdded(cfg, s, step, k);
    case Operate(_) => LifeOfAdded(cfg, s, step, k);
    case Work(d, a) => LifeOfWorkedOn(cfg, s, d, a, k);
    case _ =>
  }

  function LifeAfter(cfg: Config, r: Regime, s: State, steps: seq<Step>, k: Key, l: Life): Life
    requires Run(cfg, r, s, steps)
    decreases steps
  {
    if steps == [] then l
    else LifeAfter(cfg, r, Next(cfg, s, steps[0]), steps[1..], k, Lived(l, MarkOf(cfg, s, steps[0], k)))
  }

  predicate EverRemoved(cfg: Config, r: Regime, s: State, steps: seq<Step>, k: Key)
    requires Run(cfg, r, s, steps)
    decreases steps
  {
    steps != []
    && (MarkOf(cfg, s, steps[0], k) in {Some(Acknowledged), Some(Trimmed)}
        || EverRemoved(cfg, r, Next(cfg, s, steps[0]), steps[1..], k))
  }

  lemma {:induction false} LivesOn(cfg: Config, r: Regime, s: State, steps: seq<Step>, k: Key)
    requires Shape(s) && Run(cfg, r, s, steps)
    ensures var end := LifeOf(After(cfg, r, s, steps).q, k);
      && end == LifeAfter(cfg, r, s, steps, k, LifeOf(s.q, k))
      && (end.Gone? <==> LifeOf(s.q, k).Gone? || EverRemoved(cfg, r, s, steps, k))
    decreases steps
  {
    if steps != [] {
      LifeStep(cfg, s, steps[0], k);
      ShapeStep(cfg, s, steps[0]);
      LivesOn(cfg, r, Next(cfg, s, steps[0]), steps[1..], k);
    }
  }

  /** In any run a message is unread, pending with a delivery count, or gone, exactly as the commands
      about it say, in order. */
  lemma LifeExactly(cfg: Config, r: Regime, steps: seq<Step>, k: Key)
    requires Run(cfg, r, INITIAL, steps)
    ensures LifeOf(After(cfg, r, INITIAL, steps).q, k) == LifeAfter(cfg, r, INITIAL, steps, k, Absent)
  {
    LivesOn(cfg, r, INITIAL, steps, k);
  }

  /** A message of the log is no longer live if and only if an XACK or an XTRIM removed it. */
  lemma GoneExactly(cfg: Config, r: Regime, steps: seq<Step>, k: Key)
    requires Run(cfg, r, INITIAL, steps) && k in After(cfg, r, INITIAL, steps).q.log
    ensures LifeOf(After(cfg, r, INITIAL, steps).q, k).Gone? <==> EverRemoved(cfg, r, INITIAL, steps, k)
  {
    LivesOn(cfg, r, INITIAL, steps, k);
  }

  // ---- What handlers did -----------------------------------------------------------------------

  predicate Finishes(step: Step, k: Key) {
    step.Work? && step.act.FinishHandler? && step.d.key == k
  }

  lemma HistoryStep(cfg: Config, s: State, step: Step, d: Delivery, k: Key)
    requires Enabled(cfg, s, step)
    ensures var h := Next(cfg, s, step).h;
      && (d in h.started <==> d in s.h.started || step == Work(d, StartHandler))
      && (k in h.committed <==> k in s.h.committed || Finishes(step, k))
      && (k in h.softAcked <==>
            k in s.h.softAcked || (step.Work? && step.act.Ack? && s.tasks[step.d].SoftAcking? && step.d.key == k))
  {
  }

  lemma {:induction false} HistoryIs(cfg: Config, r: Regime, s: State, steps: seq<Step>, d: Delivery, k: Key)
    requires Run(cfg, r, s, steps)
    ensures var h := After(cfg, r, s, steps).h;
      && (d in h.started <==> d in s.h.started || Work(d, StartHandler) in steps)
      && (k in h.committed <==> k in s.h.committed || exists step <- steps :: Finishes(step, k))
    decreases steps
  {
    if steps != [] {
      HistoryStep(cfg, s, steps[0], d, k);
      HistoryIs(cfg, r, Next(cfg, s, steps[0]), steps[1..], d, k);
      assert forall step :: step in steps <==> step == steps[0] || step in steps[1..];
    }
  }

  /** The history that the theorems speak of is the run's: a delivery is started when its handler is
      entered, and a message committed when a handler of it finishes, and never otherwise. */
  lemma HistoryExactly(cfg: Config, r: Regime, steps: seq<Step>, d: Delivery, k: Key)
    requires Run(cfg, r, INITIAL, steps)
    ensures var h := After(cfg, r, INITIAL, steps).h;
      && (d in h.started <==> Work(d, StartHandler) in steps)
      && (k in h.committed <==> exists step <- steps :: Finishes(step, k))
  {
    HistoryIs(cfg, r, INITIAL, steps, d, k);
  }

  /** A handler at work was started, and so was one for everything committed. */
  ghost predicate StartedFirst(s: State) {
    && (forall d :: d in s.tasks && (s.tasks[d].Begun? || s.tasks[d].Working? || s.tasks[d].Idle?) ==> d in s.h.started)
    && (forall k :: k in s.h.committed ==> exists d :: d in s.h.started && d.key == k)
  }

  lemma StartedFirstStep(cfg: Config, s: State, step: Step)
    requires StartedFirst(s) && Enabled(cfg, s, step)
    ensures StartedFirst(Next(cfg, s, step))
  {
    var s' := Next(cfg, s, step);
    forall k | k in s'.h.committed ensures exists d :: d in s'.h.started && d.key == k {
      if k in s.h.committed {
        var d :| d in s.h.started && d.key == k;
        assert d in s'.h.started;
      } else {
        assert step.d in s'.h.started && step.d.key == k;
      }
    }
  }

  lemma {:induction false} StartedFirstAlways(cfg: Config, r: Regime, s: State, steps: seq<Step>)
    requires StartedFirst(s) && Run(cfg, r, s, steps)
    ensures StartedFirst(After(cfg, r, s, steps))
    decreases steps
  {
    if steps != [] {
      StartedFirstStep(cfg, s, steps[0]);
      StartedFirstAlways(cfg, r, Next(cfg, s, steps[0]), steps[1..]);
    }
  }

  /** Nothing is committed without a handler: in any run a committed message has a delivery whose
      handler was entered before. */
  lemma NoCommitWithoutHandler(cfg: Config, r: Regime, steps: seq<Step>, k: Key)
    requires Run(cfg, r, INITIAL, steps) && k in After(cfg, r, INITIAL, steps).h.committed
    ensures exists d: Delivery :: d.key == k && Work(d, StartHandler) in steps
  {
    StartedFirstAlways(cfg, r, INITIAL, steps);
    var d :| d in After(cfg, r, INITIAL, steps).h.started && d.key == k;
    HistoryExactly(cfg, r, steps, d, k);
  }

  // ---- Messages that nobody can read -------------------------------------------------------------

  /** No handler was entered for an unreadable message, and no dead letter holds one. */
  ghost predicate ForeignUntouched(s: State) {
    (forall d :: d in s.h.started ==> d.key in s.q.log && s.q.log[d.key].parseable)
    && (forall k :: k in s.h.softAcked ==> k in s.q.log && s.q.log[k].parseable)
  }

  lemma ForeignStep(cfg: Config, s: State, step: Step)
    requires Shape(s) && ForeignUntouched(s) && Enabled(cfg, s, step)
    ensures ForeignUntouched(Next(cfg, s, step))
  {
    QueueStep(cfg, s, step);
    if step.Work? {
      assert TaskShape(s.q, step.d);
    }
  }

  lemma {:induction false} ForeignAlways(cfg: Config, r: Regime, s: State, steps: seq<Step>)
    requires Shape(s) && ForeignUntouched(s) && Run(cfg, r, s, steps)
    ensures ForeignUntouched(After(cfg, r, s, steps))
    decreases steps
  {
    if steps != [] {
      ForeignStep(cfg, s, steps[0]);
      ShapeStep(cfg, s, steps[0]);
      ForeignAlways(cfg, r, Next(cfg, s, steps[0]), steps[1..]);
    }
  }

  /** A message that no envelope can read has no handler in any run, is no dead letter, and a task of
      it has nothing to do but to acknowledge and drop it. */
  lemma UnreadableIsOnlyDropped(cfg: Config, r: Regime, steps: seq<Step>, k: Key)
    requires Run(cfg, r, INITIAL, steps)
    requires var s := After(cfg, r, INITIAL, steps); k in s.q.log && !s.q.log[k].parseable
    ensures var s := After(cfg, r, INITIAL, steps);
      && k !in s.h.committed && k !in s.h.softAcked && (forall d: Delivery :: d.key == k ==> d !in s.h.started)
      && (forall row :: row in s.dl.buried ==> s.dl.buried[row].origin != k)
      && (forall d: Delivery, a: TaskAct :: d.key == k && TaskCan(s, d, a) ==> a.AckMalformed? || a.Die?)
  {
    var s := After(cfg, r, INITIAL, steps);
    ShapeAlways(cfg, r, INITIAL, steps);
    ForeignAlways(cfg, r, INITIAL, steps);
    StartedFirstAlways(cfg, r, INITIAL, steps);
  }

  // ---- Dead letters ------------------------------------------------------------------------------

  predicate Writes(step: Step, row: nat) {
    step.Work? && step.act.WriteDlq? && step.act.row == row
  }

  predicate Removes(s: State, step: Step, row: nat) {
    match step
    case Operate(DeleteRow(op)) => op in s.dl.operators && s.dl.operators[op].row == row
    case Operate(EvictRow(x)) => x == row
    case _ => false
  }

  predicate PresentAfter(cfg: Config, r: Regime, s: State, steps: seq<Step>, row: nat, present: bool)
    requires Run(cfg, r, s, steps)
    decreases steps
  {
    if steps == [] then present
    else
      PresentAfter(cfg, r, Next(cfg, s, steps[0]), steps[1..], row,
                   Writes(steps[0], row) || (present && !Removes(s, steps[0], row)))
  }

  /** A dead letter is there exactly from its writing to its deletion by an operator or its eviction;
      the written row names the message and carries its fields. */
  lemma {:induction false} PresentExactly(cfg: Config, r: Regime, s: State, steps: seq<Step>, row: nat)
    requires Run(cfg, r, s, steps)
    ensures row in After(cfg, r, s, steps).dl.present <==> PresentAfter(cfg, r, s, steps, row, row in s.dl.present)
    decreases steps
  {
    if steps != [] {
      PresentExactly(cfg, r, Next(cfg, s, steps[0]), steps[1..], row);
    }
  }

  /** An operator deletes a row only after its copy was added, and the copy is the message itself, in
      its own stream and one redrive older. */
  lemma CopiedFirst(cfg: Config, s: State, op: nat, id: Id)
    requires Shape(s) && Enabled(cfg, s, Operate(AppendCopy(op, id)))
    ensures var row := s.dl.operators[op].row; var origin := s.dl.buried[row].origin;
      var s' := Next(cfg, s, Operate(AppendCopy(op, id)));
      && !Enabled(cfg, s, Operate(DeleteRow(op))) && Enabled(cfg, s', Operate(DeleteRow(op)))
      && s'.q.log[Key(origin.stream, id)]
         == s.q.log[origin].(redrives := s.dl.buried[row].entry.redrives + 1, hops := s.q.log[origin].hops + 1)
      && row !in Next(cfg, s', Operate(DeleteRow(op))).dl.present
  {
    assert RowShape(s.q, s.dl.buried[s.dl.operators[op].row]);
  }

  // ---- Trimmed messages --------------------------------------------------------------------------

  predicate TrimsAt(s: State, step: Step, k: Key, pending: bool) {
    step.Trim? && step.ta.Xtrim? && k in step.ta.removed && if pending then k in s.q.pel else k in s.q.undelivered
  }

  predicate TrimmedIn(cfg: Config, r: Regime, s: State, steps: seq<Step>, k: Key, pending: bool)
    requires Run(cfg, r, s, steps)
    decreases steps
  {
    steps != []
    && (TrimsAt(s, steps[0], k, pending) || TrimmedIn(cfg, r, Next(cfg, s, steps[0]), steps[1..], k, pending))
  }

  /** A message counts as trimmed, or as lost, exactly when an XTRIM took it unread, or pending. */
  lemma {:induction false} TrimmedExactly(cfg: Config, r: Regime, s: State, steps: seq<Step>, k: Key)
    requires Run(cfg, r, s, steps)
    ensures var t := After(cfg, r, s, steps).t;
      && (k in t.trimmed <==> k in s.t.trimmed || TrimmedIn(cfg, r, s, steps, k, false))
      && (k in t.lost <==> k in s.t.lost || TrimmedIn(cfg, r, s, steps, k, true))
    decreases steps
  {
    if steps != [] {
      TrimmedExactly(cfg, r, Next(cfg, s, steps[0]), steps[1..], k);
    }
  }

  // ---- Purge rows --------------------------------------------------------------------------------

  function StatusOf(j: Jobs, job: string): Option<JobStatus> {
    if job in j.rows then Some(j.rows[job]) else None
  }

  /** What a step writes to the row of a job, if it does: None is a dropped row. A handler writes only
      when the row is there, and one that found the row closed writes nothing. */
  function WrittenTo(s: State, step: Step, job: string): Option<Option<JobStatus>> {
    match step
    case JobRow(CreateJobRow(x)) => if x == job then Some(Some(JobPending)) else None
    case JobRow(CancelJobRow(x)) => if x == job then Some(Some(JobCancelled)) else None
    case JobRow(DropJobRow(x)) => if x == job then Some(None) else None
    case JobRow(ResumeJobRow(x)) => if x == job then Some(Some(JobPending)) else None
    case Work(d, act) =>
      if !(d.key.stream.Purge? && d.key in s.q.log && s.q.log[d.key].job == job && job in s.j.rows && d in s.tasks)
      then None
      else if act.MarkRunning? then Some(Some(JobRunning))
      else if act.FinishHandler? && s.tasks[d].Working? then Some(Some(act.outcome))
      else if act == RecordFailure(true) then Some(Some(JobFailed))
      else None
    case _ => None
  }

  function StatusAfter(cfg: Config, r: Regime, s: State, steps: seq<Step>, job: string,
                       status: Option<JobStatus>): Option<JobStatus>
    requires Run(cfg, r, s, steps)
    decreases steps
  {
    if steps == [] then status
    else
      var w := WrittenTo(s, steps[0], job);
      StatusAfter(cfg, r, Next(cfg, s, steps[0]), steps[1..], job, if w.Some? then w.value else status)
  }

  /** A purge row says what was last written to it, by the endpoints or by a handler of its job. */
  lemma {:induction false} StatusExactly(cfg: Config, r: Regime, s: State, steps: seq<Step>, job: string)
    requires Run(cfg, r, s, steps)
    ensures StatusOf(After(cfg, r, s, steps).j, job) == StatusAfter(cfg, r, s, steps, job, StatusOf(s.j, job))
    decreases steps
  {
    if steps != [] {
      StatusExactly(cfg, r, Next(cfg, s, steps[0]), steps[1..], job);
    }
  }

  predicate CompletedIn(cfg: Config, r: Regime, s: State, steps: seq<Step>, job: string)
    requires Run(cfg, r, s, steps)
    decreases steps
  {
    steps != []
    && ((steps[0].Work? && steps[0].act == FinishHandler(JobCompleted) && s.tasks[steps[0].d].Working?
         && steps[0].d.key.stream.Purge? && s.q.log[steps[0].d.key].job == job)
        || CompletedIn(cfg, r, Next(cfg, s, steps[0]), steps[1..], job))
  }

  /** No purge row says completed without a handler of its job that did the work and said so. */
  lemma {:induction false} CompletedByHandler(cfg: Config, r: Regime, s: State, steps: seq<Step>, job: string)
    requires Run(cfg, r, s, steps) && StatusOf(s.j, job) != Some(JobCompleted)
    requires StatusOf(After(cfg, r, s, steps).j, job) == Some(JobCompleted)
    ensures CompletedIn(cfg, r, s, steps, job)
    decreases steps
  {
    if steps != [] && StatusOf(Next(cfg, s, steps[0]).j, job) != Some(JobCompleted) {
      CompletedByHandler(cfg, r, Next(cfg, s, steps[0]), steps[1..], job);
    }
  }
}
