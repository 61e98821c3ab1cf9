/** The insights job queue as a step machine. Every constructor of an `...Act` type is one atomic
    effect: one Redis command, one database commit, or the end of a task. Producers, handler
    tasks, recovery scans, operators and trimmers interleave freely, and any of them may stop
    between any two of its steps. */
module JobProtocol {
  import opened Streams

  /** STATS_MAX_DELIVERY_ATTEMPTS and DLQ_REDRIVE_LIMIT. */
  datatype Config = Config(maxAttempts: int, redriveLimit: int)

  /** What the protocol reads of a message's fields. `redrives` is the `redrive_count` field (0
      when absent); `hops` is not a field: it counts the redrives that led to this message. */
  datatype Entry = Entry(parseable: bool, scope: string, job: string, redrives: int, hops: nat)

  /** Status of a purge's `aggregation_jobs` row. */
  datatype JobStatus = JobPending | JobRunning | JobCompleted | JobFailed | JobCancelled

  predicate Terminal(j: JobStatus) {
    j.JobCompleted? || j.JobFailed? || j.JobCancelled?
  }

  // ---- State -----------------------------------------------------------------------------

  /** The three job streams with their shared consumer group, and the Redis server clock. */
  datatype Queue = Queue(
    now: nat,                            // server clock, ms
    log: map<Key, Entry>,                // every message ever XADDed
    undelivered: set<Key>,               // in the stream, beyond the group's cursor
    pel: map<Key, nat>                   // pending entries list: times delivered
  )

  /** A producer that holds a new claim and has yet to XADD. */
  datatype Producer = Producer(slot: Slot, entry: Entry)

  datatype Claims = Claims(
    held: set<Slot>,
    producers: map<nat, Producer>,
    early: map<Slot, nat>                // early releases so far
  )

  /** The n-th delivery of a message; each delivery gives rise to at most one task. */
  datatype Delivery = Delivery(key: Key, n: nat)

  datatype Pc =
    | Malformed                  // parse_envelope raised; the dropping XACK is outstanding
    | Recovered                  // returned by XAUTOCLAIM; XPENDING not yet read
    | Spawned                    // task created, handler not yet entered
    | Begun                      // purge handler entered, job row not yet read
    | Working                    // handler at work
    | Idle                       // purge handler found the row absent or terminal
    | Committed                  // session.commit() returned; XACK outstanding
    | Denied                     // AdmissionDenied or ProviderUnavailable
    | Failing                    // _handle_failure entered
    | Counted(count: int)        // delivery count read; record_failure outstanding
    | Burying(raw: bool)         // send_to_dlq outstanding; raw: the recovery path's own fields
    | Buried                     // DLQ row written; XACK outstanding
    | SoftAcking                 // soft retry of a scheduled kind; XACK outstanding
    | Releasing(paid: bool)      // claim DEL outstanding; paid: this task's XACK removed the message
    | Ended

  /** What handlers did, for the theorems to speak about. */
  datatype History = History(started: set<Delivery>, committed: set<Key>, softAcked: set<Key>)

  datatype DlqRow = DlqRow(origin: Key, entry: Entry)
  datatype Operator = Operator(row: nat, appended: bool)

  datatype DeadLetters = DeadLetters(
    buried: map<nat, DlqRow>,            // every DLQ row ever written
    present: set<nat>,                   // those still in the DLQ
    operators: map<nat, Operator>,       // redrives under way
    copies: map<Key, nat>,               // redriven message -> DLQ row it copies
    evicted: set<nat>                    // rows removed by MAXLEN or by an operator's delete
  )

  datatype Trimmer = Trimmer(stream: Stream, cutoff: nat)

  datatype Trims = Trims(
    trimmers: map<nat, Trimmer>,         // passed the XPENDING check, XTRIM outstanding
    trimmed: set<Key>,                   // trimmed while undelivered
    lost: set<Key>                       // trimmed while pending
  )

  datatype Jobs = Jobs(
    rows: map<string, JobStatus>,        // the purge rows that exist
    known: set<string>,                  // every job id ever given out
    used: set<string>                    // those a producer has claimed for
  )

  datatype State = State(q: Queue, c: Claims, tasks: map<Delivery, Pc>, h: History,
                         dl: DeadLetters, t: Trims, j: Jobs)

  const INITIAL := State(Queue(0, map[], {}, map[]), Claims({}, map[], map[]), map[],
                         History({}, {}, {}), DeadLetters(map[], {}, map[], map[], {}),
                         Trims(map[], {}, {}), Jobs(map[], {}, {}))

  // ---- Steps -----------------------------------------------------------------------------

  datatype ProducerAct =
    | Claim(p: nat, stream: Stream, scope: string, job: string)
    | Append(p: nat, id: Id)
    | ProducerStops(p: nat)
    | AppendForeign(key: Key)            // a message no envelope class can read
    | ForceRelease(slot: Slot)
    | ClaimExpires(slot: Slot)
    | Tick(ms: nat)

  datatype TaskAct =
    | AckMalformed(acked: bool)
    | CheckRecovered(answered: bool)
    | StartHandler
    | LookUpRow
    | MarkRunning
    | FinishHandler(outcome: JobStatus)
    | HandlerFails
    | HandlerDenied
    | SoftRetry
    | ReadCount(answered: bool)
    | RecordFailure(persisted: bool)
    | WriteDlq(row: nat)
    | Ack(acked: bool)
    | Release
    | Die

  datatype OperatorAct =
    | OpenRow(op: nat, row: nat)
    | AppendCopy(op: nat, id: Id)
    | DeleteRow(op: nat)
    | OperatorStops(op: nat)
    | EvictRow(row: nat)

  datatype TrimAct =
    | CheckTrim(t: nat, stream: Stream, cutoff: nat)
    | Xtrim(t: nat, removed: set<Key>)
    | TrimmerStops(t: nat)

  datatype JobAct =
    | CreateJobRow(job: string)
    | CancelJobRow(job: string)
    | DropJobRow(job: string)
    | ResumeJobRow(job: string)          // the resume endpoint, which does not ask what kind of job it is

  datatype Step =
    | Produce(pa: ProducerAct)
    | Deliver(key: Key)
    | Reclaim(key: Key)
    | Work(d: Delivery, act: TaskAct)
    | Operate(oa: OperatorAct)
    | Trim(ta: TrimAct)
    | JobRow(ja: JobAct)

  function SlotOf(q: Queue, k: Key): Slot
    requires k in q.log
  {
    Slot(k.stream, q.log[k].scope)
  }

  function Early(c: Claims, slot: Slot): nat {
    if slot in c.early then c.early[slot] else 0
  }

  /** A claim key deleted without a message of its slot leaving the queue. */
  function FreedEarly(c: Claims, slot: Slot): Claims {
    c.(held := c.held - {slot}, early := c.early[slot := Early(c, slot) + 1])
  }

  /** XADD picks an id above every earlier one of the stream and not behind the server clock. */
  predicate Fresh(q: Queue, k: Key) {
    k.id.ms >= q.now && forall j :: j in q.log && j.stream == k.stream ==> Before(j.id, k.id)
  }

  function AddMessage(q: Queue, k: Key, e: Entry): Queue {
    q.(log := q.log[k := e], undelivered := q.undelivered + {k})
  }

  // ---- Producers -------------------------------------------------------------------------

  /** Each purge request makes a new row, and enqueues its id once. */
  predicate ProducerCan(s: State, a: ProducerAct) {
    match a
    case Claim(p, stream, scope, job) =>
      && p !in s.c.producers && Slot(stream, scope) !in s.c.held
      && (stream.Purge? ==> job in s.j.known && job !in s.j.used)
    case Append(p, id) => p in s.c.producers && Fresh(s.q, Key(s.c.producers[p].slot.stream, id))
    case ProducerStops(p) => p in s.c.producers
    case AppendForeign(key) => Fresh(s.q, key)
    case ForceRelease(_) => true
    case ClaimExpires(slot) => slot in s.c.held
    case Tick(_) => true
  }

  function ProducerQueue(s: State, a: ProducerAct): Queue
    requires ProducerCan(s, a)
  {
    match a
    case Append(p, id) => AddMessage(s.q, Key(s.c.producers[p].slot.stream, id), s.c.producers[p].entry)
    case AppendForeign(key) => AddMessage(s.q, key, Entry(false, "", "", 0, 0))
    case Tick(ms) => s.q.(now := s.q.now + ms)
    case _ => s.q
  }

  function ProducerClaims(s: State, a: ProducerAct): Claims
    requires ProducerCan(s, a)
  {
    match a
    case Claim(p, stream, scope, job) =>
      var slot := Slot(stream, scope);
      s.c.(held := s.c.held + {slot},
           producers := s.c.producers[p := Producer(slot, Entry(true, scope, job, 0, 0))])
    case Append(p, _) => s.c.(producers := s.c.producers - {p})
    case ProducerStops(p) => s.c.(producers := s.c.producers - {p})
    case ForceRelease(slot) => FreedEarly(s.c, slot)
    case ClaimExpires(slot) => FreedEarly(s.c, slot)
    case _ => s.c
  }

  function ProducerJobs(j: Jobs, a: ProducerAct): Jobs {
    if a.Claim? && a.stream.Purge? then j.(used := j.used + {a.job}) else j
  }

  // ---- Delivery --------------------------------------------------------------------------

  /** XREADGROUP hands out the oldest undelivered message of a stream. */
  predicate CanDeliver(s: State, key: Key) {
    key in s.q.undelivered && key in s.q.log
    && forall j :: j in s.q.undelivered && j.stream == key.stream && j != key ==> Before(key.id, j.id)
  }

  /** XAUTOCLAIM takes over a pending message and counts the delivery. */
  predicate CanReclaim(s: State, key: Key) {
    key in s.q.pel && key in s.q.log
  }

  function Delivered(s: State, key: Key): State
    requires CanDeliver(s, key)
  {
    s.(q := s.q.(undelivered := s.q.undelivered - {key}, pel := s.q.pel[key := 1]),
       tasks := s.tasks[Delivery(key, 1) := if s.q.log[key].parseable then Spawned else Malformed])
  }

  function Reclaimed(s: State, key: Key): State
    requires CanReclaim(s, key)
  {
    var n := s.q.pel[key] + 1;
    s.(q := s.q.(pel := s.q.pel[key := n]),
       tasks := s.tasks[Delivery(key, n) := if s.q.log[key].parseable then Recovered else Malformed])
  }

  // ---- Tasks -----------------------------------------------------------------------------

  predicate Settled(j: Jobs, job: string) {
    job !in j.rows || Terminal(j.rows[job])
  }

  predicate TaskCan(s: State, d: Delivery, a: TaskAct) {
    d in s.tasks && d.key in s.q.log
    && var pc := s.tasks[d]; var e := s.q.log[d.key];
    match a
    case AckMalformed(_) => pc.Malformed?
    case CheckRecovered(_) => pc.Recovered?
    case StartHandler => pc.Spawned?
    case LookUpRow => pc.Begun?
    case MarkRunning => pc.Working? && d.key.stream.Purge? && e.job in s.j.rows
    case FinishHandler(outcome) =>
      pc.Idle?
      || (pc.Working? && (d.key.stream.Purge? ==> e.job in s.j.rows && Terminal(outcome)))
    case HandlerFails => pc.Begun? || pc.Working? || pc.Idle?
    case HandlerDenied => pc.Working?
    case SoftRetry => pc.Denied?
    case ReadCount(_) => pc.Failing?
    case RecordFailure(_) => pc.Counted?
    case WriteDlq(row) => pc.Burying? && row !in s.dl.buried
    case Ack(_) => pc.Committed? || pc.Buried? || pc.SoftAcking?
    case Release => pc.Releasing?
    case Die => true
  }

  /** What XPENDING reports for one message, or 1 when it errors or lists nothing. */
  function CountSeen(q: Queue, k: Key, answered: bool): int {
    if answered && k in q.pel then q.pel[k] else 1
  }

  function PcAfter(cfg: Config, s: State, d: Delivery, a: TaskAct): Pc
    requires TaskCan(s, d, a)
  {
    match a
    case AckMalformed(_) => Ended
    case CheckRecovered(answered) =>
      if CountSeen(s.q, d.key, answered) >= cfg.maxAttempts then Burying(true) else Spawned
    case StartHandler => if d.key.stream.Purge? then Begun else Working
    case LookUpRow => if Settled(s.j, s.q.log[d.key].job) then Idle else Working
    case MarkRunning => Working
    case FinishHandler(_) => Committed
    case HandlerFails => Failing
    case HandlerDenied => Denied
    case SoftRetry => if d.key.stream.Purge? then Releasing(false) else SoftAcking
    case ReadCount(answered) => Counted(CountSeen(s.q, d.key, answered))
    case RecordFailure(_) =>
      if s.tasks[d].count >= cfg.maxAttempts then Burying(false) else Releasing(false)
    case WriteDlq(_) => Buried
    case Ack(acked) => Releasing(acked && d.key in s.q.pel)
    case Release => Ended
    case Die => Ended
  }

  function TasksAfter(cfg: Config, s: State, d: Delivery, a: TaskAct): map<Delivery, Pc>
    requires TaskCan(s, d, a)
  {
    var pc := PcAfter(cfg, s, d, a);
    if pc.Ended? then s.tasks - {d} else s.tasks[d := pc]
  }

  /** XACK removes the message from the pending entries list. */
  function TaskQueue(s: State, d: Delivery, a: TaskAct): Queue {
    if (a.Ack? || a.AckMalformed?) && a.acked then s.q.(pel := s.q.pel - {d.key}) else s.q
  }

  function TaskClaims(s: State, d: Delivery, a: TaskAct): Claims
    requires TaskCan(s, d, a)
  {
    if !a.Release? then s.c
    else
      var slot := SlotOf(s.q, d.key);
      if s.tasks[d].paid then s.c.(held := s.c.held - {slot}) else FreedEarly(s.c, slot)
  }

  function TaskHistory(s: State, d: Delivery, a: TaskAct): History
    requires TaskCan(s, d, a)
  {
    match a
    case StartHandler => s.h.(started := s.h.started + {d})
    case FinishHandler(_) => s.h.(committed := s.h.committed + {d.key})
    case Ack(_) =>
      if s.tasks[d].SoftAcking? then s.h.(softAcked := s.h.softAcked + {d.key}) else s.h
    case _ => s.h
  }

  /** The recovery path copies the message's own fields; the in-handler path rebuilds them from
      the envelope, which has no `redrive_count`. */
  function TaskDlq(s: State, d: Delivery, a: TaskAct): DeadLetters
    requires TaskCan(s, d, a)
  {
    if !a.WriteDlq? then s.dl
    else
      var e := s.q.log[d.key];
      s.dl.(buried := s.dl.buried[a.row := DlqRow(d.key, if s.tasks[d].raw then e else e.(redrives := 0))],
            present := s.dl.present + {a.row})
  }

  /** The purge handler's row updates; `record_failure` runs on every failure. */
  function TaskJobs(s: State, d: Delivery, a: TaskAct): Jobs
    requires TaskCan(s, d, a)
  {
    var job := s.q.log[d.key].job;
    if !d.key.stream.Purge? || job !in s.j.rows then s.j
    else match a
      case MarkRunning => s.j.(rows := s.j.rows[job := JobRunning])
      case FinishHandler(outcome) =>
        if s.tasks[d].Working? then s.j.(rows := s.j.rows[job := outcome]) else s.j
      case RecordFailure(persisted) =>
        if persisted then s.j.(rows := s.j.rows[job := JobFailed]) else s.j
      case _ => s.j
  }

  // ---- Operators -------------------------------------------------------------------------

  /** A redriven message carries the counter on, and is one hop further down its lineage. */
  function CopyOf(e: Entry): Entry {
    e.(redrives := e.redrives + 1, hops := e.hops + 1)
  }

  predicate OperatorCan(cfg: Config, s: State, a: OperatorAct) {
    match a
    case OpenRow(op, row) =>
      op !in s.dl.operators && row in s.dl.present && row in s.dl.buried
      && s.dl.buried[row].entry.redrives < cfg.redriveLimit
    case AppendCopy(op, id) =>
      op in s.dl.operators && !s.dl.operators[op].appended && s.dl.operators[op].row in s.dl.buried
      && Fresh(s.q, Key(s.dl.buried[s.dl.operators[op].row].origin.stream, id))
    case DeleteRow(op) => op in s.dl.operators && s.dl.operators[op].appended
    case OperatorStops(op) => op in s.dl.operators
    case EvictRow(row) => row in s.dl.present
  }

  function CopyKey(cfg: Config, s: State, a: OperatorAct): Key
    requires a.AppendCopy? && OperatorCan(cfg, s, a)
  {
    Key(s.dl.buried[s.dl.operators[a.op].row].origin.stream, a.id)
  }

  function OperatorQueue(cfg: Config, s: State, a: OperatorAct): Queue
    requires OperatorCan(cfg, s, a)
  {
    if a.AppendCopy?
    then AddMessage(s.q, CopyKey(cfg, s, a), CopyOf(s.dl.buried[s.dl.operators[a.op].row].entry))
    else s.q
  }

  /** Redriving puts a message into the stream with no claim taken for it. */
  function OperatorClaims(cfg: Config, s: State, a: OperatorAct): Claims
    requires OperatorCan(cfg, s, a)
  {
    if a.AppendCopy? then
      var slot := Slot(CopyKey(cfg, s, a).stream, s.dl.buried[s.dl.operators[a.op].row].entry.scope);
      s.c.(early := s.c.early[slot := Early(s.c, slot) + 1])
    else s.c
  }

  function OperatorDlq(cfg: Config, s: State, a: OperatorAct): DeadLetters
    requires OperatorCan(cfg, s, a)
  {
    var dl := s.dl;
    match a
    case OpenRow(op, row) => dl.(operators := dl.operators[op := Operator(row, false)])
    case AppendCopy(op, id) =>
      var row := dl.operators[op].row;
      dl.(operators := dl.operators[op := Operator(row, true)], copies := dl.copies[CopyKey(cfg, s, a) := row])
    case DeleteRow(op) =>
      dl.(present := dl.present - {dl.operators[op].row}, operators := dl.operators - {op})
    case OperatorStops(op) => dl.(operators := dl.operators - {op})
    case EvictRow(row) => dl.(present := dl.present - {row}, evicted := dl.evicted + {row})
  }

  // ---- Trimming --------------------------------------------------------------------------

  /** XPENDING min passes the trimmer's check: no pending entry of the stream is below the cutoff. */
  predicate PendingFrom(q: Queue, stream: Stream, cutoff: nat) {
    forall k :: k in q.pel && k.stream == stream ==> cutoff <= k.id.ms
  }

  predicate TrimCan(s: State, a: TrimAct) {
    match a
    case CheckTrim(t, stream, cutoff) => t !in s.t.trimmers && PendingFrom(s.q, stream, cutoff)
    case Xtrim(t, removed) =>
      t in s.t.trimmers
      && forall k :: k in removed ==>
           k in s.q.log && k.stream == s.t.trimmers[t].stream && k.id.ms < s.t.trimmers[t].cutoff
    case TrimmerStops(t) => t in s.t.trimmers
  }

  /** An approximate XTRIM removes some of the entries below the cutoff. */
  function TrimQueue(s: State, a: TrimAct): Queue {
    if a.Xtrim?
    then s.q.(undelivered := s.q.undelivered - a.removed, pel := s.q.pel - a.removed)
    else s.q
  }

  function TrimsAfter(s: State, a: TrimAct): Trims {
    match a
    case CheckTrim(t, stream, cutoff) => s.t.(trimmers := s.t.trimmers[t := Trimmer(stream, cutoff)])
    case Xtrim(t, removed) =>
      s.t.(trimmers := s.t.trimmers - {t}, trimmed := s.t.trimmed + removed * s.q.undelivered,
           lost := s.t.lost + removed * s.q.pel.Keys)
    case TrimmerStops(t) => s.t.(trimmers := s.t.trimmers - {t})
  }

  // ---- Job rows --------------------------------------------------------------------------

  predicate JobCan(s: State, a: JobAct) {
    match a
    case CreateJobRow(job) => job !in s.j.known
    case CancelJobRow(job) => job in s.j.rows
    case DropJobRow(job) => job in s.j.rows
    case ResumeJobRow(job) => job in s.j.rows && (s.j.rows[job].JobFailed? || s.j.rows[job].JobCancelled?)
  }

  function JobsAfter(j: Jobs, a: JobAct): Jobs {
    match a
    case CreateJobRow(job) => j.(rows := j.rows[job := JobPending], known := j.known + {job})
    case CancelJobRow(job) => j.(rows := j.rows[job := JobCancelled])
    case DropJobRow(job) => j.(rows := j.rows - {job})
    case ResumeJobRow(job) => j.(rows := j.rows[job := JobPending])
  }

  // ---- One step --------------------------------------------------------------------------

  predicate Enabled(cfg: Config, s: State, step: Step) {
    match step
    case Produce(a) => ProducerCan(s, a)
    case Deliver(key) => CanDeliver(s, key)
    case Reclaim(key) => CanReclaim(s, key)
    case Work(d, a) => TaskCan(s, d, a)
    case Operate(a) => OperatorCan(cfg, s, a)
    case Trim(a) => TrimCan(s, a)
    case JobRow(a) => JobCan(s, a)
  }

  function Next(cfg: Config, s: State, step: Step): State
    requires Enabled(cfg, s, step)
  {
    match step
    case Produce(a) => s.(q := ProducerQueue(s, a), c := ProducerClaims(s, a), j := ProducerJobs(s.j, a))
    case Deliver(key) => Delivered(s, key)
    case Reclaim(key) => Reclaimed(s, key)
    case Work(d, a) =>
      State(TaskQueue(s, d, a), TaskClaims(s, d, a), TasksAfter(cfg, s, d, a), TaskHistory(s, d, a),
            TaskDlq(s, d, a), s.t, TaskJobs(s, d, a))
    case Operate(a) =>
      s.(q := OperatorQueue(cfg, s, a), c := OperatorClaims(cfg, s, a), dl := OperatorDlq(cfg, s, a))
    case Trim(a) => s.(q := TrimQueue(s, a), t := TrimsAfter(s, a))
    case JobRow(a) => s.(j := JobsAfter(s.j, a))
  }

  // ---- Assumptions about a run -----------------------------------------------------------

  /** Which environment assumptions a theorem makes; each is a condition on single steps. */
  datatype Regime = Regime(
    answers: bool,      // every XPENDING lookup of a message is answered and finds it
    apart: bool,        // no message is redelivered while a task of an earlier delivery lives
    jobsApart: bool,    // no purge job is delivered while another delivery of the job lives
    trimSafe: bool,     // the trim check sees no undelivered entry, and no server time, below its cutoff
    noResume: bool      // no failed or cancelled purge row is put back to pending
  )

  const ANY := Regime(false, false, false, false, false)

  predicate Answers(s: State, step: Step) {
    step.Work? && (step.act.CheckRecovered? || step.act.ReadCount?)
    ==> step.act.answered && step.d.key in s.q.pel
  }

  predicate Apart(s: State, step: Step) {
    step.Reclaim? ==> forall d :: d in s.tasks ==> d.key != step.key
  }

  predicate SameJob(q: Queue, a: Key, b: Key) {
    a in q.log && b in q.log && a.stream.Purge? && b.stream.Purge?
    && q.log[a].parseable && q.log[b].parseable && q.log[a].job == q.log[b].job
  }

  predicate JobsApart(s: State, step: Step) {
    (step.Reclaim? || step.Deliver?) ==> forall d :: d in s.tasks ==> !SameJob(s.q, d.key, step.key)
  }

  /** No undelivered entry of the stream is below the cutoff. */
  predicate UndeliveredFrom(q: Queue, stream: Stream, cutoff: nat) {
    forall k :: k in q.undelivered && k.stream == stream ==> cutoff <= k.id.ms
  }

  predicate TrimSafe(s: State, step: Step) {
    step.Trim? && step.ta.CheckTrim? ==>
      step.ta.cutoff <= s.q.now && UndeliveredFrom(s.q, step.ta.stream, step.ta.cutoff)
  }

  predicate Allowed(r: Regime, s: State, step: Step) {
    && (r.answers ==> Answers(s, step))
    && (r.apart ==> Apart(s, step))
    && (r.jobsApart ==> JobsApart(s, step))
    && (r.trimSafe ==> TrimSafe(s, step))
    && (r.noResume ==> !(step.JobRow? && step.ja.ResumeJobRow?))
  }

  // ---- Runs ------------------------------------------------------------------------------

  predicate Run(cfg: Config, r: Regime, s: State, steps: seq<Step>)
    decreases steps
  {
    steps == []
    || (Enabled(cfg, s, steps[0]) && Allowed(r, s, steps[0])
        && Run(cfg, r, Next(cfg, s, steps[0]), steps[1..]))
  }

  /** The state that a run leads to. */
  function After(cfg: Config, r: Regime, s: State, steps: seq<Step>): State
    requires Run(cfg, r, s, steps)
    decreases steps
  {
    if steps == [] then s else After(cfg, r, Next(cfg, s, steps[0]), steps[1..])
  }

  lemma {:induction false} RunsCompose(cfg: Config, r: Regime, s: State, a: seq<Step>, b: seq<Step>)
    requires Run(cfg, r, s, a) && Run(cfg, r, After(cfg, r, s, a), b)
    ensures Run(cfg, r, s, a + b)
    ensures After(cfg, r, s, a + b) == After(cfg, r, After(cfg, r, s, a), b)
    decreases a
  {
    if a == [] {
      assert a + b == b;
    } else {
      assert (a + b)[1..] == a[1..] + b;
      RunsCompose(cfg, r, Next(cfg, s, a[0]), a[1..], b);
    }
  }

  ghost predicate Leads(cfg: Config, r: Regime, steps: seq<Step>, s: State) {
    Run(cfg, r, INITIAL, steps) && After(cfg, r, INITIAL, steps) == s
  }

  lemma NoSteps(cfg: Config, r: Regime)
    ensures Leads(cfg, r, [], INITIAL)
  {
  }

  lemma Extend(cfg: Config, r: Regime, steps: seq<Step>, s: State, step: Step)
    requires Leads(cfg, r, steps, s) && Enabled(cfg, s, step) && Allowed(r, s, step)
    ensures Leads(cfg, r, steps + [step], Next(cfg, s, step))
  {
    assert [step][1..] == [];
    assert Run(cfg, r, Next(cfg, s, step), []);
    assert Run(cfg, r, s, [step]);
    RunsCompose(cfg, r, INITIAL, steps, [step]);
  }

  lemma Then(cfg: Config, r: Regime, steps: seq<Step>, s: State, step: Step)
    returns (steps': seq<Step>, s': State)
    requires Leads(cfg, r, steps, s) && Enabled(cfg, s, step) && Allowed(r, s, step)
    ensures Leads(cfg, r, steps', s') && s' == Next(cfg, s, step) && steps' == steps + [step]
  {
    steps', s' := steps + [step], Next(cfg, s, step);
    Extend(cfg, r, steps, s, step);
  }

  /** One step of the only task there is. */
  lemma Alone(cfg: Config, r: Regime, steps: seq<Step>, s: State, d: Delivery, pc: Pc, a: TaskAct)
    returns (steps': seq<Step>, s': State)
    requires Leads(cfg, r, steps, s) && s.tasks == map[d := pc]
    requires TaskCan(s, d, a) && (r.answers ==> Answers(s, Work(d, a)))
    ensures Leads(cfg, r, steps', s') && steps' == steps + [Work(d, a)]
    ensures var pc' := PcAfter(cfg, s, d, a); s'.tasks == if pc'.Ended? then map[] else map[d := pc']
    ensures s'.q == TaskQueue(s, d, a) && s'.c == TaskClaims(s, d, a) && s'.dl == TaskDlq(s, d, a)
  {
    steps', s' := Then(cfg, r, steps, s, Work(d, a));
  }

  // ---- What every reachable state looks like ---------------------------------------------

  predicate MessageShape(q: Queue) {
    q.undelivered <= q.log.Keys && q.pel.Keys <= q.log.Keys && q.undelivered !! q.pel.Keys
  }

  predicate TaskShape(q: Queue, d: Delivery) {
    d.key in q.log && d.key !in q.undelivered && d.n >= 1 && (d.key in q.pel ==> d.n <= q.pel[d.key])
  }

  predicate TasksShape(q: Queue, tasks: map<Delivery, Pc>) {
    forall d :: d in tasks ==>
      TaskShape(q, d) && !tasks[d].Ended? && (tasks[d].Malformed? <==> !q.log[d.key].parseable)
  }

  predicate StartedShape(q: Queue, h: History) {
    forall d :: d in h.started ==> TaskShape(q, d)
  }

  predicate ProducersShape(c: Claims) {
    forall p :: p in c.producers ==>
      c.producers[p].entry.parseable && c.producers[p].entry.scope == c.producers[p].slot.scope
  }

  predicate RowShape(q: Queue, row: DlqRow) {
    row.origin in q.log && q.log[row.origin].parseable
    && row.entry == q.log[row.origin].(redrives := row.entry.redrives)
  }

  predicate DlqShape(q: Queue, dl: DeadLetters) {
    && (forall row :: row in dl.buried ==> RowShape(q, dl.buried[row]))
    && dl.present <= dl.buried.Keys
    && (forall op :: op in dl.operators ==> dl.operators[op].row in dl.buried)
  }

  predicate LostShape(q: Queue, t: Trims) {
    t.lost <= q.log.Keys && t.lost !! q.undelivered
  }

  predicate Shape(s: State) {
    MessageShape(s.q) && TasksShape(s.q, s.tasks) && StartedShape(s.q, s.h) && ProducersShape(s.c)
    && DlqShape(s.q, s.dl) && LostShape(s.q, s.t)
  }

  /** How the queue may change: the log only grows, a message is delivered once, delivery counts
      only rise, and what has left the pending list never comes back to it. */
  predicate Grows(q: Queue, q': Queue) {
    && q.now <= q'.now
    && (forall k :: k in q.log ==> k in q'.log && q'.log[k] == q.log[k])
    && (forall k :: k in q'.undelivered ==> k in q.undelivered || k !in q.log)
    && (forall k :: k in q'.pel ==> if k in q.pel then q.pel[k] <= q'.pel[k] else k in q.undelivered)
  }

  lemma AddGrows(q: Queue, k: Key, e: Entry)
    requires MessageShape(q) && Fresh(q, k)
    ensures Grows(q, AddMessage(q, k, e)) && MessageShape(AddMessage(q, k, e))
  {
    assert k !in q.log;
  }

  lemma TaskQueueGrows(s: State, d: Delivery, a: TaskAct)
    requires MessageShape(s.q)
    ensures Grows(s.q, TaskQueue(s, d, a)) && MessageShape(TaskQueue(s, d, a))
  {
  }

  lemma QueueStep(cfg: Config, s: State, step: Step)
    requires MessageShape(s.q) && Enabled(cfg, s, step)
    ensures Grows(s.q, Next(cfg, s, step).q) && MessageShape(Next(cfg, s, step).q)
  {
    match step
    case Produce(a) =>
      if a.Append? {
        AddGrows(s.q, Key(s.c.producers[a.p].slot.stream, a.id), s.c.producers[a.p].entry);
      } else if a.AppendForeign? {
        AddGrows(s.q, a.key, Entry(false, "", "", 0, 0));
      }
    case Operate(a) =>
      if a.AppendCopy? {
        AddGrows(s.q, CopyKey(cfg, s, a), CopyOf(s.dl.buried[s.dl.operators[a.op].row].entry));
      }
    case Work(d, a) => TaskQueueGrows(s, d, a);
    case _ =>
  }

  lemma TaskShapeKept(q: Queue, q': Queue, d: Delivery)
    requires MessageShape(q) && Grows(q, q') && TaskShape(q, d)
    ensures TaskShape(q', d)
  {
  }

  lemma PcAfterShape(cfg: Config, s: State, d: Delivery, a: TaskAct)
    requires TaskCan(s, d, a)
    ensures !PcAfter(cfg, s, d, a).Malformed?
    ensures s.tasks[d].Malformed? ==> PcAfter(cfg, s, d, a).Ended?
  {
  }

  lemma WorkTasksStep(cfg: Config, s: State, d: Delivery, a: TaskAct, q': Queue)
    requires Shape(s) && TaskCan(s, d, a) && Grows(s.q, q')
    ensures TasksShape(q', TasksAfter(cfg, s, d, a))
  {
    PcAfterShape(cfg, s, d, a);
    forall x | x in s.tasks ensures TaskShape(q', x) { TaskShapeKept(s.q, q', x); }
  }

  lemma TasksStep(cfg: Config, s: State, step: Step)
    requires Shape(s) && Enabled(cfg, s, step)
    ensures TasksShape(Next(cfg, s, step).q, Next(cfg, s, step).tasks)
  {
    QueueStep(cfg, s, step);
    var s' := Next(cfg, s, step);
    if step.Work? {
      WorkTasksStep(cfg, s, step.d, step.act, s'.q);
    } else {
      forall d | d in s.tasks ensures TaskShape(s'.q, d) { TaskShapeKept(s.q, s'.q, d); }
    }
  }

  lemma StartedStep(cfg: Config, s: State, step: Step)
    requires Shape(s) && Enabled(cfg, s, step)
    ensures StartedShape(Next(cfg, s, step).q, Next(cfg, s, step).h)
  {
    QueueStep(cfg, s, step);
    var s' := Next(cfg, s, step);
    forall d | TaskShape(s.q, d) ensures TaskShape(s'.q, d) { TaskShapeKept(s.q, s'.q, d); }
  }

  lemma DlqStep(cfg: Config, s: State, step: Step)
    requires Shape(s) && Enabled(cfg, s, step)
    ensures DlqShape(Next(cfg, s, step).q, Next(cfg, s, step).dl)
  {
    QueueStep(cfg, s, step);
    var s' := Next(cfg, s, step);
    assert forall row :: RowShape(s.q, row) ==> RowShape(s'.q, row);
    match step
    case Work(d, a) =>
    case Operate(a) =>
    case _ =>
  }

  lemma LostStep(cfg: Config, s: State, step: Step)
    requires Shape(s) && Enabled(cfg, s, step)
    ensures LostShape(Next(cfg, s, step).q, Next(cfg, s, step).t)
  {
    QueueStep(cfg, s, step);
  }

  lemma ShapeStep(cfg: Config, s: State, step: Step)
    requires Shape(s) && Enabled(cfg, s, step)
    ensures Shape(Next(cfg, s, step))
  {
    QueueStep(cfg, s, step);
    TasksStep(cfg, s, step);
    StartedStep(cfg, s, step);
    DlqStep(cfg, s, step);
    LostStep(cfg, s, step);
  }

  lemma {:induction false} ShapeAlways(cfg: Config, r: Regime, s: State, steps: seq<Step>)
    requires Shape(s) && Run(cfg, r, s, steps)
    ensures Shape(After(cfg, r, s, steps))
    decreases steps
  {
    if steps != [] {
      ShapeStep(cfg, s, steps[0]);
      ShapeAlways(cfg, r, Next(cfg, s, steps[0]), steps[1..]);
    }
  }
}
