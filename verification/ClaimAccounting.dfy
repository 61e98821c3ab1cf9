/** How many jobs of one (kind, scope) can be in the system at once.

    A slot is held by its free claim, by producers that have claimed it and not yet XADDed, by
    live messages (undelivered or pending), and by tasks whose XACK removed a message and that
    have yet to delete the claim. */
module ClaimAccounting {
  import opened Basics
  import opened Streams
  import opened JobProtocol

  datatype Holder =
    | FreeClaim
    | Producing(p: nat)
    | Message(k: Key)
    | PaidRelease(d: Delivery)

  predicate LiveIn(q: Queue, slot: Slot, k: Key) {
    (k in q.undelivered || k in q.pel) && k in q.log && q.log[k].parseable && SlotOf(q, k) == slot
  }

  predicate Holds(s: State, slot: Slot, x: Holder) {
    match x
    case FreeClaim => slot !in s.c.held
    case Producing(p) => p in s.c.producers && s.c.producers[p].slot == slot
    case Message(k) => LiveIn(s.q, slot, k)
    case PaidRelease(d) =>
      d in s.tasks && s.tasks[d] == Releasing(true) && d.key in s.q.log && SlotOf(s.q, d.key) == slot
  }

  function Holders(s: State, slot: Slot): set<Holder> {
    (if slot !in s.c.held then {FreeClaim} else {})
    + (set p | p in s.c.producers && s.c.producers[p].slot == slot :: Producing(p))
    + (set k | k in s.q.undelivered + s.q.pel.Keys && LiveIn(s.q, slot, k) :: Message(k))
    + (set d | d in s.tasks && Holds(s, slot, PaidRelease(d)) :: PaidRelease(d))
  }

  lemma HoldersAre(s: State, slot: Slot, x: Holder)
    ensures x in Holders(s, slot) <==> Holds(s, slot, x)
  {
  }

  datatype Change = Same | Gain(x: Holder) | Swap(x: Holder, y: Holder)

  /** `s'` holds the slot in no new way, in the new way `x`, or in the new way `x` instead of `y`. */
  ghost predicate Changes(s: State, s': State, slot: Slot, c: Change) {
    match c
    case Same => forall h :: Holds(s', slot, h) ==> Holds(s, slot, h)
    case Gain(x) => forall h :: Holds(s', slot, h) ==> Holds(s, slot, h) || h == x
    case Swap(x, y) =>
      Holds(s, slot, y)
      && forall h :: Holds(s', slot, h) ==> (Holds(s, slot, h) && h != y) || h == x
  }

  lemma CountChange(s: State, s': State, slot: Slot, c: Change)
    requires Changes(s, s', slot, c)
    ensures |Holders(s', slot)| <= |Holders(s, slot)| + (if c.Gain? then 1 else 0)
  {
    var h, h' := Holders(s, slot), Holders(s', slot);
    if c.Swap? {
      HoldersAre(s, slot, c.y);
    }
    forall x | x in h' ensures x in Changed(h, c) {
      HoldersAre(s, slot, x);
      HoldersAre(s', slot, x);
    }
    CountSets(h, h', c);
  }

  function Changed(h: set<Holder>, c: Change): set<Holder> {
    match c
    case Same => h
    case Gain(x) => h + {x}
    case Swap(x, y) => h - {y} + {x}
  }

  lemma CountSets(h: set<Holder>, h': set<Holder>, c: Change)
    requires h' <= Changed(h, c) && (c.Swap? ==> c.y in h)
    ensures |h'| <= |h| + (if c.Gain? then 1 else 0)
  {
    SubsetSize(h', Changed(h, c));
  }

  function ProducerChange(s: State, slot: Slot, a: ProducerAct): Change
    requires ProducerCan(s, a)
  {
    match a
    case Claim(p, stream, scope, _) => if slot == Slot(stream, scope) then Swap(Producing(p), FreeClaim) else Same
    case Append(p, id) =>
      if slot == s.c.producers[p].slot then Swap(Message(Key(slot.stream, id)), Producing(p)) else Same
    case ForceRelease(x) => if slot == x then Gain(FreeClaim) else Same
    case ClaimExpires(x) => if slot == x then Gain(FreeClaim) else Same
    case _ => Same
  }

  function TaskChange(s: State, slot: Slot, d: Delivery, a: TaskAct): Change
    requires TaskCan(s, d, a)
  {
    if slot != SlotOf(s.q, d.key) then Same
    else match a
      case Ack(acked) => if acked && d.key in s.q.pel then Swap(PaidRelease(d), Message(d.key)) else Same
      case Release => if s.tasks[d].paid then Swap(FreeClaim, PaidRelease(d)) else Gain(FreeClaim)
      case _ => Same
  }

  function OperatorChange(cfg: Config, s: State, slot: Slot, a: OperatorAct): Change
    requires OperatorCan(cfg, s, a)
  {
    if a.AppendCopy?
       && slot == Slot(CopyKey(cfg, s, a).stream, s.dl.buried[s.dl.operators[a.op].row].entry.scope)
    then Gain(Message(CopyKey(cfg, s, a)))
    else Same
  }

  /** An early release, a forced one, an expiry and a redrive are the only steps by which a slot
      can gain a holder without losing one, and each of them is counted. */
  lemma ProducerAccounted(cfg: Config, s: State, slot: Slot, a: ProducerAct)
    requires Shape(s) && ProducerCan(s, a)
    ensures var s' := Next(cfg, s, Produce(a)); var c := ProducerChange(s, slot, a);
      Changes(s, s', slot, c) && Early(s'.c, slot) == Early(s.c, slot) + (if c.Gain? then 1 else 0)
  {
  }

  lemma TaskAccounted(cfg: Config, s: State, slot: Slot, d: Delivery, a: TaskAct)
    requires Shape(s) && TaskCan(s, d, a)
    ensures var s' := Next(cfg, s, Work(d, a)); var c := TaskChange(s, slot, d, a);
      Changes(s, s', slot, c) && Early(s'.c, slot) == Early(s.c, slot) + (if c.Gain? then 1 else 0)
  {
    PcAfterShape(cfg, s, d, a);
  }

  lemma OperatorAccounted(cfg: Config, s: State, slot: Slot, a: OperatorAct)
    requires Shape(s) && OperatorCan(cfg, s, a)
    ensures var s' := Next(cfg, s, Operate(a)); var c := OperatorChange(cfg, s, slot, a);
      Changes(s, s', slot, c) && Early(s'.c, slot) == Early(s.c, slot) + (if c.Gain? then 1 else 0)
  {
  }

  lemma RestAccounted(cfg: Config, s: State, slot: Slot, step: Step)
    requires Shape(s) && Enabled(cfg, s, step) && !step.Produce? && !step.Work? && !step.Operate?
    ensures var s' := Next(cfg, s, step); Changes(s, s', slot, Same) && s'.c == s.c
  {
  }

  lemma StepChange(cfg: Config, s: State, step: Step, slot: Slot) returns (c: Change)
    requires Shape(s) && Enabled(cfg, s, step)
    ensures var s' := Next(cfg, s, step);
      Changes(s, s', slot, c) && Early(s'.c, slot) == Early(s.c, slot) + (if c.Gain? then 1 else 0)
  {
    match step
    case Produce(a) =>
      ProducerAccounted(cfg, s, slot, a);
      c := ProducerChange(s, slot, a);
    case Work(d, a) =>
      TaskAccounted(cfg, s, slot, d, a);
      c := TaskChange(s, slot, d, a);
    case Operate(a) =>
      OperatorAccounted(cfg, s, slot, a);
      c := OperatorChange(cfg, s, slot, a);
    case _ =>
      RestAccounted(cfg, s, slot, step);
      c := Same;
  }

  lemma AccountedStep(cfg: Config, s: State, step: Step, slot: Slot)
    requires Shape(s) && Enabled(cfg, s, step)
    requires |Holders(s, slot)| <= 1 + Early(s.c, slot)
    ensures var s' := Next(cfg, s, step); |Holders(s', slot)| <= 1 + Early(s'.c, slot)
  {
    var c := StepChange(cfg, s, step, slot);
    CountChange(s, Next(cfg, s, step), slot, c);
  }

  lemma {:induction false} AccountedAlways(cfg: Config, r: Regime, s: State, steps: seq<Step>, slot: Slot)
    requires Shape(s) && Run(cfg, r, s, steps)
    requires |Holders(s, slot)| <= 1 + Early(s.c, slot)
    ensures var e := After(cfg, r, s, steps); |Holders(e, slot)| <= 1 + Early(e.c, slot)
    decreases steps
  {
    if steps != [] {
      ShapeStep(cfg, s, steps[0]);
      AccountedStep(cfg, s, steps[0], slot);
      AccountedAlways(cfg, r, Next(cfg, s, steps[0]), steps[1..], slot);
    }
  }

  /** In every reachable state, whatever crashed, expired, was redriven or ran twice. */
  lemma ClaimsAccountForJobs(cfg: Config, r: Regime, steps: seq<Step>, slot: Slot)
    requires Run(cfg, r, INITIAL, steps)
    ensures var s := After(cfg, r, INITIAL, steps); |Holders(s, slot)| <= 1 + Early(s.c, slot)
  {
    assert Holders(INITIAL, slot) == {FreeClaim};
    AccountedAlways(cfg, r, INITIAL, steps, slot);
  }

  /** With no early release of the slot so far, its producers, its live messages, its paid releases
      and its free claim are one thing at most: no two jobs of one scope are ever live together. */
  lemma AtMostOneJobPerScope(cfg: Config, r: Regime, steps: seq<Step>, slot: Slot, x: Holder, y: Holder)
    requires Run(cfg, r, INITIAL, steps)
    requires var s := After(cfg, r, INITIAL, steps);
      Early(s.c, slot) == 0 && Holds(s, slot, x) && Holds(s, slot, y)
    ensures x == y
  {
    var s := After(cfg, r, INITIAL, steps);
    ClaimsAccountForJobs(cfg, r, steps, slot);
    HoldersAre(s, slot, x);
    HoldersAre(s, slot, y);
    if x != y {
      SubsetSize({x, y}, Holders(s, slot));
    }
  }

  /** The steps that count as early: a claim key deleted or expired, or a message redriven, with no
      message of the slot acknowledged for it. */
  predicate EarlyStep(cfg: Config, s: State, step: Step, slot: Slot)
    requires Enabled(cfg, s, step)
  {
    match step
    case Produce(a) => (a.ForceRelease? || a.ClaimExpires?) && a.slot == slot
    case Work(d, a) => a.Release? && !s.tasks[d].paid && SlotOf(s.q, d.key) == slot
    case Operate(a) =>
      a.AppendCopy?
      && slot == Slot(CopyKey(cfg, s, a).stream, s.dl.buried[s.dl.operators[a.op].row].entry.scope)
    case _ => false
  }

  lemma EarlyCounts(cfg: Config, s: State, step: Step, slot: Slot)
    requires Enabled(cfg, s, step)
    ensures Early(Next(cfg, s, step).c, slot)
            == Early(s.c, slot) + (if EarlyStep(cfg, s, step, slot) then 1 else 0)
  {
  }

  /** The steps that delete a claim key, early or not. */
  predicate Frees(s: State, step: Step, slot: Slot) {
    match step
    case Produce(a) => (a.ForceRelease? || a.ClaimExpires?) && a.slot == slot
    case Work(d, a) => a.Release? && d.key in s.q.log && SlotOf(s.q, d.key) == slot
    case _ => false
  }

  predicate Takes(step: Step, slot: Slot) {
    step.Produce? && step.pa.Claim? && Slot(step.pa.stream, step.pa.scope) == slot
  }

  lemma HeldStep(cfg: Config, s: State, step: Step, slot: Slot)
    requires Enabled(cfg, s, step)
    ensures slot in Next(cfg, s, step).c.held
            <==> Takes(step, slot) || (slot in s.c.held && !Frees(s, step, slot))
    ensures Takes(step, slot) ==> slot !in s.c.held
  {
  }

  /** What the last step of a run about the slot's claim did to it. */
  predicate HeldAfter(cfg: Config, r: Regime, s: State, steps: seq<Step>, slot: Slot, held: bool)
    requires Run(cfg, r, s, steps)
    decreases steps
  {
    if steps == [] then held
    else
      HeldAfter(cfg, r, Next(cfg, s, steps[0]), steps[1..], slot,
                Takes(steps[0], slot) || (held && !Frees(s, steps[0], slot)))
  }

  /** A slot is held exactly when it has been claimed and no forced release, expiry or release by a
      task of the slot came since. */
  lemma {:induction false} HeldExactly(cfg: Config, r: Regime, s: State, steps: seq<Step>, slot: Slot)
    requires Run(cfg, r, s, steps)
    ensures slot in After(cfg, r, s, steps).c.held <==> HeldAfter(cfg, r, s, steps, slot, slot in s.c.held)
    decreases steps
  {
    if steps != [] {
      HeldStep(cfg, s, steps[0], slot);
      HeldExactly(cfg, r, Next(cfg, s, steps[0]), steps[1..], slot);
    }
  }

  /** A forced enqueue gets through whoever holds the claim: released, claimed anew, and the message
      is waiting in the stream with the slot held again. */
  lemma ForcedJobGetsThrough(cfg: Config, r: Regime, s: State, p: nat, slot: Slot, job: string, id: Id)
    requires p !in s.c.producers && Fresh(s.q, Key(slot.stream, id))
    requires slot.stream.Purge? ==> job in s.j.known && job !in s.j.used
    ensures var steps := [Produce(ForceRelease(slot)), Produce(Claim(p, slot.stream, slot.scope, job)),
                          Produce(Append(p, id))];
      Run(cfg, r, s, steps)
      && var e := After(cfg, r, s, steps); var k := Key(slot.stream, id);
         && k in e.q.undelivered && k in e.q.log && e.q.log[k] == Entry(true, slot.scope, job, 0, 0)
         && slot in e.c.held && Early(e.c, slot) == Early(s.c, slot) + 1
  {
    var force, claim, add := Produce(ForceRelease(slot)), Produce(Claim(p, slot.stream, slot.scope, job)),
                             Produce(Append(p, id));
    var s1 := Next(cfg, s, force);
    var s2 := Next(cfg, s1, claim);
    var s3 := Next(cfg, s2, add);
    assert Run(cfg, r, s3, []) && After(cfg, r, s3, []) == s3;
    assert [add][1..] == [] && Run(cfg, r, s2, [add]) && After(cfg, r, s2, [add]) == s3;
    assert [claim, add][1..] == [add] && Run(cfg, r, s1, [claim, add]) && After(cfg, r, s1, [claim, add]) == s3;
    assert [force, claim, add][1..] == [claim, add];
  }

  // ---- When one live job per scope is all there ever is ----------------------------------------

  /** No claim is forced, expires or is bypassed by a redrive, and no XACK fails. */
  predicate Ordinary(step: Step) {
    match step
    case Produce(a) => !a.ForceRelease? && !a.ClaimExpires?
    case Operate(a) => !a.AppendCopy?
    case Work(_, a) => a.Ack? ==> a.acked
    case _ => true
  }

  ghost predicate AllOrdinary(steps: seq<Step>) {
    forall step <- steps :: Ordinary(step)
  }

  /** Two live messages of the slot are the same one. */
  ghost predicate OneLive(s: State, slot: Slot) {
    forall j, k :: LiveIn(s.q, slot, j) && LiveIn(s.q, slot, k) ==> j == k
  }

  predicate OnePerMessage(s: State) {
    forall d, e :: d in s.tasks && e in s.tasks && d.key == e.key ==> d == e
  }

  /** What a task of a scheduled kind owes: it releases only once its message is off the pending
      list, acknowledged by itself or trimmed away from under it. */
  predicate Proper(s: State, d: Delivery) {
    d in s.tasks && !d.key.stream.Purge? && !s.tasks[d].Malformed?
    ==> (s.tasks[d].Releasing? ==> d.key !in s.q.pel) && (s.tasks[d].Counted? ==> s.tasks[d].count >= 1)
  }

  ghost predicate AllProper(s: State) {
    OnePerMessage(s) && forall d :: Proper(s, d)
  }

  lemma ProperWork(cfg: Config, s: State, d: Delivery, a: TaskAct, x: Delivery)
    requires Shape(s) && AllProper(s) && TaskCan(s, d, a) && Ordinary(Work(d, a)) && cfg.maxAttempts <= 1
    ensures Proper(Next(cfg, s, Work(d, a)), x)
  {
    assert Proper(s, x) && Proper(s, d) && TaskShape(s.q, d);
    assert x in s.tasks && x.key == d.key ==> x == d;
  }

  lemma ProperReceive(cfg: Config, s: State, step: Step)
    requires Shape(s) && AllProper(s) && Enabled(cfg, s, step) && Apart(s, step) && (step.Deliver? || step.Reclaim?)
    ensures AllProper(Next(cfg, s, step))
  {
    var s' := Next(cfg, s, step);
    assert forall d :: d in s.tasks ==> TaskShape(s.q, d) && d.key != step.key;
    forall d ensures Proper(s', d) {
      assert Proper(s, d);
    }
  }

  lemma ProperStep(cfg: Config, s: State, step: Step)
    requires Shape(s) && AllProper(s) && Enabled(cfg, s, step) && Ordinary(step) && Apart(s, step)
    requires cfg.maxAttempts <= 1
    ensures AllProper(Next(cfg, s, step))
  {
    var s' := Next(cfg, s, step);
    if step.Work? {
      forall d ensures Proper(s', d) { ProperWork(cfg, s, step.d, step.act, d); }
    } else if step.Deliver? || step.Reclaim? {
      ProperReceive(cfg, s, step);
    } else {
      QueueStep(cfg, s, step);
      assert s'.tasks == s.tasks && s'.q.pel.Keys <= s.q.pel.Keys;
      forall d ensures Proper(s', d) { assert Proper(s, d) && (d in s.tasks ==> TaskShape(s.q, d)); }
    }
  }

  /** Who keeps the slot: its free claim, a producer, a live message, or a task whose message is off
      the pending list and that has yet to delete the claim. */
  datatype Keeper = Nobody | Sending(p: nat) | Queued(k: Key) | Owing(d: Delivery)

  predicate Keeps(s: State, slot: Slot, x: Keeper) {
    match x
    case Nobody => slot !in s.c.held
    case Sending(p) => p in s.c.producers && s.c.producers[p].slot == slot
    case Queued(k) => LiveIn(s.q, slot, k)
    case Owing(d) =>
      d in s.tasks && !s.tasks[d].Malformed? && d.key in s.q.log && SlotOf(s.q, d.key) == slot && d.key !in s.q.pel
  }

  ghost predicate OneKeeper(s: State, slot: Slot) {
    forall x, y :: Keeps(s, slot, x) && Keeps(s, slot, y) ==> x == y
  }

  /** Every keeper is one of before, or has taken the place of one that is gone. */
  ghost predicate Succeeds(s: State, s': State, slot: Slot, x: Keeper, y: Keeper) {
    Keeps(s, slot, y) && !Keeps(s', slot, y) && forall z :: Keeps(s', slot, z) ==> Keeps(s, slot, z) || z == x
  }

  lemma SameKeepers(s: State, s': State, slot: Slot)
    requires OneKeeper(s, slot) && forall z :: Keeps(s', slot, z) ==> Keeps(s, slot, z)
    ensures OneKeeper(s', slot)
  {
  }

  lemma NewKeeper(s: State, s': State, slot: Slot, x: Keeper, y: Keeper)
    requires OneKeeper(s, slot) && Succeeds(s, s', slot, x, y)
    ensures OneKeeper(s', slot)
  {
    forall z, w | Keeps(s', slot, z) && Keeps(s', slot, w) ensures z == w {
      assert Keeps(s, slot, z) ==> z == y;
      assert Keeps(s, slot, w) ==> w == y;
    }
  }

  lemma KeeperProduce(cfg: Config, s: State, slot: Slot, a: ProducerAct)
    requires Shape(s) && ProducerCan(s, a) && Ordinary(Produce(a)) && OneKeeper(s, slot)
    ensures OneKeeper(Next(cfg, s, Produce(a)), slot)
  {
    var s' := Next(cfg, s, Produce(a));
    if a.Claim? && slot == Slot(a.stream, a.scope) {
      NewKeeper(s, s', slot, Sending(a.p), Nobody);
    } else if a.Append? && slot == s.c.producers[a.p].slot {
      NewKeeper(s, s', slot, Queued(Key(slot.stream, a.id)), Sending(a.p));
    } else {
      SameKeepers(s, s', slot);
    }
  }

  lemma KeeperWork(cfg: Config, s: State, slot: Slot, d: Delivery, a: TaskAct)
    requires Shape(s) && AllProper(s) && TaskCan(s, d, a) && Ordinary(Work(d, a)) && OneKeeper(s, slot)
    requires !slot.stream.Purge?
    ensures OneKeeper(Next(cfg, s, Work(d, a)), slot)
  {
    var s' := Next(cfg, s, Work(d, a));
    assert Proper(s, d) && TaskShape(s.q, d);
    if slot != SlotOf(s.q, d.key) || s.tasks[d].Malformed? {
      SameKeepers(s, s', slot);
    } else if a.Release? {
      ReleaseSucceeds(cfg, s, slot, d);
      NewKeeper(s, s', slot, Nobody, Owing(d));
    } else if a.Ack? && d.key in s.q.pel {
      AckSucceeds(cfg, s, slot, d);
      NewKeeper(s, s', slot, Owing(d), Queued(d.key));
    } else {
      SameKeepers(s, s', slot);
    }
  }

  lemma ReleaseSucceeds(cfg: Config, s: State, slot: Slot, d: Delivery)
    requires Shape(s) && AllProper(s) && TaskCan(s, d, Release) && slot == SlotOf(s.q, d.key) && !slot.stream.Purge?
    ensures Succeeds(s, Next(cfg, s, Work(d, Release)), slot, Nobody, Owing(d))
  {
    assert Proper(s, d) && TaskShape(s.q, d);
  }

  lemma AckSucceeds(cfg: Config, s: State, slot: Slot, d: Delivery)
    requires Shape(s) && OnePerMessage(s) && TaskCan(s, d, Ack(true)) && slot == SlotOf(s.q, d.key)
    requires d.key in s.q.pel
    ensures Succeeds(s, Next(cfg, s, Work(d, Ack(true))), slot, Owing(d), Queued(d.key))
  {
    assert TaskShape(s.q, d);
    assert s.q.log[d.key].parseable;
  }

  lemma KeeperReceive(cfg: Config, s: State, slot: Slot, step: Step)
    requires Shape(s) && Enabled(cfg, s, step) && (step.Deliver? || step.Reclaim?) && OneKeeper(s, slot)
    ensures OneKeeper(Next(cfg, s, step), slot)
  {
    assert forall d :: d in s.tasks ==> TaskShape(s.q, d);
    SameKeepers(s, Next(cfg, s, step), slot);
  }

  /** A trim may take the one message of the slot, and its task then owes for it. */
  lemma KeeperTrim(cfg: Config, s: State, slot: Slot, a: TrimAct)
    requires Shape(s) && OnePerMessage(s) && TrimCan(s, a) && OneKeeper(s, slot)
    ensures OneKeeper(Next(cfg, s, Trim(a)), slot)
  {
    var s' := Next(cfg, s, Trim(a));
    forall z, w | Keeps(s', slot, z) && Keeps(s', slot, w) ensures z == w {
      TrimmedKeeper(cfg, s, slot, a, z);
      TrimmedKeeper(cfg, s, slot, a, w);
    }
  }

  lemma TrimmedKeeper(cfg: Config, s: State, slot: Slot, a: TrimAct, z: Keeper)
    requires Shape(s) && TrimCan(s, a) && Keeps(Next(cfg, s, Trim(a)), slot, z)
    ensures Keeps(s, slot, z) || (z.Owing? && Keeps(s, slot, Queued(z.d.key)))
    ensures z.Owing? ==> !Keeps(Next(cfg, s, Trim(a)), slot, Queued(z.d.key))
  {
    assert z.Owing? && z.d in s.tasks ==> TaskShape(s.q, z.d);
  }

  lemma KeeperStep(cfg: Config, s: State, slot: Slot, step: Step)
    requires Shape(s) && AllProper(s) && Enabled(cfg, s, step) && Ordinary(step) && OneKeeper(s, slot)
    requires !slot.stream.Purge?
    ensures OneKeeper(Next(cfg, s, step), slot)
  {
    match step
    case Produce(a) => KeeperProduce(cfg, s, slot, a);
    case Work(d, a) => KeeperWork(cfg, s, slot, d, a);
    case Trim(a) => KeeperTrim(cfg, s, slot, a);
    case Deliver(_) => KeeperReceive(cfg, s, slot, step);
    case Reclaim(_) => KeeperReceive(cfg, s, slot, step);
    case _ => SameKeepers(s, Next(cfg, s, step), slot);
  }

  lemma {:induction false} OneKeeperAlways(cfg: Config, r: Regime, s: State, steps: seq<Step>, slot: Slot)
    requires Shape(s) && AllProper(s) && OneKeeper(s, slot) && Run(cfg, r, s, steps) && AllOrdinary(steps)
    requires r.apart && cfg.maxAttempts <= 1 && !slot.stream.Purge?
    ensures OneKeeper(After(cfg, r, s, steps), slot)
    decreases steps
  {
    if steps != [] {
      assert steps[0] in steps && forall step <- steps[1..] :: step in steps;
      ShapeStep(cfg, s, steps[0]);
      ProperStep(cfg, s, steps[0]);
      KeeperStep(cfg, s, slot, steps[0]);
      OneKeeperAlways(cfg, r, Next(cfg, s, steps[0]), steps[1..], slot);
    }
  }

  lemma OneLiveAlways(cfg: Config, r: Regime, steps: seq<Step>, slot: Slot)
    requires Run(cfg, r, INITIAL, steps) && AllOrdinary(steps)
    requires r.apart && cfg.maxAttempts <= 1 && !slot.stream.Purge?
    ensures OneLive(After(cfg, r, INITIAL, steps), slot)
  {
    OneKeeperAlways(cfg, r, INITIAL, steps, slot);
    var s := After(cfg, r, INITIAL, steps);
    forall j, k | LiveIn(s.q, slot, j) && LiveIn(s.q, slot, k) ensures j == k {
      assert Keeps(s, slot, Queued(j)) && Keeps(s, slot, Queued(k));
    }
  }

  // ---- Runs with two live jobs ----------------------------------------------------------------

  ghost predicate Reaches(cfg: Config, r: Regime, steps: seq<Step>, s: State) {
    Leads(cfg, r, steps, s) && AllOrdinary(steps)
  }

  lemma Go(cfg: Config, r: Regime, steps: seq<Step>, s: State, step: Step) returns (steps': seq<Step>, s': State)
    requires Reaches(cfg, r, steps, s) && Enabled(cfg, s, step) && Allowed(r, s, step) && Ordinary(step)
    ensures Reaches(cfg, r, steps', s') && s' == Next(cfg, s, step)
  {
    steps', s' := Then(cfg, r, steps, s, step);
  }

  lemma Act(cfg: Config, r: Regime, steps: seq<Step>, s: State, d: Delivery, a: TaskAct)
    returns (steps': seq<Step>, s': State)
    requires Reaches(cfg, r, steps, s) && TaskCan(s, d, a) && Ordinary(Work(d, a))
    requires r.answers ==> Answers(s, Work(d, a))
    ensures Reaches(cfg, r, steps', s') && s'.tasks == TasksAfter(cfg, s, d, a)
    ensures s'.q == TaskQueue(s, d, a) && s'.c == TaskClaims(s, d, a) && s'.dl == TaskDlq(s, d, a)
    ensures s'.j.known == s.j.known && s'.j.used == s.j.used && s'.j.rows.Keys == s.j.rows.Keys
    ensures a.StartHandler? ==> s'.j == s.j
  {
    steps', s' := Go(cfg, r, steps, s, Work(d, a));
  }

  function Nth(stream: Stream, n: nat): Key {
    Key(stream, Id(0, n))
  }

  function JobFor(scope: string, job: string): Entry {
    Entry(true, scope, job, 0, 0)
  }

  /** A job enters a slot whose claim is free. */
  lemma Enqueued(cfg: Config, r: Regime, steps: seq<Step>, s: State, slot: Slot, job: string, n: nat)
    returns (steps': seq<Step>, s': State)
    requires Reaches(cfg, r, steps, s) && s.c.producers == map[] && slot !in s.c.held && s.q.now == 0
    requires forall k <- s.q.log :: k.id.ms == 0 && k.id.sn < n
    requires slot.stream.Purge? ==> job in s.j.known && job !in s.j.used
    ensures Reaches(cfg, r, steps', s') && s'.tasks == s.tasks && s'.dl == s.dl
    ensures s'.q == AddMessage(s.q, Nth(slot.stream, n), JobFor(slot.scope, job))
    ensures s'.c == s.c.(held := s.c.held + {slot})
    ensures s'.j.rows == s.j.rows && s'.j.known == s.j.known && s'.j.used <= s.j.used + {job}
  {
    steps', s' := Go(cfg, r, steps, s, Produce(Claim(0, slot.stream, slot.scope, job)));
    steps', s' := Go(cfg, r, steps', s', Produce(Append(0, Id(0, n))));
  }

  function First(slot: Slot): Delivery {
    Delivery(Nth(slot.stream, 0), 1)
  }

  /** The first job of the slot has been delivered, and its task has come as far as `pc`. */
  ghost predicate At(cfg: Config, r: Regime, steps: seq<Step>, s: State, slot: Slot, pc: Pc) {
    && Reaches(cfg, r, steps, s) && s.tasks == map[First(slot) := pc]
    && s.q == Queue(0, map[Nth(slot.stream, 0) := JobFor(slot.scope, "a")], {}, map[Nth(slot.stream, 0) := 1])
    && s.c == Claims({slot}, map[], map[]) && s.dl == INITIAL.dl
    && s.j.used <= {"a"} && s.j.known == {"a"} && "a" in s.j.rows
  }

  lemma Received(cfg: Config, r: Regime, slot: Slot) returns (steps: seq<Step>, s: State)
    ensures At(cfg, r, steps, s, slot, Spawned) && s.j.rows["a"] == JobPending
  {
    NoSteps(cfg, r);
    steps, s := Go(cfg, r, [], INITIAL, JobRow(CreateJobRow("a")));
    steps, s := Enqueued(cfg, r, steps, s, slot, "a", 0);
    steps, s := Go(cfg, r, steps, s, Deliver(Nth(slot.stream, 0)));
  }

  lemma Onward(cfg: Config, r: Regime, steps: seq<Step>, s: State, slot: Slot, pc: Pc, a: TaskAct, pc': Pc)
    returns (steps': seq<Step>, s': State)
    requires At(cfg, r, steps, s, slot, pc) && TaskCan(s, First(slot), a) && pc' == PcAfter(cfg, s, First(slot), a)
    requires !a.Ack? && !a.AckMalformed? && !a.Release? && !a.WriteDlq? && !pc'.Ended?
    requires r.answers ==> Answers(s, Work(First(slot), a))
    ensures At(cfg, r, steps', s', slot, pc') && (a.StartHandler? ==> s'.j == s.j)
  {
    steps', s' := Act(cfg, r, steps, s, First(slot), a);
  }

  lemma Done(cfg: Config, r: Regime, slot: Slot) returns (steps: seq<Step>, s: State)
    requires !slot.stream.Purge?
    ensures At(cfg, r, steps, s, slot, Committed)
  {
    steps, s := Received(cfg, r, slot);
    steps, s := Onward(cfg, r, steps, s, slot, Spawned, StartHandler, Working);
    steps, s := Onward(cfg, r, steps, s, slot, Working, FinishHandler(JobPending), Committed);
  }

  /** A job that succeeds gives its slot back: nothing but the free claim is left. */
  lemma SuccessFreesTheSlot(cfg: Config, r: Regime, slot: Slot) returns (steps: seq<Step>, s: State)
    requires !slot.stream.Purge?
    ensures Reaches(cfg, r, steps, s) && Early(s.c, slot) == 0
    ensures forall x :: Holds(s, slot, x) <==> x == FreeClaim
  {
    steps, s := Done(cfg, r, slot);
    steps, s := Act(cfg, r, steps, s, First(slot), Ack(true));
    steps, s := Act(cfg, r, steps, s, First(slot), Release);
    assert s.tasks == map[] && s.c.held == {} && s.q.pel == map[];
  }

  /** The first job's message is pending, nobody is at work on it, and its claim is free. */
  ghost predicate Dropped(cfg: Config, r: Regime, steps: seq<Step>, s: State, slot: Slot) {
    && Reaches(cfg, r, steps, s) && s.tasks == map[] && s.c.held == {} && s.c.producers == map[]
    && s.q == Queue(0, map[Nth(slot.stream, 0) := JobFor(slot.scope, "a")], {}, map[Nth(slot.stream, 0) := 1])
    && s.j.used <= {"a"} && s.j.known == {"a"} && "a" in s.j.rows && Early(s.c, slot) == 1
  }

  lemma Drops(cfg: Config, r: Regime, steps: seq<Step>, s: State, slot: Slot) returns (steps': seq<Step>, s': State)
    requires At(cfg, r, steps, s, slot, Releasing(false))
    ensures Dropped(cfg, r, steps', s', slot)
  {
    steps', s' := Act(cfg, r, steps, s, First(slot), Release);
    assert s'.tasks == map[] && s'.c.held == {};
  }

  lemma Counts(cfg: Config, r: Regime, steps: seq<Step>, s: State, slot: Slot) returns (steps': seq<Step>, s': State)
    requires At(cfg, r, steps, s, slot, Failing) && cfg.maxAttempts >= 2
    ensures At(cfg, r, steps', s', slot, Releasing(false))
  {
    steps', s' := Onward(cfg, r, steps, s, slot, Failing, ReadCount(true), Counted(1));
    steps', s' := Onward(cfg, r, steps', s', slot, Counted(1), RecordFailure(false), Releasing(false));
  }

  /** A failed attempt below the limit drops the claim and leaves the message pending. */
  lemma FailureDropsTheClaim(cfg: Config, r: Regime, slot: Slot) returns (steps: seq<Step>, s: State)
    requires cfg.maxAttempts >= 2 && !slot.stream.Purge?
    ensures Dropped(cfg, r, steps, s, slot)
  {
    steps, s := Received(cfg, r, slot);
    steps, s := Onward(cfg, r, steps, s, slot, Spawned, StartHandler, Working);
    steps, s := Onward(cfg, r, steps, s, slot, Working, HandlerFails, Failing);
    steps, s := Counts(cfg, r, steps, s, slot);
    steps, s := Drops(cfg, r, steps, s, slot);
  }

  /** A purge that is refused admission drops the claim too, whatever the limit. */
  lemma SoftRetryDropsTheClaim(cfg: Config, r: Regime, slot: Slot) returns (steps: seq<Step>, s: State)
    requires slot.stream.Purge?
    ensures Dropped(cfg, r, steps, s, slot)
  {
    steps, s := Received(cfg, r, slot);
    steps, s := Onward(cfg, r, steps, s, slot, Spawned, StartHandler, Begun);
    steps, s := Onward(cfg, r, steps, s, slot, Begun, LookUpRow, Working);
    steps, s := Onward(cfg, r, steps, s, slot, Working, HandlerDenied, Denied);
    steps, s := Onward(cfg, r, steps, s, slot, Denied, SoftRetry, Releasing(false));
    steps, s := Drops(cfg, r, steps, s, slot);
  }

  /** Once the claim is dropped, a second job enters: two are live together. The first purge job is
      cancelled before, so that the second one's request is not refused in the database. */
  lemma SecondJobIn(cfg: Config, r: Regime, steps: seq<Step>, s: State, slot: Slot)
    returns (steps': seq<Step>, s': State)
    requires Dropped(cfg, r, steps, s, slot)
    ensures Reaches(cfg, r, steps', s') && !OneLive(s', slot)
  {
    steps', s' := Go(cfg, r, steps, s, JobRow(CancelJobRow("a")));
    steps', s' := Go(cfg, r, steps', s', JobRow(CreateJobRow("b")));
    steps', s' := Enqueued(cfg, r, steps', s', slot, "b", 1);
    assert LiveIn(s'.q, slot, Nth(slot.stream, 0)) && LiveIn(s'.q, slot, Nth(slot.stream, 1));
  }

  // ---- A reclaim's late release ---------------------------------------------------------------

  /** Job `n` is the only live one of the slot, the slot's claim is held for it, and the reclaiming
      task of the first message has come as far as `pc`. */
  ghost predicate Late(cfg: Config, r: Regime, steps: seq<Step>, s: State, slot: Slot, n: nat, pc: Pc) {
    && Reaches(cfg, r, steps, s) && s.tasks == map[Delivery(Nth(slot.stream, 0), 2) := pc]
    && s.c.held == {slot} && s.c.producers == map[] && s.q.now == 0 && s.q.pel == map[]
    && s.q.undelivered == {Nth(slot.stream, n)} && Nth(slot.stream, 0) in s.q.log && Nth(slot.stream, n) in s.q.log
    && s.q.log[Nth(slot.stream, 0)] == s.q.log[Nth(slot.stream, n)] == JobFor(slot.scope, "a")
    && (forall k <- s.q.log :: k.id.ms == 0 && k.id.sn <= n) && s.dl.buried == map[]
  }

  lemma Overtaken(cfg: Config, r: Regime, slot: Slot) returns (steps: seq<Step>, s: State)
    requires !r.apart && cfg.maxAttempts <= 1 && !slot.stream.Purge?
    ensures Reaches(cfg, r, steps, s) && s.c == Claims({slot}, map[], map[]) && s.dl == INITIAL.dl
    ensures s.tasks == map[First(slot) := Working, Delivery(Nth(slot.stream, 0), 2) := Burying(true)]
    ensures s.q == Queue(0, map[Nth(slot.stream, 0) := JobFor(slot.scope, "a")], {}, map[Nth(slot.stream, 0) := 2])
  {
    var e := Delivery(Nth(slot.stream, 0), 2);
    steps, s := Received(cfg, r, slot);
    steps, s := Onward(cfg, r, steps, s, slot, Spawned, StartHandler, Working);
    steps, s := Go(cfg, r, steps, s, Reclaim(e.key));
    assert s.tasks == map[First(slot) := Working, e := Recovered];
    assert s.q == Queue(0, map[e.key := JobFor(slot.scope, "a")], {}, map[e.key := 2]);
    steps, s := Act(cfg, r, steps, s, e, CheckRecovered(true));
  }

  lemma FirstAcks(cfg: Config, r: Regime, slot: Slot) returns (steps: seq<Step>, s: State)
    requires !r.apart && cfg.maxAttempts <= 1 && !slot.stream.Purge?
    ensures Reaches(cfg, r, steps, s) && s.c == Claims({slot}, map[], map[]) && s.dl == INITIAL.dl
    ensures s.tasks == map[First(slot) := Releasing(true), Delivery(Nth(slot.stream, 0), 2) := Burying(true)]
    ensures s.q == Queue(0, map[Nth(slot.stream, 0) := JobFor(slot.scope, "a")], {}, map[])
  {
    var d, e := First(slot), Delivery(Nth(slot.stream, 0), 2);
    steps, s := Overtaken(cfg, r, slot);
    steps, s := Act(cfg, r, steps, s, d, FinishHandler(JobPending));
    assert s.tasks == map[d := Committed, e := Burying(true)];
    steps, s := Act(cfg, r, steps, s, d, Ack(true));
    assert s.tasks == map[d := Releasing(true), e := Burying(true)] && s.q.pel == map[];
  }

  lemma FirstFinishes(cfg: Config, r: Regime, slot: Slot) returns (steps: seq<Step>, s: State)
    requires !r.apart && cfg.maxAttempts <= 1 && !slot.stream.Purge?
    ensures Reaches(cfg, r, steps, s) && s.c.held == {} && s.c.producers == map[] && s.dl == INITIAL.dl
    ensures s.tasks == map[Delivery(Nth(slot.stream, 0), 2) := Burying(true)]
    ensures s.q == Queue(0, map[Nth(slot.stream, 0) := JobFor(slot.scope, "a")], {}, map[])
  {
    var d, e := First(slot), Delivery(Nth(slot.stream, 0), 2);
    steps, s := FirstAcks(cfg, r, slot);
    steps, s := Act(cfg, r, steps, s, d, Release);
    assert s.tasks == map[e := Burying(true)] && s.c.held == {};
  }

  lemma NextIsIn(cfg: Config, r: Regime, slot: Slot) returns (steps: seq<Step>, s: State)
    requires !r.apart && cfg.maxAttempts <= 1 && !slot.stream.Purge?
    ensures Late(cfg, r, steps, s, slot, 1, Burying(true))
  {
    steps, s := FirstFinishes(cfg, r, slot);
    steps, s := Enqueued(cfg, r, steps, s, slot, "a", 1);
  }

  lemma LateTurn(cfg: Config, r: Regime, steps: seq<Step>, s: State, slot: Slot)
    returns (steps': seq<Step>, s': State)
    requires Late(cfg, r, steps, s, slot, 1, Burying(true)) && !slot.stream.Purge?
    ensures Reaches(cfg, r, steps', s') && s'.tasks == map[Delivery(Nth(slot.stream, 0), 2) := Releasing(false)]
    ensures s'.q == s.q && s'.c == s.c
  {
    var e := Delivery(Nth(slot.stream, 0), 2);
    steps', s' := Act(cfg, r, steps, s, e, WriteDlq(0));
    assert s'.tasks == map[e := Buried];
    steps', s' := Act(cfg, r, steps', s', e, Ack(true));
    assert s'.q.pel == map[];
  }

  /** The reclaiming task dead-letters the message that the first one had finished, finds nothing to
      acknowledge, and deletes the claim of the job that came after. */
  lemma LateReleaseLetsThirdIn(cfg: Config, r: Regime, slot: Slot) returns (steps: seq<Step>, s: State)
    requires !r.apart && cfg.maxAttempts <= 1 && !slot.stream.Purge?
    ensures Reaches(cfg, r, steps, s) && !OneLive(s, slot)
  {
    steps, s := NextIsIn(cfg, r, slot);
    steps, s := LateTurn(cfg, r, steps, s, slot);
    steps, s := Act(cfg, r, steps, s, Delivery(Nth(slot.stream, 0), 2), Release);
    assert s.c.held == {} && Nth(slot.stream, 1) in s.q.undelivered;
    steps, s := Enqueued(cfg, r, steps, s, slot, "a", 2);
    assert LiveIn(s.q, slot, Nth(slot.stream, 1)) && LiveIn(s.q, slot, Nth(slot.stream, 2));
  }

  // ---- Exactly when ----------------------------------------------------------------------------

  ghost predicate KeepsOneLive(cfg: Config, r: Regime, steps: seq<Step>, slot: Slot) {
    Run(cfg, r, INITIAL, steps) && AllOrdinary(steps) ==> OneLive(After(cfg, r, INITIAL, steps), slot)
  }

  lemma TwoLive(cfg: Config, r: Regime, slot: Slot) returns (steps: seq<Step>, s: State)
    requires slot.stream.Purge? || cfg.maxAttempts >= 2 || !r.apart
    ensures Reaches(cfg, r, steps, s) && !OneLive(s, slot)
  {
    if slot.stream.Purge? {
      steps, s := SoftRetryDropsTheClaim(cfg, r, slot);
      steps, s := SecondJobIn(cfg, r, steps, s, slot);
    } else if cfg.maxAttempts >= 2 {
      steps, s := FailureDropsTheClaim(cfg, r, slot);
      steps, s := SecondJobIn(cfg, r, steps, s, slot);
    } else {
      steps, s := LateReleaseLetsThirdIn(cfg, r, slot);
    }
  }

  /** In every ordinary run a scope has one live job at most, if and only if its kind is not purge,
      one attempt is all there is, and deliveries of one message do not overlap: a failed attempt
      below the limit, a purge's soft retry and a late reclaim each delete a claim early. */
  lemma OneLiveJobExactly(cfg: Config, r: Regime, slot: Slot)
    ensures (forall steps :: KeepsOneLive(cfg, r, steps, slot))
            <==> !slot.stream.Purge? && cfg.maxAttempts <= 1 && r.apart
  {
    if !slot.stream.Purge? && cfg.maxAttempts <= 1 && r.apart {
      forall steps | Run(cfg, r, INITIAL, steps) && AllOrdinary(steps)
        ensures OneLive(After(cfg, r, INITIAL, steps), slot)
      {
        OneLiveAlways(cfg, r, steps, slot);
      }
    } else {
      var steps, s := TwoLive(cfg, r, slot);
      assert !KeepsOneLive(cfg, r, steps, slot);
    }
  }
}
