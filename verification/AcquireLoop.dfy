/** The client's retry loop around the bucket script, with its deadline. */
module AcquireLoop {
  import Gcra

  /** What one EVAL answers; `Failed` when Redis raises. */
  datatype Reply = Failed | Granted | Denied(waitMs: nat)

  const TICKS_PER_MS := 1000

  /** The environment of one call, by attempt: the replies, the clock ticks each EVAL takes (late
      wake-ups included), and those that pass between the deadline check and the sleep. */
  datatype Env = Env(reply: nat -> Reply, took: nat -> nat, gap: nat -> nat)

  ghost predicate EvalsTakeTime(env: Env) {
    forall n :: env.took(n) >= 1
  }

  function Wait(env: Env, n: nat): nat {
    if env.reply(n).Denied? then env.reply(n).waitMs * TICKS_PER_MS else 0
  }

  /** When the n-th attempt starts, if all before it were denials that were slept out. */
  function Starts(env: Env, start: nat, deadline: nat, n: nat): nat
    decreases n, 0
  {
    if n == 0 then start else WakesUp(env, start, deadline, n - 1)
  }

  /** When the n-th reply arrives. */
  function Arrives(env: Env, start: nat, deadline: nat, n: nat): nat
    decreases n, 1
  {
    Starts(env, start, deadline, n) + env.took(n)
  }

  /** When the sleep after the n-th reply ends: it is cut off at the deadline. */
  function WakesUp(env: Env, start: nat, deadline: nat, n: nat): nat
    decreases n, 2
  {
    var t := Arrives(env, start, deadline, n) + env.gap(n);
    if t + Wait(env, n) <= deadline then t + Wait(env, n)
    else if t <= deadline then deadline
    else t
  }

  /** What holds of an attempt that is followed by another one: it was denied, the hint fits the
      deadline, and the next one starts once the hint is slept out, and no later than that takes. */
  ghost predicate GoesOn(env: Env, start: nat, deadline: nat, n: nat) {
    env.reply(n).Denied?
    && var reply := Arrives(env, start, deadline, n); var hint := env.reply(n).waitMs * TICKS_PER_MS;
       var retry := Starts(env, start, deadline, n + 1);
       && reply + hint <= deadline
       && reply + hint <= retry && reply + env.gap(n) <= retry <= reply + env.gap(n) + hint
       && (reply + env.gap(n) <= deadline ==> retry <= deadline)
  }

  lemma WentOn(env: Env, start: nat, deadline: nat, n: nat)
    requires env.reply(n).Denied? && Arrives(env, start, deadline, n) + Wait(env, n) <= deadline
    ensures GoesOn(env, start, deadline, n)
  {
    assert Starts(env, start, deadline, n + 1) == WakesUp(env, start, deadline, n);
  }

  /** Gives up exactly when a denial's hinted wait would pass the deadline. Otherwise the next attempt
      comes once the hint is slept out, and no later than that takes, or than the deadline if that
      cuts the sleep off. The loop ends because every EVAL takes time. */
  method AcquireToken(env: Env, start: nat, waitMax: nat) returns (granted: bool, attempts: nat)
    requires EvalsTakeTime(env)
    ensures 1 <= attempts <= waitMax + 1
    ensures Arrives(env, start, start + waitMax, 0) == start + env.took(0)
    ensures var deadline := start + waitMax; forall i :: 0 <= i < attempts - 1 ==> GoesOn(env, start, deadline, i)
    ensures granted <==> !env.reply(attempts - 1).Denied?
    ensures !granted ==> var last := attempts - 1; var deadline := start + waitMax;
      Arrives(env, start, deadline, last) + env.reply(last).waitMs * TICKS_PER_MS > deadline
  {
    var deadline := start + waitMax;
    var now := start;
    attempts := 0;
    while true
      invariant now == Starts(env, start, deadline, attempts)
      invariant start + attempts <= now && attempts <= waitMax
      invariant forall i :: 0 <= i < attempts ==> GoesOn(env, start, deadline, i)
      decreases deadline - now
    {
      var n := attempts;
      now := now + env.took(n);
      attempts := n + 1;
      match env.reply(n)
      case Failed => return true, attempts;
      case Granted => return true, attempts;
      case Denied(waitMs) =>
        var wait := waitMs * TICKS_PER_MS;
        if now + wait > deadline {
          return false, attempts;
        }
        now := now + env.gap(n);
        var left := deadline - now;
        var pause := if wait < left then wait else left;
        if pause > 0 {
          now := now + pause;
        }
        WentOn(env, start, deadline, n);
    }
  }

  /** No retry is sent while it is sure to be denied. The denied attempt read its clock at tick
      `sent`, before its reply, and the retry does at `resent`, after the sleep. With the key
      unchanged all readings from the first up to the hint are denied; the retry's is past them, and
      one more ms is enough if the bucket can hold a token. */
  lemma NoDoomedRetry(env: Env, start: nat, deadline: nat, n: nat, sent: nat, resent: nat, cfg: Gcra.Config, tat: real)
    requires GoesOn(env, start, deadline, n)
    requires sent <= Arrives(env, start, deadline, n)
    requires resent >= Starts(env, start, deadline, n + 1)
    requires cfg.Valid() && Gcra.Script(cfg, tat, sent / TICKS_PER_MS).reply == Gcra.Denied(env.reply(n).waitMs)
    ensures var over := sent / TICKS_PER_MS + env.reply(n).waitMs; var later := resent / TICKS_PER_MS;
      && (forall ms :: sent / TICKS_PER_MS <= ms < over ==> !Gcra.Grants(cfg, tat, ms))
      && later >= over && (later > over ==> (Gcra.Grants(cfg, tat, later) <==> cfg.capacity >= 1))
  {
    var now, over := sent / TICKS_PER_MS, sent / TICKS_PER_MS + env.reply(n).waitMs;
    assert sent + env.reply(n).waitMs * TICKS_PER_MS <= resent;
    forall ms | now <= ms < over ensures !Gcra.Grants(cfg, tat, ms) {
      Gcra.HintNotTooLong(cfg, tat, now, ms);
    }
    if resent / TICKS_PER_MS > over {
      GrantedFrom(cfg, tat, now, resent / TICKS_PER_MS);
      if cfg.capacity >= 1 {
        HintIsFloor(cfg, tat, now);
      }
    }
  }

  // ---- What a refusal means for the bucket -----------------------------------------------------

  /** The loop gives up on a denial whose reply arrived at `arrives`. With the key unchanged, an
      attempt that reads its clock `later - now` ms after the refused one, and would take as long,
      is denied too if its reply came by the deadline: retrying could not have helped. */
  lemma RefusalIsFinal(cfg: Gcra.Config, tat: real, now: int, arrives: nat, deadline: nat, later: int)
    requires cfg.Valid() && Gcra.Script(cfg, tat, now).reply.Denied?
    requires arrives + Gcra.Script(cfg, tat, now).reply.waitMs * TICKS_PER_MS > deadline
    requires now <= later && arrives + (later - now) * TICKS_PER_MS <= deadline
    ensures !Gcra.Grants(cfg, tat, later)
  {
    Gcra.HintNotTooLong(cfg, tat, now, later);
  }

  /** How many ms after a denied attempt the key first lets one through. */
  function Need(cfg: Gcra.Config, tat: real, now: int): int
    requires cfg.Valid()
  {
    Gcra.Ceil(tat + cfg.Emission() - now as real - cfg.Dvt())
  }

  lemma EmissionFits(cfg: Gcra.Config)
    requires cfg.Valid()
    ensures cfg.Emission() > 0.0
    ensures cfg.Emission() <= cfg.Dvt() <==> cfg.capacity >= 1
    ensures cfg.capacity < 1 ==> cfg.Dvt() <= 0.0
  {
    Gcra.EmissionPositive(cfg);
    if cfg.capacity >= 1 {
      Gcra.Scale(cfg.capacity as real, 1.0, cfg.Emission());
    } else {
      Gcra.Scale(0.0, cfg.capacity as real, cfg.Emission());
    }
  }

  /** With the key unchanged, the first grant after a denial comes exactly `Need` ms later. */
  lemma GrantedFrom(cfg: Gcra.Config, tat: real, now: int, later: int)
    requires cfg.Valid() && Gcra.Script(cfg, tat, now).reply.Denied? && now <= later
    ensures Gcra.Grants(cfg, tat, later) <==> cfg.capacity >= 1 && later - now >= Need(cfg, tat, now)
  {
    EmissionFits(cfg);
    Gcra.GrantedWhen(cfg, tat, now);
    Gcra.GrantedWhen(cfg, tat, later);
    CeilIsLeast(tat + cfg.Emission() - now as real - cfg.Dvt(), later - now);
  }

  lemma CeilIsLeast(x: real, n: int)
    ensures n >= Gcra.Ceil(x) <==> n as real >= x
  {
  }

  /** No attempt that reads its clock by the deadline would be granted, exactly when the bucket can
      hold no token, or the first grant comes after the deadline. `sent` is when the denied attempt
      read its clock; the loop compares with the time its reply arrived instead. */
  lemma RefusalFinalExactly(cfg: Gcra.Config, tat: real, now: int, sent: nat, deadline: nat)
    requires cfg.Valid() && Gcra.Script(cfg, tat, now).reply.Denied?
    ensures (forall later :: now <= later && sent + (later - now) * TICKS_PER_MS <= deadline ==>
               !Gcra.Grants(cfg, tat, later))
            <==> cfg.capacity < 1 || sent + Need(cfg, tat, now) * TICKS_PER_MS > deadline
  {
    var first := now + Need(cfg, tat, now);
    GrantedFrom(cfg, tat, now, now);
    if cfg.capacity >= 1 {
      GrantedFrom(cfg, tat, now, first);
    }
    forall later | now <= later
      ensures Gcra.Grants(cfg, tat, later) <==> cfg.capacity >= 1 && later >= first
    {
      GrantedFrom(cfg, tat, now, later);
    }
  }

  /** A refusal: the loop gives up because the hinted wait after the reply would pass the deadline. */
  predicate Refused(cfg: Gcra.Config, tat: real, now: int, arrives: nat, deadline: nat)
    requires cfg.Valid()
  {
    var reply := Gcra.Script(cfg, tat, now).reply;
    reply.Denied? && arrives + reply.waitMs * TICKS_PER_MS > deadline
  }

  /** A refusal is premature when some attempt by the deadline would be granted: exactly when the
      bucket can hold a token and the first grant comes by the deadline. The EVAL then took longer
      than what the deadline leaves after that grant. */
  lemma PrematureExactly(cfg: Gcra.Config, tat: real, now: int, sent: nat, took: nat, deadline: nat)
    requires cfg.Valid() && Refused(cfg, tat, now, sent + took, deadline)
    ensures (exists later :: now <= later && sent + (later - now) * TICKS_PER_MS <= deadline
               && Gcra.Grants(cfg, tat, later))
            <==> cfg.capacity >= 1 && sent + Need(cfg, tat, now) * TICKS_PER_MS <= deadline
    ensures cfg.capacity >= 1 && sent + Need(cfg, tat, now) * TICKS_PER_MS <= deadline ==>
      deadline - sent - Need(cfg, tat, now) * TICKS_PER_MS < took
  {
    RefusalFinalExactly(cfg, tat, now, sent, deadline);
    if cfg.capacity >= 1 {
      HintIsFloor(cfg, tat, now);
    }
  }

  /** The hint is the first grant's distance rounded down instead of up. */
  lemma HintIsFloor(cfg: Gcra.Config, tat: real, now: int)
    requires cfg.Valid() && Gcra.Script(cfg, tat, now).reply.Denied? && cfg.capacity >= 1
    ensures Need(cfg, tat, now) - 1 <= Gcra.Script(cfg, tat, now).reply.waitMs <= Need(cfg, tat, now)
  {
    EmissionFits(cfg);
    Gcra.GrantedWhen(cfg, tat, now);
  }

  /** For one: after an EVAL of 100 ms a hint of 50 ms is taken to pass a deadline of 120 ms, although
      a retry at that very moment would be granted. */
  lemma SlowEvalGivesUpEarly() returns (cfg: Gcra.Config, tat: real, arrives: nat, deadline: nat)
    ensures cfg.Valid() && Gcra.Script(cfg, tat, 0).reply == Gcra.Denied(50)
    ensures arrives == 100 * TICKS_PER_MS && arrives < deadline && Refused(cfg, tat, 0, arrives, deadline)
    ensures Need(cfg, tat, 0) == 50 && Gcra.Grants(cfg, tat, 100)
  {
    cfg, tat := Gcra.Config(1, 10.0), 50.0;
    arrives, deadline := 100 * TICKS_PER_MS, 120 * TICKS_PER_MS;
    assert cfg.Emission() == 100.0 && cfg.Dvt() == 100.0;
    GrantedFrom(cfg, tat, 0, 100);
  }
}
