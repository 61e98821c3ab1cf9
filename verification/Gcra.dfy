/** The provider token bucket: the GCRA script that runs inside Redis, and what it amounts to. */
module Gcra {

  /** `emission` is the time between tokens in ms, 1000 / refill_per_sec. */
  datatype Config = Config(capacity: int, refill: real) {
    ghost predicate Valid() {
      refill > 0.0
    }

    function Emission(): real
      requires refill > 0.0
    {
      1000.0 / refill
    }

    /** Delay variation tolerance: the largest burst, in ms. */
    function Dvt(): real
      requires refill > 0.0
    {
      capacity as real * Emission()
    }
  }

  datatype Reply = Granted | Denied(waitMs: int)

  datatype Eval = Eval(reply: Reply, tat: real)

  function Max(a: real, b: real): real {
    if a < b then b else a
  }

  /** One EVAL: `tat` is the stored value, 0 when the key is absent. On a denial nothing is stored. */
  function Script(cfg: Config, tat: real, now: int): Eval
    requires cfg.Valid()
  {
    var base := Max(tat, now as real);
    var newTat := base + cfg.Emission();
    var diff := newTat - now as real;
    if diff > cfg.Dvt() then Eval(Denied((diff - cfg.Dvt()).Floor), tat) else Eval(Granted, newTat)
  }

  function Grants(cfg: Config, tat: real, now: int): bool
    requires cfg.Valid()
  {
    Script(cfg, tat, now).reply.Granted?
  }

  lemma EmissionPositive(cfg: Config)
    requires cfg.Valid()
    ensures cfg.Emission() > 0.0 && cfg.Emission() * cfg.refill == 1000.0
  {
  }

  /** A grant needs the debt so far plus one emission to fit into the tolerance. */
  lemma GrantedWhen(cfg: Config, tat: real, now: int)
    requires cfg.Valid()
    ensures Grants(cfg, tat, now) <==> Max(0.0, tat - now as real) + cfg.Emission() <= cfg.Dvt()
  {
  }

  // ---- The denial hint -----------------------------------------------------------------------

  /** With the key unchanged, every attempt before `now + wait` is denied too. */
  lemma HintNotTooLong(cfg: Config, tat: real, now: int, later: int)
    requires cfg.Valid() && Script(cfg, tat, now).reply.Denied?
    requires now <= later < now + Script(cfg, tat, now).reply.waitMs
    ensures !Grants(cfg, tat, later)
  {
    EmissionPositive(cfg);
  }

  /** One ms past the hint the attempt is granted, if and only if the bucket can hold a token. */
  lemma HintSufficesExactly(cfg: Config, tat: real, now: int)
    requires cfg.Valid() && Script(cfg, tat, now).reply.Denied?
    ensures Grants(cfg, tat, now + Script(cfg, tat, now).reply.waitMs + 1) <==> cfg.capacity >= 1
  {
    EmissionPositive(cfg);
    var e := cfg.Emission();
    var wait := Script(cfg, tat, now).reply.waitMs;
    assert wait >= 0;
    if cfg.capacity >= 1 {
      Scale(cfg.capacity as real, 1.0, e);
      assert cfg.Dvt() >= e;
    } else {
      Scale(0.0, cfg.capacity as real, e);
      assert cfg.Dvt() <= 0.0;
    }
  }

  lemma Scale(a: real, b: real, e: real)
    requires a >= b && e >= 0.0
    ensures a * e >= b * e
  {
  }

  // ---- Refinement of a token bucket ----------------------------------------------------------

  /** A plain bucket: it holds `level` tokens at time `at`. */
  datatype Bucket = Bucket(level: real, at: int)

  function Refilled(cfg: Config, b: Bucket, now: int): real {
    var level := b.level + (now - b.at) as real * cfg.refill / 1000.0;
    if level > cfg.capacity as real then cfg.capacity as real else level
  }

  function BucketGrants(cfg: Config, b: Bucket, now: int): bool {
    Refilled(cfg, b, now) >= 1.0
  }

  function Taken(cfg: Config, b: Bucket, now: int): Bucket {
    Bucket(Refilled(cfg, b, now) - (if BucketGrants(cfg, b, now) then 1.0 else 0.0), now)
  }

  /** The level is the capacity less the debt, counted in emissions. */
  ghost predicate Simulates(cfg: Config, tat: real, b: Bucket)
    requires cfg.Valid()
  {
    b.level * cfg.Emission() == cfg.Dvt() - Max(0.0, tat - b.at as real)
  }

  lemma RefillInMs(cfg: Config, b: Bucket, now: int)
    requires cfg.Valid()
    ensures (b.level + (now - b.at) as real * cfg.refill / 1000.0) * cfg.Emission()
            == b.level * cfg.Emission() + (now - b.at) as real
  {
    var e, dt := cfg.Emission(), (now - b.at) as real;
    EmissionPositive(cfg);
    assert (dt * cfg.refill / 1000.0) * e == dt * (cfg.refill * e) / 1000.0;
  }

  lemma RefilledSimulates(cfg: Config, tat: real, b: Bucket, now: int)
    requires cfg.Valid() && Simulates(cfg, tat, b) && b.at <= now
    ensures Refilled(cfg, b, now) * cfg.Emission() == cfg.Dvt() - Max(0.0, tat - now as real)
  {
    var e := cfg.Emission();
    var level := b.level + (now - b.at) as real * cfg.refill / 1000.0;
    EmissionPositive(cfg);
    RefillInMs(cfg, b, now);
    if level > cfg.capacity as real {
      Strict(level, cfg.capacity as real, e);
    } else {
      Scale(cfg.capacity as real, level, e);
    }
  }

  lemma Strict(a: real, b: real, e: real)
    requires a > b && e > 0.0
    ensures a * e > b * e
  {
  }

  lemma StepSimulates(cfg: Config, tat: real, b: Bucket, now: int)
    requires cfg.Valid() && Simulates(cfg, tat, b) && b.at <= now
    ensures Grants(cfg, tat, now) <==> BucketGrants(cfg, b, now)
    ensures Simulates(cfg, Script(cfg, tat, now).tat, Taken(cfg, b, now))
  {
    var e, level := cfg.Emission(), Refilled(cfg, b, now);
    EmissionPositive(cfg);
    RefilledSimulates(cfg, tat, b, now);
    GrantedWhen(cfg, tat, now);
    if level >= 1.0 {
      Scale(level, 1.0, e);
    } else {
      Strict(1.0, level, e);
    }
    assert (level - 1.0) * e == level * e - e;
  }

  function ScriptRun(cfg: Config, tat: real, times: seq<int>): seq<bool>
    requires cfg.Valid()
    decreases times
  {
    if times == [] then []
    else [Grants(cfg, tat, times[0])] + ScriptRun(cfg, Script(cfg, tat, times[0]).tat, times[1..])
  }

  function BucketRun(cfg: Config, b: Bucket, times: seq<int>): seq<bool>
    decreases times
  {
    if times == [] then []
    else [BucketGrants(cfg, b, times[0])] + BucketRun(cfg, Taken(cfg, b, times[0]), times[1..])
  }

  ghost predicate Monotone(from: int, times: seq<int>) {
    (times != [] ==> from <= times[0]) && forall i, j :: 0 <= i < j < |times| ==> times[i] <= times[j]
  }

  lemma {:induction false} RunsAgree(cfg: Config, tat: real, b: Bucket, times: seq<int>)
    requires cfg.Valid() && Simulates(cfg, tat, b) && Monotone(b.at, times)
    ensures ScriptRun(cfg, tat, times) == BucketRun(cfg, b, times)
    decreases times
  {
    if times != [] {
      StepSimulates(cfg, tat, b, times[0]);
      RunsAgree(cfg, Script(cfg, tat, times[0]).tat, Taken(cfg, b, times[0]), times[1..]);
    }
  }

  /** For every request sequence on a clock that does not go back, the script grants exactly the
      requests that a full bucket of `capacity` tokens, refilled at `refill` per second, grants. */
  lemma ScriptIsTokenBucket(cfg: Config, times: seq<int>)
    requires cfg.Valid() && Monotone(0, times)
    ensures ScriptRun(cfg, 0.0, times) == BucketRun(cfg, Bucket(cfg.capacity as real, 0), times)
  {
    RunsAgree(cfg, 0.0, Bucket(cfg.capacity as real, 0), times);
  }

  // ---- Rate bound without any assumption on clocks -------------------------------------------

  /** Grants whose own clock read a time in [a, b]. */
  function GrantsWithin(cfg: Config, tat: real, times: seq<int>, a: int, b: int): nat
    requires cfg.Valid()
    decreases times
  {
    if times == [] then 0
    else (if a <= times[0] <= b && Grants(cfg, tat, times[0]) then 1 else 0)
         + GrantsWithin(cfg, Script(cfg, tat, times[0]).tat, times[1..], a, b)
  }

  /** Every grant moves the stored time on by an emission at least, and never past its own clock
      plus the tolerance. */
  lemma GrantMoves(cfg: Config, tat: real, now: int)
    requires cfg.Valid()
    ensures var t := Script(cfg, tat, now).tat;
      if Grants(cfg, tat, now)
      then t >= tat + cfg.Emission() && t >= now as real + cfg.Emission() && t <= now as real + cfg.Dvt()
      else t == tat
  {
  }

  /** `n` emissions. */
  function Times(n: nat, e: real): real {
    if n == 0 then 0.0 else Times(n - 1, e) + e
  }

  lemma {:induction false} TimesIs(n: nat, e: real)
    ensures Times(n, e) == n as real * e
    decreases n
  {
    if n > 0 {
      TimesIs(n - 1, e);
      assert n as real * e == (n - 1) as real * e + e;
    }
  }

  /** `n` grants in the window so far have pushed the stored time to `a` plus `n` emissions. */
  lemma {:induction false} WindowBound(cfg: Config, tat: real, times: seq<int>, a: int, b: int, n: nat)
    requires cfg.Valid()
    requires n > 0 ==> tat >= a as real + Times(n, cfg.Emission())
    requires GrantsWithin(cfg, tat, times, a, b) > 0
    ensures Times(n + GrantsWithin(cfg, tat, times, a, b), cfg.Emission()) <= (b - a) as real + cfg.Dvt()
    decreases times
  {
    var now := times[0];
    GrantMoves(cfg, tat, now);
    var tat' := Script(cfg, tat, now).tat;
    var m := if a <= now <= b && Grants(cfg, tat, now) then n + 1 else n;
    assert m == n + 1 ==> Times(m, cfg.Emission()) == Times(n, cfg.Emission()) + cfg.Emission();
    if GrantsWithin(cfg, tat', times[1..], a, b) > 0 {
      WindowBound(cfg, tat', times[1..], a, b, m);
    }
  }

  /** `n` emissions fit into a window and the tolerance of `c` emissions: how many that can be. */
  lemma Divide(n: real, w: real, c: real, e: real, r: real)
    requires r > 0.0 && e * r == 1000.0 && n * e <= w + c * e
    ensures n <= c + w * r / 1000.0
  {
    Scale(w + c * e, n * e, r);
    assert (n * e) * r == n * (e * r);
    assert (w + c * e) * r == w * r + c * (e * r);
  }

  lemma DivideByEmission(cfg: Config, n: nat, w: real)
    requires cfg.Valid() && Times(n, cfg.Emission()) <= w + cfg.Dvt()
    ensures n as real <= cfg.capacity as real + w * cfg.refill / 1000.0
  {
    EmissionPositive(cfg);
    TimesIs(n, cfg.Emission());
    Divide(n as real, w, cfg.capacity as real, cfg.Emission(), cfg.refill);
  }

  /** Whatever the workers' clocks do, the grants stamped with times in [a, b] number at most
      capacity + (b - a) * refill / 1000. */
  lemma RateBounded(cfg: Config, tat: real, times: seq<int>, a: int, b: int)
    requires cfg.Valid() && a <= b && cfg.capacity >= 0
    ensures GrantsWithin(cfg, tat, times, a, b) as real <= cfg.capacity as real + (b - a) as real * cfg.refill / 1000.0
  {
    GrantsFit(cfg, tat, times, a, b, GrantsWithin(cfg, tat, times, a, b), (b - a) as real);
  }

  lemma GrantsFit(cfg: Config, tat: real, times: seq<int>, a: int, b: int, n: nat, w: real)
    requires cfg.Valid() && cfg.capacity >= 0
    requires n == GrantsWithin(cfg, tat, times, a, b) && w == (b - a) as real && w >= 0.0
    ensures n as real <= cfg.capacity as real + w * cfg.refill / 1000.0
  {
    if n == 0 {
      NothingOwed(cfg, w);
    } else {
      WindowFits(cfg, tat, times, a, b, n, w);
      DivideByEmission(cfg, n, w);
    }
  }

  lemma WindowFits(cfg: Config, tat: real, times: seq<int>, a: int, b: int, n: nat, w: real)
    requires cfg.Valid() && n > 0
    requires n == GrantsWithin(cfg, tat, times, a, b) && w == (b - a) as real
    ensures Times(n, cfg.Emission()) <= w + cfg.Dvt()
  {
    WindowBound(cfg, tat, times, a, b, 0);
  }

  lemma NothingOwed(cfg: Config, w: real)
    requires cfg.Valid() && w >= 0.0 && cfg.capacity >= 0
    ensures 0.0 <= cfg.capacity as real + w * cfg.refill / 1000.0
  {
    Scale(w, 0.0, cfg.refill);
  }

  // ---- Key expiry ------------------------------------------------------------------------------

  /** A request: the server's time, and the client clock's reading that it sends. */
  datatype Request = Request(server: int, now: int)

  /** The key with its PSETEX deadline. */
  datatype Key = Absent | Present(tat: real, expires: int)

  function Ceil(x: real): int {
    if x.Floor as real == x then x.Floor else x.Floor + 1
  }

  function Ttl(cfg: Config): int
    requires cfg.Valid()
  {
    Ceil(cfg.Dvt() + 1000.0)
  }

  function Stored(key: Key, server: int): real {
    if key.Present? && server < key.expires then key.tat else 0.0
  }

  function ExpiringStep(cfg: Config, key: Key, r: Request): Key
    requires cfg.Valid()
  {
    var tat := Stored(key, r.server);
    if Grants(cfg, tat, r.now) then Present(Script(cfg, tat, r.now).tat, r.server + Ttl(cfg)) else key
  }

  function ExpiringRun(cfg: Config, key: Key, rs: seq<Request>): seq<Reply>
    requires cfg.Valid()
    decreases rs
  {
    if rs == [] then []
    else [Script(cfg, Stored(key, rs[0].server), rs[0].now).reply]
         + ExpiringRun(cfg, ExpiringStep(cfg, key, rs[0]), rs[1..])
  }

  function KeepingRun(cfg: Config, tat: real, rs: seq<Request>): seq<Reply>
    requires cfg.Valid()
    decreases rs
  {
    if rs == [] then []
    else [Script(cfg, tat, rs[0].now).reply] + KeepingRun(cfg, Script(cfg, tat, rs[0].now).tat, rs[1..])
  }

  /** No two clients' clocks are more than a second apart: between two requests a later client's
      reading is behind the server's progress by 1000 ms at most. */
  ghost predicate SkewWithinSecond(rs: seq<Request>) {
    forall i, j :: 0 <= i < j < |rs| ==> rs[j].now - rs[i].now >= rs[j].server - rs[i].server - 1000
  }

  /** The key is as it would be without expiry, or it expires only when every reading still to come
      is past the stored time. */
  ghost predicate ExpiryHarmless(cfg: Config, key: Key, tat: real, rs: seq<Request>)
    requires cfg.Valid()
  {
    && (key.Absent? ==> tat == 0.0)
    && (key.Present? ==>
          key.tat == tat
          && forall i :: 0 <= i < |rs| && rs[i].server >= key.expires ==> tat <= rs[i].now as real)
    && (forall i :: 0 <= i < |rs| ==> rs[i].now >= 0)
  }

  lemma ExpiryStep(cfg: Config, key: Key, tat: real, rs: seq<Request>)
    requires cfg.Valid() && rs != [] && SkewWithinSecond(rs) && ExpiryHarmless(cfg, key, tat, rs)
    ensures Script(cfg, Stored(key, rs[0].server), rs[0].now).reply == Script(cfg, tat, rs[0].now).reply
    ensures ExpiryHarmless(cfg, ExpiringStep(cfg, key, rs[0]), Script(cfg, tat, rs[0].now).tat, rs[1..])
  {
    var r := rs[0];
    var stored := Stored(key, r.server);
    assert Max(stored, r.now as real) == Max(tat, r.now as real);
    GrantMoves(cfg, tat, r.now);
    if Grants(cfg, tat, r.now) {
      forall i | 1 <= i < |rs| && rs[i].server >= r.server + Ttl(cfg)
        ensures Script(cfg, tat, r.now).tat <= rs[i].now as real
      {
        assert rs[i].now - r.now >= rs[i].server - r.server - 1000;
        assert Ttl(cfg) as real >= cfg.Dvt() + 1000.0;
      }
    }
  }

  lemma {:induction false} ExpiryNeverMatters(cfg: Config, key: Key, tat: real, rs: seq<Request>)
    requires cfg.Valid() && SkewWithinSecond(rs) && ExpiryHarmless(cfg, key, tat, rs)
    ensures ExpiringRun(cfg, key, rs) == KeepingRun(cfg, tat, rs)
    decreases rs
  {
    if rs != [] {
      ExpiryStep(cfg, key, tat, rs);
      ExpiryNeverMatters(cfg, ExpiringStep(cfg, key, rs[0]), Script(cfg, tat, rs[0].now).tat, rs[1..]);
    }
  }

  /** With client clocks at most a second apart, letting the key expire after ceil(dvt + 1000) ms
      changes no grant, no denial and no hint of any request sequence. */
  lemma {:induction false} ExpiryChangesNothing(cfg: Config, rs: seq<Request>)
    requires cfg.Valid() && SkewWithinSecond(rs) && forall i :: 0 <= i < |rs| ==> rs[i].now >= 0
    ensures ExpiringRun(cfg, Absent, rs) == KeepingRun(cfg, 0.0, rs)
  {
    ExpiryNeverMatters(cfg, Absent, 0.0, rs);
  }
}
