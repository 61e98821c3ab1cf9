/** The rotation check taken apart: a session reads the revocation table, and inserts later. The
    insert swallows a duplicate key, so the table's uniqueness alone stops nobody. */
module RefreshOverlap {
  import R = RefreshRotation

  datatype Event =
    | Check(session: nat, token: R.Token)        // reads family and jti; refuses, or goes on
    | Record(session: nat, jti: string)          // INSERT, duplicate ignored; the user is looked up; commit
    | Abandon(session: nat)                      // crash, cancellation or rollback
    | Other(event: R.Event)                      // a login, a logout or a change of a user

  /** `reading`: sessions that have read and not yet inserted. */
  datatype State = State(db: R.State, reading: map<nat, R.Token>)

  const INITIAL := State(R.INITIAL, map[])

  /** `keeps` is as in RefreshRotation; `exclusive`: nobody checks a jti that another session has
      checked and not yet recorded. */
  datatype Env = Env(keeps: bool, exclusive: bool)

  predicate Enabled(env: Env, s: State, e: Event) {
    match e
    case Check(session, t) =>
      session !in s.reading && t in s.db.issued && (env.exclusive ==> Unread(s, t.jti))
    case Record(session, jti) => session in s.reading && R.Fresh(s.db, jti)
    case Abandon(session) => session in s.reading
    case Other(event) => !event.Refresh? && R.Enabled(s.db, event)
  }

  predicate Unread(s: State, jti: string) {
    forall a <- s.reading :: s.reading[a].jti != jti
  }

  /** Whether the session's refresh goes through. */
  predicate Passes(s: State, session: nat)
    requires session in s.reading
  {
    s.reading[session].user in s.db.active
  }

  function Next(env: Env, s: State, e: Event): State
    requires Enabled(env, s, e)
  {
    match e
    case Check(session, t) =>
      (match R.Judge(s.db, t)
       case FamilyRevoked => s
       case ReuseDetected => if env.keeps then s.(db := s.db.(rows := s.db.rows + {R.Sentinel(t.family)})) else s
       case _ => s.(reading := s.reading[session := t]))
    case Record(session, jti) =>
      var t := s.reading[session];
      if Passes(s, session) then
        State(s.db.(rows := s.db.rows + {t.jti}, issued := s.db.issued + {R.Token(jti, t.family, t.user)}),
              s.reading - {session})
      else
        State(if env.keeps then s.db.(rows := s.db.rows + {t.jti, R.Sentinel(t.family)}) else s.db,
              s.reading - {session})
    case Abandon(session) => s.(reading := s.reading - {session})
    case Other(event) => s.(db := R.Next(env.keeps, s.db, event))
  }

  predicate Run(env: Env, s: State, events: seq<Event>)
    decreases events
  {
    events == [] || (Enabled(env, s, events[0]) && Run(env, Next(env, s, events[0]), events[1..]))
  }

  function After(env: Env, s: State, events: seq<Event>): State
    requires Run(env, s, events)
    decreases events
  {
    if events == [] then s else After(env, Next(env, s, events[0]), events[1..])
  }

  predicate Accepts(s: State, e: Event) {
    e.Record? && e.session in s.reading && Passes(s, e.session)
  }

  /** The tokens whose sessions went through, in order. */
  function Accepted(env: Env, s: State, events: seq<Event>): seq<R.Token>
    requires Run(env, s, events)
    decreases events
  {
    if events == [] then []
    else (if Accepts(s, events[0]) then [s.reading[events[0].session]] else [])
         + Accepted(env, Next(env, s, events[0]), events[1..])
  }

  // ---- One session at a time ----------------------------------------------------------------------

  /** What becomes of a session that is not interrupted by another one. */
  function Whole(env: Env, s: State, session: nat, t: R.Token, jti: string): State
    requires Enabled(env, s, Check(session, t)) && R.Fresh(s.db, jti)
  {
    var s1 := Next(env, s, Check(session, t));
    if session in s1.reading then Next(env, s1, Record(session, jti)) else s1
  }

  /** Check and record without anything in between are the atomic refresh, with its verdict, rows
      and successor; a session that passes its check and is abandoned is the refresh whose commit
      fails. */
  lemma AloneIsAtomic(env: Env, s: State, session: nat, t: R.Token, jti: string)
    requires Enabled(env, s, Check(session, t)) && R.Fresh(s.db, jti)
    ensures var e := R.Refresh(t, true, R.NoFault, jti);
      && R.Enabled(s.db, e) && Whole(env, s, session, t, jti) == State(R.Next(env.keeps, s.db, e), s.reading)
      && var s1 := Next(env, s, Check(session, t));
         (session in s1.reading && Accepts(s1, Record(session, jti)) <==> R.Yields(s.db, e))
    ensures R.Judge(s.db, t).Passed? ==>
      var s1 := Next(env, s, Check(session, t)); var failed := R.Refresh(t, true, R.CommitFails, jti);
      && Enabled(env, s1, Abandon(session))
      && Next(env, s1, Abandon(session)) == State(R.Next(env.keeps, s.db, failed), s.reading)
  {
    assert s.reading[session := t] - {session} == s.reading;
  }

  // ---- With exclusive checks --------------------------------------------------------------------

  /** Each jti is being read by one session at most, and only while it is not recorded. */
  ghost predicate Apart(s: State) {
    && R.Chained(s.db)
    && (forall a <- s.reading, b <- s.reading :: s.reading[a].jti == s.reading[b].jti ==> a == b)
    && (forall a <- s.reading :: s.reading[a] in s.db.issued && s.reading[a].jti !in s.db.rows)
  }

  lemma MoreRows(s: State, rows: set<string>, t: R.Token)
    requires Apart(s) && t in s.db.issued && Unread(s, t.jti)
    requires s.db.rows <= rows <= s.db.rows + {t.jti, R.Sentinel(t.family)}
    ensures Apart(s.(db := s.db.(rows := rows)))
  {
    R.SentinelIsNoJti(t.family);
    R.MoreRowsChained(s.db, rows, t);
  }

  lemma CheckApart(env: Env, s: State, session: nat, t: R.Token)
    requires Apart(s) && env.exclusive && Enabled(env, s, Check(session, t))
    ensures Apart(Next(env, s, Check(session, t)))
  {
    if R.Judge(s.db, t).ReuseDetected? && env.keeps {
      MoreRows(s, s.db.rows + {R.Sentinel(t.family)}, t);
    }
  }

  lemma Withdrawn(s: State, session: nat)
    requires Apart(s) && session in s.reading
    ensures var s' := s.(reading := s.reading - {session}); Apart(s') && Unread(s', s.reading[session].jti)
  {
  }

  /** The consumed token is its family's only candidate, so its successor is the only one after it. */
  lemma OthersOut(s: R.State, t: R.Token)
    requires R.Chained(s) && t in s.issued && t.jti !in s.rows
    ensures var s1 := s.(rows := s.rows + {t.jti});
      forall u <- s1.issued :: u.family == t.family ==> u.user == t.user && !R.Acceptable(s1, u)
  {
    var s1 := s.(rows := s.rows + {t.jti});
    forall u <- s1.issued | u.family == t.family ensures !R.Acceptable(s1, u) {
      assert R.Acceptable(s1, u) ==> R.Acceptable(s, u) && R.Acceptable(s, t);
    }
  }

  lemma RecordApart(env: Env, s: State, session: nat, jti: string)
    requires Apart(s) && Enabled(env, s, Record(session, jti))
    ensures Apart(Next(env, s, Record(session, jti)))
  {
    var t, s0 := s.reading[session], s.(reading := s.reading - {session});
    Withdrawn(s, session);
    if Passes(s, session) {
      MoreRows(s0, s.db.rows + {t.jti}, t);
      OthersOut(s.db, t);
      R.MintChained(s.db.(rows := s.db.rows + {t.jti}), R.Token(jti, t.family, t.user));
    } else if env.keeps {
      MoreRows(s0, s.db.rows + {t.jti, R.Sentinel(t.family)}, t);
    }
  }

  lemma OtherApart(env: Env, s: State, event: R.Event)
    requires Apart(s) && Enabled(env, s, Other(event))
    ensures Apart(Next(env, s, Other(event)))
  {
    R.StepChained(env.keeps, s.db, event);
    if event.Logout? {
      R.SentinelIsNoJti(event.token.family);
    }
  }

  lemma StepApart(env: Env, s: State, e: Event)
    requires Apart(s) && env.exclusive && Enabled(env, s, e)
    ensures Apart(Next(env, s, e))
  {
    match e
    case Check(session, t) => CheckApart(env, s, session, t);
    case Record(session, jti) => RecordApart(env, s, session, jti);
    case Abandon(session) => Withdrawn(s, session);
    case Other(event) => OtherApart(env, s, event);
  }

  lemma {:induction false} RunApart(env: Env, s: State, events: seq<Event>)
    requires Apart(s) && env.exclusive && Run(env, s, events)
    ensures Apart(After(env, s, events))
    decreases events
  {
    if events != [] {
      StepApart(env, s, events[0]);
      RunApart(env, Next(env, s, events[0]), events[1..]);
    }
  }

  lemma RowsOnlyGrow(env: Env, s: State, e: Event)
    requires Enabled(env, s, e)
    ensures s.db.rows <= Next(env, s, e).db.rows
    ensures Accepts(s, e) ==> s.reading[e.session].jti in Next(env, s, e).db.rows
  {
  }

  lemma {:induction false} RecordedNeverAccepted(env: Env, s: State, events: seq<Event>, jti: string)
    requires Apart(s) && env.exclusive && Run(env, s, events) && jti in s.db.rows
    ensures forall t <- Accepted(env, s, events) :: t.jti != jti
    decreases events
  {
    if events != [] {
      RowsOnlyGrow(env, s, events[0]);
      StepApart(env, s, events[0]);
      RecordedNeverAccepted(env, Next(env, s, events[0]), events[1..], jti);
    }
  }

  /** With exclusive checks no jti is accepted twice. */
  lemma {:induction false} AcceptedOnce(env: Env, s: State, events: seq<Event>)
    requires Apart(s) && env.exclusive && Run(env, s, events)
    ensures R.NoJtiTwice(Accepted(env, s, events))
    decreases events
  {
    if events != [] {
      var s', e := Next(env, s, events[0]), events[0];
      StepApart(env, s, e);
      RowsOnlyGrow(env, s, e);
      AcceptedOnce(env, s', events[1..]);
      var rest := Accepted(env, s', events[1..]);
      if Accepts(s, e) {
        RecordedNeverAccepted(env, s', events[1..], s.reading[e.session].jti);
        FirstIsNew(s.reading[e.session], rest);
      } else {
        assert Accepted(env, s, events) == rest;
      }
    }
  }

  lemma FirstIsNew(first: R.Token, rest: seq<R.Token>)
    requires R.NoJtiTwice(rest) && forall t <- rest :: t.jti != first.jti
    ensures R.NoJtiTwice([first] + rest)
  {
  }

  // ---- Without ------------------------------------------------------------------------------------

  /** No family has two tokens that would be accepted. */
  ghost predicate OneEach(s: State) {
    forall t, u :: R.Acceptable(s.db, t) && R.Acceptable(s.db, u) && t.family == u.family ==> t == u
  }

  lemma Before(env: Env, s: State, e: Event, rest: seq<Event>) returns (events: seq<Event>)
    requires Enabled(env, s, e) && Run(env, Next(env, s, e), rest)
    ensures Run(env, s, events) && After(env, s, events) == After(env, Next(env, s, e), rest)
    ensures Accepted(env, s, events)
         == (if Accepts(s, e) then [s.reading[e.session]] else []) + Accepted(env, Next(env, s, e), rest)
  {
    events := [e] + rest;
    assert events[1..] == rest;
  }

  const FIRST := R.Token("a", "f", "u")
  const SECOND := R.Token("b", "f", "u")
  const THIRD := R.Token("c", "f", "u")
  const LOGGED_IN := State(R.State({}, {"u"}, {FIRST}), map[])
  const FORKED := State(R.State({"a"}, {"u"}, {FIRST, SECOND, THIRD}), map[])

  lemma Letters()
    ensures R.UrlSafe("a") && R.UrlSafe("b") && R.UrlSafe("c")
    ensures FIRST.jti != SECOND.jti && FIRST.jti != THIRD.jti && SECOND != THIRD
    ensures forall family :: R.Sentinel(family) != "a" && R.Sentinel(family) != "b" && R.Sentinel(family) != "c"
  {
    assert "a"[0] == 'a' && "b"[0] == 'b' && "c"[0] == 'c';
    forall family ensures !R.UrlSafe(R.Sentinel(family)) {
      R.SentinelIsNoJti(family);
    }
  }

  lemma TwoSessions(env: Env) returns (events: seq<Event>)
    requires !env.exclusive
    ensures Run(env, LOGGED_IN, events) && After(env, LOGGED_IN, events) == FORKED
    ensures Accepted(env, LOGGED_IN, events) == [FIRST, FIRST]
  {
    Letters();
    var s3 := LOGGED_IN.(reading := map[0 := FIRST]);
    var s4 := LOGGED_IN.(reading := map[0 := FIRST, 1 := FIRST]);
    var s5 := State(R.State({"a"}, {"u"}, {FIRST, SECOND}), map[1 := FIRST]);
    assert Next(env, LOGGED_IN, Check(0, FIRST)) == s3 && Next(env, s3, Check(1, FIRST)) == s4;
    assert Next(env, s4, Record(0, "b")) == s5 && Next(env, s5, Record(1, "c")) == FORKED;
    events := Before(env, s5, Record(1, "c"), []);
    events := Before(env, s4, Record(0, "b"), events);
    events := Before(env, s3, Check(1, FIRST), events);
    events := Before(env, LOGGED_IN, Check(0, FIRST), events);
  }

  /** Two sessions check one token before either records it: both go through, and each leaves a
      successor that will be accepted. */
  lemma BothGoThrough(env: Env) returns (events: seq<Event>)
    requires !env.exclusive
    ensures Run(env, INITIAL, events) && !OneEach(After(env, INITIAL, events))
    ensures Accepted(env, INITIAL, events) == [FIRST, FIRST]
  {
    Letters();
    var awake, login := R.SetActive("u", true), R.Login("u", "a", "f", true);
    var s1 := State(R.State({}, {"u"}, {}), map[]);
    assert Next(env, INITIAL, Other(awake)) == s1 && Next(env, s1, Other(login)) == LOGGED_IN;
    events := TwoSessions(env);
    events := Before(env, s1, Other(login), events);
    events := Before(env, INITIAL, Other(awake), events);
    assert R.Acceptable(FORKED.db, SECOND) && R.Acceptable(FORKED.db, THIRD);
  }

  ghost predicate Once(env: Env, events: seq<Event>) {
    Run(env, INITIAL, events) ==> R.NoJtiTwice(Accepted(env, INITIAL, events))
  }

  ghost predicate OneAcceptable(env: Env, events: seq<Event>) {
    Run(env, INITIAL, events) ==> OneEach(After(env, INITIAL, events))
  }

  /** At-most-once acceptance needs exactly what the code does not enforce: that checks of one jti
      do not overlap. */
  lemma OnceExactly(env: Env)
    ensures (forall events :: Once(env, events)) <==> env.exclusive
  {
    if env.exclusive {
      forall events | Run(env, INITIAL, events) ensures R.NoJtiTwice(Accepted(env, INITIAL, events)) {
        AcceptedOnce(env, INITIAL, events);
      }
    } else {
      var events := BothGoThrough(env);
      var a := Accepted(env, INITIAL, events);
      assert a[0].jti == a[1].jti && !R.NoJtiTwice(a);
      assert !Once(env, events);
    }
  }

  /** And so does the chain: every family has at most one token that would be accepted, in every
      reachable state, if and only if checks of one jti do not overlap. */
  lemma OnePerFamilyExactly(env: Env)
    ensures (forall events :: OneAcceptable(env, events)) <==> env.exclusive
  {
    if env.exclusive {
      forall events | Run(env, INITIAL, events) ensures OneEach(After(env, INITIAL, events)) {
        RunApart(env, INITIAL, events);
      }
    } else {
      var events := BothGoThrough(env);
      assert !OneAcceptable(env, events);
    }
  }
}
