/** Refresh-token rotation over whole runs of logins, refreshes, logouts and user changes. */
module RefreshRotation {
  import opened Basics

  /** The claims of a refresh token. Expiry is an input of each request instead. */
  datatype Token = Token(jti: string, family: string, user: string)

  /** What goes wrong inside a request's database session, besides a refusal. */
  datatype Fault = NoFault | BlockRaises | CommitFails

  datatype Verdict = Passed | FamilyRevoked | ReuseDetected | UserInactive

  datatype Event =
    | Login(user: string, jti: string, family: string, admitted: bool)
    | Refresh(token: Token, readable: bool, fault: Fault, jti: string)
    | Logout(token: Token, readable: bool, fault: Fault)
    | SetActive(user: string, active: bool)

  datatype State = State(
    rows: set<string>,       // keys of revoked_refresh_jti
    active: set<string>,     // users that may still refresh
    issued: set<Token>       // every refresh token ever minted
  )

  const INITIAL := State({}, {}, {})

  /** The row that marks a whole family. */
  function Sentinel(family: string): string {
    "family-revoked:" + family
  }

  /** A minted jti is URL-safe base64: it holds no colon. */
  predicate UrlSafe(jti: string) {
    ':' !in jti
  }

  predicate Fresh(s: State, jti: string) {
    UrlSafe(jti) && forall t <- s.issued :: t.jti != jti
  }

  /** Tokens are signed, so a readable one was minted; minted ids are new. */
  predicate Enabled(s: State, e: Event) {
    match e
    case Login(_, jti, family, _) => Fresh(s, jti) && forall t <- s.issued :: t.family != family
    case Refresh(t, readable, _, jti) => (readable ==> t in s.issued) && Fresh(s, jti)
    case Logout(t, readable, _) => readable ==> t in s.issued
    case SetActive(_, _) => true
  }

  function Judge(s: State, t: Token): Verdict {
    if Sentinel(t.family) in s.rows then FamilyRevoked
    else if t.jti in s.rows then ReuseDetected
    else if t.user !in s.active then UserInactive
    else Passed
  }

  /** The rows as the session sees them when its block ends. */
  function Written(s: State, t: Token): set<string> {
    match Judge(s, t)
    case FamilyRevoked => s.rows
    case ReuseDetected => s.rows + {Sentinel(t.family)}
    case UserInactive => s.rows + {t.jti, Sentinel(t.family)}
    case Passed => s.rows + {t.jti}
  }

  /** What a session leaves behind. `keeps` says whether the session factory keeps the writes of a
      block that raises; the production one rolls them back. */
  function Settled(keeps: bool, before: set<string>, written: set<string>, raises: bool, fault: Fault): set<string> {
    if raises || fault.BlockRaises? then (if keeps then written else before)
    else if fault.CommitFails? then before
    else written
  }

  /** Whether the step hands out a successor of a presented token. */
  predicate Yields(s: State, e: Event) {
    e.Refresh? && e.readable && Judge(s, e.token).Passed? && e.fault.NoFault?
  }

  function Next(keeps: bool, s: State, e: Event): State
    requires Enabled(s, e)
  {
    match e
    case Login(user, jti, family, admitted) =>
      if admitted then s.(issued := s.issued + {Token(jti, family, user)}) else s
    case Refresh(t, readable, fault, jti) =>
      if !readable then s
      else s.(rows := Settled(keeps, s.rows, Written(s, t), !Judge(s, t).Passed?, fault),
              issued := if Yields(s, e) then s.issued + {Token(jti, t.family, t.user)} else s.issued)
    case Logout(t, readable, fault) =>
      if !readable then s
      else s.(rows := Settled(keeps, s.rows, s.rows + {Sentinel(t.family)}, false, fault))
    case SetActive(user, active) =>
      s.(active := if active then s.active + {user} else s.active - {user})
  }

  predicate Run(keeps: bool, s: State, events: seq<Event>)
    decreases events
  {
    events == [] || (Enabled(s, events[0]) && Run(keeps, Next(keeps, s, events[0]), events[1..]))
  }

  function After(keeps: bool, s: State, events: seq<Event>): State
    requires Run(keeps, s, events)
    decreases events
  {
    if events == [] then s else After(keeps, Next(keeps, s, events[0]), events[1..])
  }

  /** The tokens that a run accepts, in order. */
  function Accepted(keeps: bool, s: State, events: seq<Event>): seq<Token>
    requires Run(keeps, s, events)
    decreases events
  {
    if events == [] then []
    else (if Yields(s, events[0]) then [events[0].token] else [])
         + Accepted(keeps, Next(keeps, s, events[0]), events[1..])
  }

  // ---- No token is accepted twice -----------------------------------------------------------

  lemma RowsOnlyGrow(keeps: bool, s: State, e: Event)
    requires Enabled(s, e)
    ensures s.rows <= Next(keeps, s, e).rows && s.issued <= Next(keeps, s, e).issued
    ensures Yields(s, e) ==> e.token.jti !in s.rows && e.token.jti in Next(keeps, s, e).rows
  {
  }

  lemma {:induction false} ConsumedNeverAccepted(keeps: bool, s: State, events: seq<Event>, jti: string)
    requires Run(keeps, s, events) && jti in s.rows
    ensures forall t <- Accepted(keeps, s, events) :: t.jti != jti
    decreases events
  {
    if events != [] {
      RowsOnlyGrow(keeps, s, events[0]);
      ConsumedNeverAccepted(keeps, Next(keeps, s, events[0]), events[1..], jti);
    }
  }

  predicate NoJtiTwice(a: seq<Token>) {
    forall i, j :: 0 <= i < j < |a| ==> a[i].jti != a[j].jti
  }

  /** Over any run, whatever becomes of raised writes, no jti is accepted twice. */
  lemma {:induction false} AcceptedOnce(keeps: bool, s: State, events: seq<Event>)
    requires Run(keeps, s, events)
    ensures NoJtiTwice(Accepted(keeps, s, events))
    decreases events
  {
    if events != [] {
      var s' := Next(keeps, s, events[0]);
      AcceptedOnce(keeps, s', events[1..]);
      RowsOnlyGrow(keeps, s, events[0]);
      var a, rest := Accepted(keeps, s, events), Accepted(keeps, s', events[1..]);
      if Yields(s, events[0]) {
        ConsumedNeverAccepted(keeps, s', events[1..], events[0].token.jti);
        assert a == [events[0].token] + rest;
        forall i, j | 0 <= i < j < |a| ensures a[i].jti != a[j].jti {
          assert a[j] == rest[j - 1] && rest[j - 1] in rest;
          assert i > 0 ==> a[i] == rest[i - 1];
        }
      } else {
        assert a == rest;
      }
    }
  }

  // ---- A family is one chain ------------------------------------------------------------------

  /** Neither consumed nor in a revoked family. */
  predicate Acceptable(s: State, t: Token) {
    t in s.issued && t.jti !in s.rows && Sentinel(t.family) !in s.rows
  }

  ghost predicate Chained(s: State) {
    && (forall t <- s.issued :: UrlSafe(t.jti))
    && (forall t <- s.issued, u <- s.issued :: t.jti == u.jti ==> t == u)
    && (forall t <- s.issued, u <- s.issued :: t.family == u.family ==> t.user == u.user)
    && (forall r <- s.rows :: UrlSafe(r) ==> exists t <- s.issued :: t.jti == r)
    && (forall t, u :: Acceptable(s, t) && Acceptable(s, u) && t.family == u.family ==> t == u)
  }

  lemma SentinelIsNoJti(family: string)
    ensures !UrlSafe(Sentinel(family))
    ensures forall other :: Sentinel(other) == Sentinel(family) ==> other == family
  {
    assert "family-revoked:"[14] == ':' && Sentinel(family)[14] == ':';
    forall other | Sentinel(other) == Sentinel(family) ensures other == family {
      assert Sentinel(other)[15..] == other && Sentinel(family)[15..] == family;
    }
  }

  lemma MoreRowsChained(s: State, rows: set<string>, t: Token)
    requires Chained(s) && t in s.issued
    requires s.rows <= rows <= s.rows + {t.jti, Sentinel(t.family)}
    ensures Chained(s.(rows := rows))
  {
    SentinelIsNoJti(t.family);
    var s' := s.(rows := rows);
    forall u | Acceptable(s', u) ensures Acceptable(s, u) {
    }
    forall r <- rows | UrlSafe(r) ensures exists u <- s.issued :: u.jti == r {
      if r !in s.rows {
        assert r == t.jti;
      }
    }
  }

  lemma MintChained(s: State, t: Token)
    requires Chained(s) && Fresh(s, t.jti)
    requires forall u <- s.issued :: u.family == t.family ==> u.user == t.user && !Acceptable(s, u)
    ensures Chained(s.(issued := s.issued + {t}))
  {
    var s' := s.(issued := s.issued + {t});
    forall r <- s.rows | UrlSafe(r) ensures exists u <- s'.issued :: u.jti == r {
      var u :| u in s.issued && u.jti == r;
      assert u in s'.issued;
    }
    forall u | Acceptable(s', u) && u != t ensures Acceptable(s, u) {
    }
  }

  lemma StepChained(keeps: bool, s: State, e: Event)
    requires Chained(s) && Enabled(s, e)
    ensures Chained(Next(keeps, s, e))
  {
    match e
    case Login(user, jti, family, admitted) =>
      if admitted {
        MintChained(s, Token(jti, family, user));
      }
    case Refresh(t, readable, fault, jti) =>
      if readable {
        var s1 := s.(rows := Next(keeps, s, e).rows);
        MoreRowsChained(s, s1.rows, t);
        if Yields(s, e) {
          SuccessorIsTheOnlyOne(s, s1, t);
          MintChained(s1, Token(jti, t.family, t.user));
        }
      }
    case Logout(t, readable, fault) =>
      if readable {
        MoreRowsChained(s, Next(keeps, s, e).rows, t);
      }
    case SetActive(user, active) =>
      var s' := Next(keeps, s, e);
      forall u ensures Acceptable(s', u) == Acceptable(s, u) {
      }
  }

  lemma SuccessorIsTheOnlyOne(s: State, s1: State, t: Token)
    requires Chained(s) && Acceptable(s, t) && s1 == s.(rows := s.rows + {t.jti})
    ensures forall u <- s1.issued :: u.family == t.family ==> u.user == t.user && !Acceptable(s1, u)
  {
    forall u <- s1.issued | u.family == t.family ensures !Acceptable(s1, u) {
      if Acceptable(s1, u) {
        assert Acceptable(s, u);
        assert false;
      }
    }
  }

  lemma {:induction false} RunChained(keeps: bool, s: State, events: seq<Event>)
    requires Chained(s) && Run(keeps, s, events)
    ensures Chained(After(keeps, s, events))
    decreases events
  {
    if events != [] {
      StepChained(keeps, s, events[0]);
      RunChained(keeps, Next(keeps, s, events[0]), events[1..]);
    }
  }

  /** In every reachable state a family has at most one token that would be accepted. */
  lemma OneAcceptablePerFamily(keeps: bool, events: seq<Event>, t: Token, u: Token)
    requires Run(keeps, INITIAL, events)
    requires Acceptable(After(keeps, INITIAL, events), t) && Acceptable(After(keeps, INITIAL, events), u)
    requires t.family == u.family
    ensures t == u
  {
    RunChained(keeps, INITIAL, events);
  }

  /** An accepted token hands its place to its successor: the family then has exactly that one. */
  lemma SuccessorTakesOver(keeps: bool, s: State, e: Event)
    requires Chained(s) && Enabled(s, e) && Yields(s, e)
    ensures var s' := Next(keeps, s, e);
      forall t :: (Acceptable(s', t) && t.family == e.token.family)
                  <==> t == Token(e.jti, e.token.family, e.token.user)
  {
    var s', heir := Next(keeps, s, e), Token(e.jti, e.token.family, e.token.user);
    SentinelIsNoJti(heir.family);
    assert Acceptable(s', heir);
    StepChained(keeps, s, e);
  }

  // ---- Which families are dead ----------------------------------------------------------------

  /** No token of the family would be accepted. */
  ghost predicate Dead(s: State, family: string) {
    (exists t <- s.issued :: t.family == family) && forall t :: Acceptable(s, t) ==> t.family != family
  }

  /** No run from here accepts a token of the family. */
  ghost predicate NeverYields(keeps: bool, s: State, family: string) {
    forall events | Run(keeps, s, events) :: forall t <- Accepted(keeps, s, events) :: t.family != family
  }

  lemma DeadStaysDead(keeps: bool, s: State, e: Event, family: string)
    requires Dead(s, family) && Enabled(s, e)
    ensures Dead(Next(keeps, s, e), family) && (Yields(s, e) ==> e.token.family != family)
  {
    RowsOnlyGrow(keeps, s, e);
    var s' := Next(keeps, s, e);
    var known :| known in s.issued && known.family == family;
    assert known in s'.issued;
    assert Yields(s, e) ==> Acceptable(s, e.token);
    forall t | Acceptable(s', t) ensures t.family != family {
      if t in s.issued {
        assert Acceptable(s, t);
      }
    }
  }

  lemma {:induction false} DeadAcceptsNothing(keeps: bool, s: State, events: seq<Event>, family: string)
    requires Dead(s, family) && Run(keeps, s, events)
    ensures forall t <- Accepted(keeps, s, events) :: t.family != family
    decreases events
  {
    if events != [] {
      DeadStaysDead(keeps, s, events[0], family);
      DeadAcceptsNothing(keeps, Next(keeps, s, events[0]), events[1..], family);
    }
  }

  lemma {:induction false} LengthBound(used: set<string>) returns (n: nat)
    ensures forall u <- used :: |u| < n
  {
    n := 0;
    if used != {} {
      var u :| u in used;
      var m := LengthBound(used - {u});
      n := if m > |u| then m else |u| + 1;
      forall v <- used ensures |v| < n {
        assert v == u || v in used - {u};
      }
    }
  }

  lemma FreshJti(s: State) returns (jti: string)
    ensures Fresh(s, jti)
  {
    var used := set t <- s.issued :: t.jti;
    var n := LengthBound(used);
    jti := seq(n, _ => 'a');
    forall t <- s.issued ensures t.jti != jti {
      assert t.jti in used;
    }
  }

  /** An acceptable token can be spent: its user is made active and it is presented. */
  lemma AcceptableCanBeSpent(keeps: bool, s: State, t: Token) returns (events: seq<Event>)
    requires Acceptable(s, t)
    ensures Run(keeps, s, events) && t in Accepted(keeps, s, events)
  {
    var jti := FreshJti(s);
    var wake, spend := SetActive(t.user, true), Refresh(t, true, NoFault, jti);
    var s1 := Next(keeps, s, wake);
    var s2 := Next(keeps, s1, spend);
    assert Yields(s1, spend);
    assert Run(keeps, s2, []);
    assert [spend][1..] == [] && Run(keeps, s1, [spend]);
    assert Accepted(keeps, s1, [spend]) == [t] + Accepted(keeps, s2, []);
    events := [wake, spend];
    assert events[1..] == [spend] && Run(keeps, s, events);
    assert Accepted(keeps, s, events) == [] + Accepted(keeps, s1, [spend]);
    assert Accepted(keeps, s, events)[0] == t;
  }

  /** Dead is exactly never to yield again, whatever requests and faults follow. */
  lemma DeadExactly(keeps: bool, s: State, family: string)
    requires exists t <- s.issued :: t.family == family
    ensures Dead(s, family) <==> NeverYields(keeps, s, family)
  {
    if Dead(s, family) {
      forall events | Run(keeps, s, events)
        ensures forall t <- Accepted(keeps, s, events) :: t.family != family
      {
        DeadAcceptsNothing(keeps, s, events, family);
      }
    } else {
      var t :| Acceptable(s, t) && t.family == family;
      var events := AcceptableCanBeSpent(keeps, s, t);
      assert t in Accepted(keeps, s, events) && t.family == family;
    }
  }

  /** A logout that returns kills its family for good. */
  lemma LogoutKills(keeps: bool, s: State, e: Event)
    requires Enabled(s, e) && e.Logout? && e.readable && e.fault.NoFault?
    ensures NeverYields(keeps, Next(keeps, s, e), e.token.family)
  {
    var s' := Next(keeps, s, e);
    assert e.token in s'.issued;
    DeadExactly(keeps, s', e.token.family);
  }

  /** A refusal kills the family for good exactly when raised writes are kept or the family was
      dead before: the production session rolls the family's revocation back. */
  lemma RefusalKillsExactly(keeps: bool, s: State, e: Event)
    requires Enabled(s, e) && e.Refresh? && e.readable && !Judge(s, e.token).Passed?
    ensures NeverYields(keeps, Next(keeps, s, e), e.token.family) <==> keeps || Dead(s, e.token.family)
  {
    var s', t := Next(keeps, s, e), e.token;
    assert t in s'.issued;
    DeadExactly(keeps, s', t.family);
    if keeps {
      assert Sentinel(t.family) in s'.rows;
    } else {
      assert s' == s;
    }
  }

  lemma Before(keeps: bool, s: State, e: Event, rest: seq<Event>) returns (events: seq<Event>)
    requires Enabled(s, e) && Run(keeps, Next(keeps, s, e), rest)
    ensures Run(keeps, s, events) && After(keeps, s, events) == After(keeps, Next(keeps, s, e), rest)
  {
    events := [e] + rest;
    assert events[1..] == rest;
  }

  /** The run that a production deployment allows: the first token is replayed, the replay is
      detected and refused, and the family's successor is accepted all the same. */
  lemma ReplayedFamilyLivesOn(user: string) returns (s: State, replay: Event, next: Event)
    ensures exists events :: Run(false, INITIAL, events) && After(false, INITIAL, events) == s
    ensures Enabled(s, replay) && replay.Refresh? && replay.readable && Judge(s, replay.token).ReuseDetected?
    ensures var s' := Next(false, s, replay);
      Enabled(s', next) && Yields(s', next) && next.token.family == replay.token.family
  {
    var first, second := Token("a", "f", user), Token("b", "f", user);
    var e0, e1, e2 := SetActive(user, true), Login(user, "a", "f", true), Refresh(first, true, NoFault, "b");
    var s1 := State({}, {user}, {});
    var s2 := State({}, {user}, {first});
    s := State({"a"}, {user}, {first, second});
    replay, next := Refresh(first, true, NoFault, "c"), Refresh(second, true, NoFault, "c");
    SentinelIsNoJti("f");
    assert UrlSafe("a") && UrlSafe("b") && UrlSafe("c");
    assert Next(false, INITIAL, e0) == s1;
    assert Next(false, s1, e1) == s2;
    assert Next(false, s2, e2) == s;
    var events := Before(false, s2, e2, []);
    events := Before(false, s1, e1, events);
    events := Before(false, INITIAL, e0, events);
    assert Next(false, s, replay) == s;
  }

  // ---- What a verdict says about the past -------------------------------------------------------

  predicate LoggedOut(events: seq<Event>, family: string) {
    exists e <- events :: e.Logout? && e.readable && e.fault.NoFault? && e.token.family == family
  }

  ghost predicate Spent(s: State, events: seq<Event>, jti: string)
    requires Run(false, s, events)
  {
    exists t <- Accepted(false, s, events) :: t.jti == jti
  }

  lemma RolledBackStep(s: State, e: Event, jti: string, family: string)
    requires Chained(s) && Enabled(s, e) && UrlSafe(jti)
    ensures var s' := Next(false, s, e);
      && (jti in s'.rows <==> jti in s.rows || (Yields(s, e) && e.token.jti == jti))
      && (Sentinel(family) in s'.rows <==> Sentinel(family) in s.rows || LoggedOut([e], family))
  {
    SentinelIsNoJti(family);
    if e.Logout? {
      SentinelIsNoJti(e.token.family);
      assert e.readable && e.fault.NoFault? && e.token.family == family ==> e in [e];
    }
  }

  lemma {:induction false} RowsSay(s: State, events: seq<Event>, jti: string, family: string)
    requires Chained(s) && Run(false, s, events) && UrlSafe(jti)
    ensures var end := After(false, s, events);
      && (jti in end.rows <==> jti in s.rows || Spent(s, events, jti))
      && (Sentinel(family) in end.rows <==> Sentinel(family) in s.rows || LoggedOut(events, family))
    decreases events
  {
    if events != [] {
      var e, s' := events[0], Next(false, s, events[0]);
      StepChained(false, s, e);
      RolledBackStep(s, e, jti, family);
      RowsSay(s', events[1..], jti, family);
      var rest := Accepted(false, s', events[1..]);
      assert Accepted(false, s, events) == (if Yields(s, e) then [e.token] else []) + rest;
      assert events == [e] + events[1..];
      assert LoggedOut(events, family) <==> LoggedOut([e], family) || LoggedOut(events[1..], family);
      assert Spent(s, events, jti) <==> (Yields(s, e) && e.token.jti == jti) || Spent(s', events[1..], jti) by {
        assert Yields(s, e) ==> e.token in Accepted(false, s, events);
        assert forall t <- rest :: t in Accepted(false, s, events);
      }
    }
  }

  /** In production, where refusals leave nothing behind, a verdict tells the past exactly: revoked
      means logged out, reused means accepted before, and only then does the user's status count. */
  lemma VerdictExactly(events: seq<Event>, t: Token)
    requires Run(false, INITIAL, events) && t in After(false, INITIAL, events).issued
    ensures var s := After(false, INITIAL, events); var out := LoggedOut(events, t.family);
      var spent := Spent(INITIAL, events, t.jti);
      && (Judge(s, t).FamilyRevoked? <==> out)
      && (Judge(s, t).ReuseDetected? <==> !out && spent)
      && (Judge(s, t).UserInactive? <==> !out && !spent && t.user !in s.active)
  {
    RunChained(false, INITIAL, events);
    RowsSay(INITIAL, events, t.jti, t.family);
  }

  // ---- Users that may not refresh ---------------------------------------------------------------

  /** A presented token is accepted exactly when it is its family's acceptable one, its user is
      active, and the session goes through. */
  lemma YieldsExactly(s: State, e: Event)
    requires Enabled(s, e) && e.Refresh? && e.readable
    ensures Yields(s, e) <==> Acceptable(s, e.token) && e.token.user in s.active && e.fault.NoFault?
  {
  }

  ghost predicate NeverWoken(events: seq<Event>, user: string) {
    forall e <- events :: e != SetActive(user, true)
  }

  /** From a user's deactivation until the user is made active again, no run accepts a token of the
      user, logins in between included. */
  lemma {:induction false} InactiveGetNothing(keeps: bool, s: State, events: seq<Event>, user: string)
    requires Run(keeps, s, events) && NeverWoken(events, user) && user !in s.active
    ensures user !in After(keeps, s, events).active
    ensures forall t <- Accepted(keeps, s, events) :: t.user != user
    decreases events
  {
    if events != [] {
      assert events[0] in events && forall e <- events[1..] :: e in events;
      InactiveGetNothing(keeps, Next(keeps, s, events[0]), events[1..], user);
    }
  }

  /** Presenting a token of an inactive user ends its family for good, even should the user be made
      active again, exactly when raised writes are kept or the family was dead before. */
  lemma InactiveKillsExactly(keeps: bool, s: State, e: Event)
    requires Enabled(s, e) && e.Refresh? && e.readable && e.token.user !in s.active
    ensures NeverYields(keeps, Next(keeps, s, e), e.token.family) <==> keeps || Dead(s, e.token.family)
  {
    RefusalKillsExactly(keeps, s, e);
  }

  /** From login to deactivation, over a whole run: the user's first token is refused. */
  lemma DeactivatedIsRefused(keeps: bool, user: string) returns (s: State, e: Event)
    ensures exists events :: Run(keeps, INITIAL, events) && After(keeps, INITIAL, events) == s
    ensures Enabled(s, e) && e.Refresh? && e.readable && e.fault.NoFault? && Acceptable(s, e.token)
    ensures e.token.user == user && Judge(s, e.token) == UserInactive && !Yields(s, e)
    ensures Next(keeps, s, e).issued == s.issued
  {
    var t := Token("a", "f", user);
    var e0, e1, e2 := SetActive(user, true), Login(user, "a", "f", true), SetActive(user, false);
    var s1 := State({}, {user}, {});
    var s2 := State({}, {user}, {t});
    s := State({}, {}, {t});
    e := Refresh(t, true, NoFault, "b");
    SentinelIsNoJti("f");
    assert UrlSafe("a") && UrlSafe("b");
    assert Next(keeps, INITIAL, e0) == s1 && Next(keeps, s1, e1) == s2 && Next(keeps, s2, e2) == s;
    var events := Before(keeps, s2, e2, []);
    events := Before(keeps, s1, e1, events);
    events := Before(keeps, INITIAL, e0, events);
  }

  // ---- The service ----------------------------------------------------------------------------

  class LocalIdentityService {
    const keeps: bool           // the session factory keeps the writes of a block that raises
    var rows: set<string>
    var active: set<string>
    ghost var issued: set<Token>

    constructor (keeps: bool)
      ensures this.keeps == keeps && Shown() == INITIAL
    {
      this.keeps := keeps;
      rows, active, issued := {}, {}, {};
    }

    ghost function Shown(): State
      reads this
    {
      State(rows, active, issued)
    }

    method CheckAndRecordRotation(t: Token) returns (verdict: Verdict)
      modifies this`rows
      ensures verdict == (if old(Judge(Shown(), t)).UserInactive? then Passed else old(Judge(Shown(), t)))
      ensures verdict.Passed? ==> t.jti !in old(rows) && rows == old(rows) + {t.jti}
      ensures verdict.FamilyRevoked? ==> rows == old(rows)
      ensures verdict.ReuseDetected? ==> rows == old(rows) + {Sentinel(t.family)}
    {
      if Sentinel(t.family) in rows {
        return FamilyRevoked;
      }
      if t.jti in rows {
        rows := rows + {Sentinel(t.family)};
        return ReuseDetected;
      }
      rows := rows + {t.jti};
      return Passed;
    }

    method Login(user: string, admitted: bool, jti: string, family: string) returns (token: Option<Token>)
      requires Enabled(Shown(), Event.Login(user, jti, family, admitted))
      modifies this`issued
      ensures Shown() == Next(keeps, old(Shown()), Event.Login(user, jti, family, admitted))
      ensures token == if admitted then Some(Token(jti, family, user)) else None
    {
      if !admitted {
        return None;
      }
      token := Some(Token(jti, family, user));
      issued := issued + {token.value};
    }

    method Refresh(t: Token, readable: bool, fault: Fault, jti: string) returns (token: Option<Token>)
      requires Enabled(Shown(), Event.Refresh(t, readable, fault, jti))
      modifies this`rows, this`issued
      ensures Shown() == Next(keeps, old(Shown()), Event.Refresh(t, readable, fault, jti))
      ensures token == if old(Yields(Shown(), Event.Refresh(t, readable, fault, jti)))
                       then Some(Token(jti, t.family, t.user)) else None
    {
      if !readable {
        return None;
      }
      var before := rows;
      var verdict := CheckAndRecordRotation(t);
      if verdict.Passed? && t.user !in active {
        rows := rows + {Sentinel(t.family)};
        verdict := UserInactive;
      }
      if !verdict.Passed? || fault.BlockRaises? {
        if !keeps {
          rows := before;
        }
        return None;
      }
      if fault.CommitFails? {
        rows := before;
        return None;
      }
      token := Some(Token(jti, t.family, t.user));
      issued := issued + {token.value};
    }

    method Logout(t: Token, readable: bool, fault: Fault)
      requires Enabled(Shown(), Event.Logout(t, readable, fault))
      modifies this`rows
      ensures Shown() == Next(keeps, old(Shown()), Event.Logout(t, readable, fault))
    {
      if !readable {
        return;
      }
      var before := rows;
      rows := rows + {Sentinel(t.family)};
      if fault.CommitFails? || (fault.BlockRaises? && !keeps) {
        rows := before;
      }
    }
  }
}
