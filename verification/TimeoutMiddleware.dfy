/** The request-timeout middleware: what reaches the wire for any behaviour of the wrapped app. */
module TimeoutMiddleware {

  datatype Message = Start(status: int) | Body(data: string, more: bool) | Other

  /** One send of the wrapped app. A torn send is cancelled or raises before the message leaves. */
  datatype Attempt = Attempt(message: Message, torn: bool)

  /** How the wrapped app ends. Fired is the deadline, or a TimeoutError of the app's own. */
  datatype Ending = Returned | Raised | Fired

  datatype Route = Bypassed | NotReady | Timed

  predicate Terminal(m: Message) {
    m.Body? && !m.more
  }

  const STARTING_UP := [Start(503), Body("starting up", false)]
  const TIMED_OUT := [Start(504), Body("timed out", false)]
  const CLOSE_OFF := [Body("", false)]

  // ---- What reaches the wire ------------------------------------------------------------------

  function Delivered(inner: seq<Attempt>): seq<Message> {
    if inner == [] then []
    else (if inner[0].torn then [] else [inner[0].message]) + Delivered(inner[1..])
  }

  predicate Ends(inner: seq<Attempt>) {
    exists i :: 0 <= i < |inner| && Terminal(inner[i].message)
  }

  predicate Starts(inner: seq<Attempt>) {
    exists i :: 0 <= i < |inner| && inner[i].message.Start?
  }

  /** The sends up to and including the first terminal one. */
  function UpToEnd(inner: seq<Attempt>): seq<Attempt> {
    if inner == [] then []
    else if Terminal(inner[0].message) then [inner[0]]
    else [inner[0]] + UpToEnd(inner[1..])
  }

  function Closing(inner: seq<Attempt>, ending: Ending): seq<Message> {
    if !ending.Fired? || Ends(inner) then []
    else if Starts(inner) then CLOSE_OFF
    else TIMED_OUT
  }

  function Wire(route: Route, inner: seq<Attempt>, ending: Ending): seq<Message> {
    match route
    case Bypassed => Delivered(inner)
    case NotReady => STARTING_UP
    case Timed => Delivered(UpToEnd(inner)) + Closing(inner, ending)
  }

  // ---- Well-formed responses ------------------------------------------------------------------

  /** A beginning of a response: the start comes first and once, a terminal body comes last. */
  predicate Legal(trace: seq<Message>) {
    && (forall i :: 0 <= i < |trace| ==> (trace[i].Start? <==> i == 0))
    && EndsOnce(trace)
  }

  predicate EndsOnce(trace: seq<Message>) {
    forall i :: 0 <= i < |trace| && Terminal(trace[i]) ==> i == |trace| - 1
  }

  predicate Complete(trace: seq<Message>) {
    Legal(trace) && trace != [] && Terminal(trace[|trace| - 1])
  }

  function Terminals(trace: seq<Message>): nat {
    if trace == [] then 0 else (if Terminal(trace[0]) then 1 else 0) + Terminals(trace[1..])
  }

  lemma {:induction false} TerminalsJoin(a: seq<Message>, b: seq<Message>)
    ensures Terminals(a + b) == Terminals(a) + Terminals(b)
    decreases a
  {
    if a == [] {
      assert a + b == b;
    } else {
      assert (a + b)[1..] == a[1..] + b;
      TerminalsJoin(a[1..], b);
    }
  }

  lemma {:induction false} NoTerminals(trace: seq<Message>)
    requires forall i :: 0 <= i < |trace| ==> !Terminal(trace[i])
    ensures Terminals(trace) == 0
  {
    if trace != [] {
      NoTerminals(trace[1..]);
    }
  }

  /** What the relayed part holds: only its last message can be terminal, and it is exactly when
      the app's first terminal send was delivered. */
  lemma {:induction false} RelayedPart(inner: seq<Attempt>)
    ensures var out := Delivered(UpToEnd(inner));
      EndsOnce(out) && Terminals(out) <= 1 && (Terminals(out) == 1 ==> Ends(inner))
  {
    if inner != [] {
      var head, rest := inner[0], inner[1..];
      RelayedPart(rest);
      var out := Delivered(UpToEnd(inner));
      if Terminal(head.message) {
        assert [head][1..] == [] && Delivered([]) == [];
        assert Ends(inner);
        assert out == if head.torn then [] else [head.message];
        assert !head.torn ==> out[1..] == [];
      } else {
        assert ([head] + UpToEnd(rest))[1..] == UpToEnd(rest);
        var tail := Delivered(UpToEnd(rest));
        assert out == (if head.torn then [] else [head.message]) + tail;
        assert if head.torn then out == tail else out[0] == head.message && out[1..] == tail;
        assert Terminals(out) == Terminals(tail);
        EndsFirst(inner);
      }
    }
  }

  /** Whatever the app sends, whatever is torn and however it ends, nothing follows a terminal
      body, and there is at most one. */
  lemma NothingAfterTerminal(inner: seq<Attempt>, ending: Ending)
    ensures var wire := Wire(Timed, inner, ending);
      EndsOnce(wire) && Terminals(wire) <= 1
  {
    RelayedPart(inner);
    var out, closing := Delivered(UpToEnd(inner)), Closing(inner, ending);
    TerminalsJoin(out, closing);
    assert CLOSE_OFF[1..] == [] && TIMED_OUT[1..] == [Body("timed out", false)] && TIMED_OUT[1..][1..] == [];
    assert Terminals(closing) <= 1;
    if closing != [] {
      assert Terminals(out) == 0;
      NoTerminalInside(out);
    }
  }

  lemma {:induction false} NoTerminalInside(trace: seq<Message>)
    requires Terminals(trace) == 0
    ensures forall i :: 0 <= i < |trace| ==> !Terminal(trace[i])
  {
    if trace != [] {
      NoTerminalInside(trace[1..]);
      forall i | 0 <= i < |trace| ensures !Terminal(trace[i]) {
        assert i > 0 ==> trace[i] == trace[1..][i - 1];
      }
    }
  }

  // ---- Apps that keep the protocol -------------------------------------------------------------

  function Sent(trace: seq<Message>): (inner: seq<Attempt>)
    ensures |inner| == |trace|
    ensures forall i :: 0 <= i < |trace| ==> inner[i] == Attempt(trace[i], false)
  {
    seq(|trace|, i requires 0 <= i < |trace| => Attempt(trace[i], false))
  }

  lemma {:induction false} AllDelivered(trace: seq<Message>)
    requires EndsOnce(trace)
    ensures UpToEnd(Sent(trace)) == Sent(trace) && Delivered(Sent(trace)) == trace
  {
    if trace != [] {
      assert Sent(trace)[1..] == Sent(trace[1..]);
      AllDelivered(trace[1..]);
      if Terminal(trace[0]) {
        assert trace[1..] == [];
      }
    }
  }

  lemma EndsAndStarts(trace: seq<Message>)
    requires Legal(trace)
    ensures Ends(Sent(trace)) <==> Complete(trace)
    ensures Starts(Sent(trace)) <==> trace != []
  {
    if trace != [] {
      assert Sent(trace)[0].message.Start?;
      if Complete(trace) {
        assert Terminal(Sent(trace)[|trace| - 1].message);
      }
      if Ends(Sent(trace)) {
        var i :| 0 <= i < |trace| && Terminal(Sent(trace)[i].message);
        assert Terminal(trace[i]);
      }
    }
  }

  lemma WholeIsRelayed(trace: seq<Message>, ending: Ending)
    requires Legal(trace) && (Complete(trace) || !ending.Fired?)
    ensures Wire(Timed, Sent(trace), ending) == trace
  {
    AllDelivered(trace);
    EndsAndStarts(trace);
  }

  lemma CutIsClosed(trace: seq<Message>)
    requires Legal(trace) && !Complete(trace)
    ensures var wire := Wire(Timed, Sent(trace), Fired);
      wire == trace + (if trace == [] then TIMED_OUT else CLOSE_OFF) && Complete(wire)
  {
    AllDelivered(trace);
    EndsAndStarts(trace);
    var wire := trace + CLOSE_OFF;
    if trace != [] {
      assert wire[|trace|] == Body("", false);
      forall i | 0 <= i < |trace| ensures wire[i] == trace[i] && !Terminal(wire[i]) {
      }
    }
  }

  /** For an app that keeps the protocol, cut off at any point, the client sees the app's messages
      unchanged and first, and a whole response exactly when the app finished its own or the
      deadline fired; the status is the app's if it sent one, and 504 if not. */
  lemma ClosesExactly(trace: seq<Message>, ending: Ending)
    requires Legal(trace)
    ensures var wire := Wire(Timed, Sent(trace), ending);
      && |trace| <= |wire| && wire[..|trace|] == trace
      && Legal(wire)
      && (Complete(wire) <==> Complete(trace) || ending.Fired?)
      && (ending.Fired? ==> wire[0].status == if trace == [] then 504 else trace[0].status)
      && (Complete(trace) || !ending.Fired? ==> wire == trace)
  {
    if Complete(trace) || !ending.Fired? {
      WholeIsRelayed(trace, ending);
    } else {
      CutIsClosed(trace);
    }
  }

  /** One terminal body per request, stated without a condition by the middleware, holds exactly
      when the app finished its response or the deadline fired. */
  lemma OneTerminalExactly(trace: seq<Message>, ending: Ending)
    requires Legal(trace)
    ensures Terminals(Wire(Timed, Sent(trace), ending)) == 1 <==> Complete(trace) || ending.Fired?
  {
    var wire := Wire(Timed, Sent(trace), ending);
    ClosesExactly(trace, ending);
    if wire != [] {
      var last := |wire| - 1;
      assert wire == wire[..last] + [wire[last]];
      TerminalsJoin(wire[..last], [wire[last]]);
      NoTerminals(wire[..last]);
      assert [wire[last]][1..] == [];
    }
  }

  lemma {:induction false} DeliveredJoin(a: seq<Attempt>, b: seq<Attempt>)
    ensures Delivered(a + b) == Delivered(a) + Delivered(b)
    decreases a
  {
    if a == [] {
      assert a + b == b;
    } else {
      assert (a + b)[1..] == a[1..] + b;
      DeliveredJoin(a[1..], b);
    }
  }

  lemma {:induction false} UpToEndOfOpen(a: seq<Attempt>, last: Attempt)
    requires forall i :: 0 <= i < |a| ==> !Terminal(a[i].message)
    ensures UpToEnd(a + [last]) == a + [last]
    decreases a
  {
    if a == [] {
      assert a + [last] == [last] && [last][1..] == [];
    } else {
      assert (a + [last])[1..] == a[1..] + [last];
      UpToEndOfOpen(a[1..], last);
    }
  }

  lemma TornWire(trace: seq<Message>, m: Message)
    requires Legal(trace + [m])
    ensures var inner := Sent(trace) + [Attempt(m, true)];
      && Wire(Timed, inner, Fired) == trace + Closing(inner, Fired)
      && Starts(inner) && (Ends(inner) <==> Terminal(m))
  {
    var sent, torn := Sent(trace), Attempt(m, true);
    forall i | 0 <= i < |trace| ensures (trace + [m])[i] == trace[i] && !Terminal(trace[i]) {
    }
    assert (trace + [m])[|trace|] == m;
    UpToEndOfOpen(sent, torn);
    AllDelivered(trace);
    DeliveredJoin(sent, [torn]);
    assert [torn][1..] == [] && Delivered([torn]) == [];
    var inner := sent + [torn];
    assert inner[|trace|] == torn;
    assert trace != [] ==> inner[0].message == trace[0];
  }

  /** The flags change before the message leaves. If the deadline cancels the app inside its send
      of `m`, the response is closed properly exactly when `m` is neither the start nor the end. */
  lemma TornSendClosesExactly(trace: seq<Message>, m: Message)
    requires Legal(trace + [m])
    ensures Complete(Wire(Timed, Sent(trace) + [Attempt(m, true)], Fired)) <==> !m.Start? && !Terminal(m)
  {
    TornWire(trace, m);
    forall i | 0 <= i < |trace| ensures trace[i] == (trace + [m])[i] && !Terminal(trace[i]) {
    }
    assert (trace + [m])[|trace|] == m;
    if !Terminal(m) {
      assert (trace + CLOSE_OFF)[|trace|] == Body("", false);
    }
  }

  /** A response that is streamed in chunks, not yet ended. */
  function Streamed(status: int, chunks: seq<string>): (trace: seq<Message>)
    ensures |trace| == |chunks| + 1 && trace[0] == Start(status)
    ensures forall i :: 0 <= i < |chunks| ==> trace[i + 1] == Body(chunks[i], true)
  {
    [Start(status)] + seq(|chunks|, i requires 0 <= i < |chunks| => Body(chunks[i], true))
  }

  lemma StreamIsLegal(status: int, chunks: seq<string>, end: Message)
    requires Terminal(end)
    ensures var part := Streamed(status, chunks);
      Legal(part) && !Complete(part) && Legal(part + [end]) && Complete(part + [end])
  {
    var part := Streamed(status, chunks);
    forall i | 0 <= i < |part| ensures (part + [end])[i] == part[i] && !Terminal(part[i]) {
    }
    assert (part + [end])[|part|] == end;
  }

  /** A stream passes chunk by chunk, whole if it ends by itself, and closed off where the deadline
      cuts it. */
  lemma StreamPasses(status: int, chunks: seq<string>, last: string, ending: Ending)
    ensures var all := Streamed(status, chunks) + [Body(last, false)]; Wire(Timed, Sent(all), ending) == all
    ensures Wire(Timed, Sent(Streamed(status, chunks)), Fired) == Streamed(status, chunks) + [Body("", false)]
  {
    var part, end := Streamed(status, chunks), Body(last, false);
    StreamIsLegal(status, chunks, end);
    WholeIsRelayed(part + [end], ending);
    CutIsClosed(part);
  }

  // ---- Requests that are not timed ---------------------------------------------------------------

  /** On a path that bypasses the middleware every message goes out, whatever its order and however
      the app ends. */
  lemma {:induction false} BypassedRelays(trace: seq<Message>, ending: Ending)
    ensures Wire(Bypassed, Sent(trace), ending) == trace
  {
    if trace != [] {
      assert Sent(trace)[1..] == Sent(trace[1..]);
      BypassedRelays(trace[1..], ending);
    }
  }

  /** Before startup is over each timed request gets one whole 503, and nothing of the app. */
  lemma NotReadyAnswers(inner: seq<Attempt>, ending: Ending)
    ensures var wire := Wire(NotReady, inner, ending);
      Complete(wire) && wire[0] == Start(503) && Terminals(wire) == 1
  {
    assert STARTING_UP[1..] == [Body("starting up", false)] && STARTING_UP[1..][1..] == [];
  }

  /** Nothing that is sent after a terminal body leaves the app. */
  predicate QuietAfterEnd(inner: seq<Attempt>) {
    forall i, j :: 0 <= i < j < |inner| && Terminal(inner[i].message) ==> inner[j].torn
  }

  lemma {:induction false} AllTorn(inner: seq<Attempt>)
    ensures Delivered(inner) == [] <==> forall a <- inner :: a.torn
  {
    if inner != [] {
      AllTorn(inner[1..]);
    }
  }

  lemma QuietFirst(inner: seq<Attempt>)
    requires inner != []
    ensures Terminal(inner[0].message) ==> (QuietAfterEnd(inner) <==> forall a <- inner[1..] :: a.torn)
    ensures !Terminal(inner[0].message) ==> (QuietAfterEnd(inner) <==> QuietAfterEnd(inner[1..]))
  {
    var rest := inner[1..];
    if !Terminal(inner[0].message) && QuietAfterEnd(inner) {
      forall i, j | 0 <= i < j < |rest| && Terminal(rest[i].message) ensures rest[j].torn {
        assert Terminal(inner[i + 1].message) && inner[j + 1] == rest[j];
      }
    }
    if QuietAfterEnd(rest) || forall a <- rest :: a.torn {
      forall i, j | 0 <= i < j < |inner| && Terminal(inner[i].message) && (i > 0 || Terminal(inner[0].message))
        ensures inner[j].torn || !forall a <- rest :: a.torn
        ensures inner[j].torn || i == 0 || !QuietAfterEnd(rest)
      {
        assert inner[j] == rest[j - 1] && (i > 0 ==> inner[i] == rest[i - 1]);
      }
    }
  }

  lemma {:induction false} CutsNothingExactly(inner: seq<Attempt>)
    ensures |Delivered(UpToEnd(inner))| <= |Delivered(inner)|
    ensures Delivered(UpToEnd(inner)) == Delivered(inner) <==> QuietAfterEnd(inner)
    ensures !Ends(inner) ==> UpToEnd(inner) == inner
  {
    if inner != [] {
      var head, rest := inner[0], inner[1..];
      CutsNothingExactly(rest);
      AllTorn(rest);
      QuietFirst(inner);
      EndsFirst(inner);
      var out := if head.torn then [] else [head.message];
      assert Delivered(inner) == out + Delivered(rest);
      if Terminal(head.message) {
        assert [head][1..] == [] && Delivered([head]) == out;
        assert out + Delivered(rest) == out <==> Delivered(rest) == [];
      } else {
        var kept := Delivered(UpToEnd(rest));
        assert ([head] + UpToEnd(rest))[1..] == UpToEnd(rest);
        assert Delivered(UpToEnd(inner)) == out + kept;
        assert (out + kept)[|out|..] == kept && (out + Delivered(rest))[|out|..] == Delivered(rest);
      }
    }
  }

  /** The middleware is out of the way, as on a bypassed path, exactly when the deadline does not
      find the app unfinished, and the app is quiet after its first terminal body. */
  lemma TransparentExactly(inner: seq<Attempt>, ending: Ending)
    ensures Wire(Timed, inner, ending) == Wire(Bypassed, inner, ending)
            <==> (ending.Fired? ==> Ends(inner)) && QuietAfterEnd(inner)
  {
    CutsNothingExactly(inner);
    if ending.Fired? && !Ends(inner) {
      assert |Wire(Timed, inner, ending)| > |Delivered(inner)|;
    }
  }

  // ---- The middleware -------------------------------------------------------------------------

  class Exchange {
    var started: bool
    var terminal: bool
    var wire: seq<Message>

    constructor ()
      ensures !started && !terminal && wire == []
    {
      started, terminal, wire := false, false, [];
    }

    method TrackedSend(a: Attempt)
      modifies this
      ensures old(terminal) ==> unchanged(this)
      ensures !old(terminal) ==>
        && started == (old(started) || a.message.Start?)
        && terminal == Terminal(a.message)
        && wire == old(wire) + Delivered([a])
    {
      assert [a][1..] == [] && Delivered([a]) == if a.torn then [] else [a.message];
      if terminal {
        return;
      }
      if a.message.Start? {
        started := true;
      } else if a.message.Body? && !a.message.more {
        terminal := true;
      }
      if !a.torn {
        wire := wire + [a.message];
      }
    }

    method RunApp(inner: seq<Attempt>)
      requires !started && !terminal && wire == []
      modifies this
      ensures wire == Delivered(UpToEnd(inner))
      ensures terminal == Ends(inner)
      ensures !terminal ==> started == Starts(inner)
    {
      var i := 0;
      while i < |inner|
        invariant 0 <= i <= |inner|
        invariant wire == Delivered(UpToEnd(inner[..i]))
        invariant terminal == Ends(inner[..i])
        invariant !terminal ==> started == Starts(inner[..i])
      {
        RelayOneMore(inner[..i], inner[i]);
        assert inner[..i + 1] == inner[..i] + [inner[i]];
        TrackedSend(inner[i]);
        i := i + 1;
      }
      assert inner[..i] == inner;
    }

    /** One request: `inner` is what the app would send until it ends. */
    method Call(route: Route, inner: seq<Attempt>, ending: Ending)
      requires !started && !terminal && wire == []
      modifies this
      ensures wire == Wire(route, inner, ending)
    {
      if route.Bypassed? {
        wire := Delivered(inner);
        return;
      }
      if route.NotReady? {
        wire := STARTING_UP;
        return;
      }
      RunApp(inner);
      if !ending.Fired? || terminal {
        return;
      }
      if !started {
        wire := wire + TIMED_OUT;
        terminal := true;
        return;
      }
      wire := wire + [Body("", false)];
      terminal := true;
    }
  }

  /** Relaying one more send: it goes out unless a terminal one came before. */
  lemma {:induction false} RelayOneMore(a: seq<Attempt>, last: Attempt)
    ensures Ends(a + [last]) <==> Ends(a) || Terminal(last.message)
    ensures Starts(a + [last]) <==> Starts(a) || last.message.Start?
    ensures Delivered(UpToEnd(a + [last])) == Delivered(UpToEnd(a)) + if Ends(a) then [] else Delivered([last])
    decreases a
  {
    EndsOneMore(a, last);
    StartsOneMore(a, last);
    if a == [] {
      assert a + [last] == [last] && [last][1..] == [];
      assert UpToEnd([last]) == [last] && Delivered(UpToEnd(a)) == [];
    } else {
      var head, rest := a[0], a[1..];
      assert (a + [last])[1..] == rest + [last] && (a + [last])[0] == head;
      if Terminal(head.message) {
        assert Ends(a);
      } else {
        RelayOneMore(rest, last);
        EndsFirst(a);
        assert ([head] + UpToEnd(rest))[1..] == UpToEnd(rest);
        assert ([head] + UpToEnd(rest + [last]))[1..] == UpToEnd(rest + [last]);
      }
    }
  }

  lemma EndsOneMore(a: seq<Attempt>, last: Attempt)
    ensures Ends(a + [last]) <==> Ends(a) || Terminal(last.message)
  {
    var b := a + [last];
    assert b[|a|] == last && forall i :: 0 <= i < |a| ==> b[i] == a[i];
  }

  lemma StartsOneMore(a: seq<Attempt>, last: Attempt)
    ensures Starts(a + [last]) <==> Starts(a) || last.message.Start?
  {
    var b := a + [last];
    assert b[|a|] == last && forall i :: 0 <= i < |a| ==> b[i] == a[i];
  }

  lemma EndsFirst(a: seq<Attempt>)
    requires a != []
    ensures Ends(a) <==> Terminal(a[0].message) || Ends(a[1..])
  {
    assert forall i :: 0 < i < |a| ==> a[i] == a[1..][i - 1];
    assert forall i :: 0 <= i < |a| - 1 ==> a[1..][i] == a[i + 1];
  }
}
