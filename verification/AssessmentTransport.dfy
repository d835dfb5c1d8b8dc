/** The sockets and dials owned by one assessment attempt (internal/app/assessment_client.go). */
module AssessmentTransport {

  /** `open` holds the raw sockets that exist; `registered` is the connection map, `closing` the snapshot
      that close() still has to walk, and `dialing` the wait group. */
  datatype Transport = Transport(
    called: bool, closed: bool, dialing: set<nat>, registered: set<nat>, open: set<nat>,
    closing: set<nat>, closeFailed: bool, returned: bool)

  const Fresh := Transport(false, false, {}, {}, {}, {}, false, false)

  /** One critical section or system call. `ok` is whether the socket's own Close succeeded. */
  datatype Io =
    | StartDial(d: nat)
    | Connect(d: nat)
    | FailDial(d: nat)
    | Register(d: nat)
    | Discard(d: nat, ok: bool)
    | CloseConn(d: nat, ok: bool)
    | BeginClose
    | CloseNext(d: nat, ok: bool)
    | ReturnFromClose

  /** Closing a registered socket; a failed Close leaves it open and is remembered. */
  function Shut(t: Transport, d: nat, ok: bool): Transport {
    if d !in t.registered then t
    else if ok then t.(registered := t.registered - {d}, open := t.open - {d})
    else t.(registered := t.registered - {d}, closeFailed := true)
  }

  /** `early` is the `ioError` check: the attempt's context is live and its deadline has not passed. */
  function Perform(t: Transport, io: Io, early: bool): Transport {
    match io
    case StartDial(d) =>
      if t.closed || !early || d in t.dialing + t.registered + t.open + t.closing then t
      else t.(dialing := t.dialing + {d})
    case Connect(d) =>
      if d in t.dialing then t.(open := t.open + {d}) else t
    case FailDial(d) =>
      if d in t.dialing && d !in t.open then t.(dialing := t.dialing - {d}) else t
    case Register(d) =>
      if d in t.dialing && d in t.open && !t.closed && early
      then t.(registered := t.registered + {d}, dialing := t.dialing - {d}) else t
    case Discard(d, ok) =>
      if d !in t.dialing || d !in t.open then t
      else if ok then t.(open := t.open - {d}, dialing := t.dialing - {d})
      else t.(closeFailed := true, dialing := t.dialing - {d})
    case CloseConn(d, ok) => Shut(t, d, ok)
    case BeginClose =>
      if t.closed then t else t.(closed := true, closing := t.registered)
    case CloseNext(d, ok) =>
      if d in t.closing then Shut(t, d, ok).(closing := t.closing - {d}) else t
    case ReturnFromClose =>
      if t.closed && t.closing == {} && t.dialing == {} then t.(returned := true) else t
  }

  predicate Accounted(t: Transport) {
    t.dialing !! t.registered &&
    (!t.closeFailed ==> t.open <= t.registered + t.dialing) &&
    (t.closed ==> t.registered <= t.closing) &&
    (t.returned ==> t.closed && t.closing == {} && t.dialing == {})
  }

  /** close() has returned true: the only condition under which the attempt acknowledges its capacity. */
  predicate Quiet(t: Transport) {
    t.returned && !t.closeFailed
  }

  predicate Live(t: Transport) {
    t.open != {} || t.dialing != {}
  }

  lemma PerformKeepsAccount(t: Transport, io: Io, early: bool)
    requires Accounted(t)
    ensures Accounted(Perform(t, io, early))
  {}

  /** One turn of close()'s walk over its snapshot. */
  lemma ShutOne(t: Transport, d: nat, ok: bool, early: bool)
    requires Accounted(t) && d in t.closing
    ensures var u := Perform(t, CloseNext(d, ok), early);
            Accounted(u) && u.closing == t.closing - {d} && u.registered == t.registered - {d} &&
            u.dialing == t.dialing &&
            u.open * u.dialing == t.open * t.dialing && u.closed == t.closed &&
            u.closeFailed == (t.closeFailed || (d in t.registered && !ok))
  {}

  /** One dial that ends after close() began: it fails, or its socket is closed before anyone can use it. */
  function EndDial(t: Transport, d: nat, connects: bool, ok: bool): seq<Io> {
    if d in t.open then [Discard(d, ok)] else if connects then [Connect(d), Discard(d, ok)] else [FailDial(d)]
  }

  function Performed(t: Transport, ios: seq<Io>, early: bool): Transport
    decreases |ios|
  {
    if ios == [] then t else Performed(Perform(t, ios[0], early), ios[1..], early)
  }

  lemma EndOne(t: Transport, d: nat, connects: bool, ok: bool, early: bool)
    requires Accounted(t) && d in t.dialing
    ensures var u := Performed(t, EndDial(t, d, connects, ok), early);
            Accounted(u) && u.dialing == t.dialing - {d} && u.closing == t.closing && u.registered == t.registered &&
            u.open * u.dialing == t.open * u.dialing && u.closed == t.closed &&
            u.closeFailed == (t.closeFailed || ((d in t.open || connects) && !ok))
  {
    if d in t.open {
      PerformedOne(t, Discard(d, ok), early);
      PerformKeepsAccount(t, Discard(d, ok), early);
    } else if connects {
      PerformedTwo(t, Connect(d), Discard(d, ok), early);
      PerformKeepsAccount(t, Connect(d), early);
      PerformKeepsAccount(Perform(t, Connect(d), early), Discard(d, ok), early);
    } else {
      PerformedOne(t, FailDial(d), early);
      PerformKeepsAccount(t, FailDial(d), early);
    }
  }

  lemma PerformedOne(t: Transport, io: Io, early: bool)
    ensures Performed(t, [io], early) == Perform(t, io, early)
  {
    assert [io][1..] == [];
  }

  lemma PerformedTwo(t: Transport, a: Io, b: Io, early: bool)
    ensures Performed(t, [a, b], early) == Perform(Perform(t, a, early), b, early)
  {
    assert [a, b][1..] == [b];
    PerformedOne(Perform(t, a, early), b, early);
  }

  function PerformAll(t: Transport, ios: seq<(Io, bool)>): Transport
    decreases |ios|
  {
    if ios == [] then t else PerformAll(Perform(t, ios[0].0, ios[0].1), ios[1..])
  }

  /** Once close() has returned true, no socket and no dial of the attempt exists, whatever dial was
      racing with it, and none ever exists again. */
  lemma {:induction false} QuietForever(t: Transport, ios: seq<(Io, bool)>)
    requires Accounted(t) && Quiet(t)
    ensures !Live(t)
    ensures Accounted(PerformAll(t, ios)) && Quiet(PerformAll(t, ios)) && !Live(PerformAll(t, ios))
    decreases |ios|
  {
    if ios != [] {
      PerformKeepsAccount(t, ios[0].0, ios[0].1);
      assert Quiet(Perform(t, ios[0].0, ios[0].1));
      QuietForever(Perform(t, ios[0].0, ios[0].1), ios[1..]);
    }
  }
}
