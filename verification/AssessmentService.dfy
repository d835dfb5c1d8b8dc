/** The statements of the claim, cancel, refresh, finalize and release transactions, each proved to be
    steps of the pool that every other replica is also stepping. */
module AssessmentService {
  import opened Options
  import opened AssessmentJobs
  import opened AssessmentPool
  import opened AssessmentPoolLaws
  import T = AssessmentTransport

  lemma RunAppend(p: Pool, steps: seq<Step>, s: Step)
    ensures Run(p, steps + [s]) == Apply(Run(p, steps), s)
  {
    assert (steps + [s])[..|steps|] == steps;
  }

  lemma RunOnce(p: Pool, s: Step)
    ensures Run(p, [s]) == Apply(p, s)
  {
    assert [s][..0] == [];
  }

  lemma RunThree(p: Pool, a: Step, b: Step, c: Step)
    ensures Run(p, [a, b, c]) == Apply(Apply(Apply(p, a), b), c)
  {
    RunOnce(p, a);
    RunAppend(p, [a], b);
    RunAppend(p, [a, b], c);
    assert [a] + [b] == [a, b] && [a, b] + [c] == [a, b, c];
  }

  /** Admission, marker and commit in one transaction. */
  lemma DispatchIsRun(p: Pool, id: string, worker: string, token: string, before: int, budget: int, lease: nat,
      expires: int)
    requires p.claim.Unlocked? && id in p.jobs && UnusedToken(p, token) && 0 < budget <= 30000000000
    requires before <= 1000 * Clock(p) && Admissible(p) && CanMark(p.jobs[id], expires, Clock(p))
    ensures Run(p, [Admit(worker), Mark(id, token, before, budget, lease, expires), Commit(true)]) ==
            p.(jobs := p.jobs[id := Marked(p.jobs[id], worker, token, lease, IntervalMicros(budget), Clock(p))],
               attempts := p.attempts[token := Attempt(id, worker, before + budget, T.Fresh)])
  {
    RunThree(p, Admit(worker), Mark(id, token, before, budget, lease, expires), Commit(true));
    assert Apply(p, Admit(worker)) == p.(claim := Admitted(worker));
  }

  /** Some registered socket refuses to close. */
  ghost predicate Refused(sockets: set<nat>, closes: nat -> bool) {
    exists d <- sockets :: !closes(d)
  }

  /** Some dial brings in a socket that refuses to close. */
  ghost predicate LateRefused(dials: set<nat>, open: set<nat>, connects: nat -> bool, closes: nat -> bool) {
    exists d <- dials :: (d in open || connects(d)) && !closes(d)
  }

  ghost predicate SomeCloseFails(t: T.Transport, connects: nat -> bool, closes: nat -> bool) {
    t.closeFailed || Refused(t.registered, closes) || LateRefused(t.dialing, t.open, connects, closes)
  }

  lemma RefusedGrows(sockets: set<nat>, d: nat, closes: nat -> bool)
    ensures Refused(sockets + {d}, closes) <==> Refused(sockets, closes) || !closes(d)
  {
    if !closes(d) { assert d in sockets + {d}; }
  }

  lemma LateRefusedGrows(dials: set<nat>, d: nat, open: set<nat>, connects: nat -> bool, closes: nat -> bool)
    ensures LateRefused(dials + {d}, open, connects, closes) <==>
            LateRefused(dials, open, connects, closes) || ((d in open || connects(d)) && !closes(d))
  {
    if (d in open || connects(d)) && !closes(d) { assert d in dials + {d}; }
  }

  lemma LateRefusedAgrees(dials: set<nat>, open: set<nat>, other: set<nat>, connects: nat -> bool, closes: nat -> bool)
    requires open * dials == other * dials
    ensures LateRefused(dials, open, connects, closes) <==> LateRefused(dials, other, connects, closes)
  {
    forall d <- dials ensures d in open <==> d in other {
      assert d in open * dials <==> d in other * dials;
    }
  }

  /** What closing some of the snapshot has done so far. */
  ghost predicate Walked(t: T.Transport, u: T.Transport, closes: nat -> bool) {
    T.Accounted(u) && u.closed && u.dialing == t.dialing && u.open * u.dialing == t.open * t.dialing &&
    u.registered <= t.registered &&
    (u.closeFailed <==> t.closeFailed || Refused(t.registered - u.registered, closes))
  }

  lemma WalkBegins(t: T.Transport, early: bool, closes: nat -> bool)
    requires T.Accounted(t)
    ensures Walked(t, T.Perform(t, T.BeginClose, early), closes)
  {
    T.PerformKeepsAccount(t, T.BeginClose, early);
    assert t.registered - t.registered == {};
  }

  lemma WalkedOneMore(t: T.Transport, u: T.Transport, v: T.Transport, d: nat, closes: nat -> bool)
    requires Walked(t, u, closes) && T.Accounted(v) && v.closed == u.closed && v.dialing == u.dialing
    requires v.registered == u.registered - {d} && v.open * v.dialing == u.open * u.dialing
    requires v.closeFailed == (u.closeFailed || (d in u.registered && !closes(d)))
    ensures Walked(t, v, closes)
  {
    RefusedGrows(t.registered - u.registered, d, closes);
    assert t.registered - v.registered == (t.registered - u.registered) + (if d in u.registered then {d} else {});
  }

  /** What waiting for some of the dials has done so far. */
  ghost predicate Awaited(t: T.Transport, u: T.Transport, connects: nat -> bool, closes: nat -> bool) {
    T.Accounted(u) && u.closed == t.closed && u.closing == t.closing && u.dialing <= t.dialing &&
    u.open * u.dialing == t.open * u.dialing &&
    (u.closeFailed <==> t.closeFailed || LateRefused(t.dialing - u.dialing, t.open, connects, closes))
  }

  lemma AwaitedOneMore(t: T.Transport, u: T.Transport, v: T.Transport, d: nat, connects: nat -> bool,
      closes: nat -> bool)
    requires Awaited(t, u, connects, closes) && d in u.dialing && T.Accounted(v)
    requires v.dialing == u.dialing - {d} && v.closing == u.closing && v.closed == u.closed
    requires v.open * v.dialing == u.open * v.dialing
    requires v.closeFailed == (u.closeFailed || ((d in u.open || connects(d)) && !closes(d)))
    ensures Awaited(t, v, connects, closes)
  {
    assert d in u.open * u.dialing <==> d in t.open * u.dialing;
    LateRefusedGrows(t.dialing - u.dialing, d, t.open, connects, closes);
    assert t.dialing - v.dialing == (t.dialing - u.dialing) + {d};
    assert v.open * v.dialing == u.open * u.dialing * v.dialing == t.open * v.dialing;
  }

  /** The singleton quota row: one scope, and limits that the first worker to open fills in for everybody. */
  class QuotaRow {
    var scope: Option<string>
    var limits: Option<Limits>

    constructor ()
      ensures scope.None? && limits.None?
    {
      scope, limits := None, None;
    }

    /** `registerAssessmentScope`: no second scope, and no second set of limits, is ever accepted. */
    method Register(wanted: string, offered: Option<Limits>) returns (accepted: bool)
      modifies this
      ensures accepted <==> (old(scope).None? || old(scope) == Some(wanted)) &&
                            (offered.None? || old(limits).None? || old(limits) == offered)
      ensures old(scope).Some? ==> scope == old(scope)
      ensures old(limits).Some? ==> limits == old(limits)
      ensures accepted ==> scope == Some(wanted) && (offered.Some? ==> limits == offered)
      ensures !accepted ==> scope == old(scope) && limits == old(limits)
    {
      var stored := if scope.None? then Some(wanted) else scope;
      if stored != Some(wanted) { return false; }
      if offered.Some? {
        if limits.Some? {
          if limits != offered { return false; }
        } else {
          limits := offered;
        }
      }
      scope := stored;
      accepted := true;
    }
  }

  datatype Authority = Granted | Denied(capability: bool)
  datatype Finalization = Recorded | LeaseLost | StateChanged | Stopped
  datatype Claimed = Nothing | Retirement | Dispatched | Changed | Unavailable

  class AssessmentDatabase {
    var now: int
    var limits: Limits
    var jobs: map<string, Job>
    var claim: Claim
    var attempts: map<string, Attempt>
    var posted: multiset<string>

    ghost function Model(): Pool
      reads this
    {
      Pool(now, limits, jobs, claim, attempts, posted)
    }

    constructor (start: int, pool: Limits)
      ensures Model() == Open(start, pool)
    {
      now, limits, jobs, claim, attempts, posted := start, pool, map[], Unlocked, map[], multiset{};
    }

    /** The quota counts and the marker, in the transaction that holds the quota row. */
    method Dispatch(
      id: string, worker: string, token: string, before: int, budget: int, lease: nat, expires: int, stillValid: bool)
      returns (c: Claimed)
      requires claim.Unlocked? && id in jobs
      requires UnusedToken(Model(), token) && 0 < budget <= 30000000000 && before <= 1000 * Micros(now)
      modifies this`jobs, this`attempts
      ensures c in {Nothing, Changed, Dispatched}
      ensures c == Dispatched <==>
              Admissible(old(Model())) && CanMark(old(jobs)[id], expires, Micros(now)) && stillValid
      ensures c != Dispatched ==> Model() == old(Model())
      ensures c == Dispatched ==>
              Model() == Run(old(Model()),
                             [Admit(worker), Mark(id, token, before, budget, lease, expires), Commit(true)])
      ensures c == Dispatched ==>
              id in jobs && jobs[id].state == Dispatching && jobs[id].fence == old(jobs)[id].fence + 1 &&
              attempts == old(attempts)[token := Attempt(id, worker, before + budget, T.Fresh)]
    {
      ghost var p := Model();
      var clock := Micros(now);
      var active := set i | i in jobs && Reserves(jobs[i], clock);
      var spent := set i | i in jobs && StartsIn(jobs[i], clock - limits.window, clock);
      assert active == Active(jobs, clock) && spent == Starts(jobs, clock - limits.window, clock);
      if |active| >= limits.concurrent || |spent| >= limits.requests { return Nothing; }
      if !CanMark(jobs[id], expires, clock) || !stillValid { return Changed; }
      DispatchIsRun(p, id, worker, token, before, budget, lease, expires);
      jobs := jobs[id := Marked(jobs[id], worker, token, lease, IntervalMicros(budget), clock)];
      attempts := attempts[token := Attempt(id, worker, before + budget, T.Fresh)];
      c := Dispatched;
    }

    /** `claimAssessment`, for the selected job: settle it, dispatch it, or leave everything alone. */
    method ClaimAssessment(
      id: string, worker: string, token: string, configured: Limits, authority: Authority, inputTooLong: bool,
      before: int, budget: int, lease: nat, expires: int, stillValid: bool) returns (c: Claimed, ghost steps: seq<Step>)
      requires UnusedToken(Model(), token) && 0 < budget <= 30000000000 && before <= 1000 * Micros(now)
      modifies this`jobs, this`attempts
      ensures Model() == Run(old(Model()), steps)
      ensures c in {Nothing, Changed, Unavailable} ==> steps == []
      ensures c == Retirement ==> id in old(jobs) && id in jobs && attempts == old(attempts) &&
                                  !Terminal(old(jobs)[id].state) && Terminal(jobs[id].state)
      ensures c == Dispatched ==> id in old(jobs) && id in jobs &&
                                  old(jobs)[id].state == Queued && jobs[id].state == Dispatching && token in attempts
      ensures c == Dispatched <==>
              old(claim).Unlocked? && id in old(jobs) && authority == Granted && !inputTooLong &&
              configured == limits &&
              Admissible(old(Model())) && CanMark(old(jobs)[id], expires, Micros(now)) && stillValid
    {
      ghost var p := Model();
      var clock := Micros(now);
      steps := [];
      if id !in jobs || (claim.Prepared? && claim.id == id) { return Nothing, []; }
      if jobs[id].state == Dispatching {
        if !CanExpire(jobs[id], clock) { return Nothing, []; }
        steps := [Row(id, Expire)];
        RunOnce(p, steps[0]);
        jobs := jobs[id := Expired(jobs[id], clock)];
        return Retirement, steps;
      }
      if authority != Granted || inputTooLong {
        if !CanSettle(jobs[id]) { return Nothing, []; }
        var state := if authority == Granted then Failed else Invalidated;
        var code := if authority == Granted then InputLimitCode
                    else if authority.capability then CapabilityCode else AuthorizationRevokedCode;
        steps := [Row(id, Settle(state, code))];
        RunOnce(p, steps[0]);
        jobs := jobs[id := Retired(jobs[id], state, code, clock)];
        return Retirement, steps;
      }
      if !claim.Unlocked? { return Nothing, []; }
      if configured != limits { return Unavailable, []; }
      c := Dispatch(id, worker, token, before, budget, lease, expires, stillValid);
      if c == Dispatched {
        steps := [Admit(worker), Mark(id, token, before, budget, lease, expires), Commit(true)];
      }
    }

    /** `cancelAssessment`: fences the public result; the I/O reservation is left to its owner. A row that a
        claim has locked is waited for. */
    method CancelAssessment(id: string) returns (found: bool)
      requires id in jobs ==> Free(Model(), id)
      modifies this`jobs
      ensures found == (id in old(jobs))
      ensures Model() == Apply(old(Model()), Row(id, Cancel))
      ensures found ==> id in jobs && Terminal(jobs[id].state) && SameIo(old(jobs)[id], jobs[id])
    {
      found := id in jobs;
      if !found { return; }
      if jobs[id].state == Queued || jobs[id].state == Dispatching {
        jobs := jobs[id := Retired(jobs[id], Cancelled, CancelledCode, Micros(now))];
      }
      assert jobs == old(jobs)[id := RowAfter(old(jobs)[id], Cancel, Micros(now))];
    }

    /** `refreshAssessment`: extend the lease, or retire the job when its authority is gone. After extending it the
        transaction reads the clock once more, `delay` later, and rolls back when the authority has run out. */
    method RefreshAssessment(
      id: string, worker: string, fence: nat, denied: bool, lease: nat, expires: int, delay: nat) returns (kept: bool)
      requires Free(Model(), id)
      modifies this`jobs
      ensures Model() == if denied then Apply(old(Model()), Row(id, Invalidate(worker, fence)))
                         else if kept then Apply(old(Model()), Row(id, Refresh(worker, fence, lease, expires)))
                         else old(Model())
      ensures kept <==> !denied && CanRefresh(old(jobs)[id], worker, fence, expires, Micros(now)) &&
                        expires > Micros(now + delay)
      ensures kept ==> jobs[id].leaseUntil == Some(Micros(now) + lease)
      ensures SameIo(old(jobs)[id], jobs[id])
    {
      kept := false;
      ghost var s: RowStep := if denied then Invalidate(worker, fence) else Refresh(worker, fence, lease, expires);
      if Held(jobs[id], worker, fence, Micros(now)) {
        if denied {
          jobs := jobs[id := Retired(jobs[id], Invalidated, AuthorizationRevokedCode, Micros(now))];
        } else if CanRefresh(jobs[id], worker, fence, expires, Micros(now)) {
          var row := jobs[id].(leaseUntil := Some(Micros(now) + lease));
          if expires <= Micros(now + delay) { return; }
          jobs := jobs[id := row];
          kept := true;
        }
      }
      if denied || kept { assert jobs == old(jobs)[id := RowAfter(old(jobs)[id], s, Micros(now))]; }
    }

    /** `finalizeAssessment`: publish one outcome under the owner's live lease and fence. After its write the
        transaction reads the clock once more, `delay` later, and rolls back when the lease or the authority has
        run out meanwhile, when a success was interrupted, or when it was itself stopped. */
    method FinalizeAssessment(
      id: string, worker: string, fence: nat, outcome: Outcome, denied: bool, operation: Option<Cause>, expires: int,
      delay: nat, interrupted: bool, stopped: bool)
      returns (f: Finalization)
      requires Free(Model(), id) && OutcomeOk(outcome)
      modifies this`jobs
      ensures Model() == if f == Recorded
                         then Apply(old(Model()), Row(id, Finalize(worker, fence, outcome, denied, operation, expires)))
                         else old(Model())
      ensures f == Recorded <==>
              CanFinalize(old(jobs)[id], worker, fence, denied, expires, Micros(now)) &&
              CanFinalize(old(jobs)[id], worker, fence, denied, expires, Micros(now + delay)) &&
              !stopped && !(interrupted && outcome.state == Succeeded && !denied && operation.None?)
      ensures f == LeaseLost <==> !Held(old(jobs)[id], worker, fence, Micros(now)) ||
                                  ((denied || expires > Micros(now)) &&
                                   !Held(old(jobs)[id], worker, fence, Micros(now + delay)))
      ensures SameIo(old(jobs)[id], jobs[id])
      ensures f == Recorded && jobs[id].state == Succeeded ==>
              jobs[id].result == outcome.result && !denied && operation.None? && !interrupted
    {
      ghost var s := Finalize(worker, fence, outcome, denied, operation, expires);
      if !Held(jobs[id], worker, fence, Micros(now)) { return LeaseLost; }
      var lease := jobs[id].leaseUntil.value;
      if !denied && expires <= Micros(now) { return StateChanged; }
      var final := FinalOutcome(outcome, denied, operation);
      FinalOutcomeIsOk(outcome, denied, operation);
      var row := Finalized(jobs[id], final, Micros(now));
      if lease <= Micros(now + delay) { return LeaseLost; }
      if !denied && (expires <= Micros(now + delay) ||
                     (final.state == Succeeded && interrupted)) { return StateChanged; }
      if stopped { return Stopped; }
      jobs := jobs[id := row];
      assert jobs == old(jobs)[id := RowAfter(old(jobs)[id], s, Micros(now))];
      f := Recorded;
    }

    method Perform(token: string, io: T.Io)
      requires token in attempts
      modifies this`attempts
      ensures Model() == Apply(old(Model()), Socket(token, io))
      ensures token in attempts &&
              attempts[token] == old(attempts)[token].(io := T.Perform(old(attempts)[token].io, io,
                                                                       now < old(attempts)[token].deadline))
    {
      var a := attempts[token];
      attempts := attempts[token := a.(io := T.Perform(a.io, io, now < a.deadline))];
    }

    /** One turn of the transport's `close`. */
    method CloseOne(token: string, d: nat, ok: bool)
      requires token in attempts && T.Accounted(attempts[token].io) && d in attempts[token].io.closing
      modifies this`attempts
      ensures Model() == Apply(old(Model()), Socket(token, T.CloseNext(d, ok)))
      ensures token in attempts && attempts[token] == old(attempts)[token].(io := attempts[token].io)
      ensures T.Accounted(attempts[token].io)
      ensures var t, u := old(attempts)[token].io, attempts[token].io;
              u.closing == t.closing - {d} && u.registered == t.registered - {d} && u.dialing == t.dialing &&
              u.open * u.dialing == t.open * t.dialing && u.closed == t.closed &&
              u.closeFailed == (t.closeFailed || (d in t.registered && !ok))
    {
      T.ShutOne(attempts[token].io, d, ok, now < attempts[token].deadline);
      Perform(token, T.CloseNext(d, ok));
    }

    /** One dial that `close` waits for. */
    method EndOne(token: string, d: nat, connects: bool, ok: bool) returns (ghost steps: seq<Step>)
      requires token in attempts && T.Accounted(attempts[token].io) && d in attempts[token].io.dialing
      modifies this`attempts
      ensures Model() == Run(old(Model()), steps)
      ensures token in attempts && attempts[token] == old(attempts)[token].(io := attempts[token].io)
      ensures T.Accounted(attempts[token].io)
      ensures var t, u := old(attempts)[token].io, attempts[token].io;
              u.dialing == t.dialing - {d} && u.closing == t.closing && u.registered == t.registered &&
              u.open * u.dialing == t.open * u.dialing && u.closed == t.closed &&
              u.closeFailed == (t.closeFailed || ((d in t.open || connects) && !ok))
    {
      ghost var p := Model();
      ghost var early := now < attempts[token].deadline;
      var ios := T.EndDial(attempts[token].io, d, connects, ok);
      T.EndOne(attempts[token].io, d, connects, ok, early);
      steps := [Socket(token, ios[0])];
      RunOnce(p, steps[0]);
      Perform(token, ios[0]);
      if |ios| == 2 {
        RunAppend(p, steps, Socket(token, ios[1]));
        steps := steps + [Socket(token, ios[1])];
        Perform(token, ios[1]);
        assert ios == [ios[0], ios[1]];
        assert ios[1..] == [ios[1]] && ios[1..][1..] == [];
      } else {
        assert ios[1..] == [];
      }
    }

    /** The sockets of `close`'s snapshot. `closes` says which sockets agree to close. */
    method CloseSnapshot(token: string, closes: nat -> bool) returns (ghost steps: seq<Step>)
      requires token in attempts && T.Accounted(attempts[token].io)
      modifies this`attempts
      ensures Model() == Run(old(Model()), steps)
      ensures token in attempts && attempts[token] == old(attempts)[token].(io := attempts[token].io)
      ensures T.Accounted(attempts[token].io)
      ensures var t, u := old(attempts)[token].io, attempts[token].io;
              u.closed && u.closing == {} && u.dialing == t.dialing && u.open * u.dialing == t.open * t.dialing &&
              (u.closeFailed <==> t.closeFailed || Refused(t.registered, closes))
    {
      ghost var p := Model();
      ghost var t := attempts[token].io;
      steps := [Socket(token, T.BeginClose)];
      RunOnce(p, steps[0]);
      WalkBegins(t, now < attempts[token].deadline, closes);
      Perform(token, T.BeginClose);
      while attempts[token].io.closing != {}
        invariant Model() == Run(p, steps)
        invariant token in attempts && attempts[token] == old(attempts)[token].(io := attempts[token].io)
        invariant Walked(t, attempts[token].io, closes)
        decreases |attempts[token].io.closing|
      {
        ghost var before := attempts[token].io;
        var d :| d in attempts[token].io.closing;
        RunAppend(p, steps, Socket(token, T.CloseNext(d, closes(d))));
        steps := steps + [Socket(token, T.CloseNext(d, closes(d)))];
        CloseOne(token, d, closes(d));
        WalkedOneMore(t, before, attempts[token].io, d, closes);
      }
      assert t.registered - attempts[token].io.registered == t.registered;
    }

    /** The dials that are still out. `connects` says which of them still produce a socket. */
    method AwaitDials(token: string, connects: nat -> bool, closes: nat -> bool) returns (ghost steps: seq<Step>)
      requires token in attempts && T.Accounted(attempts[token].io)
      modifies this`attempts
      ensures Model() == Run(old(Model()), steps)
      ensures token in attempts && attempts[token] == old(attempts)[token].(io := attempts[token].io)
      ensures T.Accounted(attempts[token].io)
      ensures var t, u := old(attempts)[token].io, attempts[token].io;
              u.dialing == {} && u.closing == t.closing && u.closed == t.closed &&
              (u.closeFailed <==> t.closeFailed || LateRefused(t.dialing, t.open, connects, closes))
    {
      ghost var p := Model();
      ghost var t := attempts[token].io;
      steps := [];
      assert t.dialing - t.dialing == {};
      while attempts[token].io.dialing != {}
        invariant Model() == Run(p, steps)
        invariant token in attempts && attempts[token] == old(attempts)[token].(io := attempts[token].io)
        invariant Awaited(t, attempts[token].io, connects, closes)
        decreases |attempts[token].io.dialing|
      {
        ghost var before := attempts[token].io;
        var d :| d in attempts[token].io.dialing;
        ghost var more := EndOne(token, d, connects(d), closes(d));
        RunJoins(p, steps, more);
        steps := steps + more;
        AwaitedOneMore(t, before, attempts[token].io, d, connects, closes);
      }
      assert t.dialing - attempts[token].io.dialing == t.dialing;
    }

    /** The transport's `close`: shut every registered socket, and wait for every dial that is still out. */
    method CloseSockets(token: string, connects: nat -> bool, closes: nat -> bool) returns (ghost steps: seq<Step>)
      requires token in attempts && T.Accounted(attempts[token].io)
      modifies this`attempts
      ensures Model() == Run(old(Model()), steps)
      ensures token in attempts && attempts[token] == old(attempts)[token].(io := attempts[token].io)
      ensures T.Accounted(attempts[token].io) && attempts[token].io.returned
      ensures attempts[token].io.closeFailed <==> SomeCloseFails(old(attempts)[token].io, connects, closes)
    {
      ghost var p := Model();
      ghost var t := attempts[token].io;
      steps := CloseSnapshot(token, closes);
      ghost var u := attempts[token].io;
      LateRefusedAgrees(t.dialing, t.open, u.open, connects, closes);
      ghost var more := AwaitDials(token, connects, closes);
      RunJoins(p, steps, more);
      steps := steps + more;
      RunAppend(p, steps, Socket(token, T.ReturnFromClose));
      steps := steps + [Socket(token, T.ReturnFromClose)];
      T.PerformKeepsAccount(attempts[token].io, T.ReturnFromClose, now < attempts[token].deadline);
      Perform(token, T.ReturnFromClose);
    }

    /** The end of `ProcessNext`: close the attempt's sockets, and give the reservation back only when every
        one of them closed. */
    method CloseAndRelease(token: string, connects: nat -> bool, closes: nat -> bool)
      returns (released: bool, ghost steps: seq<Step>)
      requires token in attempts && T.Accounted(attempts[token].io)
      requires Free(Model(), attempts[token].id) && CanRelease(jobs[attempts[token].id], attempts[token].worker, token)
      modifies this`attempts, this`jobs
      ensures Model() == Run(old(Model()), steps)
      ensures released <==> !SomeCloseFails(old(attempts)[token].io, connects, closes)
      ensures token in attempts && attempts[token].id in jobs
      ensures released ==> T.Quiet(attempts[token].io) && !T.Live(attempts[token].io) &&
                           jobs[attempts[token].id].ioReleasedAt == Some(Micros(now))
      ensures !released ==> jobs == old(jobs)
    {
      ghost var p := Model();
      steps := CloseSockets(token, connects, closes);
      released := !attempts[token].io.closeFailed;
      if released {
        T.QuietForever(attempts[token].io, []);
        RunAppend(p, steps, Release(token));
        steps := steps + [Release(token)];
        var id := attempts[token].id;
        jobs := jobs[id := jobs[id].(ioReleasedAt := Some(Micros(now)))];
      }
    }
  }
}
