/** What every run of the outbox keeps: at most one send, frozen ends, and honest `lease-expired` blocks. */
module OutboxLaws {
  import opened Options
  import opened Deliveries
  import opened Outbox

  /** The CHECK constraints of the table and the fence arithmetic of its four writers. */
  predicate RowOk(d: Delivery) {
    (d.state == Queued ==> d.fence == 0 && d.worker.None? && d.leaseUntil.None? && d.startedAt.None? &&
                           d.attemptedAt.None? && d.completedAt.None? && d.receipt.None? && d.failure.None?) &&
    (d.state == Dispatching ==> d.fence == 1 && d.worker.Some? && d.leaseUntil.Some? && d.startedAt.Some? &&
                                d.completedAt.None? && d.failure.None?) &&
    (Terminal(d.state) ==> 1 <= d.fence <= 2 && d.leaseUntil.None? && d.completedAt.Some? &&
                           (Delivered(d.state) <==> d.failure.None?) && (d.receipt.Some? ==> Delivered(d.state))) &&
    (d.attemptedAt.Some? ==> Guarded(d.profile)) &&
    (Guarded(d.profile) && Disowned(d) ==> d.attemptedAt.None?) &&
    (d.failure.Some? && d.failure.value.code == LeaseExpired ==> Guarded(d.profile) && d.state == Blocked)
  }

  /** The row says the outbox itself stopped the delivery: an expired lease or a denial, not a native answer. */
  predicate Disowned(d: Delivery) {
    d.failure.Some? && (d.failure.value.code == LeaseExpired || d.failure.value.code.Denied?)
  }

  /** A dispatch agrees with its row: the marker is in the row before a guarded send and never before `Ready`. */
  predicate DispatchOk(o: Outbox, d: Dispatch) {
    d.id in o.rows && o.rows[d.id].state != Queued && d.fence == 1 &&
    (d.phase == Ready ==> o.rows[d.id].attemptedAt.None? && o.sends[d.id] == 0) &&
    (d.phase == Marked ==> o.rows[d.id].attemptedAt.Some? && o.sends[d.id] == 0) &&
    (d.phase == Interrupted(false) ==> o.rows[d.id].attemptedAt.None? && o.sends[d.id] == 0) &&
    (d.phase == Interrupted(true) ==> o.sends[d.id] == 0) &&
    (d.phase == Sent ==> o.sends[d.id] == 1)
  }

  predicate DispatchesOk(o: Outbox) {
    forall n :: 0 <= n < |o.dispatches| ==> DispatchOk(o, o.dispatches[n])
  }

  /** No delivery is ever handed out twice. */
  predicate OnceEach(o: Outbox) {
    forall m, n :: 0 <= m < n < |o.dispatches| ==> o.dispatches[m].id != o.dispatches[n].id
  }

  predicate SendOk(o: Outbox, id: string) {
    o.sends[id] <= 1 &&
    (o.sends[id] == 1 ==>
       id in o.rows && o.rows[id].state != Queued && (Guarded(o.rows[id].profile) ==> o.rows[id].attemptedAt.Some?)) &&
    (id in o.rows && Delivered(o.rows[id].state) ==> o.sends[id] == 1)
  }

  ghost predicate Inv(o: Outbox) {
    (forall id <- o.rows :: RowOk(o.rows[id])) && DispatchesOk(o) && OnceEach(o) && forall id :: SendOk(o, id)
  }

  lemma ClaimKeepsInv(o: Outbox, id: string, worker: string, lease: nat, acknowledged: bool)
    requires Inv(o)
    ensures Inv(ClaimStep(o, id, worker, lease, acknowledged))
  {
    var q := ClaimStep(o, id, worker, lease, acknowledged);
    forall k ensures SendOk(q, k) { assert SendOk(o, k); }
    forall n | 0 <= n < |q.dispatches|
      ensures DispatchOk(q, q.dispatches[n])
    {
      assert SendOk(o, id);
      if n < |o.dispatches| { assert DispatchOk(o, o.dispatches[n]); }
    }
  }

  /** Writing a row that keeps its marker and moves forward disturbs no dispatch and no send. */
  lemma WriteKeepsInv(o: Outbox, id: string, row: Delivery)
    requires Inv(o) && id in o.rows && RowOk(row) && row.state != Queued
    requires row.profile == o.rows[id].profile && row.attemptedAt == o.rows[id].attemptedAt
    requires Delivered(row.state) ==> o.sends[id] == 1
    ensures Inv(Write(o, id, row))
  {
    var q := Write(o, id, row);
    forall k ensures SendOk(q, k) { assert SendOk(o, k); }
  }

  lemma MoveKeepsInv(o: Outbox, n: nat, phase: Phase)
    requires Inv(o) && n < |o.dispatches| && DispatchOk(o, o.dispatches[n].(phase := phase))
    ensures Inv(Move(o, n, phase))
  {
    var q := Move(o, n, phase);
    forall k ensures SendOk(q, k) { assert SendOk(o, k); }
  }

  lemma SettleKeepsInv(o: Outbox, id: string, worker: string)
    requires Inv(o) && id in o.rows
    ensures o.rows[id].state == Queued ==>
              forall reason :: Inv(Write(o, id, Settled(o.rows[id], worker, Blocked, Denied(reason), o.now)))
    ensures Lapsed(o.rows[id], o.now) ==> Inv(Write(o, id, Recovered(o.rows[id], worker, o.now)))
  {
    if o.rows[id].state == Queued {
      forall reason ensures Inv(Write(o, id, Settled(o.rows[id], worker, Blocked, Denied(reason), o.now))) {
        WriteKeepsInv(o, id, Settled(o.rows[id], worker, Blocked, Denied(reason), o.now));
      }
    }
    if Lapsed(o.rows[id], o.now) {
      WriteKeepsInv(o, id, Recovered(o.rows[id], worker, o.now));
    }
  }

  /** Writing the marker: only the dispatch that owns the row has it in sight, and it is the one that moves. */
  lemma MarkerKeepsInv(o: Outbox, n: nat, phase: Phase)
    requires Inv(o) && HeldBy(o, n) && o.dispatches[n].phase == Ready && Guarded(o.rows[o.dispatches[n].id].profile)
    requires phase == Marked || phase == Interrupted(true)
    ensures Inv(Move(Write(o, o.dispatches[n].id, o.rows[o.dispatches[n].id].(attemptedAt := Some(o.now))), n, phase))
  {
    var id := o.dispatches[n].id;
    var q := Move(Write(o, id, o.rows[id].(attemptedAt := Some(o.now))), n, phase);
    assert DispatchOk(o, o.dispatches[n]) && SendOk(o, id);
    forall m | 0 <= m < |q.dispatches|
      ensures DispatchOk(q, q.dispatches[m])
    {
      assert DispatchOk(o, o.dispatches[m]);
      assert m != n ==> o.dispatches[m].id != id;
    }
    forall k ensures SendOk(q, k) { assert SendOk(o, k); }
  }

  lemma MarkKeepsInv(o: Outbox, n: nat, denial: Option<Denial>, end: MarkEnd)
    requires Inv(o)
    ensures Inv(MarkStep(o, n, denial, end))
  {
    if n < |o.dispatches| && o.dispatches[n].phase == Ready && Guarded(o.rows[o.dispatches[n].id].profile) {
      assert DispatchOk(o, o.dispatches[n]);
      if MarkerWritten(o, n, denial, end) && end != Refused {
        MarkerKeepsInv(o, n, if end == Acknowledged then Marked else Interrupted(true));
      } else {
        MoveKeepsInv(o, n, Interrupted(MarkerWritten(o, n, denial, end)));
      }
    }
  }

  lemma SendKeepsInv(o: Outbox, n: nat)
    requires Inv(o)
    ensures Inv(SendStep(o, n))
  {
    if MaySend(o, n) {
      var q := SendStep(o, n);
      var id := o.dispatches[n].id;
      assert DispatchOk(o, o.dispatches[n]);
      forall m | 0 <= m < |q.dispatches|
        ensures DispatchOk(q, q.dispatches[m])
      {
        assert DispatchOk(o, o.dispatches[m]);
        assert m != n ==> o.dispatches[m].id != id;
      }
      forall k ensures SendOk(q, k) { assert SendOk(o, k); }
    }
  }

  /** Every outcome a live owner stores keeps the row's constraints, whatever the native side reported. */
  lemma StoredIsOk(o: Outbox, n: nat, finish: Finish, denial: Option<Denial>)
    requires Inv(o) && HeldBy(o, n) && MayFinish(o.dispatches[n].phase, o.rows[o.dispatches[n].id].profile, finish)
    ensures var row := o.rows[o.dispatches[n].id];
            var stored := Stored(row, Chosen(o.dispatches[n].phase, row.profile, finish), denial);
            RowOk(Finished(row, stored, o.now)) && (Delivered(stored.state) ==> o.dispatches[n].phase == Sent)
  {
    assert DispatchOk(o, o.dispatches[n]);
    assert SendOk(o, o.dispatches[n].id);
  }

  lemma CompleteKeepsInv(o: Outbox, n: nat, finish: Finish, denial: Option<Denial>, committed: bool)
    requires Inv(o)
    ensures Inv(CompleteStep(o, n, finish, denial, committed))
  {
    if n < |o.dispatches| {
      var id := o.dispatches[n].id;
      assert DispatchOk(o, o.dispatches[n]);
      if MayFinish(o.dispatches[n].phase, o.rows[id].profile, finish) {
        MoveKeepsInv(o, n, Over);
        if HeldBy(o, n) && committed {
          StoredIsOk(o, n, finish, denial);
          WriteKeepsInv(Move(o, n, Over), id,
                        Finished(o.rows[id],
                                 Stored(o.rows[id], Chosen(o.dispatches[n].phase, o.rows[id].profile, finish), denial),
                                 o.now));
        }
      }
    }
  }

  lemma EnqueueKeepsInv(o: Outbox, id: string, profile: Profile)
    requires Inv(o) && id !in o.rows
    ensures Inv(Write(o, id, Fresh(profile)))
  {
    assert SendOk(o, id);
    var q := Write(o, id, Fresh(profile));
    forall k ensures SendOk(q, k) { assert SendOk(o, k); }
  }

  lemma StepKeepsInv(o: Outbox, s: Step)
    requires Inv(o)
    ensures Inv(Apply(o, s))
  {
    match s
    case Tick(_) =>
      var q := Apply(o, s);
      forall k ensures SendOk(q, k) { assert SendOk(o, k); }
    case Enqueue(id, profile) => if id !in o.rows { EnqueueKeepsInv(o, id, profile); }
    case Claim(id, worker, lease, acknowledged) => ClaimKeepsInv(o, id, worker, lease, acknowledged);
    case Block(id, worker, _) => if id in o.rows { SettleKeepsInv(o, id, worker); }
    case Settle(id, worker) => if id in o.rows { SettleKeepsInv(o, id, worker); }
    case Mark(n, denial, end) => MarkKeepsInv(o, n, denial, end);
    case Send(n) => SendKeepsInv(o, n);
    case Complete(n, finish, denial, committed) => CompleteKeepsInv(o, n, finish, denial, committed);
    case Crash(n) => if n < |o.dispatches| { MoveKeepsInv(o, n, Over); }
  }

  lemma {:induction false} RunKeepsInv(o: Outbox, steps: seq<Step>)
    requires Inv(o)
    ensures Inv(Run(o, steps))
  {
    if steps != [] {
      RunKeepsInv(o, steps[..|steps| - 1]);
      StepKeepsInv(Run(o, steps[..|steps| - 1]), steps[|steps| - 1]);
    }
  }

  // ----- the theorems -----

  /** At most one native send per delivery, over any interleaving of any number of workers; a delivery
      reported as confirmed or accepted was sent exactly once. */
  lemma AtMostOneSend(start: int, steps: seq<Step>, id: string)
    ensures var o := Run(Empty(start), steps);
            o.sends[id] <= 1 && (id in o.rows && Delivered(o.rows[id].state) ==> o.sends[id] == 1)
  {
    RunKeepsInv(Empty(start), steps);
    assert SendOk(Run(Empty(start), steps), id);
  }

  lemma StepFreezes(o: Outbox, s: Step, id: string)
    requires Inv(o) && id in o.rows && Terminal(o.rows[id].state)
    ensures id in Apply(o, s).rows && Apply(o, s).rows[id] == o.rows[id]
  {}

  /** Nothing changes a delivery once it is terminal. */
  lemma {:induction false} TerminalIsFinal(o: Outbox, steps: seq<Step>, id: string)
    requires Inv(o) && id in o.rows && Terminal(o.rows[id].state)
    ensures id in Run(o, steps).rows && Run(o, steps).rows[id] == o.rows[id]
  {
    if steps != [] {
      TerminalIsFinal(o, steps[..|steps| - 1], id);
      RunKeepsInv(o, steps[..|steps| - 1]);
      StepFreezes(Run(o, steps[..|steps| - 1]), steps[|steps| - 1], id);
    }
  }

  /** A guarded delivery that the outbox closed for an expired lease or a denial was not sent before, and
      is not sent by any later step of any worker, the one that still holds the old claim included. */
  lemma DisownedWasNeverSent(start: int, before: seq<Step>, after: seq<Step>, id: string)
    requires id in Run(Empty(start), before).rows
    requires var d := Run(Empty(start), before).rows[id]; Guarded(d.profile) && Disowned(d)
    ensures Run(Empty(start), before).sends[id] == 0
    ensures Run(Run(Empty(start), before), after).sends[id] == 0
  {
    var o := Run(Empty(start), before);
    RunKeepsInv(Empty(start), before);
    assert SendOk(o, id);
    RunKeepsInv(o, after);
    TerminalIsFinal(o, after, id);
    assert SendOk(Run(o, after), id);
  }

  /** A dispatch that outlives its lease cannot store anything: its completion leaves the row as it is. */
  lemma LapsedOwnerIsPowerless(o: Outbox, n: nat, finish: Finish, denial: Option<Denial>, committed: bool)
    requires Inv(o) && n < |o.dispatches| && o.dispatches[n].id in o.rows
    requires o.rows[o.dispatches[n].id].state == Dispatching && Lapsed(o.rows[o.dispatches[n].id], o.now)
    ensures CompleteStep(o, n, finish, denial, committed).rows == o.rows
  {}

  /** The shapes an expired dispatch can end in, and why each is honest. */
  lemma RecoveryIsHonest(o: Outbox, id: string, worker: string)
    requires Inv(o) && id in o.rows && Lapsed(o.rows[id], o.now)
    ensures var d := Apply(o, Settle(id, worker)).rows[id];
            Terminal(d.state) && d.fence == 2 &&
            (d.state == Blocked ==> o.sends[id] == 0 && d.failure.value.code == LeaseExpired) &&
            (o.sends[id] == 1 ==> d.state == Uncertain)
  {
    assert SendOk(o, id);
  }
}
