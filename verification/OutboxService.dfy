/** The delivery worker's transactions as statements on the shared tables, each proved to be outbox steps. */
module OutboxService {
  import opened Options
  import opened Deliveries
  import opened O = Outbox

  lemma RunAppend(o: Outbox, steps: seq<Step>, s: Step)
    ensures Run(o, steps + [s]) == Apply(Run(o, steps), s)
  {
    assert (steps + [s])[..|steps|] == steps;
  }

  lemma RunTwo(o: Outbox, a: Step, b: Step)
    ensures Run(o, [a, b]) == Apply(Apply(o, a), b)
  {
    RunAppend(o, [], a);
    RunAppend(o, [a], b);
    assert [a] + [b] == [a, b];
  }

  lemma {:induction false} RunAfter(o: Outbox, a: Step, rest: seq<Step>)
    ensures Run(o, [a] + rest) == Run(Apply(o, a), rest)
  {
    if rest == [] {
      RunAppend(o, [], a);
      assert [a] + rest == [] + [a];
    } else {
      var whole := [a] + rest;
      RunAfter(o, a, rest[..|rest| - 1]);
      assert whole[..|whole| - 1] == [a] + rest[..|rest| - 1];
    }
  }

  /** The outside world during one dispatch: native answers, cancellations, denials and commit failures. */
  datatype World = World(
    preview: Option<(MetadataError, NativeError)>, previewCause: Option<Cause>,
    markDenial: Option<Denial>, mark: MarkEnd, markCause: Cause,
    canceled: bool, sendCause: Option<Cause>, result: Result, keyOk: bool, site: string, token: string,
    finishDenial: Option<Denial>, committed: bool)

  class DeliveryDatabase {
    var now: int
    var rows: map<string, Delivery>
    var dispatches: seq<Dispatch>
    var sends: multiset<string>

    ghost function Model(): Outbox
      reads this
    {
      O.Outbox(now, rows, dispatches, sends)
    }

    constructor (start: int)
      ensures Model() == Empty(start)
    {
      now, rows, dispatches, sends := start, map[], [], multiset{};
    }

    /** `claimDelivery` for the selected row. A reason blocks it; otherwise it is handed to this worker,
        unless the commit's acknowledgement is lost. Returns the new dispatch, if there is one. */
    method ClaimDelivery(id: string, worker: string, lease: nat, reason: Option<Denial>, acknowledged: bool)
      returns (dispatch: Option<nat>, ghost step: Step)
      requires id in rows && (rows[id].state == Queued || Lapsed(rows[id], now))
      modifies this`rows, this`dispatches
      ensures Model() == Apply(old(Model()), step)
      ensures id in rows
      ensures dispatch.Some? <==> old(rows)[id].state == Queued && reason.None? && acknowledged
      ensures dispatch.Some? ==> dispatch.value == |old(dispatches)| < |dispatches| &&
                                 dispatches[dispatch.value].phase == Ready && dispatches[dispatch.value].id == id
      ensures Terminal(rows[id].state) <==> old(rows)[id].state == Dispatching || reason.Some?
    {
      dispatch := None;
      var row := rows[id];
      if row.state == Dispatching {
        var state, code := Uncertain, UncertainCode;
        if (row.profile == Jira || row.profile == Teams || row.profile == Webhook) && row.attemptedAt.None? {
          state, code := Blocked, LeaseExpired;
        }
        step := Settle(id, worker);
        rows := rows[id := Settled(row, worker, state, code, now)];
        return;
      }
      if reason.Some? {
        step := Block(id, worker, reason.value);
        rows := rows[id := Settled(row, worker, Blocked, Denied(reason.value), now)];
        return;
      }
      step := Claim(id, worker, lease, acknowledged);
      rows := rows[id := row.(state := Dispatching, worker := Some(worker), fence := row.fence + 1,
                              startedAt := Some(now), leaseUntil := Some(now + lease))];
      if acknowledged {
        dispatches := dispatches + [Dispatch(id, worker, rows[id].fence, Ready)];
        dispatch := Some(|dispatches| - 1);
      }
    }

    /** `markDeliveryAttempt`: returns whether the worker may send, and the `attempted` flag it read back. */
    method MarkDeliveryAttempt(n: nat, denial: Option<Denial>, end: MarkEnd) returns (ok: bool, attempted: bool)
      requires n < |dispatches| && dispatches[n].phase == Ready && dispatches[n].id in rows &&
               Guarded(rows[dispatches[n].id].profile)
      modifies this`rows, this`dispatches
      ensures Model() == Apply(old(Model()), Mark(n, denial, end))
      ensures |dispatches| == |old(dispatches)| && dispatches[n].id == old(dispatches)[n].id && dispatches[n].id in rows
      ensures rows[dispatches[n].id].profile == old(rows)[dispatches[n].id].profile
      ensures dispatches[n].phase == if ok then Marked else Interrupted(attempted)
      ensures ok ==> rows[dispatches[n].id].attemptedAt == Some(now) && HeldBy(old(Model()), n) && denial.None?
    {
      var d := dispatches[n];
      var row := rows[d.id];
      ok, attempted := false, false;
      if Held(row, d.worker, d.fence, now) && end != Unwritten {
        attempted := row.attemptedAt.Some?;
        if denial.None? && row.attemptedAt.None? {
          attempted := true;
          if end != Refused { rows := rows[d.id := row.(attemptedAt := Some(now))]; }
          ok := end == Acknowledged;
        }
      }
      dispatches := dispatches[n := d.(phase := if ok then Marked else Interrupted(attempted))];
    }

    method CallAdapter(n: nat)
      requires MaySend(Model(), n)
      modifies this`dispatches, this`sends
      ensures Model() == Apply(old(Model()), Send(n))
      ensures |dispatches| == |old(dispatches)| && dispatches[n] == old(dispatches)[n].(phase := Sent)
      ensures sends == old(sends) + multiset{dispatches[n].id}
    {
      sends := sends + multiset{dispatches[n].id};
      dispatches := dispatches[n := dispatches[n].(phase := Sent)];
    }

    /** `finishDelivery` and `finishGuardedDelivery`. */
    method FinishDelivery(n: nat, finish: Finish, denial: Option<Denial>, committed: bool) returns (stored: bool)
      requires n < |dispatches| && dispatches[n].id in rows
      requires MayFinish(dispatches[n].phase, rows[dispatches[n].id].profile, finish)
      modifies this`rows, this`dispatches
      ensures Model() == Apply(old(Model()), Complete(n, finish, denial, committed))
      ensures stored <==> HeldBy(old(Model()), n) && committed
      ensures !stored ==> rows == old(rows)
    {
      var d := dispatches[n];
      var row := rows[d.id];
      var o := Chosen(d.phase, row.profile, finish);
      dispatches := dispatches[n := d.(phase := Over)];
      stored := Held(row, d.worker, d.fence, now) && committed;
      if stored {
        if Guarded(row.profile) && denial.Some? {
          o := InterruptedOutcome(row.profile, Denial(denial.value), row.attemptedAt.Some?);
        }
        rows := rows[d.id := Finished(row, o, now)];
      }
    }

    /** The send and the finish after it. */
    method SendAndFinish(n: nat, w: World) returns (ghost steps: seq<Step>)
      requires MaySend(Model(), n) && NativeOk(w.result)
      modifies this`rows, this`dispatches, this`sends
      ensures Model() == Run(old(Model()), steps)
      ensures sends == old(sends) + multiset{old(dispatches)[n].id}
    {
      ghost var o := Model();
      var finish := AfterSend(w.canceled, w.sendCause, w.result, w.keyOk, w.site, w.token);
      steps := [Send(n), Complete(n, finish, w.finishDenial, w.committed)];
      RunTwo(o, steps[0], steps[1]);
      CallAdapter(n);
      var stored := FinishDelivery(n, finish, w.finishDenial, w.committed);
    }

    /** `processJiraDelivery` and `processAcceptedDelivery` from the marker on. */
    method MarkSendFinish(n: nat, w: World) returns (sent: bool, ghost steps: seq<Step>)
      requires n < |dispatches| && dispatches[n].phase == Ready && dispatches[n].id in rows
      requires Guarded(rows[dispatches[n].id].profile) && NativeOk(w.result)
      modifies this`rows, this`dispatches, this`sends
      ensures Model() == Run(old(Model()), steps)
      ensures sent <==> w.mark == Acknowledged && MarkerWritten(old(Model()), n, w.markDenial, w.mark)
      ensures sends == if sent then old(sends) + multiset{old(dispatches)[n].id} else old(sends)
    {
      ghost var o := Model();
      ghost var mark := Mark(n, w.markDenial, w.mark);
      var ok, attempted := MarkDeliveryAttempt(n, w.markDenial, w.mark);
      sent := ok;
      if ok {
        ghost var rest := SendAndFinish(n, w);
        steps := [mark] + rest;
        RunAfter(o, mark, rest);
      } else {
        ghost var complete := Complete(n, AfterMark(w.markCause), w.finishDenial, w.committed);
        steps := [mark, complete];
        RunTwo(o, mark, complete);
        var stored := FinishDelivery(n, AfterMark(w.markCause), w.finishDenial, w.committed);
      }
    }

    /** The rest of `ProcessNext` after a claim: preview, marker, send and finish in the source's order. */
    method ProcessDispatch(n: nat, w: World) returns (sent: bool, ghost steps: seq<Step>)
      requires n < |dispatches| && dispatches[n].phase == Ready && dispatches[n].id in rows
      requires NativeOk(w.result) &&
               (w.preview.Some? ==> NativeOk(Result(Strange, Some(w.preview.value.1), Receipt("", ""))))
      modifies this`rows, this`dispatches, this`sends
      ensures Model() == Run(old(Model()), steps)
      ensures sends == if sent then old(sends) + multiset{old(dispatches)[n].id} else old(sends)
      ensures var row := old(rows)[old(dispatches)[n].id];
              sent <==> !Guarded(row.profile) ||
                        ((row.profile == Jira ==> w.preview.None?) && w.mark == Acknowledged &&
                         MarkerWritten(old(Model()), n, w.markDenial, w.mark))
    {
      var profile := rows[dispatches[n].id].profile;
      if profile == Slack {
        steps := SendAndFinish(n, w);
        return true, steps;
      }
      if profile == Jira && w.preview.Some? {
        var finish := AfterPreview(w.preview.value.0, w.preview.value.1, w.previewCause, w.token);
        steps := [Complete(n, finish, w.finishDenial, w.committed)];
        RunAppend(Model(), [], steps[0]);
        var stored := FinishDelivery(n, finish, w.finishDenial, w.committed);
        return false, steps;
      }
      sent, steps := MarkSendFinish(n, w);
    }
  }
}
