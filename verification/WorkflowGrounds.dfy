// What a decision rests on, over whole runs: the outcome that it was made on is never replaced,
// so the grounds that were checked once hold of every attempt in every reachable state.
module WorkflowGrounds {
  import opened Wrappers
  import opened CallingHours
  import opened WorkflowRows
  import opened WorkflowLifecycle
  import opened WorkflowBudget
  import opened WorkflowSchedule
  import opened WorkflowAlignment
  import opened WorkflowSteps
  import opened WorkflowTheorems

  // A retry follows a call that is plainly over, one by programme a missed call; completion and
  // refusal follow what was heard or verified, and the model cites only what there is.
  predicate Grounded(a: Attempt) {
    a.decision.Some? ==>
      var d := a.decision.value;
      && (!d.action.AskOwner? || !d.programmed ==> a.outcome.Some?)
      && (a.outcome.Some? ==>
            var o := a.outcome.value;
            && (d.action.Retry? ==> !o.uncertain && !o.stillActive && (d.programmed ==> o.Missed()))
            && (!d.programmed ==> d.evidence <= o.Available())
            && (d.action.Close? && d.disposition.DCompleted? ==>
                  o.connection.Connected? && (!d.programmed ==> o.Objective() * d.evidence != {}))
            && (d.disposition.DDeclined? ==> !d.programmed && o.FromCaller() * d.evidence != {})
            && (d.disposition.DExhausted? || d.disposition.DExpired? ==> o.Missed()))
      && (d.disposition.DDeclined? || d.disposition.DExhausted? || d.disposition.DExpired? ==> a.outcome.Some?)
  }

  ghost predicate AllGrounded(rows: Rows) {
    forall k, i :: k in rows && 0 <= i < |rows[k].attempts| ==> Grounded(rows[k].attempts[i])
  }

  // Only this attempt has changed, or none.
  ghost predicate OneAttemptChanged(rows: Rows, key: Key, ordinal: nat, after: Rows) {
    && key in rows && rows[key].Has(ordinal) && key in after && after[key].Has(ordinal)
    && after[key].attempts == rows[key].attempts[ordinal - 1 := after[key].Nth(ordinal)]
    && (forall k :: k in after && k != key ==>
        after[k].attempts == [] || (k in rows && after[k].attempts == rows[k].attempts))
  }

  lemma OneKeepsGrounds(rows: Rows, key: Key, ordinal: nat, after: Rows)
    requires AllGrounded(rows) && OneAttemptChanged(rows, key, ordinal, after) && Grounded(after[key].Nth(ordinal))
    ensures AllGrounded(after)
  {
    hide Grounded;
    forall k, i | k in after && 0 <= i < |after[k].attempts| ensures Grounded(after[k].attempts[i]) {
      if k == key {
        assert i != ordinal - 1 ==> after[k].attempts[i] == rows[k].attempts[i];
      }
    }
  }

  lemma GuidanceGrounds(rows: Rows, key: Key, ordinal: nat)
    requires AllGrounded(rows)
    ensures AllGrounded(Settle(rows, SetGuidance(rows, key, ordinal)).rows)
  {
    hide AllGrounded;
    var r := SetGuidance(rows, key, ordinal);
    if r.Ok? && r.value != rows {
      OneKeepsGrounds(rows, key, ordinal, r.value);
    }
  }

  lemma RoutineGrounds(rows: Rows, key: Key, ordinal: nat, now: int)
    requires AllGrounded(rows) && key in rows && rows[key].Has(ordinal)
    requires Routine(rows, key, ordinal, now).Ok? && Routine(rows, key, ordinal, now).value.Some?
    ensures AllGrounded(Routine(rows, key, ordinal, now).value.value.rows)
  {
    hide AllGrounded, Routine, Grounded;
    var v := Routine(rows, key, ordinal, now).value.value;
    RoutineChanges(rows, key, ordinal, now);
    if v.rows != rows {
      RoutineRests(rows, key, ordinal, now);
      OneKeepsGrounds(rows, key, ordinal, v.rows);
    }
  }

  lemma RoutineChanges(rows: Rows, key: Key, ordinal: nat, now: int)
    requires key in rows && rows[key].Has(ordinal)
    requires Routine(rows, key, ordinal, now).Ok? && Routine(rows, key, ordinal, now).value.Some?
    ensures var v := Routine(rows, key, ordinal, now).value.value;
      && (v.rows != rows ==> OneAttemptChanged(rows, key, ordinal, v.rows))
      && (rows[key].Nth(ordinal).decision.Some? ==> v.rows == rows)
  {
    hide Routine;
    RoutineShape(rows, key, ordinal, now);
    RoutineDecides(rows, key, ordinal, now);
  }

  lemma RoutineRests(rows: Rows, key: Key, ordinal: nat, now: int)
    requires key in rows && rows[key].Has(ordinal) && rows[key].Nth(ordinal).decision.None?
    requires Routine(rows, key, ordinal, now).Ok? && Routine(rows, key, ordinal, now).value.Some?
    ensures var after := Routine(rows, key, ordinal, now).value.value.rows;
      key in after && after[key].Has(ordinal) && Grounded(after[key].Nth(ordinal))
  {
    hide Routine, Grounded;
    RoutineChanges(rows, key, ordinal, now);
    if Routine(rows, key, ordinal, now).value.value.charge.NoRetry? {
      ClosingRests(rows, key, ordinal, now);
    } else {
      RetryRests(rows, key, ordinal, now);
    }
  }

  lemma ClosingRests(rows: Rows, key: Key, ordinal: nat, now: int)
    requires key in rows && rows[key].Has(ordinal) && rows[key].Nth(ordinal).decision.None?
    requires Routine(rows, key, ordinal, now).Ok? && Routine(rows, key, ordinal, now).value.Some?
    requires Routine(rows, key, ordinal, now).value.value.charge.NoRetry?
    ensures var after := Routine(rows, key, ordinal, now).value.value.rows;
      key in after && after[key].Has(ordinal) && Grounded(after[key].Nth(ordinal))
  {
    hide ChargeRoot, RetryAt, DelayedStart;
  }

  lemma RetryRests(rows: Rows, key: Key, ordinal: nat, now: int)
    requires key in rows && rows[key].Has(ordinal) && rows[key].Nth(ordinal).decision.None?
    requires Routine(rows, key, ordinal, now).Ok? && Routine(rows, key, ordinal, now).value.Some?
    requires !Routine(rows, key, ordinal, now).value.value.charge.NoRetry?
    ensures var after := Routine(rows, key, ordinal, now).value.value.rows;
      key in after && after[key].Has(ordinal) && Grounded(after[key].Nth(ordinal))
  {
    hide RetryAt, DelayedStart, Closing;
    ClosingIsFree(rows, key, ordinal);
  }

  lemma RunDecisionGrounds(rows: Rows, key: Key, ordinal: nat, now: int, live: bool)
    requires AllGrounded(rows)
    ensures AllGrounded(Judged(rows, RunDecision(rows, key, ordinal, now, live)).rows)
  {
    hide AllGrounded, Routine, SetGuidance;
    if RunDecision(rows, key, ordinal, now, live).Ok? {
      GuidanceGrounds(rows, key, ordinal);
      var row, a := rows[key], rows[key].Nth(ordinal);
      if !row.status.Cancelled? && Authorized(row, now, live, false) {
        var routine := Routine(rows, key, ordinal, now);
        if routine.Ok? && routine.value.Some? {
          RoutineGrounds(rows, key, ordinal, now);
        } else if routine.Ok? && a.decideBy.None? {
          HandedOver(rows, key, ordinal, now);
        }
      }
    }
  }

  lemma HandedOver(rows: Rows, key: Key, ordinal: nat, now: int)
    requires AllGrounded(rows) && key in rows && rows[key].Has(ordinal)
    ensures var a := rows[key].Nth(ordinal);
      AllGrounded(rows[key := rows[key].WithAttempt(ordinal, a.(status := Deciding, decideBy := Some(now + 120)))])
  {
    hide AllGrounded;
    var a := rows[key].Nth(ordinal);
    assert Grounded(a) by { KnownGrounds(rows, key, ordinal); }
    var deciding := rows[key].WithAttempt(ordinal, a.(status := Deciding, decideBy := Some(now + 120)));
    OneKeepsGrounds(rows, key, ordinal, rows[key := deciding]);
  }

  lemma KnownGrounds(rows: Rows, key: Key, ordinal: nat)
    requires AllGrounded(rows) && key in rows && rows[key].Has(ordinal)
    ensures Grounded(rows[key].Nth(ordinal))
  {
    hide Grounded;
  }

  lemma ApplyGrounds(rows: Rows, key: Key, ordinal: nat, run: string, args: DecisionArgs, now: int, live: bool)
    requires AllGrounded(rows)
    ensures AllGrounded(Judged(rows, ApplyDecision(rows, key, ordinal, run, args, now, live)).rows)
  {
    hide AllGrounded, RetryAt, DelayedStart;
    var r := ApplyDecision(rows, key, ordinal, run, args, now, live);
    if r.Ok? {
      OneKeepsGrounds(rows, key, ordinal, r.value.rows);
    }
  }

  lemma ClaimGrounds(rows: Rows, key: Key, job: JobId, execution: ExecId, scheduled: int, now: int)
    requires AllGrounded(rows)
    ensures AllGrounded(Commit(rows, TClaim(key, job, execution, scheduled), now).rows)
  {}

  lemma FieldGrounds(rows: Rows, t: Txn, now: int)
    requires AllGrounded(rows) && (t.TObserving? || t.TOutcome? || t.TBindRun?)
    ensures AllGrounded(Commit(rows, t, now).rows)
  {
    hide AllGrounded;
    var after := Commit(rows, t, now).rows;
    if after != rows {
      KnownGrounds(rows, t.key, t.ordinal);
      OneKeepsGrounds(rows, t.key, t.ordinal, after);
    }
  }

  lemma CallbackGrounds(rows: Rows, key: Key, ordinal: nat, name: string, target: int, now: int, live: bool)
    requires AllGrounded(rows)
    ensures AllGrounded(Settle(rows, RequestCallback(rows, key, ordinal, name, target, now, live)).rows)
  {
    hide AllGrounded;
    var r := RequestCallback(rows, key, ordinal, name, target, now, live);
    if r.Ok? && r.value != rows {
      KnownGrounds(rows, key, ordinal);
      OneKeepsGrounds(rows, key, ordinal, r.value);
    }
  }

  // All other transactions leave the attempts alone.
  lemma StatusGrounds(rows: Rows, t: Txn, now: int)
    requires AllGrounded(rows)
    requires !t.TClaim? && !t.TObserving? && !t.TOutcome? && !t.TBindRun? && !t.TCallback? && !t.TGuidance?
      && !t.TRunDecision? && !t.TApply?
    ensures AllGrounded(Commit(rows, t, now).rows)
  {
    hide Grounded;
  }

  lemma CommitGrounds(rows: Rows, t: Txn, now: int)
    requires AllGrounded(rows)
    ensures AllGrounded(Commit(rows, t, now).rows)
  {
    hide AllGrounded, Commit;
    match t
    case TClaim(key, job, execution, scheduled) => ClaimGrounds(rows, key, job, execution, scheduled, now);
    case TCallback(key, ordinal, name, target, live) =>
      CallbackGrounds(rows, key, ordinal, name, target, now, live);
      CommitIs(rows, t, now);
    case TGuidance(key, ordinal) =>
      GuidanceGrounds(rows, key, ordinal);
      CommitIs(rows, t, now);
    case TRunDecision(key, ordinal, live) =>
      RunDecisionGrounds(rows, key, ordinal, now, live);
      CommitIs(rows, t, now);
    case TApply(key, ordinal, run, args, live) =>
      ApplyGrounds(rows, key, ordinal, run, args, now, live);
      CommitIs(rows, t, now);
    case TObserving(_, _) => FieldGrounds(rows, t, now);
    case TOutcome(_, _, _) => FieldGrounds(rows, t, now);
    case TBindRun(_, _, _, _) => FieldGrounds(rows, t, now);
    case _ => StatusGrounds(rows, t, now);
  }

  lemma CommitIs(rows: Rows, t: Txn, now: int)
    ensures t.TCallback? ==>
      Commit(rows, t, now) == Settle(rows, RequestCallback(rows, t.key, t.ordinal, t.name, t.target, now, t.live))
    ensures t.TGuidance? ==> Commit(rows, t, now) == Settle(rows, SetGuidance(rows, t.key, t.ordinal))
    ensures t.TRunDecision? ==> Commit(rows, t, now) == Judged(rows, RunDecision(rows, t.key, t.ordinal, now, t.live))
    ensures t.TApply? ==>
      Commit(rows, t, now) == Judged(rows, ApplyDecision(rows, t.key, t.ordinal, t.run, t.args, now, t.live))
  {
    hide RequestCallback, SetGuidance, RunDecision, ApplyDecision;
  }

  // In every state of every run, every decision has its grounds.
  lemma {:induction false} DecisionsStayGrounded(steps: seq<Step>)
    ensures AllGrounded(Run(INITIAL, steps).rows)
  {
    hide Do, Commit, Inv, AllGrounded;
    if steps == [] {
      NothingDecided();
    } else {
      var before, last := Run(INITIAL, steps[..|steps| - 1]), steps[|steps| - 1];
      DecisionsStayGrounded(steps[..|steps| - 1]);
      Reachable(steps[..|steps| - 1]);
      StepCommits(before, last);
      if Do(before, last).rows != before.rows {
        var t, now :| Checked(before.rows, t) && Do(before, last).rows == Commit(before.rows, t, now).rows;
        CommitGrounds(before.rows, t, now);
      }
    }
  }

  lemma NothingDecided()
    ensures AllGrounded(INITIAL.rows)
  {}
}
