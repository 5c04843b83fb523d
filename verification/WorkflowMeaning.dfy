// What the transactions on request rows do, on their fields.
module WorkflowMeaning {
  import opened Wrappers
  import opened CallingHours
  import opened WorkflowRows
  import opened WorkflowLifecycle
  import opened WorkflowSchedule

  // ----- Making a request -----

  // A known key is answered exactly for the same terms. A new request needs a time from now, by
  // five seconds, to a year ahead, and a deadline after it; it lasts for a week at most.
  lemma CreationMeans(rows: Rows, key: Key, terms: Terms, offset: int, now: int)
    ensures var r := Create(rows, key, terms, offset, now);
      && (key in rows ==> (r.Ok? <==> rows[key].terms == terms) && (r.Ok? ==> r.value == rows))
      && (key !in rows ==>
            && (r.Ok? <==>
                  && now <= terms.runAt + 5 && terms.runAt <= now + 31622400
                  && (terms.deadline.Some? ==> terms.runAt < terms.deadline.value))
            && (r.Ok? ==>
                  && r.value.Keys == rows.Keys + {key} && (forall k :: k in rows ==> r.value[k] == rows[k])
                  && NewRow(r.value[key], key, terms, offset)))
  {}

  predicate NewRow(row: Row, key: Key, terms: Terms, offset: int) {
    && row.terms == terms && row.offset == offset && row.root == (if terms.root.Some? then terms.root.value else key)
    && row.runAt == terms.runAt && row.notificationRunAt == terms.runAt
    && row.deadline <= terms.runAt + 604800 && (terms.deadline.Some? ==> row.deadline <= terms.deadline.value)
    && (row.deadline == terms.runAt + 604800 || terms.deadline == Some(row.deadline))
    && row.status == Holding && row.revision == 0 && row.used == 0 && row.attempts == []
    && row.cronJob.None? && row.notificationJob.None? && row.change.None?
    && !row.notificationClaimed && !row.automaticHours
  }

  // ----- Calls -----

  // An execution that has an attempt gets it again; otherwise a new attempt is made exactly for the
  // linked job, at the time of the row, before its deadline, and the row is firing.
  lemma ClaimMeans(rows: Rows, key: Key, job: JobId, execution: ExecId, scheduled: int, now: int)
    requires key in rows
    ensures var row, r := rows[key], Claim(rows, key, job, execution, scheduled, now);
      var known := exists i :: 0 <= i < |row.attempts| && row.attempts[i].execution == execution;
      && (known && r.Ok? ==>
            && r.value.rows == rows && !r.value.created && row.Has(r.value.ordinal)
            && row.Nth(r.value.ordinal).execution == execution && row.Nth(r.value.ordinal).job == job)
      && (!known ==>
            (r.Ok? <==>
                  && row.status == Scheduled && row.cronJob == Some(job) && scheduled == row.runAt
                  && now < row.deadline))
      && (!known && r.Ok? ==>
            && r.value.created && r.value.ordinal == |row.attempts| + 1
            && r.value.rows == rows[key := row.(status := Firing, revision := row.revision + 1,
                 attempts := row.attempts + [Attempt(|row.attempts| + 1, job, execution, Admitted, None, None, None,
                                                     None, None)])])
  {
    var i := FindExecution(rows[key].attempts, execution);
  }

  // An outcome is recorded once.
  lemma OutcomeMeans(rows: Rows, key: Key, ordinal: nat, outcome: CallOutcome)
    requires key in rows && rows[key].Has(ordinal)
    ensures var r, a := RecordOutcome(rows, key, ordinal, outcome), rows[key].Nth(ordinal);
      && (r.Ok? <==> a.outcome.None?)
      && (r.Ok? ==> r.value == rows[key := rows[key].(attempts := rows[key].attempts[ordinal - 1 :=
                                                         a.(outcome := Some(outcome))])])
  {}

  // A decision run is bound in time, by live authority, and never exchanged.
  lemma BindingMeans(rows: Rows, key: Key, ordinal: nat, run: string, now: int, live: bool)
    requires key in rows && rows[key].Has(ordinal)
    ensures var r, row, a := BindDecisionRun(rows, key, ordinal, run, now, live), rows[key], rows[key].Nth(ordinal);
      && (r.Ok? <==>
            && live && now < row.deadline && row.status !in {Completed, Declined, Cancelled, Expired, Exhausted}
            && a.status == Deciding && a.decideBy.Some? && now < a.decideBy.value
              && (a.run.None? || a.run == Some(run)))
      && (r.Ok? ==> r.value == rows[key := row.(attempts := row.attempts[ordinal - 1 := a.(run := Some(run))])])
  {}

  // ----- Endings -----

  lemma FinalsAre(s: Status)
    ensures s.Final() <==> s in {Completed, Declined, Cancelled, Expired, Exhausted}
    ensures s.Waiting() <==> s in {Holding, Scheduled}
  {}

  lemma CancelMeans(rows: Rows, key: Key)
    requires key in rows
    ensures Cancel(rows, key) ==
      Ok(rows[key := rows[key].(status := Cancelled, revision := rows[key].revision + 1)])
  {}

  // Exactly the rows whose deadline has come, that are not over and have no call, expire.
  lemma ExpiryMeans(rows: Rows, now: int, k: Key)
    requires k in rows
    ensures var after, row := ExpireAll(rows, now), rows[k];
      && after.Keys == rows.Keys
      && (row.deadline <= now && row.status in {Holding, Scheduled, NeedsGuidance, UncertainCall} ==>
            after[k] == row.(status := Expired, revision := row.revision + 1))
      && (now < row.deadline || row.status in {Completed, Declined, Cancelled, Expired, Exhausted, Firing} ==>
            after[k] == row)
  {}

  // An automatic retry that comes up by night goes to the owner instead.
  lemma NightMeans(rows: Rows, key: Key, now: int)
    requires key in rows
    ensures var r, row := BlockHours(rows, key, now), rows[key];
      var night := !(28800 <= (now + row.offset) % 86400 < 79200);
      && r.Ok?
      && r.value == if row.automaticHours && night && row.status in {Scheduled, Firing}
                    then rows[key := row.(status := NeedsGuidance, revision := row.revision + 1)] else rows
  {}

  // The reminder is sent once, by its own job, at its time, and for a row that still counts.
  lemma ReminderMeans(rows: Rows, key: Key, job: JobId, scheduled: int, now: int, live: bool)
    requires key in rows
    ensures var r, row := ClaimReminder(rows, key, job, scheduled, now, live), rows[key];
      && (r.Ok? <==>
            && live && row.status !in {Holding, Cancelled, Expired} && now < row.deadline
            && row.notificationJob == Some(job) && scheduled == row.notificationRunAt)
      && (r.Ok? ==>
            && r.value.1 == !row.notificationClaimed
            && r.value.0 == rows[key := row.(notificationClaimed := true)])
  {
    assert rows[key].notificationClaimed ==> rows[key := rows[key].(notificationClaimed := true)] == rows;
  }

  // ----- Callbacks and guidance -----

  // The recipient may ask once in a call, for a time from now to a year ahead, while the request
  // and its chain are alive: the child has the terms of its parent and ends no later.
  lemma CallbackMeans(rows: Rows, key: Key, ordinal: nat, name: string, target: int, now: int, live: bool)
    requires key in rows && rows[key].Has(ordinal) && rows[key].root in rows
    ensures var r, row, a := RequestCallback(rows, key, ordinal, name, target, now, live), rows[key],
                             rows[key].Nth(ordinal);
      var child := CallbackRequest(key, ordinal, name);
      && (r.Ok? ==>
            && live && now < row.deadline && row.status !in {Completed, Declined, Cancelled, Expired, Exhausted}
            && now < target && target <= now + 31622400 && rows[row.root].status != Cancelled)
      && (r.Ok? && a.callback.Some? ==> r.value == rows)
      && (r.Ok? && a.callback.None? && child !in rows ==>
            && r.value.Keys == rows.Keys + {child}
            && r.value[key] == row.(attempts := row.attempts[ordinal - 1 := a.(callback := Some(child))])
            && (forall k :: k in rows && k != key ==> r.value[k] == rows[k])
            && var c := r.value[child];
               && c.root == row.root && c.runAt == target && target < c.deadline && c.deadline <= row.deadline
               && c.terms.number == row.terms.number && c.terms.purpose == row.terms.purpose
               && c.terms.authority == row.terms.authority && c.terms.delays == rows[row.root].terms.delays
               && c.status == Holding && c.attempts == [] && c.offset == row.offset)
  {}

  // An open attempt, or a row that is held, goes to the owner.
  lemma GuidanceMeans(rows: Rows, key: Key, ordinal: nat)
    requires key in rows && rows[key].Has(ordinal)
    ensures var r, row, a := SetGuidance(rows, key, ordinal), rows[key], rows[key].Nth(ordinal);
      && r.Ok?
      && (a.decision.Some? && row.status != Holding ==> r.value == rows)
      && (a.decision.None? || row.status == Holding ==>
            r.value == rows[key := row.(
              attempts := row.attempts[ordinal - 1 :=
                a.(decision := Some(Decision(AskOwner, DUncertain, {}, true)), status := Decided)],
              revision := row.revision + 1,
              status := if row.status in {Completed, Declined, Cancelled, Expired, Exhausted} then row.status
                        else UncertainCall)])
  {}

  // After a call that needs the model, the model has two minutes; without live authority, or after
  // that time, the owner is asked.
  lemma DecisionStepMeans(rows: Rows, key: Key, ordinal: nat, now: int, live: bool)
    requires key in rows && rows[key].Has(ordinal) && rows[key].Nth(ordinal).outcome.Some?
    ensures var r, row, a := RunDecision(rows, key, ordinal, now, live), rows[key], rows[key].Nth(ordinal);
      var alive := live && now < row.deadline
                   && row.status !in {Completed, Declined, Cancelled, Expired, Exhausted};
      var routine := Routine(rows, key, ordinal, now);
      && (!alive || routine.Err? || (routine == Ok(None) && a.decideBy.Some? && a.decideBy.value <= now) ==>
            r == Guided(rows, key, ordinal))
      && (alive && routine.Ok? && routine.value.Some? ==> r == Ok(routine.value.value))
      && (alive && routine == Ok(None) && a.decideBy.None? ==>
            r == Ok(Verdict(rows[key := row.(attempts := row.attempts[ordinal - 1 :=
                                                a.(status := Deciding, decideBy := Some(now + 120))])], NoRetry)))
      && (alive && routine == Ok(None) && a.decideBy.Some? && now < a.decideBy.value
          ==> r == Ok(Verdict(rows, NoRetry)))
  {
    hide Routine, SetGuidance;
  }

  // ----- The schedule -----

  // A publisher arms a held row and changes nothing else of it.
  lemma PublicationMeans(rows: Rows, key: Key)
    requires key in rows
    ensures FinishPublish(rows, key).Ok? <==> rows[key].status == Holding
    ensures FinishPublish(rows, key).Ok? ==>
      FinishPublish(rows, key).value == rows[key := rows[key].(status := Scheduled)]
  {}

  // Small writes: the jobs of a row, and that a call was begun.
  lemma LinksMean(rows: Rows, key: Key, job: JobId, ordinal: nat)
    requires key in rows
    ensures LinkCall(rows, key, job) == Ok(rows[key := rows[key].(cronJob := Some(job))])
    ensures LinkReminder(rows, key, job) == Ok(rows[key := rows[key].(notificationJob := Some(job))])
    ensures rows[key].Has(ordinal) ==>
      MarkObserving(rows, key, ordinal) ==
      if rows[key].attempts[ordinal - 1].status != Admitted then Err(Invalid) else
      Ok(rows[key := rows[key].(attempts := rows[key].attempts[ordinal - 1 :=
                                  rows[key].attempts[ordinal - 1].(status := Observing)])])
  {}

  // Taking hold of a scheduled row for a later time, and writing that time, by the operation that
  // holds it or by a reconciliation that finds it held.
  lemma MoveMeans(rows: Rows, key: Key, op: string, target: int, expected: nat, components: seq<JobId>, now: int)
    requires key in rows
    ensures var row, r := rows[key], HoldForMove(rows, key, op, target, expected, components, now);
      && (r.Ok? <==> row.status == Scheduled && row.revision == expected && now < target && target < row.deadline)
      && (r.Ok? ==> r.value == rows[key := row.(status := Holding, revision := expected + 1,
                                                change := Some(Change(op, target, row.runAt, true, components)))])
    ensures var row, r := rows[key], CommitMove(rows, key, target, expected, components);
      && (r.Ok? <==> row.status == Holding && row.revision == expected + 1)
      && (r.Ok? ==> r.value == rows[key := MovedRow(row, target, components)])
    ensures var row, r := rows[key], ReconcileMove(rows, key, target, components);
      && (r.Ok? <==> row.status == Holding)
      && (r.Ok? ==> r.value == rows[key := MovedRow(row, target, components)])
  {}

  function MovedRow(row: Row, target: int, components: seq<JobId>): Row {
    row.(runAt := target, status := Scheduled, automaticHours := false,
         notificationRunAt :=
           if exists c :: c in components && row.notificationJob == Some(c) then target else row.notificationRunAt,
         change := if row.change.Some? then Some(row.change.value.(pending := false)) else None)
  }

  // A reschedule takes the linked call job and the reminder, as long as that may still be sent.
  lemma ComponentsAre(row: Row, jobs: Jobs, c: JobId)
    ensures c in PendingComponents(row, jobs) <==>
      || row.cronJob == Some(c)
      || (row.notificationJob == Some(c) && !row.notificationClaimed
          && (c in jobs ==> !jobs[c].ran && jobs[c].state != Finished))
  {}

  // A move and a reconciliation keep their jobs from firing, a publisher those that it arms.
  lemma HandsAre(p: Proc, id: JobId)
    ensures id in p.Fences() <==>
      || (p.Moving? && id in p.components)
      || (p.Reconciling? && id in p.change.components)
      || (p.Publishing? && p.stage.Arming?
          && (id == CallJob(p.key, p.ordinal) || (p.stage.notice.Some? && id == ReminderJob(p.key))))
  {}

  predicate InHand(s: State, id: JobId) {
    exists p :: p in s.procs && id in s.procs[p].Fences()
  }

  // A job fires exactly when it is armed, due, not taken and in nobody's hands; it can be paused
  // before it was taken.
  lemma FiringMeans(s: State, execution: ExecId, id: JobId, now: int)
    ensures var fires := execution !in s.execs && id in s.jobs && s.jobs[id].instant <= now
                         && s.jobs[id].state == Armed && !s.jobs[id].claimed && !s.jobs[id].ran && !InHand(s, id);
      DoFire(s, execution, id, now) == if !fires then s else
        s.(jobs := s.jobs[id := s.jobs[id].(claimed := true)],
           execs := s.execs[execution := Execution(id, s.jobs[id].instant, true)])
    ensures DoPause(s, id) == if id !in s.jobs || s.jobs[id].ran || s.jobs[id].claimed || InHand(s, id) then s
                              else s.(jobs := s.jobs[id := s.jobs[id].(state := Paused)])
  {
    hide Proc.Fences;
    if Free(s.procs, {id}) && InHand(s, id) {
      assert false;
    }
    assert !InHand(s, id) ==> Free(s.procs, {id});
  }

  // The attempt of an execution is the i-th, or would be the next.
  predicate Nth(attempts: seq<Attempt>, execution: ExecId, i: nat) {
    && i <= |attempts| && (i < |attempts| ==> attempts[i].execution == execution)
    && (forall j :: 0 <= j < i ==> attempts[j].execution != execution)
  }

  // An occurrence is read for admission exactly for the job of its attempt, at the row's time, with
  // live authority and, for the first admission of an automatic retry, by day.
  lemma AdmissionReadMeans(s: State, pid: nat, key: Key, execution: ExecId, now: int, live: bool, i: nat)
    requires key in s.rows && Nth(s.rows[key].attempts, execution, i)
    requires execution in s.execs && s.execs[execution].job in s.jobs
    ensures var row, e := s.rows[key], s.execs[execution];
      var ready := pid !in s.procs && e.running && s.jobs[e.job].claimed
                   && live && now < row.deadline
                   && row.status !in {Completed, Declined, Cancelled, Expired, Exhausted}
                   && e.instant == row.runAt && e.job == CallJob(key, i + 1)
                   && (i == |row.attempts| && row.automaticHours ==> 28800 <= (now + row.offset) % 86400 < 79200);
      DoReadAdmit(s, pid, key, execution, now, live) == if !ready then s else
        s.(procs := s.procs[pid := Admitting(key, e.job, execution, s.jobs[e.job].instant)])
  {
    assert FindExecution(s.rows[key].attempts, execution) == i;
  }

  // A reminder is claimed exactly by the linked job while that is taken, at the row's reminder time.
  lemma RemindingMeans(s: State, key: Key, execution: ExecId, now: int, live: bool)
    requires key in s.rows && execution in s.execs && s.execs[execution].job in s.jobs
    ensures var row, e := s.rows[key], s.execs[execution];
      var due := e.running && s.jobs[e.job].claimed && s.jobs[e.job].instant == row.notificationRunAt
                 && live && now < row.deadline && row.status !in {Holding, Cancelled, Expired}
                 && row.notificationJob == Some(e.job) && e.instant == row.notificationRunAt;
      DoRemind(s, key, execution, now, live).rows ==
        if due then s.rows[key := row.(notificationClaimed := true)] else s.rows
  {
    assert s.rows[key].notificationClaimed ==>
      s.rows[key := s.rows[key].(notificationClaimed := true)] == s.rows;
  }

  // A reconciliation takes the jobs of the change that it read, if they are in nobody's hands.
  lemma TakingMeans(s: State, pid: nat, p: Proc)
    requires p.ReconcileRead?
    ensures var t := DoReconcileFence(s, pid, p);
      var free := p.key in s.rows && forall id :: id in p.change.components ==> !InHand(s, id);
      && t.rows == s.rows && t.jobs == s.jobs && t.execs == s.execs
      && t.procs == if free then s.procs[pid := Reconciling(p.key, p.change, 0)] else s.procs - {pid}
  {
    hide Proc.Fences;
    var ids := set id | id in p.change.components;
    if Free(s.procs, ids) {
      forall id | id in p.change.components ensures !InHand(s, id) {
        assert id in ids;
      }
    } else {
      var q :| q in s.procs && !(s.procs[q].Fences() !! ids);
      var id :| id in s.procs[q].Fences() && id in ids;
      assert InHand(s, id);
    }
  }

  // Operations begin with a copy of what their row says.
  lemma BeginningsMean(s: State, pid: nat, key: Key, op: string, target: int, expected: nat)
    requires pid !in s.procs && key in s.rows
    ensures var row := s.rows[key];
      && Do(s, StartPublish(pid, key)) ==
         (if row.status != Holding then s
          else s.(procs := s.procs[pid := Publishing(key, |row.attempts| + 1, row.runAt, Start)]))
      && Do(s, ReadReconcile(pid, key)) ==
         (if row.status == Holding && row.change.Some? && row.change.value.pending
          then s.(procs := s.procs[pid := ReconcileRead(key, row.change.value)]) else s)
      && Do(s, ReadMove(pid, key, op, target, expected)) ==
         s.(procs := s.procs[pid := MoveRead(key, op, target, expected, PendingComponents(row, s.jobs))])
  {
    hide PendingComponents;
  }

  // A crash ends every operation, and nothing else.
  lemma CrashMeans(s: State, pid: nat)
    ensures Do(s, Crash) == s.(procs := map[])
    ensures Do(s, Abandon(pid)) == s.(procs := s.procs - {pid})
  {}

  // A publisher whose row is still held arms it and is over.
  lemma PublishingMeans(s: State, pid: nat, p: Proc)
    requires p.Publishing? && p.key in s.rows
    ensures var t := DoPublish(s, pid, p);
      && t.procs == s.procs - {pid} && t.jobs == s.jobs && t.execs == s.execs
      && t.rows == if s.rows[p.key].status == Holding then s.rows[p.key := s.rows[p.key].(status := Scheduled)]
                   else s.rows
  {}

  // A publisher makes the job of its attempt, paused and at the time it read, or goes on with one
  // that stands there and has not run; otherwise it is over.
  lemma MakingMeans(s: State, pid: nat, p: Proc)
    requires p.Publishing?
    ensures var t, id := DoCreateJob(s, pid, p), CallJob(p.key, p.ordinal);
      && id in t.jobs && (id in s.jobs ==> t.jobs == s.jobs)
      && (id !in s.jobs ==> t.jobs == s.jobs[id := Job(p.runAt, Paused, false, false)])
      && (if t.jobs[id].instant == p.runAt && !t.jobs[id].ran then t.procs == s.procs[pid := p.(stage := Made)]
          else t.procs == s.procs - {pid})
      && t.rows == s.rows && t.execs == s.execs && t.hazard == s.hazard
  {}

  // Only the first publication of a row that wants it makes a reminder.
  lemma LinkingMeans(s: State, pid: nat, p: Proc)
    requires p.Publishing? && p.key in s.rows
    ensures var t, row := DoLink(s, pid, p), s.rows[p.key];
      && t.rows == s.rows[p.key := row.(cronJob := Some(CallJob(p.key, p.ordinal)))]
      && t.procs == s.procs[pid := p.(stage := if row.terms.notifyAtDue && row.attempts == []
                                               then Linked(row.notificationRunAt) else Ready(None))]
      && t.jobs == s.jobs
  {
  }

  // A job is armed unless it was taken or has run; a job that stands elsewhere ends the publisher.
  lemma ArmingMeans(s: State, pid: nat, p: Proc)
    requires p.Publishing? && p.stage.Arming? && p.stage.done < |Parts(p.key, p.ordinal, p.stage.notice)|
    requires Parts(p.key, p.ordinal, p.stage.notice)[p.stage.done] in s.jobs
    ensures var t, id := DoArm(s, pid, p), Parts(p.key, p.ordinal, p.stage.notice)[p.stage.done];
      var due := if p.stage.done == 0 then p.runAt else p.stage.notice.value;
      && (s.jobs[id].ran || s.jobs[id].claimed ==> t.jobs[id] == s.jobs[id])
      && (!s.jobs[id].ran && !s.jobs[id].claimed ==> t.jobs[id] == s.jobs[id].(state := Armed))
      && t.jobs == s.jobs[id := t.jobs[id]] && t.rows == s.rows
      && (pid in t.procs <==> t.jobs[id].state == Armed && t.jobs[id].instant == due)
      && (pid in t.procs ==>
            t.procs == s.procs[pid := p.(stage := Arming(p.stage.notice, p.stage.done + 1))])
  {
    hide Parts;
  }

  // A reconciliation moves a job that can be moved, and is over at one that cannot.
  lemma ReconcilingMeans(s: State, pid: nat, p: Proc)
    requires p.Reconciling? && p.settled < |p.change.components|
    ensures var t, id := DoReconcileJob(s, pid, p), p.change.components[p.settled];
      var movable := id in s.jobs && !s.jobs[id].ran && !s.jobs[id].claimed && s.jobs[id].state == Armed;
      && t.rows == s.rows
      && (movable ==>
            && t.jobs == s.jobs[id := s.jobs[id].(instant := p.change.target)]
            && t.procs == s.procs[pid := p.(settled := p.settled + 1)])
      && (!movable ==> t.jobs == s.jobs && t.procs == s.procs - {pid})
  {}

  // A finished occurrence leaves a job that has run and never runs again.
  lemma FinishingMeans(s: State, execution: ExecId)
    requires execution in s.execs && s.execs[execution].running && s.execs[execution].job in s.jobs
    ensures var t, id := DoFinish(s, execution), s.execs[execution].job;
      && t.jobs == s.jobs[id := Job(s.jobs[id].instant, Finished, false, true)]
      && t.execs == s.execs[execution := s.execs[execution].(running := false)] && t.rows == s.rows
  {}
}
