// Every step of every interleaving keeps the schedule invariant.
module WorkflowSteps {
  import opened Wrappers
  import opened WorkflowRows
  import opened WorkflowLifecycle
  import opened WorkflowBudget
  import opened WorkflowSchedule
  import opened WorkflowAlignment

  // ----- steps that change jobs -----

  // The other operations on the request survive a change of its jobs.
  lemma OthersJobs(s: State, t: State, key: Key, pid: nat, moved: set<JobId>, taken: set<JobId>)
    requires ProcsOk(s) && key in s.rows && t.rows == s.rows && t.hazard == s.hazard
    requires JobsStep(s.jobs, t.jobs, moved, taken) && Grow(s.execs, t.execs)
    requires forall p :: p in t.procs && p != pid ==> p in s.procs && t.procs[p] == s.procs[p]
    requires forall p :: p in t.procs && p != pid ==>
      t.procs[p].Fences() !! moved && (t.procs[p].Moving? ==> t.procs[p].Fences() !! taken)
    ensures forall p :: p in t.procs && p != pid && t.procs[p].key == key ==>
      ProcOk(t.procs[p], t.rows[key], t.jobs, t.execs, key in t.hazard)
  {
    hide ProcOk, JobsStep, Grow, Proc.Fences;
    forall p | p in t.procs && p != pid && t.procs[p].key == key
      ensures ProcOk(t.procs[p], t.rows[key], t.jobs, t.execs, key in t.hazard)
    {
      ProcJobs(s.procs[p], s.rows[key], s.jobs, t.jobs, s.execs, t.execs, key in s.hazard, moved, taken);
    }
  }

  // A step that changes jobs of one request and advances or ends one operation on it.
  lemma JobsChange(s: State, t: State, key: Key, pid: nat, moved: set<JobId>, taken: set<JobId>)
    requires Inv(s) && key in s.rows && t == s.(jobs := t.jobs, execs := t.execs, procs := t.procs)
    requires JobsStep(s.jobs, t.jobs, moved, taken) && Grow(s.execs, t.execs) && ExecsOk(t.jobs, t.execs)
    requires forall id: JobId ::
      id.key != key ==> (id in t.jobs <==> id in s.jobs) && (id in s.jobs ==> t.jobs[id] == s.jobs[id])
    requires forall p :: p in t.procs && p != pid ==> p in s.procs && t.procs[p] == s.procs[p]
    requires forall p :: p in t.procs && p != pid ==>
      t.procs[p].Fences() !! moved && (t.procs[p].Moving? ==> t.procs[p].Fences() !! taken)
    requires RowSchedule(s.rows[key], t.jobs, key in s.hazard, key)
    requires pid in t.procs ==>
      && t.procs[pid].key == key
      && ProcOk(t.procs[pid], s.rows[key], t.jobs, t.execs, key in s.hazard)
      && Free(t.procs - {pid}, t.procs[pid].Fences())
    ensures Inv(t)
  {
    hide RowsOk, BudgetOk, ExecsOk, RowSchedule, ProcOk, JobsStep, Proc.Fences;
    OthersJobs(s, t, key, pid, moved, taken);
    FencesStill(s.procs, t.procs, pid);
    Local(s, t, key);
  }

  lemma FencesStill(procs: Procs, after: Procs, pid: nat)
    requires FencesOk(procs)
    requires forall p :: p in after && p != pid ==> p in procs && after[p] == procs[p]
    requires pid in after ==> Free(after - {pid}, after[pid].Fences())
    ensures FencesOk(after)
  {
    hide Proc.Fences;
    forall a, b | a in after && b in after && a != b ensures after[a].Fences() !! after[b].Fences() {
      if a == pid { assert b in after - {pid}; } else if b == pid { assert a in after - {pid}; }
    }
  }

  // A job that did not exist appears where its row expects it.
  lemma NewJob(row: Row, jobs: Jobs, flagged: bool, key: Key, id: JobId, at: int)
    requires RowSchedule(row, jobs, flagged, key) && id !in jobs && id.key == key
    requires id.CallJob? ==> 1 <= id.ordinal <= NextOrdinal(row) && (Undecided(row) ==> id.ordinal < NextOrdinal(row))
    requires !flagged && id == Current(row, key) ==> at == row.runAt
    requires !flagged && id == ReminderJob(key) ==> at == row.notificationRunAt
    ensures RowSchedule(row, jobs[id := Job(at, Paused, false, false)], flagged, key)
  {}

  lemma KeepsCreateJob(s: State, pid: nat)
    requires Inv(s) && pid in s.procs && s.procs[pid].Publishing? && s.procs[pid].stage.Start?
    ensures Inv(DoCreateJob(s, pid, s.procs[pid]))
  {
    hide RowsOk, BudgetOk, RowSchedule, FencesOk;
    var p := s.procs[pid];
    var t := DoCreateJob(s, pid, p);
    var id := CallJob(p.key, p.ordinal);
    if id !in s.jobs {
      NewJob(s.rows[p.key], s.jobs, p.key in s.hazard, p.key, id, p.runAt);
    }
    JobsChange(s, t, p.key, pid, {}, {});
  }

  lemma KeepsCreateReminder(s: State, pid: nat)
    requires Inv(s) && pid in s.procs && s.procs[pid].Publishing? && s.procs[pid].stage.Linked?
    ensures Inv(DoCreateReminder(s, pid, s.procs[pid]))
  {
    hide RowsOk, BudgetOk, RowSchedule, FencesOk;
    var p := s.procs[pid];
    var t := DoCreateReminder(s, pid, p);
    if ReminderJob(p.key) !in s.jobs {
      NewJob(s.rows[p.key], s.jobs, p.key in s.hazard, p.key, ReminderJob(p.key), p.stage.noticeAt);
    }
    JobsChange(s, t, p.key, pid, {}, {});
  }

  // Changes of a job that leave its instant alone do not matter to its row.
  ghost predicate SameInstants(jobs: Jobs, after: Jobs) {
    && after.Keys == jobs.Keys
    && forall id :: id in jobs ==> after[id].instant == jobs[id].instant
  }

  lemma RowInstants(row: Row, jobs: Jobs, after: Jobs, flagged: bool, key: Key)
    requires RowSchedule(row, jobs, flagged, key) && SameInstants(jobs, after)
    ensures RowSchedule(row, after, flagged, key)
  {}

  lemma KeepsArm(s: State, pid: nat)
    requires Inv(s) && pid in s.procs && s.procs[pid].Publishing? && s.procs[pid].stage.Arming?
    ensures Inv(DoArm(s, pid, s.procs[pid]))
  {
    hide RowsOk, BudgetOk, RowSchedule, ProcOk, FencesOk, Proc.Fences;
    var p := s.procs[pid];
    var t := DoArm(s, pid, p);
    var parts := Parts(p.key, p.ordinal, p.stage.notice);
    if p.stage.done >= |parts| || parts[p.stage.done] !in s.jobs {
      Drops(s, pid);
    } else {
      var id := parts[p.stage.done];
      var armed := s.(jobs := s.jobs[id := ArmJob(s.jobs[id])]);
      NativeChange(s, armed, p.key, {});
      if pid in t.procs {
        ArmingOn(armed, pid, p.stage.done + 1);
      } else {
        Drops(armed, pid);
      }
    }
  }

  lemma ArmingOn(s: State, pid: nat, done: nat)
    requires Inv(s) && pid in s.procs && s.procs[pid].Publishing? && s.procs[pid].stage.Arming?
    ensures var p := s.procs[pid]; Inv(At(s, pid, p.(stage := Arming(p.stage.notice, done))))
  {
    hide RowsOk, BudgetOk, RowSchedule, ExecsOk;
    var p := s.procs[pid];
    var q := p.(stage := Arming(p.stage.notice, done));
    assert q.Fences() == p.Fences();
    FreeAfter(s.procs, pid, q);
    Starts(s, pid, q);
  }

  // The same, for a native event that belongs to no operation.
  lemma NativeChange(s: State, t: State, key: Key, taken: set<JobId>)
    requires Inv(s) && key in s.rows && t == s.(jobs := t.jobs, execs := t.execs)
    requires JobsStep(s.jobs, t.jobs, {}, taken) && SameInstants(s.jobs, t.jobs)
    requires Grow(s.execs, t.execs) && ExecsOk(t.jobs, t.execs)
    requires forall id :: id in s.jobs && id.key != key ==> t.jobs[id] == s.jobs[id]
    requires forall p :: p in s.procs && s.procs[p].Moving? ==> s.procs[p].Fences() !! taken
    ensures Inv(t)
  {
    hide RowsOk, BudgetOk, ExecsOk, FencesOk, RowSchedule, ProcOk, JobsStep, Grow, Proc.Fences;
    RowInstants(s.rows[key], s.jobs, t.jobs, key in s.hazard, key);
    forall p | p in t.procs && t.procs[p].key == key
      ensures ProcOk(t.procs[p], t.rows[key], t.jobs, t.execs, key in t.hazard)
    {
      ProcJobs(s.procs[p], s.rows[key], s.jobs, t.jobs, s.execs, t.execs, key in s.hazard, {}, taken);
    }
    Local(s, t, key);
  }

  lemma KeepsPause(s: State, id: JobId)
    requires Inv(s)
    ensures Inv(DoPause(s, id))
  {
    hide RowsOk, BudgetOk, RowSchedule, ProcOk, Proc.Fences, Free;
    var t := DoPause(s, id);
    if t != s {
      NativeChange(s, t, id.key, {});
    }
  }

  // A fenced job never fires.
  lemma KeepsFire(s: State, execution: ExecId, id: JobId, now: int)
    requires Inv(s)
    ensures Inv(DoFire(s, execution, id, now))
  {
    hide RowsOk, BudgetOk, RowSchedule, ProcOk, Proc.Fences;
    var t := DoFire(s, execution, id, now);
    if t != s {
      NativeChange(s, t, id.key, {id});
    }
  }

  // A job whose occurrence is taken is in nobody's move.
  lemma NotMoving(s: State, execution: ExecId)
    requires Inv(s) && execution in s.execs
    ensures forall p :: p in s.procs && s.procs[p].Moving? ==> s.procs[p].Fences() !! {s.execs[execution].job}
  {
    hide RowsOk, BudgetOk, RowSchedule;
    var id := s.execs[execution].job;
    assert id in s.jobs && (s.jobs[id].claimed || s.jobs[id].ran);
    forall p | p in s.procs && s.procs[p].Moving? ensures s.procs[p].Fences() !! {id} {
      assert ProcOk(s.procs[p], s.rows[s.procs[p].key], s.jobs, s.execs, s.procs[p].key in s.hazard);
    }
  }

  lemma KeepsFinish(s: State, execution: ExecId)
    requires Inv(s)
    ensures Inv(DoFinish(s, execution))
  {
    hide RowsOk, BudgetOk, RowSchedule, ProcOk, Proc.Fences;
    var t := DoFinish(s, execution);
    if t != s {
      NotMoving(s, execution);
      NativeChange(s, t, s.execs[execution].job.key, {s.execs[execution].job});
    }
  }

  // Moving a component of the pending change keeps the row's job on its way.
  lemma MovedRow(row: Row, jobs: Jobs, flagged: bool, key: Key, id: JobId, target: int)
    requires RowSchedule(row, jobs, flagged, key) && id in jobs
    requires !flagged ==> row.Pending() && row.change.value.target == target && id in row.change.value.components
    ensures RowSchedule(row, MoveJob(jobs, id, target), flagged, key)
  {}

  lemma UntakenExecs(jobs: Jobs, execs: Execs, id: JobId, target: int)
    requires ExecsOk(jobs, execs) && id in jobs && !jobs[id].claimed && !jobs[id].ran
    ensures ExecsOk(MoveJob(jobs, id, target), execs)
  {}

  lemma KeepsMove(s: State, pid: nat)
    requires Inv(s) && pid in s.procs && s.procs[pid].Moving?
    ensures Inv(DoMove(s, pid, s.procs[pid]))
  {
    hide RowsOk, BudgetOk, RowSchedule, ExecsOk;
    var p := s.procs[pid];
    if p.moved < |p.components| {
      var t := DoMove(s, pid, p);
      var id := p.components[p.moved];
      assert id in p.Fences();
      MovedRow(s.rows[p.key], s.jobs, p.key in s.hazard, p.key, id, p.target);
      UntakenExecs(s.jobs, s.execs, id, p.target);
      assert t.procs[pid].Fences() == p.Fences() && t.procs - {pid} == s.procs - {pid};
      FreeAfter(s.procs, pid, p);
      JobsChange(s, t, p.key, pid, {id}, {});
    }
  }

  lemma KeepsReconcileJob(s: State, pid: nat)
    requires Inv(s) && pid in s.procs && s.procs[pid].Reconciling?
    ensures Inv(DoReconcileJob(s, pid, s.procs[pid]))
  {
    hide RowsOk, BudgetOk, RowSchedule, ExecsOk;
    var p := s.procs[pid];
    if p.settled < |p.change.components| {
      var t := DoReconcileJob(s, pid, p);
      var id := p.change.components[p.settled];
      if id !in s.jobs || !s.jobs[id].Movable() {
        Drops(s, pid);
      } else {
        assert id in p.Fences();
        MovedRow(s.rows[p.key], s.jobs, p.key in s.hazard, p.key, id, p.change.target);
        UntakenExecs(s.jobs, s.execs, id, p.change.target);
        assert t.procs[pid].Fences() == p.Fences() && t.procs - {pid} == s.procs - {pid};
        FreeAfter(s.procs, pid, p);
        JobsChange(s, t, p.key, pid, {id}, {});
      }
    }
  }

  // ----- steps that rewrite the row of one request -----

  lemma RowChange(s: State, t: State, key: Key, pid: nat, row: Row)
    requires Inv(s) && key in s.rows && RowsOk(t.rows) && BudgetOk(t.rows, t.history)
    requires t.rows == s.rows[key := row] && t.jobs == s.jobs && t.execs == s.execs
    requires t.hazard == s.hazard || t.hazard == s.hazard + {key}
    requires RowSchedule(row, s.jobs, key in t.hazard, key)
    requires forall p :: p in t.procs && p != pid ==> p in s.procs && t.procs[p] == s.procs[p]
    requires forall p :: p in t.procs && p != pid && t.procs[p].key == key ==>
      ProcOk(t.procs[p], row, s.jobs, s.execs, key in t.hazard)
    requires pid in t.procs ==>
      && t.procs[pid].key == key
      && ProcOk(t.procs[pid], row, s.jobs, s.execs, key in t.hazard)
      && Free(t.procs - {pid}, t.procs[pid].Fences())
    ensures Inv(t)
  {
    hide RowsOk, BudgetOk, ExecsOk, RowSchedule, ProcOk, Proc.Fences, Elsewhere;
    FencesStill(s.procs, t.procs, pid);
    RowElsewhere(s, t, key, pid, row);
    Local(s, t, key);
  }

  // The other requests see nothing of it.
  lemma RowElsewhere(s: State, t: State, key: Key, pid: nat, row: Row)
    requires key in s.rows && t.rows == s.rows[key := row] && t.jobs == s.jobs && t.execs == s.execs
    requires t.hazard == s.hazard || t.hazard == s.hazard + {key}
    requires forall p :: p in t.procs && p != pid ==> p in s.procs && t.procs[p] == s.procs[p]
    requires pid in t.procs ==> t.procs[pid].key == key
    ensures Elsewhere(s, t, key)
  {}

  lemma Committed(s: State, t: Txn, now: int)
    requires Inv(s) && Checked(s.rows, t)
    ensures RowsOk(With(s, t, now).rows) && BudgetOk(With(s, t, now).rows, With(s, t, now).history)
  {
    hide RowsOk, BudgetOk, SchedulesOk, ProcsOk, ExecsOk, FencesOk, Commit, Record;
    CommitKeeps(s.rows, t, now);
    CommitKeepsBudget(s.rows, t, now, s.history);
  }

  lemma LinkedRow(row: Row, jobs: Jobs, flagged: bool, key: Key, ordinal: nat)
    requires RowSchedule(row, jobs, flagged, key) && CallJob(key, ordinal) in jobs
    ensures RowSchedule(row.(cronJob := Some(CallJob(key, ordinal))), jobs, flagged || ordinal != NextOrdinal(row), key)
  {}

  lemma LinkedProc(p: Proc, row: Row, jobs: Jobs, execs: Execs, flagged: bool, ordinal: nat)
    requires ProcOk(p, row, jobs, execs, flagged)
    ensures ProcOk(p, row.(cronJob := Some(CallJob(p.key, ordinal))), jobs, execs,
                   flagged || ordinal != NextOrdinal(row))
  {}

  lemma KeepsLink(s: State, pid: nat)
    requires Inv(s) && pid in s.procs && s.procs[pid].Publishing? && s.procs[pid].stage.Made?
    ensures Inv(DoLink(s, pid, s.procs[pid]))
  {
    hide RowsOk, BudgetOk, RowSchedule, FencesOk, ExecsOk;
    var p := s.procs[pid];
    var row := s.rows[p.key];
    var t := DoLink(s, pid, p);
    var linked := row.(cronJob := Some(CallJob(p.key, p.ordinal)));
    Committed(s, TLinkCall(p.key, CallJob(p.key, p.ordinal)), 0);
    LinkedRow(row, s.jobs, p.key in s.hazard, p.key, p.ordinal);
    forall q | q in t.procs && q != pid && t.procs[q].key == p.key
      ensures ProcOk(t.procs[q], linked, s.jobs, s.execs, p.key in t.hazard)
    {
      hide ProcOk;
      LinkedProc(s.procs[q], row, s.jobs, s.execs, p.key in s.hazard, p.ordinal);
    }
    LinkedProc(p, row, s.jobs, s.execs, p.key in s.hazard, p.ordinal);
    RowChange(s, t, p.key, pid, linked);
  }

  lemma NoticeRow(row: Row, jobs: Jobs, flagged: bool, key: Key)
    requires RowSchedule(row, jobs, flagged, key) && ReminderJob(key) in jobs
    ensures RowSchedule(row.(notificationJob := Some(ReminderJob(key))), jobs, flagged, key)
  {}

  lemma NoticeProc(p: Proc, row: Row, jobs: Jobs, execs: Execs, flagged: bool)
    requires ProcOk(p, row, jobs, execs, flagged)
    ensures ProcOk(p, row.(notificationJob := Some(ReminderJob(p.key))), jobs, execs, flagged)
  {}

  lemma KeepsLinkNotice(s: State, pid: nat)
    requires Inv(s) && pid in s.procs && s.procs[pid].Publishing? && s.procs[pid].stage.Reminded?
    ensures Inv(DoLinkNotice(s, pid, s.procs[pid]))
  {
    hide RowsOk, BudgetOk, RowSchedule, FencesOk, ExecsOk;
    var p := s.procs[pid];
    var row := s.rows[p.key];
    var t := DoLinkNotice(s, pid, p);
    var linked := row.(notificationJob := Some(ReminderJob(p.key)));
    Committed(s, TLinkReminder(p.key, ReminderJob(p.key)), 0);
    NoticeRow(row, s.jobs, p.key in s.hazard, p.key);
    forall q | q in t.procs && q != pid && t.procs[q].key == p.key
      ensures ProcOk(t.procs[q], linked, s.jobs, s.execs, p.key in t.hazard)
    {
      hide ProcOk;
      NoticeProc(s.procs[q], row, s.jobs, s.execs, p.key in s.hazard);
    }
    NoticeProc(p, row, s.jobs, s.execs, p.key in s.hazard);
    RowChange(s, t, p.key, pid, linked);
  }

  // Publication makes a held row wait for exactly the job that was linked for its next attempt.
  lemma PublishedRow(row: Row, jobs: Jobs, flagged: bool, key: Key, p: Proc)
    requires RowSchedule(row, jobs, flagged, key) && p.Publishing? && p.key == key && p.stage.Arming?
    requires PublishOk(p, row, jobs, flagged)
    ensures RowSchedule(row.(status := Scheduled), jobs, flagged || p.ordinal != NextOrdinal(row) || row.Pending(), key)
  {}

  lemma StatusProc(p: Proc, row: Row, status: Status, jobs: Jobs, execs: Execs, flagged: bool, after: bool)
    requires ProcOk(p, row, jobs, execs, flagged) && (flagged ==> after)
    ensures ProcOk(p, row.(status := status), jobs, execs, after)
  {}

  lemma KeepsPublish(s: State, pid: nat)
    requires Inv(s) && pid in s.procs && s.procs[pid].Publishing? && s.procs[pid].stage.Arming?
    ensures Inv(DoPublish(s, pid, s.procs[pid]))
  {
    hide RowsOk, BudgetOk, RowSchedule, FencesOk, ExecsOk, PublishOk, Proc.Fences;
    var p := s.procs[pid];
    var row := s.rows[p.key];
    var t := DoPublish(s, pid, p);
    if !row.status.Holding? {
      Drops(s, pid);
    } else {
      assert ProcOk(p, row, s.jobs, s.execs, p.key in s.hazard);
      Committed(s, TPublished(p.key), 0);
      PublishedRow(row, s.jobs, p.key in s.hazard, p.key, p);
      forall q | q in t.procs && q != pid && t.procs[q].key == p.key
        ensures ProcOk(t.procs[q], row.(status := Scheduled), s.jobs, s.execs, p.key in t.hazard)
      {
        StatusProc(s.procs[q], row, Scheduled, s.jobs, s.execs, p.key in s.hazard, p.key in t.hazard);
      }
      RowChange(s, t, p.key, pid, row.(status := Scheduled));
    }
  }

  function HeldForMove(row: Row, op: string, target: int, components: seq<JobId>): Row {
    row.(status := Holding, revision := row.revision + 1,
         change := Some(Change(op, target, row.runAt, true, components)))
  }

  predicate Blind(row: Row, components: seq<JobId>) {
    row.cronJob.None? || row.cronJob.value !in components
  }

  lemma HeldRow(row: Row, jobs: Jobs, flagged: bool, key: Key, op: string, target: int, components: seq<JobId>)
    requires RowSchedule(row, jobs, flagged, key) && RowOk(row) && row.status.Scheduled? && Owned(components, key, row)
    ensures RowSchedule(HeldForMove(row, op, target, components), jobs, flagged || Blind(row, components), key)
  {}

  // No other operation believes in a pending change of a row that is scheduled.
  lemma HeldProc(p: Proc, row: Row, jobs: Jobs, execs: Execs, flagged: bool, op: string, target: int,
                 components: seq<JobId>)
    requires ProcOk(p, row, jobs, execs, flagged) && RowSchedule(row, jobs, flagged, p.key) && row.status.Scheduled?
    ensures ProcOk(p, HeldForMove(row, op, target, components), jobs, execs, flagged || Blind(row, components))
  {}

  // What a successful hold writes.
  lemma HoldWrites(s: State, pid: nat, now: int)
    requires pid in s.procs && s.procs[pid].MoveRead? && DoHoldMove(s, pid, s.procs[pid], now) != Drop(s, pid)
    ensures var p, t := s.procs[pid], DoHoldMove(s, pid, s.procs[pid], now);
      && p.key in s.rows && s.rows[p.key].status.Scheduled? && p.target < s.rows[p.key].deadline
      && (forall c :: c in p.components ==> c in s.jobs && s.jobs[c].Movable())
      && Free(s.procs, set c | c in p.components)
      && t.rows == With(s, THold(p.key, p.op, p.target, p.expected, p.components), now).rows
      && var row := s.rows[p.key];
         t == s.(rows := s.rows[p.key := HeldForMove(row, p.op, p.target, p.components)],
                 procs := s.procs[pid := Moving(p.key, p.op, p.target, p.expected, p.components, 0)],
                 hazard := if Blind(row, p.components) then s.hazard + {p.key} else s.hazard,
                 history := With(s, THold(p.key, p.op, p.target, p.expected, p.components), now).history)
  {
    hide Free, Record;
  }

  lemma KeepsHoldMove(s: State, pid: nat, now: int)
    requires Inv(s) && pid in s.procs && s.procs[pid].MoveRead?
    ensures Inv(DoHoldMove(s, pid, s.procs[pid], now))
  {
    hide RowsOk, BudgetOk, RowSchedule, FencesOk, ExecsOk, ProcOk, RowOk, DoHoldMove, HeldForMove, Blind, With;
    var p := s.procs[pid];
    var row := s.rows[p.key];
    var t := DoHoldMove(s, pid, p, now);
    if t == Drop(s, pid) {
      Drops(s, pid);
    } else {
      var held := HeldForMove(row, p.op, p.target, p.components);
      HoldWrites(s, pid, now);
      RowWell(s.rows, p.key);
      Committed(s, THold(p.key, p.op, p.target, p.expected, p.components), now);
      assert ProcOk(p, row, s.jobs, s.execs, p.key in s.hazard);
      ReadComponents(p, row, s.jobs, s.execs, p.key in s.hazard);
      HeldRow(row, s.jobs, p.key in s.hazard, p.key, p.op, p.target, p.components);
      forall q | q in t.procs && q != pid && t.procs[q].key == p.key
        ensures ProcOk(t.procs[q], held, s.jobs, s.execs, p.key in t.hazard)
      {
        HeldProc(s.procs[q], row, s.jobs, s.execs, p.key in s.hazard, p.op, p.target, p.components);
      }
      HeldPends(row, p.op, p.target, p.components);
      MovingStarts(t.procs[pid], held, s.jobs, s.execs, p.key in t.hazard);
      FreeLess(s.procs, pid, t.procs[pid].Fences());
      assert t.procs - {pid} == s.procs - {pid};
      RowChange(s, t, p.key, pid, held);
    }
  }

  lemma HeldPends(row: Row, op: string, target: int, components: seq<JobId>)
    ensures var held := HeldForMove(row, op, target, components);
      && held.Pending() && held.change.value.target == target && held.change.value.components == components
      && held.deadline == row.deadline
  {}

  lemma RowWell(rows: Rows, key: Key)
    requires RowsOk(rows) && key in rows
    ensures RowOk(rows[key])
  {}

  lemma ReadComponents(p: Proc, row: Row, jobs: Jobs, execs: Execs, flagged: bool)
    requires p.MoveRead? && ProcOk(p, row, jobs, execs, flagged)
    ensures Owned(p.components, p.key, row)
  {}

  lemma MovingStarts(p: Proc, row: Row, jobs: Jobs, execs: Execs, flagged: bool)
    requires p.Moving? && p.moved == 0 && p.target < row.deadline && Owned(p.components, p.key, row)
    requires forall c :: c in p.components ==> c in jobs && jobs[c].Movable()
    requires row.Pending() && row.change.value.target == p.target && row.change.value.components == p.components
    ensures ProcOk(p, row, jobs, execs, flagged)
  {}

  // ----- the commit that ends a move -----

  lemma ArrivedRow(row: Row, jobs: Jobs, flagged: bool, key: Key, target: int, components: seq<JobId>)
    requires RowSchedule(row, jobs, flagged, key) && MovedTo(jobs, components, |components|, target)
    requires !flagged ==>
      row.Pending() && row.change.value.target == target && row.change.value.components == components
    ensures RowSchedule(ApplyMove(row, target, components), jobs, flagged, key)
  {
    assert forall c :: c in components ==> c in jobs && jobs[c].instant == target;
  }

  // Whoever else could move the row's job would hold the same fence.
  lemma ArrivedProc(p: Proc, row: Row, jobs: Jobs, execs: Execs, flagged: bool, target: int, components: seq<JobId>)
    requires ProcOk(p, row, jobs, execs, flagged) && RowSchedule(row, jobs, flagged, p.key)
    requires MovedTo(jobs, components, |components|, target)
    requires !flagged ==> row.Pending() && row.change.value.components == components
    requires p.Fences() !! set c | c in components
    ensures ProcOk(p, ApplyMove(row, target, components), jobs, execs, flagged)
  {
    assert forall c :: c in components ==> c in jobs;
    if !flagged {
      var id := Current(row, p.key);
      assert id in set c | c in components;
      assert id !in p.Fences();
    }
  }

  lemma Arrived(s: State, t: State, pid: nat, target: int, components: seq<JobId>)
    requires Inv(s) && pid in s.procs && s.procs[pid].Fences() == set c | c in components
    requires var key := s.procs[pid].key;
      && MovedTo(s.jobs, components, |components|, target)
      && (key !in s.hazard ==>
            && s.rows[key].Pending()
            && s.rows[key].change.value.target == target
            && s.rows[key].change.value.components == components)
      && RowsOk(t.rows) && BudgetOk(t.rows, t.history)
      && t == Drop(s.(rows := s.rows[key := ApplyMove(s.rows[key], target, components)], history := t.history), pid)
    ensures Inv(t)
  {
    hide RowsOk, BudgetOk, RowSchedule, ExecsOk, ProcOk, MovedTo, Proc.Fences;
    var key := s.procs[pid].key;
    var row := s.rows[key];
    ArrivedRow(row, s.jobs, key in s.hazard, key, target, components);
    forall q | q in t.procs && q != pid && t.procs[q].key == key
      ensures ProcOk(t.procs[q], ApplyMove(row, target, components), s.jobs, s.execs, key in t.hazard)
    {
      ArrivedProc(s.procs[q], row, s.jobs, s.execs, key in s.hazard, target, components);
    }
    RowChange(s, t, key, pid, ApplyMove(row, target, components));
  }

  lemma KeepsFinishMove(s: State, pid: nat)
    requires Inv(s) && pid in s.procs && s.procs[pid].Moving?
    ensures Inv(DoFinishMove(s, pid, s.procs[pid]))
  {
    hide RowsOk, BudgetOk, RowSchedule, ExecsOk, FencesOk;
    var p := s.procs[pid];
    assert ProcOk(p, s.rows[p.key], s.jobs, s.execs, p.key in s.hazard);
    if p.moved == |p.components| {
      if CommitMove(s.rows, p.key, p.target, p.expected, p.components).Err? {
        Drops(s, pid);
      } else {
        Committed(s, TMoved(p.key, p.target, p.expected, p.components), 0);
        Arrived(s, DoFinishMove(s, pid, p), pid, p.target, p.components);
      }
    }
  }

  lemma KeepsFinishReconcile(s: State, pid: nat)
    requires Inv(s) && pid in s.procs && s.procs[pid].Reconciling?
    ensures Inv(DoFinishReconcile(s, pid, s.procs[pid]))
  {
    hide RowsOk, BudgetOk, RowSchedule, ExecsOk, FencesOk;
    var p := s.procs[pid];
    assert ProcOk(p, s.rows[p.key], s.jobs, s.execs, p.key in s.hazard);
    if p.settled == |p.change.components| {
      if ReconcileMove(s.rows, p.key, p.change.target, p.change.components).Err? {
        Drops(s, pid);
      } else {
        Committed(s, TReconciled(p.key, p.change.target, p.change.components), 0);
        Arrived(s, DoFinishReconcile(s, pid, p), pid, p.change.target, p.change.components);
      }
    }
  }

  lemma KeepsReconcileFence(s: State, pid: nat)
    requires Inv(s) && pid in s.procs && s.procs[pid].ReconcileRead?
    ensures Inv(DoReconcileFence(s, pid, s.procs[pid]))
  {
    hide RowsOk, BudgetOk, RowSchedule, FencesOk, ExecsOk;
    var p := s.procs[pid];
    var row := s.rows[p.key];
    var t := DoReconcileFence(s, pid, p);
    if t == Drop(s, pid) {
      Drops(s, pid);
    } else {
      FlagRow(row, s.jobs, p.key in s.hazard, p.key in t.hazard, p.key);
      forall q | q in t.procs && q != pid && t.procs[q].key == p.key
        ensures ProcOk(t.procs[q], row, s.jobs, s.execs, p.key in t.hazard)
      {
        hide ProcOk;
        Flagged(s.procs[q], row, s.jobs, s.execs, p.key in s.hazard);
      }
      FreeLess(s.procs, pid, t.procs[pid].Fences());
      assert t.procs - {pid} == s.procs - {pid};
      RowChange(s, t, p.key, pid, row);
    }
  }

  lemma FlagRow(row: Row, jobs: Jobs, flagged: bool, after: bool, key: Key)
    requires RowSchedule(row, jobs, flagged, key) && (flagged ==> after)
    ensures RowSchedule(row, jobs, after, key)
  {}

  // ----- admission and the reminder claim -----

  lemma ClaimedRow(row: Row, jobs: Jobs, flagged: bool, key: Key, job: JobId, execution: ExecId)
    requires RowSchedule(row, jobs, flagged, key) && row.status.Scheduled?
    ensures RowSchedule(FirstClaim(row, job, execution), jobs, flagged, key)
  {
    var after := FirstClaim(row, job, execution);
    assert Current(after, key) !in jobs;
  }

  lemma ClaimedProc(p: Proc, row: Row, jobs: Jobs, execs: Execs, flagged: bool, job: JobId, execution: ExecId)
    requires ProcOk(p, row, jobs, execs, flagged) && RowSchedule(row, jobs, flagged, p.key) && row.status.Scheduled?
    ensures ProcOk(p, FirstClaim(row, job, execution), jobs, execs, flagged)
  {}

  lemma KeepsAdmit(s: State, pid: nat, now: int)
    requires Inv(s) && pid in s.procs && s.procs[pid].Admitting?
    ensures Inv(DoAdmit(s, pid, s.procs[pid], now))
  {
    hide RowsOk, BudgetOk, RowSchedule, FencesOk, ExecsOk, ProcOk, Proc.Fences, FindExecution;
    var p := s.procs[pid];
    var row := s.rows[p.key];
    var t := DoAdmit(s, pid, p, now);
    var c := Claim(s.rows, p.key, p.job, p.execution, p.instant, now);
    Committed(s, TClaim(p.key, p.job, p.execution, p.instant), now);
    if c.Err? || !c.value.created {
      Drops(s, pid);
    } else {
      var after := FirstClaim(row, p.job, p.execution);
      ClaimedRow(row, s.jobs, p.key in s.hazard, p.key, p.job, p.execution);
      forall q | q in t.procs && q != pid && t.procs[q].key == p.key
        ensures ProcOk(t.procs[q], after, s.jobs, s.execs, p.key in t.hazard)
      {
        ClaimedProc(s.procs[q], row, s.jobs, s.execs, p.key in s.hazard, p.job, p.execution);
      }
      RowChange(s, t, p.key, pid, after);
    }
  }

  lemma KeepsRemind(s: State, key: Key, execution: ExecId, now: int, live: bool)
    requires Inv(s)
    ensures Inv(DoRemind(s, key, execution, now, live))
  {
    hide RowsOk, BudgetOk, RowSchedule, FencesOk, ExecsOk, ProcOk, Proc.Fences;
    var t := DoRemind(s, key, execution, now, live);
    if t != s {
      var e := s.execs[execution];
      var row := s.rows[key];
      var c := ClaimReminder(s.rows, key, e.job, e.instant, now, live);
      Committed(s, TClaimReminder(key, e.job, e.instant, live), now);
      var after := row.(notificationClaimed := row.notificationClaimed || (c.Ok? && c.value.1));
      assert t.rows == s.rows[key := after];
      Reminds(s, t, key, after);
    }
  }

  lemma Reminds(s: State, t: State, key: Key, row: Row)
    requires Inv(s) && key in s.rows && RowsOk(t.rows) && BudgetOk(t.rows, t.history)
    requires t == s.(rows := s.rows[key := row], history := t.history)
      && row == s.rows[key].(notificationClaimed := row.notificationClaimed)
    ensures Inv(t)
  {
    hide RowsOk, BudgetOk, FencesOk, ExecsOk, ProcOk, RowSchedule, Proc.Fences;
    QuietRow(s.rows[key], row, s.jobs, key in s.hazard, key);
    forall p | p in t.procs && t.procs[p].key == key ensures ProcOk(t.procs[p], row, t.jobs, t.execs, key in t.hazard) {
      QuietProc(s.procs[p], s.rows[key], row, s.jobs, s.execs, key in s.hazard);
    }
    Local(s, t, key);
  }

  // ----- transactions that need no native job -----

  // What those transactions may do to the schedule of a row: a retry moves `runAt`, but
  // only of a row whose last attempt was still open, before the next job exists.
  ghost predicate Quiet(row: Row, after: Row) {
    && after.cronJob == row.cronJob && after.notificationJob == row.notificationJob
    && after.notificationRunAt == row.notificationRunAt && after.change == row.change && after.deadline == row.deadline
    && |after.attempts| == |row.attempts|
    && (Undecided(after) ==> Undecided(row))
    && (after.status.Scheduled? ==> row.status.Scheduled?)
    && (after.runAt != row.runAt ==> Undecided(row))
    && KeepsChange(row, after)
  }

  // A row comes to be held only with another revision, by these transactions only while its last
  // attempt is open; and its change is left alone.
  predicate KeepsChange(row: Row, after: Row) {
    && after.change == row.change && row.revision <= after.revision
    && (after.status.Holding? && after.revision == row.revision ==> row.status.Holding?)
    && (after.status.Holding? && !Undecided(row) ==> row.status.Holding? && after.revision == row.revision)
  }

  ghost predicate Fresh(row: Row) {
    row.cronJob.None? && row.notificationJob.None? && row.change.None? && row.attempts == [] && !row.status.Scheduled?
  }

  ghost predicate QuietStep(rows: Rows, after: Rows) {
    && rows.Keys <= after.Keys
    && (forall k :: k in rows ==> Quiet(rows[k], after[k]))
    && (forall k :: k in after && k !in rows ==> Fresh(after[k]))
  }

  lemma QuietRow(row: Row, after: Row, jobs: Jobs, flagged: bool, key: Key)
    requires RowSchedule(row, jobs, flagged, key) && Quiet(row, after)
    ensures RowSchedule(after, jobs, flagged, key)
  {
    assert Current(after, key) == Current(row, key);
  }

  lemma QuietProc(p: Proc, row: Row, after: Row, jobs: Jobs, execs: Execs, flagged: bool)
    requires ProcOk(p, row, jobs, execs, flagged) && Quiet(row, after)
    ensures ProcOk(p, after, jobs, execs, flagged)
  {
    assert NextOrdinal(after) == NextOrdinal(row);
  }

  lemma FreshRowSchedule(row: Row, jobs: Jobs, flagged: bool, key: Key)
    requires Fresh(row) && forall id: JobId :: id in jobs ==> id.key != key
    ensures RowSchedule(row, jobs, flagged, key)
  {}

  lemma QuietStepKeeps(s: State, t: State)
    requires Inv(s) && RowsOk(t.rows) && BudgetOk(t.rows, t.history)
    requires t == s.(rows := t.rows, history := t.history) && QuietStep(s.rows, t.rows)
    ensures Inv(t)
  {
    hide RowsOk, BudgetOk, FencesOk, ExecsOk, ProcOk, RowSchedule, Quiet, Fresh;
    forall k | k in t.rows ensures RowSchedule(t.rows[k], t.jobs, k in t.hazard, k) {
      if k in s.rows { QuietRow(s.rows[k], t.rows[k], s.jobs, k in s.hazard, k); }
      else { FreshRowSchedule(t.rows[k], s.jobs, k in s.hazard, k); }
    }
    forall p | p in t.procs
      ensures t.procs[p].key in t.rows
        && ProcOk(t.procs[p], t.rows[t.procs[p].key], t.jobs, t.execs, t.procs[p].key in t.hazard)
    {
      var k := s.procs[p].key;
      QuietProc(s.procs[p], s.rows[k], t.rows[k], s.jobs, s.execs, k in s.hazard);
    }
  }

  lemma OneQuiet(rows: Rows, key: Key, row: Row)
    requires key in rows && Quiet(rows[key], row)
    ensures QuietStep(rows, rows[key := row])
  {}

  lemma SelfQuiet(rows: Rows)
    ensures QuietStep(rows, rows)
  {}

  lemma ClosedQuiet(rows: Rows, key: Key, ordinal: nat, after: Rows, d: Decision, status: Status)
    requires ClosedBy(rows, key, ordinal, after, d, status)
    ensures QuietStep(rows, after)
  {}

  // By the attempt invariant only the last attempt can still be open.
  lemma HeldQuiet(rows: Rows, key: Key, ordinal: nat, d: Decision, target: int, hours: bool)
    requires RowsOk(rows) && key in rows && rows[key].Has(ordinal) && Open(rows[key].Nth(ordinal))
    ensures Quiet(rows[key], Held(rows[key], ordinal, d, target, hours))
  {
    assert RowOk(rows[key]);
  }

  lemma ChargedQuiet(rows: Rows, key: Key, ordinal: nat, after: Rows, d: Decision, target: int)
    requires RowsOk(rows) && ChargedBy(rows, key, ordinal, after, d, target) && Open(rows[key].Nth(ordinal))
    ensures QuietStep(rows, after)
  {
    hide RowsOk;
    HeldQuiet(rows, key, ordinal, d, target, true);
  }

  lemma GuidanceQuiet(rows: Rows, key: Key, ordinal: nat)
    ensures QuietStep(rows, Settle(rows, SetGuidance(rows, key, ordinal)).rows)
  {}

  lemma RunDecisionQuiet(rows: Rows, key: Key, ordinal: nat, now: int, live: bool)
    requires RowsOk(rows)
    ensures QuietStep(rows, Judged(rows, RunDecision(rows, key, ordinal, now, live)).rows)
  {
    hide RowsOk, QuietStep, Routine, SetGuidance;
    SelfQuiet(rows);
    if RunDecision(rows, key, ordinal, now, live).Ok? {
      GuidanceQuiet(rows, key, ordinal);
      var row, a := rows[key], rows[key].Nth(ordinal);
      if !row.status.Cancelled? && Authorized(row, now, live, false) {
        var routine := Routine(rows, key, ordinal, now);
        if routine.Ok? && routine.value.Some? {
          RoutineShape(rows, key, ordinal, now);
          var v := routine.value.value;
          if v.charge.AutomaticRetry? {
            var d, target :| ChargedBy(rows, key, ordinal, v.rows, d, target);
            ChargedQuiet(rows, key, ordinal, v.rows, d, target);
          } else if v.rows != rows {
            var d, status :| ClosedBy(rows, key, ordinal, v.rows, d, status);
            ClosedQuiet(rows, key, ordinal, v.rows, d, status);
          }
        } else if routine.Ok? && a.decideBy.None? {
          OneQuiet(rows, key, row.WithAttempt(ordinal, a.(status := Deciding, decideBy := Some(now + 120))));
        }
      }
    }
  }

  lemma ApplyQuiet(rows: Rows, key: Key, ordinal: nat, run: string, args: DecisionArgs, now: int, live: bool)
    requires RowsOk(rows)
    ensures QuietStep(rows, Judged(rows, ApplyDecision(rows, key, ordinal, run, args, now, live)).rows)
  {
    hide RowsOk, QuietStep, Quiet, ApplyDecision, ChargeRoot;
    SelfQuiet(rows);
    if ApplyDecision(rows, key, ordinal, run, args, now, live).Ok? {
      ApplyShape(rows, key, ordinal, run, args, now, live);
      OpenStatus(rows, key, ordinal);
      var v := ApplyDecision(rows, key, ordinal, run, args, now, live).value;
      var d := Decision(args.action, args.disposition, args.evidence, false);
      if v.charge.NoRetry? {
        var status :| ClosedBy(rows, key, ordinal, v.rows, d, status);
        ClosedQuiet(rows, key, ordinal, v.rows, d, status);
      } else if v.charge.TimedRetry? {
        var target :| target < rows[key].deadline && v.rows == rows[key := Held(rows[key], ordinal, d, target, false)];
        HeldQuiet(rows, key, ordinal, d, target, false);
        OneQuiet(rows, key, Held(rows[key], ordinal, d, target, false));
      } else {
        var target :| ChargedBy(rows, key, ordinal, v.rows, d, target);
        ChargedQuiet(rows, key, ordinal, v.rows, d, target);
      }
    }
  }

  lemma RestQuiet(rows: Rows, t: Txn, now: int)
    requires RowOnly(t) && !t.TRunDecision? && !t.TApply?
    ensures QuietStep(rows, Commit(rows, t, now).rows)
  {
    hide QuietStep;
    SelfQuiet(rows);
    match t
    case TCreate(name, terms, offset) => CreateQuiet(rows, OwnerRequest(name), terms.(root := None), offset, now);
    case TCallback(key, ordinal, name, target, live) =>
      var r := RequestCallback(rows, key, ordinal, name, target, now, live);
      if r.Ok? && rows[key].Nth(ordinal).callback.None? {
        var row, child := rows[key], CallbackRequest(key, ordinal, name);
        var linked := rows[key := row.WithAttempt(ordinal, row.Nth(ordinal).(callback := Some(child)))];
        OneQuiet(rows, key, linked[key]);
        CreateQuiet(linked, child, CallbackTerms(row, rows[row.root], target), row.offset, now);
        QuietTwice(rows, linked, r.value);
      }
    case TGuidance(key, ordinal) => GuidanceQuiet(rows, key, ordinal);
    case TExpire => ExpireQuiet(rows, now);
    case TObserving(key, ordinal) =>
      if MarkObserving(rows, key, ordinal).Ok? {
        OneQuiet(rows, key, MarkObserving(rows, key, ordinal).value[key]);
      }
    case TOutcome(key, ordinal, outcome) =>
      if RecordOutcome(rows, key, ordinal, outcome).Ok? {
        OneQuiet(rows, key, RecordOutcome(rows, key, ordinal, outcome).value[key]);
      }
    case TBindRun(key, ordinal, run, live) =>
      var r := BindDecisionRun(rows, key, ordinal, run, now, live);
      if r.Ok? { OneQuiet(rows, key, r.value[key]); }
    case TCancel(key) => if key in rows { OneQuiet(rows, key, Cancel(rows, key).value[key]); }
    case TBlockHours(key) => if key in rows { OneQuiet(rows, key, BlockHours(rows, key, now).value[key]); }
  }

  lemma CreateQuiet(rows: Rows, key: Key, terms: Terms, offset: int, now: int)
    ensures var r := Create(rows, key, terms, offset, now); r.Ok? ==> QuietStep(rows, r.value)
  {}

  lemma QuietTwice(rows: Rows, mid: Rows, after: Rows)
    requires QuietStep(rows, mid) && QuietStep(mid, after) && mid.Keys == rows.Keys
    ensures QuietStep(rows, after)
  {}

  lemma ExpireQuiet(rows: Rows, now: int)
    ensures QuietStep(rows, ExpireAll(rows, now))
  {}

  lemma KeepsRowStep(s: State, t: Txn, now: int)
    requires Inv(s) && RowOnly(t)
    ensures Inv(With(s, t, now))
  {
    hide RowsOk, BudgetOk, SchedulesOk, ProcsOk, ExecsOk, FencesOk, QuietStep, RunDecision, ApplyDecision;
    Committed(s, t, now);
    match t
    case TRunDecision(key, ordinal, live) =>
      RunDecisionQuiet(s.rows, key, ordinal, now, live);
      QuietStepKeeps(s, With(s, t, now));
    case TApply(key, ordinal, run, args, live) =>
      ApplyQuiet(s.rows, key, ordinal, run, args, now, live);
      QuietStepKeeps(s, With(s, t, now));
    case _ => RestQuiet(s.rows, t, now); QuietStepKeeps(s, With(s, t, now));
  }

  // ----- steps that start or end an operation -----

  lemma KeepsStart(s: State, pid: nat, key: Key)
    requires Inv(s) && pid !in s.procs && key in s.rows && s.rows[key].status.Holding?
    ensures Inv(At(s, pid, Publishing(key, NextOrdinal(s.rows[key]), s.rows[key].runAt, Start)))
  {
    hide RowsOk, BudgetOk, FencesOk, ExecsOk, RowSchedule;
    RowWell(s.rows, key);
    Starts(s, pid, Publishing(key, NextOrdinal(s.rows[key]), s.rows[key].runAt, Start));
  }

  lemma PendingOwned(row: Row, jobs: Jobs, flagged: bool, key: Key)
    requires RowSchedule(row, jobs, flagged, key)
    ensures Owned(PendingComponents(row, jobs), key, row)
  {
    forall c | c in PendingComponents(row, jobs)
      ensures c.key == key && (c.ReminderJob? ==> row.notificationJob.Some?) {
      assert row.cronJob == Some(c) || row.notificationJob == Some(c);
    }
  }

  lemma KeepsReadMove(s: State, pid: nat, key: Key, op: string, target: int, expected: nat)
    requires Inv(s) && pid !in s.procs && key in s.rows
    ensures Inv(At(s, pid, MoveRead(key, op, target, expected, PendingComponents(s.rows[key], s.jobs))))
  {
    hide RowsOk, BudgetOk, FencesOk, ExecsOk, RowSchedule, PendingComponents;
    PendingOwned(s.rows[key], s.jobs, key in s.hazard, key);
    Starts(s, pid, MoveRead(key, op, target, expected, PendingComponents(s.rows[key], s.jobs)));
  }

  lemma KeepsReadReconcile(s: State, pid: nat, key: Key)
    requires Inv(s) && pid !in s.procs && key in s.rows && s.rows[key].Pending()
    ensures Inv(At(s, pid, ReconcileRead(key, s.rows[key].change.value)))
  {
    hide RowsOk, BudgetOk, FencesOk, ExecsOk;
    RowWell(s.rows, key);
    assert RowSchedule(s.rows[key], s.jobs, key in s.hazard, key);
    Starts(s, pid, ReconcileRead(key, s.rows[key].change.value));
  }

  lemma KeepsReadAdmit(s: State, pid: nat, key: Key, execution: ExecId, now: int, live: bool)
    requires Inv(s)
    ensures Inv(DoReadAdmit(s, pid, key, execution, now, live))
  {
    hide RowsOk, BudgetOk, FencesOk, RowSchedule;
    var t := DoReadAdmit(s, pid, key, execution, now, live);
    if t != s {
      Starts(s, pid, t.procs[pid]);
    }
  }

  lemma KeepsPublishFence(s: State, pid: nat)
    requires Inv(s) && pid in s.procs && s.procs[pid].Publishing? && s.procs[pid].stage.Ready?
    requires Free(s.procs, set c | c in Parts(s.procs[pid].key, s.procs[pid].ordinal, s.procs[pid].stage.notice))
    ensures var p := s.procs[pid]; Inv(At(s, pid, p.(stage := Arming(p.stage.notice, 0))))
  {
    hide RowsOk, BudgetOk, FencesOk, RowSchedule, ExecsOk;
    var p := s.procs[pid];
    var q := p.(stage := Arming(p.stage.notice, 0));
    assert q.Fences() == set c | c in Parts(p.key, p.ordinal, p.stage.notice);
    FreeLess(s.procs, pid, q.Fences());
    Starts(s, pid, q);
  }

  lemma KeepsCrash(s: State)
    requires Inv(s)
    ensures Inv(s.(procs := map[]))
  {
    hide RowsOk, BudgetOk, ExecsOk, RowSchedule, ProcOk, SchedulesOk;
    ProcsChange(s, s.(procs := map[]));
  }

  lemma AdvanceKeeps(s: State, step: Step, pid: nat)
    requires Inv(s) && pid in s.procs
    ensures Inv(Advance(s, step, pid, s.procs[pid]))
  {
    hide Inv, DoCreateJob, DoLink, DoCreateReminder, DoLinkNotice, DoArm, DoPublish, DoHoldMove, DoMove, DoFinishMove,
         DoReconcileFence, DoReconcileJob, DoFinishReconcile, DoAdmit;
    var p := s.procs[pid];
    match step
    case CreateJob(_) => if p.Publishing? && p.stage.Start? { KeepsCreateJob(s, pid); }
    case Link(_) => if p.Publishing? && p.stage.Made? { KeepsLink(s, pid); }
    case CreateReminder(_) => if p.Publishing? && p.stage.Linked? { KeepsCreateReminder(s, pid); }
    case LinkNotice(_) => if p.Publishing? && p.stage.Reminded? { KeepsLinkNotice(s, pid); }
    case PublishFence(_) =>
      if p.Publishing? && p.stage.Ready? && Free(s.procs, set c | c in Parts(p.key, p.ordinal, p.stage.notice)) {
        KeepsPublishFence(s, pid);
      }
    case Arm(_) => if p.Publishing? && p.stage.Arming? { KeepsArm(s, pid); }
    case Publish(_) => if p.Publishing? && p.stage.Arming? { KeepsPublish(s, pid); }
    case HoldMove(_, now) => if p.MoveRead? { KeepsHoldMove(s, pid, now); }
    case Move(_) => if p.Moving? { KeepsMove(s, pid); }
    case FinishMove(_) => if p.Moving? { KeepsFinishMove(s, pid); }
    case ReconcileFence(_) => if p.ReconcileRead? { KeepsReconcileFence(s, pid); }
    case ReconcileJob(_) => if p.Reconciling? { KeepsReconcileJob(s, pid); }
    case FinishReconcile(_) => if p.Reconciling? { KeepsFinishReconcile(s, pid); }
    case Admit(_, now) => if p.Admitting? { KeepsAdmit(s, pid, now); }
    case _ =>
  }

  lemma StepKeeps(s: State, step: Step)
    requires Inv(s)
    ensures Inv(Do(s, step))
  {
    hide Inv, Advance, DoReadAdmit, DoRemind, DoFire, DoFinish, DoPause, With;
    match step
    case RowStep(t, now) => if RowOnly(t) { KeepsRowStep(s, t, now); }
    case StartPublish(pid, key) =>
      if pid !in s.procs && key in s.rows && s.rows[key].status.Holding? {
        KeepsStart(s, pid, key);
      }
    case ReadMove(pid, key, op, target, expected) =>
      if pid !in s.procs && key in s.rows { KeepsReadMove(s, pid, key, op, target, expected); }
    case ReadReconcile(pid, key) =>
      if pid !in s.procs && key in s.rows && s.rows[key].Pending() {
        KeepsReadReconcile(s, pid, key);
      }
    case ReadAdmit(pid, key, execution, now, live) => KeepsReadAdmit(s, pid, key, execution, now, live);
    case Remind(key, execution, now, live) => KeepsRemind(s, key, execution, now, live);
    case Fire(execution, id, now) => KeepsFire(s, execution, id, now);
    case Finish(execution) => KeepsFinish(s, execution);
    case Pause(id) => KeepsPause(s, id);
    case Crash => KeepsCrash(s);
    case Abandon(pid) => Drops(s, pid);
    case _ => if step.pid in s.procs { AdvanceKeeps(s, step, step.pid); }
  }
}
