// What holds in every state that any run can reach, whatever the interleaving and wherever
// it crashes, and the exact overlaps that the code leaves open.
module WorkflowTheorems {
  import opened Wrappers
  import opened WorkflowRows
  import opened WorkflowLifecycle
  import opened WorkflowBudget
  import opened WorkflowSchedule
  import opened WorkflowAlignment
  import opened WorkflowSteps

  lemma {:induction false} Reachable(steps: seq<Step>)
    ensures Inv(Run(INITIAL, steps))
  {
    hide Do;
    if steps != [] {
      Reachable(steps[..|steps| - 1]);
      StepKeeps(Run(INITIAL, steps[..|steps| - 1]), steps[|steps| - 1]);
    }
  }

  // ----- the schedule -----

  // A scheduled request has its linked call job at exactly its call time and its still
  // unclaimed reminder job at exactly its reminder time.
  predicate Aligned(row: Row, jobs: Jobs) {
    row.status.Scheduled? ==>
      && row.cronJob.Some? && row.cronJob.value in jobs && jobs[row.cronJob.value].instant == row.runAt
      && (row.notificationJob.Some? && !row.notificationClaimed ==>
            row.notificationJob.value in jobs && jobs[row.notificationJob.value].instant == row.notificationRunAt)
  }

  // Every run keeps the schedule aligned, except on rows where an unguarded overlap happened.
  lemma {:induction false} ScheduleStaysAligned(steps: seq<Step>, key: Key)
    ensures var s := Run(INITIAL, steps); key in s.rows && key !in s.hazard ==> Aligned(s.rows[key], s.jobs)
  {
    hide RowsOk, BudgetOk, ProcsOk, ExecsOk, FencesOk, Run;
    Reachable(steps);
    var s := Run(INITIAL, steps);
    if key in s.rows {
      assert RowSchedule(s.rows[key], s.jobs, key in s.hazard, key);
    }
  }

  // Even on those rows, no attempt is admitted for a superseded time: what fired, where its
  // job stands and what the row asks for are one instant, and the row names that job.
  lemma {:induction false} NoSupersededAdmission(steps: seq<Step>, pid: nat, now: int)
    ensures var s := Run(INITIAL, steps); var t := Do(s, Admit(pid, now));
      pid in s.procs && s.procs[pid].Admitting? && s.procs[pid].key in t.rows && s.procs[pid].key in s.rows
      && |t.rows[s.procs[pid].key].attempts| > |s.rows[s.procs[pid].key].attempts| ==>
        var p, row := s.procs[pid], s.rows[s.procs[pid].key];
        && p.execution in s.execs && p.job in s.jobs
        && s.execs[p.execution].job == p.job && row.cronJob == Some(p.job)
        && s.execs[p.execution].instant == s.jobs[p.job].instant == row.runAt
        && now < row.deadline
  {
    hide RowsOk, BudgetOk, SchedulesOk, FencesOk, Run;
    Reachable(steps);
    var s := Run(INITIAL, steps);
    if pid in s.procs && s.procs[pid].Admitting? {
      assert ProcOk(s.procs[pid], s.rows[s.procs[pid].key], s.jobs, s.execs, s.procs[pid].key in s.hazard);
    }
  }

  // ----- attempts and final statuses -----

  // At most one attempt is undecided and it is the last; a firing row has one, a waiting
  // row has none; no two attempts share an execution.
  lemma {:induction false} OneLiveCall(steps: seq<Step>, key: Key)
    ensures var s := Run(INITIAL, steps); key in s.rows ==>
      var row := s.rows[key];
      && (forall i :: 0 <= i < |row.attempts| && row.attempts[i].decision.None? ==> i == |row.attempts| - 1)
      && (row.status.Firing? ==> row.attempts != [] && row.attempts[|row.attempts| - 1].decision.None?)
      && (row.status.Waiting() ==> forall i :: 0 <= i < |row.attempts| ==> row.attempts[i].decision.Some?)
      && (forall i, j :: 0 <= i < j < |row.attempts| ==> row.attempts[i].execution != row.attempts[j].execution)
      && row.runAt < row.deadline
  {
    hide BudgetOk, SchedulesOk, ProcsOk, ExecsOk, FencesOk, Run, LineageOk;
    Reachable(steps);
    var s := Run(INITIAL, steps);
    if key in s.rows {
      assert RowOk(s.rows[key]);
      forall i | 0 <= i < |s.rows[key].attempts| && s.rows[key].attempts[i].decision.None?
        ensures i == |s.rows[key].attempts| - 1
      {
        assert Open(s.rows[key].attempts[i]);
      }
    }
  }

  lemma {:induction false} CallbackWithinParent(steps: seq<Step>, child: Key)
    ensures var s := Run(INITIAL, steps); child in s.rows && child.CallbackRequest? ==>
      child.parent in s.rows && s.rows[child].deadline <= s.rows[child.parent].deadline
      && s.rows[child].root == s.rows[child.parent].root
  {
    hide BudgetOk, SchedulesOk, ProcsOk, ExecsOk, FencesOk, Run, RowOk;
    Reachable(steps);
    var s := Run(INITIAL, steps);
    if child in s.rows { assert LineageOk(s.rows, child); }
  }

  // One row, any number of steps later.
  ghost predicate Later(row: Row, after: Row) {
    && after.terms == row.terms && after.root == row.root && after.deadline == row.deadline
    && |row.attempts| <= |after.attempts|
    && (forall i :: 0 <= i < |row.attempts| ==> SameIdentity(row.attempts[i], after.attempts[i]))
    && (row.status.Final() ==> after.status.Final() && |after.attempts| == |row.attempts|)
    && (row.status.Cancelled? ==> after.status.Cancelled?)
    && (row.notificationClaimed ==> after.notificationClaimed)
  }

  lemma LaterStill(a: Row, b: Row, c: Row)
    requires Later(a, b) && Evolves(b, c)
    ensures Later(a, c)
  {}

  lemma MoveChecked(s: State, pid: nat)
    requires ProcsOk(s) && pid in s.procs
    ensures var p := s.procs[pid];
      && p.key in s.rows
      && (p.Moving? ==> p.target < s.rows[p.key].deadline)
      && (p.Reconciling? ==> p.change.target < s.rows[p.key].deadline)
  {}

  // At most one transaction of the rows.
  ghost predicate OneCommit(rows: Rows, after: Rows) {
    after == rows || exists t, now :: Checked(rows, t) && after == Commit(rows, t, now).rows
  }

  lemma IsCommitted(rows: Rows)
    ensures OneCommit(rows, rows)
  {}

  lemma IsCommit(rows: Rows, t: Txn, now: int)
    requires Checked(rows, t)
    ensures OneCommit(rows, Commit(rows, t, now).rows)
  {}

  // The steps that only touch jobs, fences and local variables.
  lemma JobStepsKeepRows(s: State, pid: nat, p: Proc)
    ensures p.Publishing? ==> DoCreateJob(s, pid, p).rows == s.rows
    ensures p.Publishing? && p.stage.Linked? ==> DoCreateReminder(s, pid, p).rows == s.rows
    ensures p.Publishing? && p.stage.Arming? ==> DoArm(s, pid, p).rows == s.rows
    ensures p.Moving? ==> DoMove(s, pid, p).rows == s.rows
    ensures p.ReconcileRead? ==> DoReconcileFence(s, pid, p).rows == s.rows
    ensures p.Reconciling? ==> DoReconcileJob(s, pid, p).rows == s.rows
  {
    hide Free;
  }

  lemma PublishCommits(s: State, pid: nat)
    requires Inv(s) && pid in s.procs && s.procs[pid].Publishing?
    ensures var p := s.procs[pid];
      && OneCommit(s.rows, DoLink(s, pid, p).rows)
      && (p.stage.Reminded? ==> OneCommit(s.rows, DoLinkNotice(s, pid, p).rows))
      && OneCommit(s.rows, DoPublish(s, pid, p).rows)
  {
    hide RowsOk, SchedulesOk, ProcsOk, BudgetOk, ExecsOk, FencesOk, OneCommit, Commit, Record;
    var p := s.procs[pid];
    IsCommitted(s.rows);
    IsCommit(s.rows, TLinkCall(p.key, CallJob(p.key, p.ordinal)), 0);
    IsCommit(s.rows, TLinkReminder(p.key, ReminderJob(p.key)), 0);
    IsCommit(s.rows, TPublished(p.key), 0);
  }

  lemma MoveCommits(s: State, pid: nat, now: int)
    requires Inv(s) && pid in s.procs
    ensures var p := s.procs[pid];
      && (p.MoveRead? ==> OneCommit(s.rows, DoHoldMove(s, pid, p, now).rows))
      && (p.Moving? ==> OneCommit(s.rows, DoFinishMove(s, pid, p).rows))
      && (p.Reconciling? ==> OneCommit(s.rows, DoFinishReconcile(s, pid, p).rows))
      && (p.Admitting? ==> OneCommit(s.rows, DoAdmit(s, pid, p, now).rows))
  {
    hide RowsOk, SchedulesOk, ProcsOk, BudgetOk, ExecsOk, FencesOk, OneCommit, Commit, Record, Free, Settled,
      HoldForMove;
    var p := s.procs[pid];
    IsCommitted(s.rows);
    MoveChecked(s, pid);
    match p
    case MoveRead(k, op, target, expected, components) =>
      IsCommit(s.rows, THold(k, op, target, expected, components), now);
    case Moving(k, _, target, expected, components, _) => IsCommit(s.rows, TMoved(k, target, expected, components), 0);
    case Reconciling(k, change, _) => IsCommit(s.rows, TReconciled(k, change.target, change.components), 0);
    case Admitting(k, job, execution, instant) => IsCommit(s.rows, TClaim(k, job, execution, instant), now);
    case _ =>
  }

  lemma AdvanceCommits(s: State, step: Step, pid: nat)
    requires Inv(s) && pid in s.procs
    ensures OneCommit(s.rows, Advance(s, step, pid, s.procs[pid]).rows)
  {
    hide Inv, OneCommit, DoCreateJob, DoLink, DoCreateReminder, DoLinkNotice, DoArm, DoPublish, DoHoldMove, DoMove,
      DoFinishMove, DoReconcileFence, DoReconcileJob, DoFinishReconcile, DoAdmit, Free;
    RowsUnchanged(s);
    JobStepsKeepRows(s, pid, s.procs[pid]);
    if s.procs[pid].Publishing? { PublishCommits(s, pid); }
    match step
    case HoldMove(_, now) => MoveCommits(s, pid, now);
    case Admit(_, now) => MoveCommits(s, pid, now);
    case _ => MoveCommits(s, pid, 0);
  }

  lemma RowsUnchanged(s: State)
    requires Inv(s)
    ensures OneCommit(s.rows, s.rows)
  {
    hide SchedulesOk, ProcsOk, BudgetOk, ExecsOk, FencesOk, RowsOk, OneCommit;
    IsCommitted(s.rows);
  }

  lemma RemindCommits(s: State, key: Key, execution: ExecId, now: int, live: bool)
    requires Inv(s)
    ensures OneCommit(s.rows, DoRemind(s, key, execution, now, live).rows)
  {
    hide SchedulesOk, ProcsOk, BudgetOk, ExecsOk, FencesOk, RowsOk, OneCommit, Commit, Record;
    IsCommitted(s.rows);
    if execution in s.execs {
      IsCommit(s.rows, TClaimReminder(key, s.execs[execution].job, s.execs[execution].instant, live), now);
    }
  }

  lemma RowStepCommits(s: State, t: Txn, now: int)
    requires Inv(s) && RowOnly(t)
    ensures OneCommit(s.rows, With(s, t, now).rows)
  {
    hide SchedulesOk, ProcsOk, BudgetOk, ExecsOk, FencesOk, RowsOk, OneCommit, Commit, Record;
    IsCommit(s.rows, t, now);
  }

  lemma StepCommits(s: State, step: Step)
    requires Inv(s)
    ensures OneCommit(s.rows, Do(s, step).rows)
  {
    hide Inv, OneCommit, Advance, With, DoRemind, Free;
    RowsUnchanged(s);
    match step
    case RowStep(t, now) => if RowOnly(t) { RowStepCommits(s, t, now); }
    case Remind(key, execution, now, live) => RemindCommits(s, key, execution, now, live);
    case StartPublish(_, _) =>
    case ReadMove(_, _, _, _, _) =>
    case ReadReconcile(_, _) =>
    case ReadAdmit(_, _, _, _, _) =>
    case Fire(_, _, _) =>
    case Finish(_) =>
    case Pause(_) =>
    case Crash =>
    case Abandon(_) =>
    case _ => if step.pid in s.procs { AdvanceCommits(s, step, step.pid); }
  }

  lemma StepEvolves(s: State, step: Step)
    requires Inv(s)
    ensures AllEvolve(s.rows, Do(s, step).rows)
  {
    hide AllEvolve, Do, Commit, BudgetOk, SchedulesOk, ProcsOk, ExecsOk, FencesOk, RowsOk;
    StepCommits(s, step);
    Unchanged(s.rows);
    if Do(s, step).rows != s.rows {
      var t, now :| Checked(s.rows, t) && Do(s, step).rows == Commit(s.rows, t, now).rows;
      CommitKeeps(s.rows, t, now);
    }
  }

  lemma {:induction false} RunEvolves(s: State, steps: seq<Step>, key: Key)
    requires Inv(s) && key in s.rows
    ensures Inv(Run(s, steps)) && key in Run(s, steps).rows && Later(s.rows[key], Run(s, steps).rows[key])
  {
    hide Inv, Later, Evolves, Do;
    if steps == [] {
      Itself(s, key);
    } else {
      var mid := Run(s, steps[..|steps| - 1]);
      RunEvolves(s, steps[..|steps| - 1], key);
      StepKeeps(mid, steps[|steps| - 1]);
      StepEvolves(mid, steps[|steps| - 1]);
      LaterStill(s.rows[key], mid.rows[key], Do(mid, steps[|steps| - 1]).rows[key]);
    }
  }

  lemma Itself(s: State, key: Key)
    requires Inv(s) && key in s.rows
    ensures Later(s.rows[key], s.rows[key])
  {
    hide BudgetOk, SchedulesOk, ExecsOk, FencesOk, ProcsOk, RowsOk;
  }

  // Once a request is final it stays final, keeps the attempts it has, and a cancelled one
  // stays cancelled; a claimed reminder stays claimed.
  lemma {:induction false} FinalForever(steps: seq<Step>, more: seq<Step>, key: Key)
    ensures var s := Run(INITIAL, steps); key in s.rows ==>
      key in Run(s, more).rows && Later(s.rows[key], Run(s, more).rows[key])
  {
    hide Inv, Later, Run;
    Reachable(steps);
    if key in Run(INITIAL, steps).rows {
      RunEvolves(Run(INITIAL, steps), more, key);
    }
  }

  // Over a whole callback chain the automatic retries charged are those that the root
  // records, they never exceed the configured delays, and every attempt beyond one per row
  // was paid for by a retry.
  lemma {:induction false} BudgetOverChain(steps: seq<Step>, root: Key)
    ensures var s := Run(INITIAL, steps); root in s.rows && s.rows[root].root == root ==>
      && s.rows[root].used == Charges(s.history, root, AutomaticRetry) <= |s.rows[root].terms.delays|
      && AttemptsOf(s.rows, Chain(s.rows, root))
         <= |Chain(s.rows, root)| + s.rows[root].used + Charges(s.history, root, TimedRetry)
  {
    hide RowsOk, BudgetOk, SchedulesOk, ExecsOk, FencesOk, ProcsOk, Run;
    Reachable(steps);
    var s := Run(INITIAL, steps);
    if root in s.rows && s.rows[root].root == root {
      ChainWithinBudget(s.rows, s.history, root);
    }
  }
}
