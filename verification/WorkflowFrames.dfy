// What the steps of the schedule leave alone: the changes that rows carry, the moves in flight
// and the copies that reconciliations hold.
module WorkflowFrames {
  import opened Wrappers
  import opened WorkflowRows
  import opened WorkflowLifecycle
  import opened WorkflowBudget
  import opened WorkflowSchedule
  import opened WorkflowAlignment
  import opened WorkflowSteps

  // ----- The three steps that change a change -----

  predicate Holds(s: State, step: Step) {
    && step.HoldMove? && step.pid in s.procs && s.procs[step.pid].MoveRead?
    && var after := Do(s, step);
       step.pid in after.procs && after.procs[step.pid].Moving?
  }

  predicate Moves(s: State, step: Step) {
    && step.FinishMove? && step.pid in s.procs && s.procs[step.pid].Moving?
    && var p := s.procs[step.pid];
       p.moved >= |p.components| && CommitMove(s.rows, p.key, p.target, p.expected, p.components).Ok?
  }

  predicate Reconciles(s: State, step: Step) {
    && step.FinishReconcile? && step.pid in s.procs && s.procs[step.pid].Reconciling?
    && var p := s.procs[step.pid];
       && p.settled >= |p.change.components|
       && ReconcileMove(s.rows, p.key, p.change.target, p.change.components).Ok?
  }

  predicate Special(s: State, step: Step) {
    Holds(s, step) || Moves(s, step) || Reconciles(s, step)
  }

  lemma HoldIs(s: State, step: Step)
    requires Holds(s, step)
    ensures var p, t := s.procs[step.pid], Do(s, step);
      && p.key in s.rows && s.rows[p.key].revision == p.expected && s.rows[p.key].status.Scheduled?
      && t.rows == s.rows[p.key := HeldForMove(s.rows[p.key], p.op, p.target, p.components)]
      && t.procs == s.procs[step.pid := Moving(p.key, p.op, p.target, p.expected, p.components, 0)]
  {
    hide Free, Settled;
  }

  // Exactly when a reschedule takes hold: its row is scheduled at the revision that the caller
  // saw, its target is still to come and before the deadline, and every component is movable,
  // where the row says, and in no other operation's hands.
  lemma TakesHoldExactly(s: State, pid: nat, now: int)
    requires pid in s.procs && s.procs[pid].MoveRead?
    ensures var p := s.procs[pid];
      Holds(s, HoldMove(pid, now)) <==>
        && p.key in s.rows
        && var row := s.rows[p.key];
           && row.status == Scheduled && row.revision == p.expected && now < p.target && p.target < row.deadline
           && (forall c :: c in p.components ==>
                 && c in s.jobs && !s.jobs[c].ran && !s.jobs[c].claimed && s.jobs[c].state.Armed?
                 && s.jobs[c].instant == (if row.notificationJob == Some(c) then row.notificationRunAt else row.runAt))
           && (forall q, c :: q in s.procs && c in p.components ==> c !in s.procs[q].Fences())
  {
    hide Proc.Fences;
  }

  // A successful move writes its row and is over.
  lemma MoveIs(s: State, step: Step)
    requires Moves(s, step)
    ensures var p, t := s.procs[step.pid], Do(s, step);
      && t.procs == s.procs - {step.pid} && p.key in s.rows && t.hazard == s.hazard
      && s.rows[p.key].status.Holding? && s.rows[p.key].revision == p.expected + 1
      && t.rows == s.rows[p.key := ApplyMove(s.rows[p.key], p.target, p.components)]
  {
    hide ApplyMove;
  }

  lemma ReconcileIs(s: State, step: Step)
    requires Reconciles(s, step)
    ensures var p, t := s.procs[step.pid], Do(s, step);
      && t.procs == s.procs - {step.pid} && p.key in s.rows && t.hazard == s.hazard
      && s.rows[p.key].status.Holding?
      && t.rows == s.rows[p.key := ApplyMove(s.rows[p.key], p.change.target, p.change.components)]
  {
    hide ApplyMove;
  }

  // ----- Rows -----

  ghost predicate SteadyStep(rows: Rows, after: Rows) {
    && rows.Keys <= after.Keys
    && (forall k :: k in rows ==> KeepsChange(rows[k], after[k]))
    && (forall k :: k in after && k !in rows ==> after[k].change.None?)
  }

  lemma QuietIsSteady(rows: Rows, after: Rows)
    requires QuietStep(rows, after)
    ensures SteadyStep(rows, after)
  {}

  lemma StandsStill(rows: Rows)
    ensures SteadyStep(rows, rows)
  {}

  lemma RowStepSteady(rows: Rows, t: Txn, now: int)
    requires RowsOk(rows) && RowOnly(t)
    ensures SteadyStep(rows, Commit(rows, t, now).rows)
  {
    hide RowsOk, QuietStep, SteadyStep, RunDecision, ApplyDecision;
    match t
    case TRunDecision(key, ordinal, live) =>
      RunDecisionQuiet(rows, key, ordinal, now, live);
      QuietIsSteady(rows, Commit(rows, t, now).rows);
    case TApply(key, ordinal, run, args, live) =>
      ApplyQuiet(rows, key, ordinal, run, args, now, live);
      QuietIsSteady(rows, Commit(rows, t, now).rows);
    case _ =>
      RestQuiet(rows, t, now);
      QuietIsSteady(rows, Commit(rows, t, now).rows);
  }

  lemma JobTxnSteady(rows: Rows, t: Txn, now: int)
    requires t.TLinkCall? || t.TLinkReminder? || t.TPublished? || t.TClaim? || t.TClaimReminder?
    ensures SteadyStep(rows, Commit(rows, t, now).rows)
  {}

  lemma PublisherSteady(s: State, step: Step, pid: nat)
    requires pid in s.procs
    requires step.CreateJob? || step.Link? || step.CreateReminder? || step.LinkNotice? || step.PublishFence?
      || step.Arm? || step.Publish? || step.Admit?
    ensures SteadyStep(s.rows, Advance(s, step, pid, s.procs[pid]).rows)
  {
    hide SteadyStep, Commit, Record, Free;
    var p := s.procs[pid];
    StandsStill(s.rows);
    match step
    case Link(_) => if p.Publishing? { JobTxnSteady(s.rows, TLinkCall(p.key, CallJob(p.key, p.ordinal)), 0); }
    case LinkNotice(_) => JobTxnSteady(s.rows, TLinkReminder(p.key, ReminderJob(p.key)), 0);
    case Publish(_) => JobTxnSteady(s.rows, TPublished(p.key), 0);
    case Admit(_, now) =>
      if p.Admitting? {
        JobTxnSteady(s.rows, TClaim(p.key, p.job, p.execution, p.instant), now);
      }
    case _ =>
  }

  // A move or a reconciliation that does not succeed writes no row.
  lemma FailedMove(s: State, step: Step)
    requires step.HoldMove? || step.Move? || step.FinishMove?
    requires !Special(s, step)
    ensures Do(s, step).rows == s.rows
  {
    hide Free, Settled, MoveJob, HoldForMove;
  }

  lemma FailedReconciliation(s: State, step: Step)
    requires step.ReconcileFence? || step.ReconcileJob? || step.FinishReconcile?
    requires !Special(s, step)
    ensures Do(s, step).rows == s.rows
  {
    hide Free, MoveJob;
  }

  lemma OrdinarySteps(s: State, step: Step)
    requires RowsOk(s.rows) && !Special(s, step)
    ensures SteadyStep(s.rows, Do(s, step).rows)
  {
    hide SteadyStep, RowsOk, Advance, Commit, Record, Special, Free, DoReadAdmit;
    StandsStill(s.rows);
    match step
    case RowStep(t, now) => if RowOnly(t) { RowStepSteady(s.rows, t, now); }
    case Remind(key, execution, now, live) =>
      if execution in s.execs {
        JobTxnSteady(s.rows, TClaimReminder(key, s.execs[execution].job, s.execs[execution].instant, live), now);
      }
    case ReadAdmit(pid, key, execution, now, live) => AdmissionReads(s, pid, key, execution, now, live);
    case HoldMove(_, _) => FailedMove(s, step);
    case Move(_) => FailedMove(s, step);
    case FinishMove(_) => FailedMove(s, step);
    case ReconcileFence(_) => FailedReconciliation(s, step);
    case ReconcileJob(_) => FailedReconciliation(s, step);
    case FinishReconcile(_) => FailedReconciliation(s, step);
    case CreateJob(pid) => if pid in s.procs { PublisherSteady(s, step, pid); }
    case Link(pid) => if pid in s.procs { PublisherSteady(s, step, pid); }
    case CreateReminder(pid) => if pid in s.procs { PublisherSteady(s, step, pid); }
    case LinkNotice(pid) => if pid in s.procs { PublisherSteady(s, step, pid); }
    case PublishFence(pid) => if pid in s.procs { PublisherSteady(s, step, pid); }
    case Arm(pid) => if pid in s.procs { PublisherSteady(s, step, pid); }
    case Publish(pid) => if pid in s.procs { PublisherSteady(s, step, pid); }
    case Admit(pid, _) => if pid in s.procs { PublisherSteady(s, step, pid); }
    case _ =>
  }

  lemma AdmissionReads(s: State, pid: nat, key: Key, execution: ExecId, now: int, live: bool)
    ensures DoReadAdmit(s, pid, key, execution, now, live).rows == s.rows
  {
    hide Authorized, FindExecution;
  }

  // A flag stays.
  lemma FlagsStay(s: State, step: Step)
    ensures s.hazard <= Do(s, step).hazard
  {
    hide Advance, Free, MoveJob, HoldForMove, Commit, Record, Authorized, FindExecution, PendingComponents;
    if !step.RowStep? && !step.StartPublish? && !step.ReadMove? && !step.ReadReconcile? && !step.ReadAdmit?
      && !step.Remind? && !step.Fire? && !step.Finish? && !step.Pause? && !step.Crash? && !step.Abandon?
      && step.pid in s.procs {
      AdvanceFlags(s, step, step.pid);
    }
  }

  lemma AdvanceFlags(s: State, step: Step, pid: nat)
    requires pid in s.procs
    ensures s.hazard <= Advance(s, step, pid, s.procs[pid]).hazard
  {
    hide Free, Settled, MoveJob, HoldForMove, Commit, Record;
  }

  // ----- Operations in flight -----

  predicate Mover(p: Proc) {
    p.MoveRead? || p.Moving?
  }

  // Moves come into being only by ReadMove, and take hold only by HoldMove.
  ghost predicate SameMovers(s: State, t: State, step: Step) {
    forall pid :: pid in t.procs && Mover(t.procs[pid]) ==>
      && pid in s.procs && Mover(s.procs[pid])
      && var p, q := s.procs[pid], t.procs[pid];
         && q.op == p.op && q.key == p.key && q.target == p.target && q.expected == p.expected
         && (q.MoveRead? ==> p.MoveRead?)
         && (q.Moving? && p.MoveRead? ==> step.HoldMove? && step.pid == pid)
  }

  lemma AdvanceMovers(s: State, step: Step, pid: nat)
    requires pid in s.procs && (step.HoldMove? ==> step.pid == pid)
    ensures SameMovers(s, Advance(s, step, pid, s.procs[pid]), step)
  {
    hide Advance, SameMovers;
    if step.HoldMove? || step.Move? || step.FinishMove? {
      MoveMovers(s, step, pid);
    } else {
      RestMovers(s, step, pid);
    }
  }

  lemma MoveMovers(s: State, step: Step, pid: nat)
    requires pid in s.procs && (step.HoldMove? ==> step.pid == pid)
    requires step.HoldMove? || step.Move? || step.FinishMove?
    ensures SameMovers(s, Advance(s, step, pid, s.procs[pid]), step)
  {
    hide Free, Settled, MoveJob, HoldForMove,
      Commit, Record;
  }

  lemma RestMovers(s: State, step: Step, pid: nat)
    requires pid in s.procs && !step.HoldMove? && !step.Move? && !step.FinishMove?
    ensures SameMovers(s, Advance(s, step, pid, s.procs[pid]), step)
  {
    hide Free, Settled, MoveJob, HoldForMove,
      Commit, Record;
  }

  lemma OtherStepsKeepProcs(s: State, step: Step)
    ensures step.RowStep? || step.Remind? || step.Fire? || step.Finish? || step.Pause? ==>
      Do(s, step).procs == s.procs
  {
    hide Free, Advance, Commit, Record,
      DoReadAdmit;
  }

  lemma ScheduleMovers(s: State, step: Step)
    requires !step.ReadMove?
    ensures SameMovers(s, Do(s, step), step)
  {
    if step.RowStep? || step.Remind? || step.Fire? || step.Finish? || step.Pause? {
      OtherStepsKeepProcs(s, step);
    } else {
      ProcessMovers(s, step);
    }
  }

  lemma ProcessMovers(s: State, step: Step)
    requires !step.ReadMove? && !step.RowStep? && !step.Remind? && !step.Fire? && !step.Finish? && !step.Pause?
    ensures SameMovers(s, Do(s, step), step)
  {
    hide Advance, Free, With, DoRemind,
      DoFire, DoFinish, DoPause, Authorized, FindExecution;
    if !step.StartPublish? && !step.ReadReconcile? && !step.ReadAdmit? && !step.Crash? && !step.Abandon?
      && step.pid in s.procs {
      AdvanceMovers(s, step, step.pid);
    }
  }

  predicate Copy(p: Proc) {
    p.ReconcileRead? || p.Reconciling?
  }

  // A reconciliation goes on with the change it has read.
  ghost predicate SameCopies(s: State, t: State, step: Step) {
    forall pid :: pid in t.procs && Copy(t.procs[pid]) ==>
      if step.ReadReconcile? && step.pid == pid && pid !in s.procs
      then
        && t.procs[pid].key in s.rows && s.rows[t.procs[pid].key].Pending()
        && s.rows[t.procs[pid].key].change == Some(t.procs[pid].change)
      else
        && pid in s.procs && Copy(s.procs[pid])
        && t.procs[pid].key == s.procs[pid].key && t.procs[pid].change == s.procs[pid].change
  }

  lemma AdvanceCopies(s: State, step: Step, pid: nat)
    requires pid in s.procs && !step.ReadReconcile?
    ensures SameCopies(s, Advance(s, step, pid, s.procs[pid]), step)
  {
    hide Free, Settled, MoveJob, HoldForMove, Commit, Record;
  }

  lemma ScheduleCopies(s: State, step: Step)
    ensures SameCopies(s, Do(s, step), step)
  {
    if step.RowStep? || step.Remind? || step.Fire? || step.Finish? || step.Pause? {
      OtherStepsKeepProcs(s, step);
    } else {
      ProcessCopies(s, step);
    }
  }

  lemma ProcessCopies(s: State, step: Step)
    requires !step.RowStep? && !step.Remind? && !step.Fire? && !step.Finish? && !step.Pause?
    ensures SameCopies(s, Do(s, step), step)
  {
    hide Advance, Free, With, DoRemind, DoFire, DoFinish, DoPause, Authorized, FindExecution, PendingComponents;
    if !step.StartPublish? && !step.ReadMove? && !step.ReadReconcile? && !step.ReadAdmit? && !step.Crash?
      && !step.Abandon? && step.pid in s.procs {
      AdvanceCopies(s, step, step.pid);
    }
  }
}
