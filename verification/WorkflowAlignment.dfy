// The invariant behind the schedule: which native job a waiting request is bound to, and
// at what instant that job stands.
module WorkflowAlignment {
  import opened Wrappers
  import opened WorkflowRows
  import opened WorkflowLifecycle
  import opened WorkflowBudget
  import opened WorkflowSchedule

  // ----- the invariant -----

  // The job stands where the row says, or where the row's pending change is taking it.
  predicate OnTime(row: Row, id: JobId, instant: int, at: int) {
    instant == at || (row.Pending() && id in row.change.value.components && instant == row.change.value.target)
  }

  ghost predicate JobsOf(jobs: Jobs, key: Key, next: nat) {
    forall id :: id in jobs && id.key == key && id.CallJob? ==> 1 <= id.ordinal <= next
  }

  // A component list names jobs of its own request, the reminder only once it is linked.
  ghost predicate Owned(components: seq<JobId>, key: Key, row: Row) {
    forall c :: c in components ==> c.key == key && (c.ReminderJob? ==> row.notificationJob.Some?)
  }

  ghost predicate Bound(row: Row, jobs: Jobs, key: Key) {
    && (row.status.Scheduled? ==> !row.Pending() && row.cronJob == Some(Current(row, key)))
    && (row.Pending() ==>
        !Undecided(row) && row.cronJob == Some(Current(row, key))
          && Current(row, key) in row.change.value.components)
    && (Current(row, key) in jobs ==> OnTime(row, Current(row, key), jobs[Current(row, key)].instant, row.runAt))
    && (ReminderJob(key) in jobs ==> OnTime(row, ReminderJob(key), jobs[ReminderJob(key)].instant,
                                            row.notificationRunAt))
  }

  ghost predicate RowSchedule(row: Row, jobs: Jobs, flagged: bool, key: Key) {
    && JobsOf(jobs, key, NextOrdinal(row))
    && (Undecided(row) ==> Current(row, key) !in jobs)
    && (row.cronJob.Some? ==> row.cronJob.value in jobs && row.cronJob.value.key == key && row.cronJob.value.CallJob?)
    && (row.notificationJob.Some? ==> row.notificationJob.value == ReminderJob(key) && ReminderJob(key) in jobs)
    && (row.change.Some? ==> Owned(row.change.value.components, key, row))
    && (!flagged ==> Bound(row, jobs, key))
  }

  ghost predicate PublishOk(p: Proc, row: Row, jobs: Jobs, flagged: bool)
    requires p.Publishing?
  {
    var next := NextOrdinal(row);
    && 1 <= p.ordinal <= next
    && (Undecided(row) ==> p.ordinal < next)
    && (!flagged && p.ordinal == next && Current(row, p.key) !in jobs ==> p.runAt == row.runAt)
    && (!p.stage.Start? ==> CallJob(p.key, p.ordinal) in jobs)
    && (!p.stage.Start? && !p.stage.Made? && !flagged && p.ordinal == next ==> row.cronJob == Some(Current(row, p.key)))
    && (p.stage.Linked? && !flagged && ReminderJob(p.key) !in jobs ==> p.stage.noticeAt == row.notificationRunAt)
    && (p.stage.Reminded? ==> ReminderJob(p.key) in jobs)
  }

  ghost predicate MovedTo(jobs: Jobs, components: seq<JobId>, count: nat, target: int) {
    count <= |components| && forall i ::
      0 <= i < count ==> components[i] in jobs && jobs[components[i]].instant == target
  }

  ghost predicate ProcOk(p: Proc, row: Row, jobs: Jobs, execs: Execs, flagged: bool) {
    match p
    case Publishing(_, _, _, _) => PublishOk(p, row, jobs, flagged)
    case MoveRead(key, _, _, _, components) => Owned(components, key, row)
    case Moving(key, _, target, _, components, moved) =>
      && Owned(components, key, row)
      && target < row.deadline
      && MovedTo(jobs, components, moved, target)
      && (forall c :: c in components ==> c in jobs && !jobs[c].ran && !jobs[c].claimed)
      && (!flagged ==> row.Pending() && row.change.value.target == target && row.change.value.components == components)
    case ReconcileRead(key, change) => Owned(change.components, key, row) && change.target < row.deadline
    case Reconciling(key, change, settled) =>
      && Owned(change.components, key, row)
      && change.target < row.deadline
      && MovedTo(jobs, change.components, settled, change.target)
      && (!flagged ==> row.Pending() && row.change == Some(change))
    case Admitting(key, job, execution, instant) =>
      execution in execs && execs[execution].job == job && instant == execs[execution].instant
  }

  // An occurrence that fired stays at the instant it fired for.
  ghost predicate ExecsOk(jobs: Jobs, execs: Execs) {
    forall e :: e in execs ==>
      && execs[e].job in jobs
      && (jobs[execs[e].job].claimed || jobs[execs[e].job].ran) && jobs[execs[e].job].instant == execs[e].instant
  }

  ghost predicate FencesOk(procs: Procs) {
    forall p, q :: p in procs && q in procs && p != q ==> procs[p].Fences() !! procs[q].Fences()
  }

  ghost predicate ProcsOk(s: State) {
    forall p :: p in s.procs ==>
      && s.procs[p].key in s.rows
      && ProcOk(s.procs[p], s.rows[s.procs[p].key], s.jobs, s.execs, s.procs[p].key in s.hazard)
  }

  ghost predicate SchedulesOk(s: State) {
    forall k :: k in s.rows ==> RowSchedule(s.rows[k], s.jobs, k in s.hazard, k)
  }

  ghost predicate JobsKnown(s: State) {
    forall id :: id in s.jobs ==> id.key in s.rows
  }

  ghost predicate Inv(s: State) {
    && RowsOk(s.rows) && BudgetOk(s.rows, s.history)
    && JobsKnown(s) && SchedulesOk(s) && ProcsOk(s) && ExecsOk(s.jobs, s.execs) && FencesOk(s.procs)
  }

  // ----- framing: a step touches the jobs and operations of one request -----

  ghost predicate Grow(execs: Execs, after: Execs) {
    forall e :: e in execs ==> e in after && after[e].job == execs[e].job && after[e].instant == execs[e].instant
  }

  ghost predicate SameJobs(jobs: Jobs, after: Jobs, key: Key) {
    forall id: JobId :: id.key == key ==> (id in jobs <==> id in after) && (id in jobs ==> after[id] == jobs[id])
  }

  ghost predicate Elsewhere(s: State, t: State, key: Key) {
    && t.rows.Keys == s.rows.Keys
    && (forall k :: k in s.rows && k != key ==>
          t.rows[k] == s.rows[k] && SameJobs(s.jobs, t.jobs, k) && (k in t.hazard <==> k in s.hazard))
    && (forall p :: p in t.procs && t.procs[p].key != key ==> p in s.procs && t.procs[p] == s.procs[p])
    && Grow(s.execs, t.execs)
  }

  ghost predicate KeyOk(t: State, key: Key) {
    && key in t.rows
    && RowSchedule(t.rows[key], t.jobs, key in t.hazard, key)
    && (forall p :: p in t.procs && t.procs[p].key == key ==>
          ProcOk(t.procs[p], t.rows[key], t.jobs, t.execs, key in t.hazard))
  }

  lemma RowFrame(row: Row, jobs: Jobs, after: Jobs, flagged: bool, key: Key)
    requires RowSchedule(row, jobs, flagged, key) && SameJobs(jobs, after, key)
    ensures RowSchedule(row, after, flagged, key)
  {}

  lemma ProcFrame(p: Proc, row: Row, jobs: Jobs, after: Jobs, execs: Execs, later: Execs, flagged: bool)
    requires ProcOk(p, row, jobs, execs, flagged) && SameJobs(jobs, after, p.key) && Grow(execs, later)
    ensures ProcOk(p, row, after, later, flagged)
  {}

  lemma Local(s: State, t: State, key: Key)
    requires Inv(s) && Elsewhere(s, t, key) && KeyOk(t, key)
    requires RowsOk(t.rows) && BudgetOk(t.rows, t.history)
    requires JobsKnown(t) && ExecsOk(t.jobs, t.execs) && FencesOk(t.procs)
    ensures Inv(t)
  {
    hide RowsOk, BudgetOk, JobsKnown, ExecsOk, FencesOk, RowSchedule, ProcOk, SameJobs, Grow;
    forall k | k in t.rows && k != key ensures RowSchedule(t.rows[k], t.jobs, k in t.hazard, k) {
      RowFrame(s.rows[k], s.jobs, t.jobs, k in s.hazard, k);
    }
    forall p | p in t.procs && t.procs[p].key != key
      ensures t.procs[p].key in t.rows
        && ProcOk(t.procs[p], t.rows[t.procs[p].key], t.jobs, t.execs, t.procs[p].key in t.hazard)
    {
      ProcFrame(s.procs[p], s.rows[s.procs[p].key], s.jobs, t.jobs, s.execs, t.execs, s.procs[p].key in s.hazard);
    }
  }

  // What changes to a row, a job table and a flag leave an operation on that request sound.
  ghost predicate JobsStep(jobs: Jobs, after: Jobs, moved: set<JobId>, taken: set<JobId>) {
    forall id :: id in jobs ==>
      && id in after
      && (id !in moved ==> after[id].instant == jobs[id].instant)
      && (id !in taken ==> (after[id].claimed ==> jobs[id].claimed) && (after[id].ran ==> jobs[id].ran))
  }

  lemma ProcJobs(p: Proc, row: Row, jobs: Jobs, after: Jobs, execs: Execs, later: Execs, flagged: bool,
                 moved: set<JobId>, taken: set<JobId>)
    requires ProcOk(p, row, jobs, execs, flagged) && JobsStep(jobs, after, moved, taken) && Grow(execs, later)
    requires p.Fences() !! moved && (p.Moving? ==> p.Fences() !! taken)
    ensures ProcOk(p, row, after, later, flagged)
  {
    match p
    case Moving(_, _, _, _, components, moved') =>
      forall i | 0 <= i < moved' ensures components[i] in after && after[components[i]].instant == p.target {
        assert components[i] in p.Fences();
      }
      forall c | c in components ensures c in after && !after[c].ran && !after[c].claimed {
        assert c in p.Fences();
      }
    case Reconciling(_, change, settled) =>
      forall i | 0 <= i < settled ensures change.components[i] in after
        && after[change.components[i]].instant == change.target {
        assert change.components[i] in p.Fences();
      }
    case _ =>
  }

  // Flagging a row only weakens what is claimed about it.
  lemma Flagged(p: Proc, row: Row, jobs: Jobs, execs: Execs, flagged: bool)
    requires ProcOk(p, row, jobs, execs, flagged)
    ensures ProcOk(p, row, jobs, execs, true)
  {}

  // ----- steps that only start, advance or end operations -----

  lemma ProcsChange(s: State, t: State)
    requires Inv(s) && t == s.(procs := t.procs)
    requires ProcsOk(t) && FencesOk(t.procs)
    ensures Inv(t)
  {
    hide RowsOk, BudgetOk, ExecsOk, FencesOk, RowSchedule, ProcOk, ProcsOk;
  }

  lemma Starts(s: State, pid: nat, p: Proc)
    requires Inv(s) && p.key in s.rows && ProcOk(p, s.rows[p.key], s.jobs, s.execs, p.key in s.hazard)
    requires Free(s.procs - {pid}, p.Fences())
    ensures Inv(At(s, pid, p))
  {
    hide RowsOk, BudgetOk, JobsKnown, ExecsOk, RowSchedule, ProcOk, SchedulesOk;
    var t := At(s, pid, p);
    assert FencesOk(t.procs) by {
      forall a, b | a in t.procs && b in t.procs && a != b ensures t.procs[a].Fences() !! t.procs[b].Fences() {
        if a == pid { assert b in s.procs - {pid}; } else if b == pid { assert a in s.procs - {pid}; }
      }
    }
    ProcsChange(s, t);
  }

  lemma Drops(s: State, pid: nat)
    requires Inv(s)
    ensures Inv(Drop(s, pid))
  {
    hide RowsOk, BudgetOk, JobsKnown, ExecsOk, RowSchedule, ProcOk, SchedulesOk, Proc.Fences;
    ProcsChange(s, Drop(s, pid));
  }

  lemma FreeAfter(procs: Procs, pid: nat, p: Proc)
    requires FencesOk(procs) && pid in procs && p.Fences() <= procs[pid].Fences()
    ensures Free(procs - {pid}, p.Fences())
  {}

  lemma FreeLess(procs: Procs, pid: nat, ids: set<JobId>)
    requires Free(procs, ids)
    ensures Free(procs - {pid}, ids)
  {}
}
