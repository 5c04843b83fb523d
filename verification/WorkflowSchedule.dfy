// Requests and native jobs under every interleaving of publishing, rescheduling, admission
// and restart recovery, with a crash allowed between any two commits or job writes.
module WorkflowSchedule {
  import opened Wrappers
  import opened CallingHours
  import opened WorkflowRows
  import opened WorkflowLifecycle
  import opened WorkflowBudget

  datatype JobState = Paused | Armed | Finished

  // `claimed`: a firing owner holds the occurrence; `ran`: the occurrence is over.
  datatype Job = Job(instant: int, state: JobState, claimed: bool, ran: bool)
  {
    // What a move demands of the job it is about to change.
    predicate Movable() {
      !ran && state.Armed? && !claimed
    }
  }

  datatype Execution = Execution(job: JobId, instant: int, running: bool)

  type Jobs = map<JobId, Job>
  type Execs = map<ExecId, Execution>

  // The local variables of an operation in flight; a crash forgets them.
  datatype Stage =
    | Start
    | Made
    | Linked(noticeAt: int)
    | Reminded(noticeAt: int)
    | Ready(notice: Option<int>)
    | Arming(notice: Option<int>, done: nat)

  datatype Proc =
    | Publishing(key: Key, ordinal: nat, runAt: int, stage: Stage)
    | MoveRead(key: Key, op: string, target: int, expected: nat, components: seq<JobId>)
    | Moving(key: Key, op: string, target: int, expected: nat, components: seq<JobId>, moved: nat)
    | ReconcileRead(key: Key, change: Change)
    | Reconciling(key: Key, change: Change, settled: nat)
    | Admitting(key: Key, job: JobId, execution: ExecId, instant: int)
  {
    // The native firing fences that the operation holds.
    function Fences(): set<JobId> {
      match this
      case Moving(_, _, _, _, components, _) => set c | c in components
      case Reconciling(_, change, _) => set c | c in change.components
      case Publishing(k, n, _, Arming(notice, _)) => set c | c in Parts(k, n, notice)
      case _ => {}
    }
  }

  function Parts(key: Key, ordinal: nat, notice: Option<int>): seq<JobId> {
    [CallJob(key, ordinal)] + if notice.Some? then [ReminderJob(key)] else []
  }

  type Procs = map<nat, Proc>

  // `hazard` marks the rows on which one of the four unguarded overlaps has happened; it is
  // bookkeeping of the model, no operation reads it.
  datatype State = State(rows: Rows, jobs: Jobs, execs: Execs, procs: Procs, hazard: set<Key>, history: History)

  const INITIAL := State(map[], map[], map[], map[], {}, [])

  datatype Step =
    | RowStep(t: Txn, now: int)
    | StartPublish(pid: nat, key: Key)
    | CreateJob(pid: nat)
    | Link(pid: nat)
    | CreateReminder(pid: nat)
    | LinkNotice(pid: nat)
    | PublishFence(pid: nat)
    | Arm(pid: nat)
    | Publish(pid: nat)
    | ReadMove(pid: nat, key: Key, op: string, target: int, expected: nat)
    | HoldMove(pid: nat, now: int)
    | Move(pid: nat)
    | FinishMove(pid: nat)
    | ReadReconcile(pid: nat, key: Key)
    | ReconcileFence(pid: nat)
    | ReconcileJob(pid: nat)
    | FinishReconcile(pid: nat)
    | ReadAdmit(pid: nat, key: Key, execution: ExecId, now: int, live: bool)
    | Admit(pid: nat, now: int)
    | Remind(key: Key, execution: ExecId, now: int, live: bool)
    | Fire(execution: ExecId, job: JobId, now: int)
    | Finish(execution: ExecId)
    | Pause(job: JobId)
    | Abandon(pid: nat)
    | Crash

  predicate Free(procs: Procs, ids: set<JobId>) {
    forall p :: p in procs ==> procs[p].Fences() !! ids
  }

  function With(s: State, t: Txn, now: int): State {
    var v := Commit(s.rows, t, now);
    s.(rows := v.rows, history := Record(s.history, s.rows, t, v.charge))
  }

  function At(s: State, pid: nat, p: Proc): State {
    s.(procs := s.procs[pid := p])
  }

  function Drop(s: State, pid: nat): State {
    s.(procs := s.procs - {pid})
  }

  function Flag(s: State, key: Key, hazardous: bool): State {
    if hazardous then s.(hazard := s.hazard + {key}) else s
  }

  // Transactions that need no native job and no fence.
  predicate RowOnly(t: Txn) {
    !t.TClaim? && !t.TLinkCall? && !t.TLinkReminder? && !t.TPublished? && !t.THold? && !t.TMoved? && !t.TReconciled?
      && !t.TClaimReminder?
  }

  function NextOrdinal(row: Row): nat {
    |row.attempts| + 1
  }

  function Current(row: Row, key: Key): JobId {
    CallJob(key, NextOrdinal(row))
  }

  // ----- publishing -----

  function DoCreateJob(s: State, pid: nat, p: Proc): State
    requires p.Publishing?
  {
    var id := CallJob(p.key, p.ordinal);
    var jobs := if id in s.jobs then s.jobs else s.jobs[id := Job(p.runAt, Paused, false, false)];
    if jobs[id].instant != p.runAt || jobs[id].ran then Drop(s.(jobs := jobs), pid)
    else At(s.(jobs := jobs), pid, p.(stage := Made))
  }

  // Links the job and re-reads the row: the first publication also needs the reminder.
  function DoLink(s: State, pid: nat, p: Proc): State
    requires p.Publishing?
  {
    if p.key !in s.rows then Drop(s, pid)
    else
      var stale := p.ordinal != NextOrdinal(s.rows[p.key]);
      var linked := Flag(With(s, TLinkCall(p.key, CallJob(p.key, p.ordinal)), 0), p.key, stale);
      var row := s.rows[p.key];
      At(linked, pid, p.(stage := if row.terms.notifyAtDue && row.attempts == [] then Linked(row.notificationRunAt)
                         else Ready(None)))
  }

  function DoCreateReminder(s: State, pid: nat, p: Proc): State
    requires p.Publishing? && p.stage.Linked?
  {
    var id := ReminderJob(p.key);
    var at := p.stage.noticeAt;
    var jobs := if id in s.jobs then s.jobs else s.jobs[id := Job(at, Paused, false, false)];
    if jobs[id].instant != at || jobs[id].ran then Drop(s.(jobs := jobs), pid)
    else At(s.(jobs := jobs), pid, p.(stage := Reminded(at)))
  }

  function DoLinkNotice(s: State, pid: nat, p: Proc): State
    requires p.Publishing? && p.stage.Reminded?
  {
    At(With(s, TLinkReminder(p.key, ReminderJob(p.key)), 0), pid, p.(stage := Ready(Some(p.stage.noticeAt))))
  }

  function ArmJob(j: Job): Job {
    if j.ran || j.claimed then j else j.(state := Armed)
  }

  function DoArm(s: State, pid: nat, p: Proc): State
    requires p.Publishing? && p.stage.Arming?
  {
    var parts := Parts(p.key, p.ordinal, p.stage.notice);
    if p.stage.done >= |parts| || parts[p.stage.done] !in s.jobs then Drop(s, pid)
    else
      var id := parts[p.stage.done];
      var armed := s.(jobs := s.jobs[id := ArmJob(s.jobs[id])]);
      var expected := if p.stage.done == 0 then p.runAt else p.stage.notice.value;
      if !armed.jobs[id].state.Armed? || armed.jobs[id].instant != expected then Drop(armed, pid)
      else At(armed, pid, p.(stage := Arming(p.stage.notice, p.stage.done + 1)))
  }

  function DoPublish(s: State, pid: nat, p: Proc): State
    requires p.Publishing?
  {
    if p.key !in s.rows || !s.rows[p.key].status.Holding? then Drop(s, pid)
    else
      var row := s.rows[p.key];
      var overlap := p.ordinal != NextOrdinal(row) || row.Pending();
      Drop(Flag(With(s, TPublished(p.key), 0), p.key, overlap), pid)
  }

  // ----- rescheduling -----

  // pending_components: the linked call job, and the reminder unless it is over.
  function PendingComponents(row: Row, jobs: Jobs): seq<JobId> {
    (if row.cronJob.Some? then [row.cronJob.value] else [])
    + if row.notificationJob.Some? && !row.notificationClaimed
         && (row.notificationJob.value in jobs ==>
             !jobs[row.notificationJob.value].ran && !jobs[row.notificationJob.value].state.Finished?)
      then [row.notificationJob.value] else []
  }

  function ExpectedAt(row: Row, id: JobId): int {
    if row.notificationJob == Some(id) then row.notificationRunAt else row.runAt
  }

  predicate Settled(row: Row, jobs: Jobs, components: seq<JobId>) {
    forall c :: c in components ==> c in jobs && jobs[c].Movable() && jobs[c].instant == ExpectedAt(row, c)
  }

  function DoHoldMove(s: State, pid: nat, p: Proc, now: int): State
    requires p.MoveRead?
  {
    var hold := HoldForMove(s.rows, p.key, p.op, p.target, p.expected, p.components, now);
    if !Free(s.procs, set c | c in p.components) || hold.Err? || !Settled(s.rows[p.key], s.jobs, p.components)
      then Drop(s, pid)
    else
      var cron := s.rows[p.key].cronJob;
      var blind := cron.None? || cron.value !in p.components;
      At(Flag(With(s, THold(p.key, p.op, p.target, p.expected, p.components), now), p.key, blind), pid,
         Moving(p.key, p.op, p.target, p.expected, p.components, 0))
  }

  function MoveJob(jobs: Jobs, id: JobId, target: int): Jobs {
    if id in jobs then jobs[id := jobs[id].(instant := target)] else jobs
  }

  function DoMove(s: State, pid: nat, p: Proc): State
    requires p.Moving?
  {
    if p.moved >= |p.components| then s
    else At(s.(jobs := MoveJob(s.jobs, p.components[p.moved], p.target)), pid, p.(moved := p.moved + 1))
  }

  function DoFinishMove(s: State, pid: nat, p: Proc): State
    requires p.Moving?
  {
    if p.moved < |p.components| then s
    else Drop(With(s, TMoved(p.key, p.target, p.expected, p.components), 0), pid)
  }

  // ----- restart reconciliation -----

  // From here on the change that was read must still be the pending one.
  function DoReconcileFence(s: State, pid: nat, p: Proc): State
    requires p.ReconcileRead?
  {
    if !Free(s.procs, set c | c in p.change.components) || p.key !in s.rows then Drop(s, pid)
    else At(Flag(s, p.key, s.rows[p.key].change != Some(p.change) || !p.change.pending), pid,
            Reconciling(p.key, p.change, 0))
  }

  function DoReconcileJob(s: State, pid: nat, p: Proc): State
    requires p.Reconciling?
  {
    if p.settled >= |p.change.components| then s
    else
      var id := p.change.components[p.settled];
      if id !in s.jobs || !s.jobs[id].Movable() then Drop(s, pid)
      else At(s.(jobs := MoveJob(s.jobs, id, p.change.target)), pid, p.(settled := p.settled + 1))
  }

  function DoFinishReconcile(s: State, pid: nat, p: Proc): State
    requires p.Reconciling?
  {
    if p.settled < |p.change.components| then s
    else Drop(With(s, TReconciled(p.key, p.change.target, p.change.components), 0), pid)
  }

  // ----- admission -----

  function DoReadAdmit(s: State, pid: nat, key: Key, execution: ExecId, now: int, live: bool): State {
    if pid in s.procs || key !in s.rows || execution !in s.execs || !s.execs[execution].running
      || s.execs[execution].job !in s.jobs then s
    else
      var row, e := s.rows[key], s.execs[execution];
      var found := FindExecution(row.attempts, execution);
      if !Authorized(row, now, live, false) || !s.jobs[e.job].claimed || e.instant != row.runAt
        || e.job != CallJob(key, found + 1) then s
      else if found == |row.attempts| && row.automaticHours && !WithinHours(now, row.offset) then s
      else At(s, pid, Admitting(key, e.job, execution, s.jobs[e.job].instant))
  }

  function DoAdmit(s: State, pid: nat, p: Proc, now: int): State
    requires p.Admitting?
  {
    Drop(With(s, TClaim(p.key, p.job, p.execution, p.instant), now), pid)
  }

  function DoRemind(s: State, key: Key, execution: ExecId, now: int, live: bool): State {
    if key !in s.rows || execution !in s.execs || !s.execs[execution].running
      || s.execs[execution].job !in s.jobs then s
    else
      var e := s.execs[execution];
      if !s.jobs[e.job].claimed || s.jobs[e.job].instant != s.rows[key].notificationRunAt then s
      else With(s, TClaimReminder(key, e.job, e.instant, live), now)
  }

  // ----- the native scheduler -----

  function DoFire(s: State, execution: ExecId, id: JobId, now: int): State {
    if execution in s.execs || id !in s.jobs || !s.jobs[id].Movable() || now < s.jobs[id].instant
      || !Free(s.procs, {id}) then s
    else s.(jobs := s.jobs[id := s.jobs[id].(claimed := true)],
            execs := s.execs[execution := Execution(id, s.jobs[id].instant, true)])
  }

  function DoFinish(s: State, execution: ExecId): State {
    if execution !in s.execs || !s.execs[execution].running || s.execs[execution].job !in s.jobs then s
    else
      var e := s.execs[execution];
      s.(jobs := s.jobs[e.job := s.jobs[e.job].(claimed := false, ran := true, state := Finished)],
         execs := s.execs[execution := e.(running := false)])
  }

  function DoPause(s: State, id: JobId): State {
    if id !in s.jobs || s.jobs[id].ran || s.jobs[id].claimed || !Free(s.procs, {id}) then s
    else s.(jobs := s.jobs[id := s.jobs[id].(state := Paused)])
  }

  // One step of one operation; a step whose guard fails changes nothing, or ends its operation.
  function Do(s: State, step: Step): State {
    match step
    case RowStep(t, now) => if RowOnly(t) then With(s, t, now) else s
    case StartPublish(pid, key) =>
      if pid in s.procs || key !in s.rows || !s.rows[key].status.Holding? then s
      else At(s, pid, Publishing(key, NextOrdinal(s.rows[key]), s.rows[key].runAt, Start))
    case ReadMove(pid, key, op, target, expected) =>
      if pid in s.procs || key !in s.rows then s
      else At(s, pid, MoveRead(key, op, target, expected, PendingComponents(s.rows[key], s.jobs)))
    case ReadReconcile(pid, key) =>
      if pid in s.procs || key !in s.rows || !s.rows[key].status.Holding? || !s.rows[key].Pending() then s
      else At(s, pid, ReconcileRead(key, s.rows[key].change.value))
    case ReadAdmit(pid, key, execution, now, live) => DoReadAdmit(s, pid, key, execution, now, live)
    case Remind(key, execution, now, live) => DoRemind(s, key, execution, now, live)
    case Fire(execution, id, now) => DoFire(s, execution, id, now)
    case Finish(execution) => DoFinish(s, execution)
    case Pause(id) => DoPause(s, id)
    case Crash => s.(procs := map[])
    case Abandon(pid) => Drop(s, pid)
    case _ => if step.pid in s.procs then Advance(s, step, step.pid, s.procs[step.pid]) else s
  }

  function Advance(s: State, step: Step, pid: nat, p: Proc): State {
    match step
    case CreateJob(_) => if p.Publishing? && p.stage.Start? then DoCreateJob(s, pid, p) else s
    case Link(_) => if p.Publishing? && p.stage.Made? then DoLink(s, pid, p) else s
    case CreateReminder(_) => if p.Publishing? && p.stage.Linked? then DoCreateReminder(s, pid, p) else s
    case LinkNotice(_) => if p.Publishing? && p.stage.Reminded? then DoLinkNotice(s, pid, p) else s
    case PublishFence(_) =>
      if p.Publishing? && p.stage.Ready? && Free(s.procs, set c | c in Parts(p.key, p.ordinal, p.stage.notice))
      then At(s, pid, p.(stage := Arming(p.stage.notice, 0))) else s
    case Arm(_) => if p.Publishing? && p.stage.Arming? then DoArm(s, pid, p) else s
    case Publish(_) =>
      if p.Publishing? && p.stage.Arming? && p.stage.done == |Parts(p.key, p.ordinal, p.stage.notice)|
        then DoPublish(s, pid, p) else s
    case HoldMove(_, now) => if p.MoveRead? then DoHoldMove(s, pid, p, now) else s
    case Move(_) => if p.Moving? then DoMove(s, pid, p) else s
    case FinishMove(_) => if p.Moving? then DoFinishMove(s, pid, p) else s
    case ReconcileFence(_) => if p.ReconcileRead? then DoReconcileFence(s, pid, p) else s
    case ReconcileJob(_) => if p.Reconciling? then DoReconcileJob(s, pid, p) else s
    case FinishReconcile(_) => if p.Reconciling? then DoFinishReconcile(s, pid, p) else s
    case Admit(_, now) => if p.Admitting? then DoAdmit(s, pid, p, now) else s
    case _ => s
  }

  function Run(s: State, steps: seq<Step>): State {
    if steps == [] then s else Do(Run(s, steps[..|steps| - 1]), steps[|steps| - 1])
  }
}
