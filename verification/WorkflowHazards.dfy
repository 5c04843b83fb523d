// The four overlaps that the schedule theorem leaves out: for each, exactly when it breaks
// the alignment, and runs that show two of them happen (for the others, see WorkflowOverlaps).
// Then the recovery that closes the gap a crash leaves.
module WorkflowHazards {
  import opened Wrappers
  import opened WorkflowRows
  import opened WorkflowLifecycle
  import opened WorkflowBudget
  import opened WorkflowSchedule
  import opened WorkflowAlignment
  import opened WorkflowSteps
  import opened WorkflowTheorems

  // ----- exactly when each overlap does harm -----

  function MoveAll(jobs: Jobs, components: seq<JobId>, target: int): Jobs {
    if components == [] then jobs
    else MoveJob(MoveAll(jobs, components[..|components| - 1], target), components[|components| - 1], target)
  }

  lemma {:induction false} MoveAllAt(jobs: Jobs, components: seq<JobId>, target: int)
    ensures MoveAll(jobs, components, target).Keys == jobs.Keys
    ensures forall id :: id in jobs ==>
      MoveAll(jobs, components, target)[id] == if id in components then jobs[id].(instant := target) else jobs[id]
  {
    if components != [] { MoveAllAt(jobs, components[..|components| - 1], target); }
  }

  // A reschedule whose component list was read before the call job was linked moves the row
  // but not the job: it is harmless exactly when the list names the linked job, or the job
  // happens to stand at the target already.
  lemma BlindMoveExactly(row: Row, jobs: Jobs, key: Key, op: string, target: int, components: seq<JobId>)
    requires row.status.Scheduled? && RowSchedule(row, jobs, false, key)
    ensures Aligned(ApplyMove(HeldForMove(row, op, target, components), target, components),
                    MoveAll(jobs, components, target)) <==>
      row.cronJob.value in components || jobs[row.cronJob.value].instant == target
  {
    MoveAllAt(jobs, components, target);
  }

  lemma KnownProc(s: State, pid: nat)
    requires Inv(s) && pid in s.procs
    ensures var p := s.procs[pid];
      && p.key in s.rows && RowSchedule(s.rows[p.key], s.jobs, p.key in s.hazard, p.key)
      && ProcOk(p, s.rows[p.key], s.jobs, s.execs, p.key in s.hazard)
  {
    hide RowsOk, BudgetOk, ExecsOk, FencesOk, RowSchedule, ProcOk;
  }

  // Three steps of the machine, each by the operation that performs it.
  lemma StepsDo(s: State, pid: nat)
    requires pid in s.procs
    ensures var p := s.procs[pid];
      && (p.Moving? ==> Do(s, FinishMove(pid)) == DoFinishMove(s, pid, p))
      && (p.Publishing? && p.stage.Made? ==> Do(s, Link(pid)) == DoLink(s, pid, p))
      && (p.Publishing? && p.stage.Arming? && p.stage.done == |Parts(p.key, p.ordinal, p.stage.notice)| ==>
            Do(s, Publish(pid)) == DoPublish(s, pid, p))
  {
    hide DoFinishMove, DoLink, DoPublish;
  }

  // The last write of such a reschedule, on the machine: it keeps the row aligned exactly when
  // the linked job and the unclaimed reminder were moved with it, or stand there anyway.
  lemma BlindFinishExactly(s: State, pid: nat)
    requires Inv(s) && pid in s.procs && s.procs[pid].Moving?
    requires var p := s.procs[pid];
      p.moved == |p.components| && s.rows[p.key].status.Holding? && s.rows[p.key].revision == p.expected + 1
    ensures var p, t := s.procs[pid], Do(s, FinishMove(pid));
      var row := s.rows[p.key];
      && p.key in t.rows
      && (Aligned(t.rows[p.key], t.jobs) <==>
            && row.cronJob.Some?
            && (row.cronJob.value in p.components || s.jobs[row.cronJob.value].instant == p.target)
            && (row.notificationJob.Some? && !row.notificationClaimed ==>
                  row.notificationJob.value in p.components
                    || s.jobs[row.notificationJob.value].instant == row.notificationRunAt))
  {
    hide Inv, Bound, Do;
    var p := s.procs[pid];
    StepsDo(s, pid);
    KnownProc(s, pid);
    forall c | c in p.components ensures c in s.jobs && s.jobs[c].instant == p.target {
      var i :| 0 <= i < |p.components| && p.components[i] == c;
    }
  }

  // A publisher that stalled across an attempt re-links the job it made: harmless exactly
  // when the row is not scheduled, or that job stands at its current call time.
  lemma StaleLinkExactly(s: State, pid: nat)
    requires Inv(s) && pid in s.procs && s.procs[pid].Publishing? && s.procs[pid].stage.Made?
      && s.procs[pid].key !in s.hazard
    ensures var p, t := s.procs[pid], Do(s, Link(pid));
      var row, job := s.rows[p.key], CallJob(p.key, p.ordinal);
      && p.key in t.rows && job in s.jobs
      && (Aligned(t.rows[p.key], t.jobs) <==> (row.status.Scheduled? ==> s.jobs[job].instant == row.runAt))
      && (p.ordinal == NextOrdinal(row) ==> Aligned(t.rows[p.key], t.jobs))
  {
    hide Inv, Do;
    var p := s.procs[pid];
    StepsDo(s, pid);
    KnownProc(s, pid);
  }

  // The last step of a publisher arms whatever row it finds held: harmless exactly when the job
  // that the row names and its unclaimed reminder stand at their times. Without a later attempt
  // and without an unresolved move they always do.
  lemma PublishOverMoveExactly(s: State, pid: nat)
    requires Inv(s) && pid in s.procs && s.procs[pid].Publishing? && s.procs[pid].stage.Arming?
      && s.procs[pid].key !in s.hazard
    requires var p := s.procs[pid];
      p.stage.done == |Parts(p.key, p.ordinal, p.stage.notice)| && s.rows[p.key].status.Holding?
    ensures var p, t := s.procs[pid], Do(s, Publish(pid));
      var row := s.rows[p.key];
      && p.key in t.rows && t.rows[p.key].status.Scheduled?
      && (Aligned(t.rows[p.key], t.jobs) <==>
            && row.cronJob.Some? && s.jobs[row.cronJob.value].instant == row.runAt
            && (row.notificationJob.Some? && !row.notificationClaimed ==>
                  s.jobs[row.notificationJob.value].instant == row.notificationRunAt))
      && (p.ordinal == NextOrdinal(row) && !row.Pending() ==> Aligned(t.rows[p.key], t.jobs))
  {
    hide Inv, Do;
    var p := s.procs[pid];
    StepsDo(s, pid);
    KnownProc(s, pid);
  }

  // ----- a reconciliation on an earlier copy of the row -----

  function Repeat(step: Step, n: nat): seq<Step> {
    if n == 0 then [] else Repeat(step, n - 1) + [step]
  }

  // Its job moves, as far as the jobs can be moved.
  lemma {:induction false} ReconcileMoves(s: State, pid: nat, n: nat)
    requires pid in s.procs && s.procs[pid].Reconciling? && s.procs[pid].settled == 0
      && n <= |s.procs[pid].change.components|
    requires var cs := s.procs[pid].change.components;
      forall i :: 0 <= i < n ==> cs[i] in s.jobs && s.jobs[cs[i]].Movable()
    ensures var p := s.procs[pid];
      Run(s, Repeat(ReconcileJob(pid), n)) ==
      s.(jobs := MoveAll(s.jobs, p.change.components[..n], p.change.target), procs := s.procs[pid := p.(settled := n)])
  {
    hide Do;
    var p := s.procs[pid];
    if n == 0 {
      assert s.procs[pid := p] == s.procs;
    } else {
      ReconcileMoves(s, pid, n - 1);
      Then(s, Repeat(ReconcileJob(pid), n - 1), ReconcileJob(pid));
      ReconcileMovesOne(s, pid, n - 1);
    }
  }

  lemma ReconcileMovesOne(s: State, pid: nat, n: nat)
    requires pid in s.procs && s.procs[pid].Reconciling? && n < |s.procs[pid].change.components|
    requires s.procs[pid].change.components[n] in s.jobs && s.jobs[s.procs[pid].change.components[n]].Movable()
    ensures var p := s.procs[pid];
      var cs := p.change.components;
      var before := s.(jobs := MoveAll(s.jobs, cs[..n], p.change.target), procs := s.procs[pid := p.(settled := n)]);
      Do(before, ReconcileJob(pid)) ==
      s.(jobs := MoveAll(s.jobs, cs[..n + 1], p.change.target), procs := s.procs[pid := p.(settled := n + 1)])
  {
    var p := s.procs[pid];
    var cs := p.change.components;
    MoveAllAt(s.jobs, cs[..n], p.change.target);
    assert cs[..n + 1][..n] == cs[..n];
    assert s.procs[pid := p.(settled := n)][pid := p.(settled := n + 1)] == s.procs[pid := p.(settled := n + 1)];
  }

  // The first `n` jobs of the change go where they stand, as far as the row depends on them.
  predicate Harmless(row: Row, change: Change, n: nat)
    requires n <= |change.components|
  {
    && (row.cronJob.Some? && row.cronJob.value in change.components[..n] ==> change.target == row.runAt)
    && (row.notificationJob.Some? && !row.notificationClaimed && row.notificationJob.value in change.components[..n]
        ==> change.target == row.notificationRunAt)
  }

  predicate MovableUpTo(jobs: Jobs, components: seq<JobId>, n: nat) {
    n <= |components| && forall i :: 0 <= i < n ==> components[i] in jobs && jobs[components[i]].Movable()
  }

  lemma HarmlessExactly(s: State, pid: nat, n: nat)
    requires Inv(s) && pid in s.procs && s.procs[pid].Reconciling?
    requires var p := s.procs[pid];
      s.rows[p.key].status.Scheduled? && Aligned(s.rows[p.key], s.jobs) && n <= |p.change.components|
    ensures var p := s.procs[pid];
      Aligned(s.rows[p.key], MoveAll(s.jobs, p.change.components[..n], p.change.target)) <==>
      Harmless(s.rows[p.key], p.change, n)
  {
    hide Inv, MoveAll;
    KnownKinds(s, pid);
    MoveAllAt(s.jobs, s.procs[pid].change.components[..n], s.procs[pid].change.target);
  }

  // A reconciliation that acts on a row which is scheduled again moves its jobs, up to the first
  // that cannot be moved: harmless exactly when every job it moves is taken to where it stands.
  lemma StaleReconcileExactly(s: State, pid: nat, n: nat)
    requires Inv(s) && pid in s.procs && s.procs[pid].Reconciling? && s.procs[pid].settled == 0
    requires var p := s.procs[pid];
      && s.rows[p.key].status.Scheduled? && Aligned(s.rows[p.key], s.jobs)
      && MovableUpTo(s.jobs, p.change.components, n)
      && (n < |p.change.components| ==> !MovableUpTo(s.jobs, p.change.components, n + 1))
    ensures var p := s.procs[pid];
      var row, t := s.rows[p.key], Run(s, Repeat(ReconcileJob(pid), n) + [ReconcileJob(pid), FinishReconcile(pid)]);
      && t.rows == s.rows && t.jobs == MoveAll(s.jobs, p.change.components[..n], p.change.target)
      && (Aligned(row, t.jobs) <==> Harmless(row, p.change, n))
  {
    hide Inv, Do, Run, MoveAll, Aligned, Harmless;
    var p := s.procs[pid];
    ReconcileMoves(s, pid, n);
    var moved := Run(s, Repeat(ReconcileJob(pid), n));
    MoveAllAt(s.jobs, p.change.components[..n], p.change.target);
    Splice(s, Repeat(ReconcileJob(pid), n), [ReconcileJob(pid), FinishReconcile(pid)]);
    Two(moved, ReconcileJob(pid), FinishReconcile(pid));
    assert moved.jobs == MoveAll(s.jobs, p.change.components[..n], p.change.target);
    if n < |p.change.components| && p.change.components[n] in s.jobs {
      assert moved.jobs[p.change.components[n]].Movable() == s.jobs[p.change.components[n]].Movable();
    }
    KnownKinds(s, pid);
    ReconcileStops(moved, pid);
    HarmlessExactly(s, pid, n);
  }

  // The same for one that is cut off by a crash after any number of its jobs.
  lemma CutReconcileExactly(s: State, pid: nat, n: nat)
    requires Inv(s) && pid in s.procs && s.procs[pid].Reconciling? && s.procs[pid].settled == 0
    requires var p := s.procs[pid];
      && s.rows[p.key].status.Scheduled? && Aligned(s.rows[p.key], s.jobs)
      && MovableUpTo(s.jobs, p.change.components, n)
    ensures var p := s.procs[pid];
      var row, t := s.rows[p.key], Run(s, Repeat(ReconcileJob(pid), n) + [Crash]);
      && t.rows == s.rows && t.procs == map[]
      && t.jobs == MoveAll(s.jobs, p.change.components[..n], p.change.target)
      && (Aligned(row, t.jobs) <==> Harmless(row, p.change, n))
  {
    hide Inv, Do, Run, MoveAll, Aligned, Harmless;
    ReconcileMoves(s, pid, n);
    var moved := Run(s, Repeat(ReconcileJob(pid), n));
    Then(s, Repeat(ReconcileJob(pid), n), Crash);
    Forgets(moved);
    HarmlessExactly(s, pid, n);
  }

  // At its end, or at a job that cannot be moved, it changes nothing more on a scheduled row.
  lemma ReconcileStops(s: State, pid: nat)
    requires pid in s.procs && s.procs[pid].Reconciling? && s.procs[pid].key in s.rows
      && s.rows[s.procs[pid].key].status.Scheduled?
    requires var p := s.procs[pid]; p.settled < |p.change.components| ==>
      p.change.components[p.settled] !in s.jobs || !s.jobs[p.change.components[p.settled]].Movable()
    ensures var t := Do(Do(s, ReconcileJob(pid)), FinishReconcile(pid)); t.rows == s.rows && t.jobs == s.jobs
  {}

  lemma KnownKinds(s: State, pid: nat)
    requires Inv(s) && pid in s.procs
    ensures s.procs[pid].key in s.rows
    ensures var row := s.rows[s.procs[pid].key];
      && (row.cronJob.Some? ==> row.cronJob.value.CallJob?)
      && (row.notificationJob.Some? ==> row.notificationJob.value.ReminderJob?)
  {
    hide Inv, Bound, ProcOk;
    KnownProc(s, pid);
  }

  // ----- two runs that end misaligned -----

  const CALL := OwnerRequest("r")
  const JOB := CallJob(CALL, 1)
  const WANTED := Terms("+1", "p", "owner", 100, None, false, false, [], None)

  lemma {:induction false} Then(s: State, steps: seq<Step>, step: Step)
    ensures Run(s, steps + [step]) == Do(Run(s, steps), step)
  {
    hide Do;
    assert (steps + [step])[..|steps|] == steps;
  }

  function FirstPublish(): seq<Step> {
    [RowStep(TCreate("r", WANTED, 0), 0), StartPublish(1, CALL)]
  }

  const HELD := Row(WANTED, CALL, 0, 100, 100 + WEEK, 0, Holding, [], None, None, 100, false, 0, false, None)

  lemma Requested()
    ensures Run(INITIAL, FirstPublish()) ==
      State(map[CALL := HELD], map[], map[], map[1 := Publishing(CALL, 1, 100, Start)], {}, [])
  {
    var a := RowStep(TCreate("r", WANTED, 0), 0);
    Then(INITIAL, [], a);
    Then(INITIAL, [a], StartPublish(1, CALL));
    assert FirstPublish() == [] + [a] + [StartPublish(1, CALL)];
    assert Run(INITIAL, [a]).rows == map[CALL := HELD];
  }

  // From a held row whose publisher just started, five steps of the publisher schedule it.
  function PublishSteps(pid: nat): seq<Step> {
    [CreateJob(pid), Link(pid)] + [PublishFence(pid), Arm(pid)] + [Publish(pid)]
  }

  lemma {:induction false} Splice(s: State, a: seq<Step>, b: seq<Step>)
    ensures Run(s, a + b) == Run(Run(s, a), b)
  {
    hide Do;
    if b == [] {
      assert a + b == a;
    } else {
      Splice(s, a, b[..|b| - 1]);
      assert a + b == (a + b[..|b| - 1]) + [b[|b| - 1]];
      Then(s, a + b[..|b| - 1], b[|b| - 1]);
    }
  }

  lemma Two(s: State, a: Step, b: Step)
    ensures Run(s, [a, b]) == Do(Do(s, a), b)
  {
    hide Do;
    Then(s, [], a);
    Then(s, [a], b);
    assert [] + [a] == [a] && [a] + [b] == [a, b];
  }

  lemma One(s: State, a: Step)
    ensures Run(s, [a]) == Do(s, a)
  {
    hide Do;
    Then(s, [], a);
    assert [] + [a] == [a];
  }

  predicate ReadyToPublish(s: State, pid: nat, stage: Stage) {
    && pid in s.procs && s.procs[pid] == Publishing(CALL, 1, 100, stage)
    && CALL in s.rows && s.rows[CALL].status.Holding? && s.rows[CALL].attempts == [] && s.rows[CALL].runAt == 100
    && !s.rows[CALL].terms.notifyAtDue
  }

  lemma MakesAndLinks(s: State, pid: nat)
    requires ReadyToPublish(s, pid, Start) && (JOB in s.jobs ==> s.jobs[JOB].instant == 100 && !s.jobs[JOB].ran)
    ensures var t := Run(s, [CreateJob(pid), Link(pid)]);
      && t == s.(rows := s.rows[CALL := s.rows[CALL].(cronJob := Some(JOB))], jobs := t.jobs,
                 procs := s.procs[pid := Publishing(CALL, 1, 100, Ready(None))])
      && t.jobs == (if JOB in s.jobs then s.jobs else s.jobs[JOB := Job(100, Paused, false, false)])
  {
    Two(s, CreateJob(pid), Link(pid));
    hide Run, Parts, Free, PendingComponents, RowOnly;
    var s1 := Do(s, CreateJob(pid));
    assert s1.procs[pid] == Publishing(CALL, 1, 100, Made);
    assert s1.procs[pid := Publishing(CALL, 1, 100, Ready(None))] ==
      s.procs[pid := Publishing(CALL, 1, 100, Ready(None))];
  }

  lemma FencesAndArms(s: State, pid: nat)
    requires ReadyToPublish(s, pid, Ready(None)) && JOB in s.jobs && s.jobs[JOB].instant == 100 && !s.jobs[JOB].ran
      && !s.jobs[JOB].claimed
    requires Free(s.procs, {JOB})
    ensures Run(s, [PublishFence(pid), Arm(pid)]) ==
      s.(jobs := s.jobs[JOB := Job(100, Armed, false, false)],
         procs := s.procs[pid := Publishing(CALL, 1, 100, Arming(None, 1))])
  {
    Two(s, PublishFence(pid), Arm(pid));
    hide Run;
    assert (set c | c in Parts(CALL, 1, None)) == {JOB};
    var s1 := Do(s, PublishFence(pid));
    assert s1.procs[pid] == Publishing(CALL, 1, 100, Arming(None, 0));
    assert s1.procs[pid := Publishing(CALL, 1, 100, Arming(None, 1))] ==
      s.procs[pid := Publishing(CALL, 1, 100, Arming(None, 1))];
  }

  lemma Schedules(s: State, pid: nat)
    requires ReadyToPublish(s, pid, Arming(None, 1))
    ensures var t := Run(s, [Publish(pid)]);
      && t == s.(rows := s.rows[CALL := s.rows[CALL].(status := Scheduled)], procs := s.procs - {pid},
                 hazard := t.hazard)
  {
    hide Run, Do;
    One(s, Publish(pid));
    PublishStep(s, pid, None);
    hide Free;
  }

  lemma PublishStep(s: State, pid: nat, notice: Option<int>)
    requires pid in s.procs && s.procs[pid].Publishing?
    requires s.procs[pid].stage == Arming(notice, |Parts(s.procs[pid].key, s.procs[pid].ordinal, notice)|)
    ensures Do(s, Publish(pid)) == DoPublish(s, pid, s.procs[pid])
  {
    hide DoPublish, Parts;
  }

  lemma FenceStep(s: State, pid: nat)
    requires pid in s.procs && s.procs[pid].Publishing? && s.procs[pid].stage.Ready?
    ensures var p := s.procs[pid];
      Free(s.procs, set c | c in Parts(p.key, p.ordinal, p.stage.notice)) ==>
        Do(s, PublishFence(pid)) == At(s, pid, p.(stage := Arming(p.stage.notice, 0)))
  {
    hide Free, Parts;
  }

  lemma ReconcileStep(s: State, pid: nat)
    requires pid in s.procs && s.procs[pid].Reconciling?
    ensures Do(s, ReconcileJob(pid)) == DoReconcileJob(s, pid, s.procs[pid])
  {
    hide DoReconcileJob;
  }

  lemma Publishes(s: State, pid: nat)
    requires ReadyToPublish(s, pid, Start) && Free(s.procs - {pid}, {JOB})
    requires JOB in s.jobs ==> s.jobs[JOB] == Job(100, Armed, false, false)
    ensures var t := Run(s, PublishSteps(pid));
      && t == s.(rows := s.rows[CALL := s.rows[CALL].(cronJob := Some(JOB), status := Scheduled)],
                 jobs := s.jobs[JOB := Job(100, Armed, false, false)],
                 procs := s.procs - {pid}, hazard := t.hazard)
  {
    hide Do, Run;
    MakesAndLinks(s, pid);
    var s2 := Run(s, [CreateJob(pid), Link(pid)]);
    assert Free(s2.procs, {JOB}) by {
      forall p | p in s2.procs ensures s2.procs[p].Fences() !! {JOB} {
        if p != pid { assert p in s.procs - {pid}; }
      }
    }
    FencesAndArms(s2, pid);
    var s4 := Run(s2, [PublishFence(pid), Arm(pid)]);
    Schedules(s4, pid);
    Splice(s, [CreateJob(pid), Link(pid)], [PublishFence(pid), Arm(pid)]);
    Splice(s, [CreateJob(pid), Link(pid)] + [PublishFence(pid), Arm(pid)], [Publish(pid)]);
    assert s4.procs - {pid} == s.procs - {pid};
    assert s4.jobs == s.jobs[JOB := Job(100, Armed, false, false)];
  }

  const SCHEDULED := HELD.(cronJob := Some(JOB), status := Scheduled)

  // The owner reschedules with a component list that was read before the call job was
  // linked: the row ends scheduled for 200, its job still at 100.
  lemma BlindRescheduleHappens()
    ensures exists steps :: var s := Run(INITIAL, steps);
      CALL in s.rows && s.rows[CALL].status.Scheduled? && s.rows[CALL].runAt == 200
      && s.rows[CALL].cronJob == Some(JOB) && JOB in s.jobs && s.jobs[JOB].instant == 100
  {
    hide Do, Run;
    Requested();
    var a := Run(INITIAL, FirstPublish());
    var early := [ReadMove(2, CALL, "move", 200, 0)];
    BlindRead(a);
    var b := Run(a, early);
    Publishes(b, 1);
    var c := Run(b, PublishSteps(1));
    var moves := [HoldMove(2, 0), FinishMove(2)];
    BlindMove(c);
    Splice(INITIAL, FirstPublish(), early);
    Splice(INITIAL, FirstPublish() + early, PublishSteps(1));
    Splice(INITIAL, FirstPublish() + early + PublishSteps(1), moves);
    assert Run(INITIAL, FirstPublish() + early + PublishSteps(1) + moves) == Run(c, moves);
  }

  lemma BlindRead(s: State)
    requires s.rows == map[CALL := HELD] && 2 !in s.procs
    ensures Run(s, [ReadMove(2, CALL, "move", 200, 0)]) == s.(procs := s.procs[2 := MoveRead(CALL, "move", 200, 0, [])])
  {
    One(s, ReadMove(2, CALL, "move", 200, 0));
    hide Run;
    assert PendingComponents(HELD, s.jobs) == [];
  }

  lemma BlindMove(s: State)
    requires s.rows == map[CALL := SCHEDULED] && 2 in s.procs && s.procs[2] == MoveRead(CALL, "move", 200, 0, [])
    ensures var t := Run(s, [HoldMove(2, 0), FinishMove(2)]);
      CALL in t.rows && t.rows[CALL].status.Scheduled? && t.rows[CALL].runAt == 200 && t.rows[CALL].cronJob == Some(JOB)
        && t.jobs == s.jobs
  {
    Holds(s, 2, []);
    Two(s, HoldMove(2, 0), FinishMove(2));
    BlindFinish(Do(s, HoldMove(2, 0)));
  }

  lemma Holds(s: State, pid: nat, components: seq<JobId>)
    requires s.rows == map[CALL := SCHEDULED] && pid in s.procs
      && s.procs[pid] == MoveRead(CALL, "move", 200, 0, components)
    requires components == [] || components == [JOB]
    requires components == [JOB] ==> JOB in s.jobs && s.jobs[JOB] == Job(100, Armed, false, false)
    requires Free(s.procs, set c | c in components)
    ensures var t := Do(s, HoldMove(pid, 0));
      t == s.(rows := map[CALL := HeldForMove(SCHEDULED, "move", 200, components)],
              procs := s.procs[pid := Moving(CALL, "move", 200, 0, components, 0)], hazard := t.hazard)
  {
    hide Do;
    HoldStep(s, pid);
    assert s.rows[CALL := HeldForMove(SCHEDULED, "move", 200, components)] ==
      map[CALL := HeldForMove(SCHEDULED, "move", 200, components)];
  }

  lemma HoldStep(s: State, pid: nat)
    requires pid in s.procs && s.procs[pid].MoveRead?
    ensures Do(s, HoldMove(pid, 0)) == DoHoldMove(s, pid, s.procs[pid], 0)
  {
    hide DoHoldMove;
  }

  lemma BlindFinish(s: State)
    requires s.rows == map[CALL := HeldForMove(SCHEDULED, "move", 200, [])]
    requires 2 in s.procs && s.procs[2] == Moving(CALL, "move", 200, 0, [], 0)
    ensures var t := Do(s, FinishMove(2));
      CALL in t.rows && t.rows[CALL].status.Scheduled? && t.rows[CALL].runAt == 200 && t.rows[CALL].cronJob == Some(JOB)
        && t.jobs == s.jobs
  {}

  const PENDING := HeldForMove(SCHEDULED, "move", 200, [JOB])
  const MOVE := Change("move", 200, 100, true, [JOB])

  // A crash interrupts a reschedule before its first job move; on restart the same request
  // is published again while the reconciliation already holds its copy of the row: the row
  // ends scheduled for 100, its job at 200.
  lemma StaleReconcileHappens()
    ensures exists steps :: var s := Run(INITIAL, steps);
      CALL in s.rows && s.rows[CALL].status.Scheduled? && s.rows[CALL].runAt == 100
      && s.rows[CALL].cronJob == Some(JOB) && JOB in s.jobs && s.jobs[JOB].instant == 200
  {
    hide Do, Run;
    Requested();
    var a := Run(INITIAL, FirstPublish());
    Publishes(a, 1);
    var b := Run(a, PublishSteps(1));
    Interrupted(b);
    var c := Run(b, [ReadMove(2, CALL, "move", 200, 0), HoldMove(2, 0)] + [Crash]);
    BothRead(c);
    var d := Run(c, [StartPublish(3, CALL), ReadReconcile(4, CALL)]);
    Publishes(d, 3);
    var e := Run(d, PublishSteps(3));
    LateReconcile(e);
    var last := [ReconcileFence(4), ReconcileJob(4)];
    var s1 := FirstPublish() + PublishSteps(1);
    var s2 := s1 + ([ReadMove(2, CALL, "move", 200, 0), HoldMove(2, 0)] + [Crash]);
    var s3 := s2 + [StartPublish(3, CALL), ReadReconcile(4, CALL)];
    Splice(INITIAL, FirstPublish(), PublishSteps(1));
    Splice(INITIAL, s1, [ReadMove(2, CALL, "move", 200, 0), HoldMove(2, 0)] + [Crash]);
    Splice(INITIAL, s2, [StartPublish(3, CALL), ReadReconcile(4, CALL)]);
    Splice(INITIAL, s3, PublishSteps(3));
    Splice(INITIAL, s3 + PublishSteps(3), last);
    assert Run(INITIAL, s3 + PublishSteps(3) + last) == Run(e, last);
  }

  lemma Interrupted(s: State)
    requires s.rows == map[CALL := SCHEDULED] && s.procs == map[] && JOB in s.jobs
      && s.jobs[JOB] == Job(100, Armed, false, false)
    ensures var t := Run(s, [ReadMove(2, CALL, "move", 200, 0), HoldMove(2, 0)] + [Crash]);
      t == s.(rows := map[CALL := PENDING], procs := map[], hazard := t.hazard)
  {
    hide Run, Do;
    Two(s, ReadMove(2, CALL, "move", 200, 0), HoldMove(2, 0));
    Splice(s, [ReadMove(2, CALL, "move", 200, 0), HoldMove(2, 0)], [Crash]);
    var r := Do(s, ReadMove(2, CALL, "move", 200, 0));
    FullRead(s);
    Holds(r, 2, [JOB]);
    One(Do(r, HoldMove(2, 0)), Crash);
    Forgets(Do(r, HoldMove(2, 0)));
  }

  lemma Forgets(s: State)
    ensures Do(s, Crash) == s.(procs := map[])
  {}

  lemma FullRead(s: State)
    requires s.rows == map[CALL := SCHEDULED] && 2 !in s.procs
    ensures Do(s, ReadMove(2, CALL, "move", 200, 0)) == s.(procs := s.procs[2 := MoveRead(CALL, "move", 200, 0, [JOB])])
  {
    assert PendingComponents(SCHEDULED, s.jobs) == [JOB];
  }

  lemma BothRead(s: State)
    requires s.rows == map[CALL := PENDING] && s.procs == map[]
    ensures Run(s, [StartPublish(3, CALL), ReadReconcile(4, CALL)]) ==
      s.(procs := map[3 := Publishing(CALL, 1, 100, Start), 4 := ReconcileRead(CALL, MOVE)])
  {
    Two(s, StartPublish(3, CALL), ReadReconcile(4, CALL));
    hide Run;
  }

  lemma LateReconcile(s: State)
    requires s.rows == map[CALL := PENDING.(status := Scheduled)] && s.procs == map[4 := ReconcileRead(CALL, MOVE)]
    requires JOB in s.jobs && s.jobs[JOB] == Job(100, Armed, false, false)
    ensures var t := Run(s, [ReconcileFence(4), ReconcileJob(4)]);
      t.rows == s.rows && JOB in t.jobs && t.jobs[JOB].instant == 200
  {
    hide Run, Do;
    Two(s, ReconcileFence(4), ReconcileJob(4));
    LateFence(s);
    LateJob(Do(s, ReconcileFence(4)));
  }

  lemma LateFence(s: State)
    requires CALL in s.rows && s.procs == map[4 := ReconcileRead(CALL, MOVE)]
    ensures var t := Do(s, ReconcileFence(4));
      t == s.(procs := map[4 := Reconciling(CALL, MOVE, 0)], hazard := t.hazard)
  {
    assert Free(s.procs, set c | c in MOVE.components);
  }

  lemma LateJob(s: State)
    requires 4 in s.procs && s.procs[4] == Reconciling(CALL, MOVE, 0)
    requires JOB in s.jobs && s.jobs[JOB] == Job(100, Armed, false, false)
    ensures var t := Do(s, ReconcileJob(4)); t.rows == s.rows && JOB in t.jobs && t.jobs[JOB].instant == 200
  {}

  // ----- recovery -----

  // After a crash at any point of a reschedule, the restart reconciliation finishes it: the
  // row is scheduled at the requested time with its jobs there, provided its jobs can still
  // be moved.
  lemma {:induction false} RecoveryFinishesTheMove(steps: seq<Step>, key: Key)
    requires var s := Run(INITIAL, steps);
      && s.procs == map[] && key in s.rows && key !in s.hazard && s.rows[key].status.Holding? && s.rows[key].Pending()
      && (forall c :: c in s.rows[key].change.value.components ==> c in s.jobs && s.jobs[c].Movable())
    ensures var s := Run(INITIAL, steps);
      var change := s.rows[key].change.value;
      var t := Run(s, [ReadReconcile(0, key), ReconcileFence(0)] + Repeat(ReconcileJob(0), |change.components|)
                   + [FinishReconcile(0)]);
      && key in t.rows && t.rows[key].status.Scheduled? && t.rows[key].runAt == change.target && !t.rows[key].Pending()
      && key !in t.hazard && Aligned(t.rows[key], t.jobs)
  {
    hide Do, Run, RowsOk, BudgetOk, ProcsOk, ExecsOk, FencesOk, RowSchedule, Aligned;
    Reachable(steps);
    var s := Run(INITIAL, steps);
    var change := s.rows[key].change.value;
    var begin, middle := [ReadReconcile(0, key), ReconcileFence(0)], Repeat(ReconcileJob(0), |change.components|);
    RecoveryBegins(s, key);
    ReconcileMoves(Run(s, begin), 0, |change.components|);
    RecoveryEnds(Run(Run(s, begin), middle), key, change);
    Splice(s, begin, middle);
    Splice(s, begin + middle, [FinishReconcile(0)]);
    var whole := begin + middle + [FinishReconcile(0)];
    Splice(INITIAL, steps, whole);
    ScheduleStaysAligned(steps + whole, key);
  }

  lemma RecoveryBegins(s: State, key: Key)
    requires s.procs == map[] && key in s.rows && s.rows[key].status.Holding? && s.rows[key].Pending()
    ensures Run(s, [ReadReconcile(0, key), ReconcileFence(0)]) ==
      s.(procs := map[0 := Reconciling(key, s.rows[key].change.value, 0)])
  {
    hide Run, Do;
    Two(s, ReadReconcile(0, key), ReconcileFence(0));
    RecoveryReads(s, key);
    RecoveryFences(Do(s, ReadReconcile(0, key)), key);
  }

  lemma RecoveryReads(s: State, key: Key)
    requires s.procs == map[] && key in s.rows && s.rows[key].status.Holding? && s.rows[key].Pending()
    ensures Do(s, ReadReconcile(0, key)) == s.(procs := map[0 := ReconcileRead(key, s.rows[key].change.value)])
  {}

  lemma RecoveryFences(s: State, key: Key)
    requires key in s.rows && s.rows[key].Pending() && s.procs == map[0 := ReconcileRead(key, s.rows[key].change.value)]
    ensures Do(s, ReconcileFence(0)) == s.(procs := map[0 := Reconciling(key, s.rows[key].change.value, 0)])
  {
    assert Free(s.procs, set c | c in s.rows[key].change.value.components);
  }

  lemma RecoveryEnds(s: State, key: Key, change: Change)
    requires s.procs == map[0 := Reconciling(key, change, |change.components|)] && key in s.rows
      && s.rows[key].status.Holding?
    ensures var t := Run(s, [FinishReconcile(0)]);
      && key in t.rows && t.rows[key] == ApplyMove(s.rows[key], change.target, change.components)
      && t.hazard == s.hazard
  {
    One(s, FinishReconcile(0));
    hide Run;
  }
}
