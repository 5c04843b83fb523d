// One operation that is carried out twice: a reconciliation read the change of the row while it
// was pending, and acts only when the row is already waiting for another operation.
module OperationOverlap {
  import opened Wrappers
  import opened WorkflowRows
  import opened WorkflowOperations
  import opened OperationSteps
  import opened OperationTheorems
  import Hazards = WorkflowHazards
  import WorkflowSteps
  import Schedules = WorkflowSchedule
  import Frames = WorkflowFrames

  const CALL := Hazards.CALL
  const JOB := Hazards.JOB
  const SCHEDULED := Hazards.SCHEDULED
  const PENDING := Hazards.PENDING
  const FIRST := Request(CALL, 200, 0)
  const SECOND := Request(CALL, 300, 1)
  const AT100 := map[JOB := Schedules.Job(100, Schedules.Armed, false, false)]
  const AT200 := map[JOB := Schedules.Job(200, Schedules.Armed, false, false)]
  const MOVED := ApplyMove(PENDING, 200, [JOB])
  const WAITING := WorkflowSteps.HeldForMove(MOVED, "again", 300, [JOB])
  const MOVED_AGAIN := ApplyMove(WAITING, 200, [JOB])
  const OPEN: Table := map["move" := Operation(FIRST, None)]
  const SAVED: Table := map["move" := Operation(FIRST, Some(MOVED))]
  const BOTH: Table := SAVED["again" := Operation(SECOND, None)]
  const LATE := Reply("move", MOVED_AGAIN)

  function Base(row: Row, jobs: Schedules.Jobs, procs: Schedules.Procs, hazard: set<Key>): Schedules.State {
    Schedules.State(map[CALL := row], jobs, map[], procs, hazard, [])
  }

  function Mover(moved: nat): Schedules.Proc {
    Schedules.Moving(CALL, "move", 200, 0, [JOB], moved)
  }

  const COPY := Schedules.ReconcileRead(CALL, Hazards.MOVE)

  function Idle(z: set<Key>): Hub {
    QUIET.(base := Base(SCHEDULED, AT100, map[], z))
  }

  function Asked(z: set<Key>): Hub {
    Idle(z).(ops := OPEN, calls := map[2 := Announced("move", FIRST)])
  }

  function Reads(z: set<Key>): Hub {
    Asked(z).(base := Base(SCHEDULED, AT100, map[2 := Schedules.MoveRead(CALL, "move", 200, 0, [JOB])], z),
              calls := map[2 := Working("move", FIRST)])
  }

  function HoldsRow(z: set<Key>): Hub {
    Reads(z).(base := Base(PENDING, AT100, map[2 := Mover(0)], z), held := ["move"])
  }

  function Copied(z: set<Key>): Hub {
    HoldsRow(z).(base := Base(PENDING, AT100, map[2 := Mover(0), 4 := COPY], z))
  }

  function JobMoved(z: set<Key>): Hub {
    Copied(z).(base := Base(PENDING, AT200, map[2 := Mover(1), 4 := COPY], z))
  }

  function RowMoved(z: set<Key>): Hub {
    JobMoved(z).(base := Base(MOVED, AT200, map[4 := COPY], z), done := ["move"], produced := map["move" := MOVED],
                 calls := map[2 := Moved("move", FIRST, MOVED)])
  }

  function Answered(z: set<Key>): Hub {
    RowMoved(z).(ops := SAVED, calls := map[])
  }

  function AskedAgain(z: set<Key>): Hub {
    Answered(z).(ops := BOTH, calls := map[3 := Announced("again", SECOND)])
  }

  function ReadsAgain(z: set<Key>): Hub {
    var read := Schedules.MoveRead(CALL, "again", 300, 1, [JOB]);
    AskedAgain(z).(base := Base(MOVED, AT200, map[3 := read, 4 := COPY], z),
                   calls := map[3 := Working("again", SECOND)])
  }

  function HoldsAgain(z: set<Key>): Hub {
    var moving := Schedules.Moving(CALL, "again", 300, 1, [JOB], 0);
    ReadsAgain(z).(base := Base(WAITING, AT200, map[3 := moving, 4 := COPY], z), held := ["move", "again"])
  }

  function GivenUp(z: set<Key>): Hub {
    HoldsAgain(z).(base := Base(WAITING, AT200, map[4 := COPY], z))
  }

  function Fenced(z: set<Key>): Hub {
    GivenUp(z).(base := Base(WAITING, AT200, map[4 := Schedules.Reconciling(CALL, Hazards.MOVE, 0)], z + {CALL}))
  }

  function Settled(z: set<Key>): Hub {
    GivenUp(z).(base := Base(WAITING, AT200, map[4 := Schedules.Reconciling(CALL, Hazards.MOVE, 1)], z + {CALL}))
  }

  function Overtaken(z: set<Key>): Hub {
    Settled(z).(base := Base(MOVED_AGAIN, AT200, map[], z + {CALL}), done := ["move", "move"],
                produced := map["move" := MOVED_AGAIN], replies := {LATE}, overtaken := {"move"})
  }

  function Overwritten(z: set<Key>): Hub {
    Overtaken(z).(ops := BOTH["move" := Operation(FIRST, Some(MOVED_AGAIN))], replies := {})
  }

  // ----- The acts, one by one -----

  lemma Unfolds(s: Schedules.State, pid: nat)
    requires pid in s.procs
    ensures var p := s.procs[pid];
      && (p.Moving? ==> Schedules.Do(s, Schedules.Move(pid)) == Schedules.DoMove(s, pid, p))
      && (p.Moving? ==> Schedules.Do(s, Schedules.FinishMove(pid)) == Schedules.DoFinishMove(s, pid, p))
      && (p.ReconcileRead? ==> Schedules.Do(s, Schedules.ReconcileFence(pid)) == Schedules.DoReconcileFence(s, pid, p))
      && (p.Reconciling? ==>
            Schedules.Do(s, Schedules.FinishReconcile(pid)) == Schedules.DoFinishReconcile(s, pid, p))
      && Schedules.Do(s, Schedules.Abandon(pid)) == s.(procs := s.procs - {pid})
  {
    hide Schedules.DoMove, Schedules.DoFinishMove, Schedules.DoReconcileFence, Schedules.DoFinishReconcile;
  }

  lemma Follow(h: Hub, step: Schedules.Step)
    requires Plain(step)
    ensures Do(h, Schedule(step)) == h.(base := Schedules.Do(h.base, step))
  {
    hide Schedules.Do;
  }

  lemma HoldIsDone(h: Hub, pid: nat, now: int)
    requires pid in h.base.procs && h.base.procs[pid].MoveRead?
    requires var after := Schedules.Do(h.base, Schedules.HoldMove(pid, now));
      pid in after.procs && after.procs[pid].Moving?
    ensures Do(h, Schedule(Schedules.HoldMove(pid, now))) ==
      h.(base := Schedules.Do(h.base, Schedules.HoldMove(pid, now)), held := h.held + [h.base.procs[pid].op])
  {
    hide Schedules.Do;
  }

  lemma Components(row: Row, jobs: Schedules.Jobs)
    requires row.cronJob == Some(JOB) && row.notificationJob.None?
    ensures Schedules.PendingComponents(row, jobs) == [JOB]
  {}

  lemma ReadStep(s: Schedules.State, pid: nat, op: string, target: int, expected: nat)
    requires pid !in s.procs && CALL in s.rows
    ensures Schedules.Do(s, Schedules.ReadMove(pid, CALL, op, target, expected)) ==
      s.(procs := s.procs[pid := Schedules.MoveRead(CALL, op, target, expected,
                                                   Schedules.PendingComponents(s.rows[CALL], s.jobs))])
  {
    hide Schedules.PendingComponents;
  }

  lemma ToAsked(z: set<Key>)
    ensures Do(Idle(z), Ask(2, "move", FIRST)) == Asked(z)
  {
    hide Schedules.Do;
  }

  // An announced operation reads its row and the job that is linked to it.
  lemma ReadAct(h: Hub, pid: nat, op: string, request: Request, row: Row, jobs: Schedules.Jobs,
                procs: Schedules.Procs, z: set<Key>)
    requires h.base == Base(row, jobs, procs, z) && pid !in procs && request.key == CALL
    requires pid in h.calls && h.calls[pid] == Announced(op, request)
    requires row.cronJob == Some(JOB) && row.notificationJob.None?
    ensures var read := Schedules.MoveRead(CALL, op, request.target, request.expected, [JOB]);
      Do(h, Read(pid)) ==
      h.(base := Base(row, jobs, procs[pid := read], z), calls := h.calls[pid := Working(op, request)])
  {
    hide Schedules.Do, Schedules.PendingComponents;
    Components(row, jobs);
    ReadStep(h.base, pid, op, request.target, request.expected);
  }

  lemma ToReads(z: set<Key>)
    ensures Do(Asked(z), Read(2)) == Reads(z)
  {
    hide Do;
    ReadAct(Asked(z), 2, "move", FIRST, SCHEDULED, AT100, map[], z);
  }

  // Taking hold of the row, with its job where the row says.
  lemma HeldBase(row: Row, jobs: Schedules.Jobs, z: set<Key>, procs: Schedules.Procs, pid: nat, op: string, target: int,
                 expected: nat)
    requires row.cronJob == Some(JOB) && row.notificationJob.None? && row.status.Scheduled? && row.revision == expected
    requires 0 < target < row.deadline && jobs == map[JOB := Schedules.Job(row.runAt, Schedules.Armed, false, false)]
    requires pid in procs && procs[pid] == Schedules.MoveRead(CALL, op, target, expected, [JOB])
    requires Schedules.Free(procs, {JOB})
    ensures Schedules.Do(Base(row, jobs, procs, z), Schedules.HoldMove(pid, 0)) ==
      Base(WorkflowSteps.HeldForMove(row, op, target, [JOB]), jobs,
           procs[pid := Schedules.Moving(CALL, op, target, expected, [JOB], 0)], z)
  {
    hide Schedules.Do, Schedules.Free;
    var s := Base(row, jobs, procs, z);
    Hazards.HoldStep(s, pid);
    assert (set c | c in [JOB]) == {JOB};
    assert s.rows[CALL := WorkflowSteps.HeldForMove(row, op, target, [JOB])]
        == map[CALL := WorkflowSteps.HeldForMove(row, op, target, [JOB])];
  }

  // It takes hold of the row that it has read.
  lemma HoldAct(h: Hub, pid: nat, op: string, request: Request, row: Row, jobs: Schedules.Jobs,
                procs: Schedules.Procs, z: set<Key>)
    requires h.base == Base(row, jobs, procs, z)
    requires row.cronJob == Some(JOB) && row.notificationJob.None? && row.status.Scheduled?
      && row.revision == request.expected
    requires 0 < request.target < row.deadline
      && jobs == map[JOB := Schedules.Job(row.runAt, Schedules.Armed, false, false)]
    requires pid in procs && procs[pid] == Schedules.MoveRead(CALL, op, request.target, request.expected, [JOB])
    requires Schedules.Free(procs, {JOB})
    ensures var moving := Schedules.Moving(CALL, op, request.target, request.expected, [JOB], 0);
      Do(h, Schedule(Schedules.HoldMove(pid, 0))) ==
      h.(base := Base(WorkflowSteps.HeldForMove(row, op, request.target, [JOB]), jobs, procs[pid := moving], z),
         held := h.held + [op])
  {
    hide Schedules.Do, Do;
    HeldBase(row, jobs, z, procs, pid, op, request.target, request.expected);
    HoldIsDone(h, pid, 0);
  }

  lemma ToHoldsRow(z: set<Key>)
    ensures Do(Reads(z), Schedule(Schedules.HoldMove(2, 0))) == HoldsRow(z)
  {
    hide Schedules.Do, Do;
    var procs := Reads(z).base.procs;
    HoldAct(Reads(z), 2, "move", FIRST, SCHEDULED, AT100, procs, z);
    assert procs[2 := Mover(0)] == map[2 := Mover(0)];
    assert [] + ["move"] == ["move"];
  }

  lemma ToCopied(z: set<Key>)
    ensures Do(HoldsRow(z), Schedule(Schedules.ReadReconcile(4, CALL))) == Copied(z)
  {
    hide Do;
    Follow(HoldsRow(z), Schedules.ReadReconcile(4, CALL));
  }

  lemma ToJobMoved(z: set<Key>)
    ensures Do(Copied(z), Schedule(Schedules.Move(2))) == JobMoved(z)
  {
    hide Do, Schedules.Do;
    Follow(Copied(z), Schedules.Move(2));
    Unfolds(Copied(z).base, 2);
    assert AT100[JOB := AT100[JOB].(instant := 200)] == AT200;
    assert Copied(z).base.procs[2 := Mover(1)] == JobMoved(z).base.procs;
  }

  lemma ToRowMoved(z: set<Key>)
    ensures Do(JobMoved(z), Schedule(Schedules.FinishMove(2))) == RowMoved(z)
  {
    hide DoSchedule, Schedules.Do, ApplyMove;
    Unfolds(JobMoved(z).base, 2);
    MoveIsDone(JobMoved(z), Schedules.FinishMove(2));
    assert JobMoved(z).base.procs - {2} == map[4 := COPY];
    assert JobMoved(z).base.rows[CALL := MOVED] == map[CALL := MOVED];
    assert [] + ["move"] == ["move"];
  }

  lemma ToAnswered(z: set<Key>)
    ensures Do(RowMoved(z), Save(2)) == Answered(z)
  {
    assert RowMoved(z).calls - {2} == map[];
  }

  lemma ToAskedAgain(z: set<Key>)
    ensures Do(Answered(z), Ask(3, "again", SECOND)) == AskedAgain(z)
  {
    hide Schedules.Do, ApplyMove;
  }

  lemma ToReadsAgain(z: set<Key>)
    ensures Do(AskedAgain(z), Read(3)) == ReadsAgain(z)
  {
    hide Do, Base;
    assert MOVED.cronJob == Some(JOB) && MOVED.notificationJob.None?;
    ReadAct(AskedAgain(z), 3, "again", SECOND, MOVED, AT200, map[4 := COPY], z);
    var read := Schedules.MoveRead(CALL, "again", 300, 1, [JOB]);
    assert map[4 := COPY][3 := read] == map[3 := read, 4 := COPY];
  }

  lemma ToHoldsAgain(z: set<Key>)
    ensures Do(ReadsAgain(z), Schedule(Schedules.HoldMove(3, 0))) == HoldsAgain(z)
  {
    hide Do, Base, Schedules.Free;
    var procs := map[3 := Schedules.MoveRead(CALL, "again", 300, 1, [JOB]), 4 := COPY];
    NothingFenced();
    HoldAct(ReadsAgain(z), 3, "again", SECOND, MOVED, AT200, procs, z);
    var moving := Schedules.Moving(CALL, "again", 300, 1, [JOB], 0);
    assert procs[3 := moving] == map[3 := moving, 4 := COPY];
    assert ["move"] + ["again"] == ["move", "again"];
  }

  lemma NothingFenced()
    ensures Schedules.Free(map[3 := Schedules.MoveRead(CALL, "again", 300, 1, [JOB]), 4 := COPY], {JOB})
  {}

  lemma ToGivenUp(z: set<Key>)
    ensures Do(HoldsAgain(z), Schedule(Schedules.Abandon(3))) == GivenUp(z)
  {
    hide Do, Schedules.Do, ApplyMove;
    Follow(HoldsAgain(z), Schedules.Abandon(3));
    Unfolds(HoldsAgain(z).base, 3);
    assert HoldsAgain(z).base.procs - {3} == map[4 := COPY];
  }

  lemma ToFenced(z: set<Key>)
    ensures Do(GivenUp(z), Schedule(Schedules.ReconcileFence(4))) == Fenced(z)
  {
    hide Do, Schedules.Do, ApplyMove, Base;
    Follow(GivenUp(z), Schedules.ReconcileFence(4));
    FencesTheCopy(WAITING, z);
  }

  lemma FencesTheCopy(row: Row, z: set<Key>)
    requires row.change != Some(Hazards.MOVE)
    ensures Schedules.Do(Base(row, AT200, map[4 := COPY], z), Schedules.ReconcileFence(4)) ==
      Base(row, AT200, map[4 := Schedules.Reconciling(CALL, Hazards.MOVE, 0)], z + {CALL})
  {
    hide Schedules.Do;
    var s := Base(row, AT200, map[4 := COPY], z);
    Unfolds(s, 4);
    assert (set c | c in [JOB]) == {JOB};
    assert Schedules.Free(s.procs, {JOB});
  }

  lemma ToSettled(z: set<Key>)
    ensures Do(Fenced(z), Schedule(Schedules.ReconcileJob(4))) == Settled(z)
  {
    hide Do, Schedules.Do, ApplyMove;
    Follow(Fenced(z), Schedules.ReconcileJob(4));
    Hazards.ReconcileStep(Fenced(z).base, 4);
    assert AT200[JOB := AT200[JOB].(instant := 200)] == AT200;
  }

  lemma ToOvertaken(z: set<Key>)
    ensures Do(Settled(z), Schedule(Schedules.FinishReconcile(4))) == Overtaken(z)
  {
    hide DoSchedule, Schedules.Do, ApplyMove, Frames.Reconciles, ReconcileMove, Stale, Reconciled;
    FinishesTheCopy(WAITING, z + {CALL});
    CopyIsReady(z);
    ReconcileIsDone(Settled(z), Schedules.FinishReconcile(4));
    CopyIsStale(z);
    WrittenTwice(z);
  }

  lemma CopyIsStale(z: set<Key>)
    ensures Stale(Settled(z), 4)
  {
    assert WAITING.change.value.op == "again";
  }

  lemma WrittenTwice(z: set<Key>)
    ensures Overtaken(z) ==
      Reconciled(Settled(z), "move", MOVED_AGAIN, true, Base(MOVED_AGAIN, AT200, map[], z + {CALL}))
  {
    hide ApplyMove, Base;
    assert ["move"] + ["move"] == ["move", "move"];
    assert {} + {LATE} == {LATE};
  }

  lemma CopyIsReady(z: set<Key>)
    ensures Frames.Reconciles(Settled(z).base, Schedules.FinishReconcile(4))
  {}

  lemma FinishesTheCopy(row: Row, z: set<Key>)
    requires row.status.Holding?
    ensures
      var s := Base(row, AT200, map[4 := Schedules.Reconciling(CALL, Hazards.MOVE, 1)], z);
      Schedules.Do(s, Schedules.FinishReconcile(4)) == Base(ApplyMove(row, 200, [JOB]), AT200, map[], z)
  {
    hide Schedules.Do, ApplyMove;
    var s := Base(row, AT200, map[4 := Schedules.Reconciling(CALL, Hazards.MOVE, 1)], z);
    Unfolds(s, 4);
    assert s.procs - {4} == map[];
    assert s.rows[CALL := ApplyMove(row, 200, [JOB])] == map[CALL := ApplyMove(row, 200, [JOB])];
  }

  lemma ToOverwritten(z: set<Key>)
    ensures Do(Overtaken(z), Answer(LATE)) == Overwritten(z)
  {
    assert {LATE} - {LATE} == {};
  }

  // ----- The run -----

  function Before(): seq<Act> {
    [Ask(2, "move", FIRST), Read(2), Schedule(Schedules.HoldMove(2, 0)), Schedule(Schedules.ReadReconcile(4, CALL)),
     Schedule(Schedules.Move(2)), Schedule(Schedules.FinishMove(2)), Save(2)]
  }

  function After(): seq<Act> {
    [Ask(3, "again", SECOND), Read(3), Schedule(Schedules.HoldMove(3, 0)), Schedule(Schedules.Abandon(3)),
     Schedule(Schedules.ReconcileFence(4)), Schedule(Schedules.ReconcileJob(4)), Schedule(Schedules.FinishReconcile(4)),
     Answer(LATE)]
  }

  lemma {:induction false} Unrolled(h: Hub, acts: seq<Act>, hubs: seq<Hub>, n: nat)
    requires n <= |acts| && |hubs| == |acts| + 1 && hubs[0] == h
    requires forall i :: 0 <= i < |acts| ==> Do(hubs[i], acts[i]) == hubs[i + 1]
    ensures Run(h, acts[..n]) == hubs[n]
  {
    hide Do;
    if n > 0 {
      Unrolled(h, acts, hubs, n - 1);
      assert acts[..n][..n - 1] == acts[..n - 1];
    }
  }

  lemma ToTheResult(z: set<Key>)
    ensures Run(Idle(z), Before()) == Answered(z)
  {
    hide Do, Idle, Asked, Reads, HoldsRow, Copied, JobMoved, RowMoved, Answered;
    var hubs := [Idle(z), Asked(z), Reads(z), HoldsRow(z), Copied(z), JobMoved(z), RowMoved(z), Answered(z)];
    ToAsked(z);
    ToReads(z);
    ToHoldsRow(z);
    ToCopied(z);
    ToJobMoved(z);
    ToRowMoved(z);
    ToAnswered(z);
    Unrolled(Idle(z), Before(), hubs, 7);
    assert Before()[..7] == Before();
  }

  lemma ToTheOverwrite(z: set<Key>)
    ensures Run(Answered(z), After()) == Overwritten(z)
  {
    hide Do, Answered, AskedAgain, ReadsAgain, HoldsAgain, GivenUp, Fenced, Settled, Overtaken, Overwritten;
    var hubs := [Answered(z), AskedAgain(z), ReadsAgain(z), HoldsAgain(z), GivenUp(z), Fenced(z), Settled(z),
                 Overtaken(z), Overwritten(z)];
    ToAskedAgain(z);
    ToReadsAgain(z);
    ToHoldsAgain(z);
    ToGivenUp(z);
    ToFenced(z);
    ToSettled(z);
    ToOvertaken(z);
    ToOverwritten(z);
    Unrolled(Answered(z), After(), hubs, 8);
    assert After()[..8] == After();
  }

  // The request is made and published, before anyone reschedules it.
  lemma IdleIsReached() returns (z: set<Key>, acts: seq<Act>)
    ensures Run(QUIET, acts) == Idle(z)
  {
    hide Schedules.Do, Schedules.Run, Run, Idle;
    var steps := Hazards.FirstPublish() + Hazards.PublishSteps(1);
    Hazards.Requested();
    var a := Schedules.Run(Schedules.INITIAL, Hazards.FirstPublish());
    Hazards.Publishes(a, 1);
    Hazards.Splice(Schedules.INITIAL, Hazards.FirstPublish(), Hazards.PublishSteps(1));
    var s := Schedules.Run(Schedules.INITIAL, steps);
    z := s.hazard;
    assert s == Base(SCHEDULED, AT100, map[], z);
    Follows(QUIET, steps);
    acts := AsActs(steps);
    assert QUIET.(base := s) == Idle(z) by { IdleIs(z); }
  }

  lemma IdleIs(z: set<Key>)
    ensures Idle(z) == QUIET.(base := Base(SCHEDULED, AT100, map[], z))
  {}

  // The operation was carried out and its result saved; in the end its target has been written a
  // second time, its saved result is another row, which bears the change of the second
  // operation as applied, and that one was never carried out.
  lemma OvertakenOperation()
    ensures exists acts, more :: var a, b := Run(QUIET, acts), Run(Run(QUIET, acts), more);
      && "move" in a.ops && a.ops["move"].result.Some? && Fulfils("move", a.ops["move"].result.value, FIRST)
      && a.done == ["move"] && b.done == ["move", "move"]
      && "move" in b.ops && b.ops["move"].result.Some? && b.ops["move"].result != a.ops["move"].result
      && !Fulfils("move", b.ops["move"].result.value, FIRST)
      && "again" in b.ops && CALL in b.base.rows && b.base.rows[CALL].change.Some? && !b.base.rows[CALL].Pending()
      && b.base.rows[CALL].change.value.op == "again" && b.base.rows[CALL].runAt == 200
  {
    hide Run;
    var z, acts := IdleIsReached();
    ToTheResult(z);
    ToTheOverwrite(z);
    Splice(QUIET, acts, Before());
    var a := Run(QUIET, acts + Before());
    var b := Run(a, After());
    assert a == Answered(z) && b == Overwritten(z);
  }
}
