// Overlaps with later work do happen: runs of the schedule machine that end with a scheduled row
// whose linked job, or whose unclaimed reminder, stands elsewhere.
module WorkflowOverlaps {
  import opened Wrappers
  import opened CallingHours
  import opened WorkflowRows
  import opened WorkflowLifecycle
  import opened WorkflowBudget
  import opened WorkflowSchedule
  import opened WorkflowTheorems
  import Hazards = WorkflowHazards

  const CALL := OwnerRequest("r")
  const FIRST := CallJob(CALL, 1)
  const SECOND := CallJob(CALL, 2)
  const NOTICE := ReminderJob(CALL)
  const PLAN := Terms("+1", "p", "owner", 100, None, true, false, [1], None)
  const NO_REPLY := CallOutcome(NotConnected, NoAnswer, false, false, Some(100), {})

  // The row, through its first call and the retry at eight o'clock.
  const WANTED := Row(PLAN, CALL, 0, 100, 100 + WEEK, 0, Holding, [], None, None, 100, false, 0, false, None)
  const LINKED1 := WANTED.(cronJob := Some(FIRST), notificationJob := Some(NOTICE))
  const CALL1 := Attempt(1, FIRST, "e", Admitted, None, None, None, None, None)
  const CALLING1 := LINKED1.(status := Firing, revision := 1, attempts := [CALL1])
  const MISSED1 := CALLING1.(attempts := [CALL1.(outcome := Some(NO_REPLY))])
  const DECIDED1 := CALL1.(outcome := Some(NO_REPLY), decision := Some(Decision(Retry, DIncomplete, {}, true)),
      status := Decided)
  const RETRY1 := MISSED1.(attempts := [DECIDED1], revision := 2, runAt := 28800, status := Holding,
      automaticHours := true, used := 1)
  const AGAIN := RETRY1.(cronJob := Some(SECOND), status := Scheduled)
  const HELD1 := AGAIN.(status := Holding, revision := 3, change := Some(LATE_CHANGE))

  // A publisher that stalled after making its job, and what a second one is doing.
  function Beside(p: Proc): Procs {
    map[1 := STALLED, 2 := p]
  }

  // A publisher, beside a reconciliation that has read the row.
  function Both(p: Proc): Procs {
    map[6 := p, 7 := ReconcileRead(CALL, LATE_CHANGE)]
  }

  const LATE_CHANGE := Change("m", 28800, 28800, true, [SECOND, NOTICE])
  const STALLED := Publishing(CALL, 1, 100, Made)
  const CHARGED := [Entry(CALL, CALL, AutomaticRetry)]
  const LIVE := map["e" := Execution(FIRST, 100, true)]

  // The native jobs, in the order in which they are made, armed, fired and moved.
  const PAUSED1 := map[FIRST := Job(100, Paused, false, false)]
  const PAUSED2 := map[FIRST := Job(100, Paused, false, false), NOTICE := Job(100, Paused, false, false)]
  const HALF_ARMED := map[FIRST := Job(100, Armed, false, false), NOTICE := Job(100, Paused, false, false)]
  const ALL_ARMED := map[FIRST := Job(100, Armed, false, false), NOTICE := Job(100, Armed, false, false)]
  const RINGING := map[FIRST := Job(100, Armed, true, false), NOTICE := Job(100, Armed, false, false)]
  const RINGING2 := map[FIRST := Job(100, Armed, true, false), NOTICE := Job(100, Armed, false, false),
    SECOND := Job(28800, Paused, false, false)]
  const RINGING3 := map[FIRST := Job(100, Armed, true, false), NOTICE := Job(100, Armed, false, false),
    SECOND := Job(28800, Armed, false, false)]
  const MOVED := map[FIRST := Job(100, Armed, true, false), NOTICE := Job(28800, Armed, false, false),
    SECOND := Job(28800, Armed, false, false)]

  const ASKED := State(map[CALL := WANTED], map[], map[], map[], {}, [])
  const ONE_STARTS := State(map[CALL := WANTED], map[], map[], map[1 := Publishing(CALL, 1, 100, Start)], {}, [])
  const ONE_STALLS := State(map[CALL := WANTED], PAUSED1, map[], map[1 := STALLED], {}, [])
  const TWO_STARTS := State(map[CALL := WANTED], PAUSED1, map[], Beside(Publishing(CALL, 1, 100, Start)), {}, [])
  const TWO_MADE := State(map[CALL := WANTED], PAUSED1, map[], Beside(Publishing(CALL, 1, 100, Made)), {}, [])
  const TWO_LINKED := State(
    map[CALL := WANTED.(cronJob := Some(FIRST))], PAUSED1, map[],
    Beside(Publishing(CALL, 1, 100, Linked(100))), {}, [])
  const TWO_NOTICE := State(
    map[CALL := WANTED.(cronJob := Some(FIRST))], PAUSED2, map[],
    Beside(Publishing(CALL, 1, 100, Reminded(100))), {}, [])
  const TWO_READY := State(
    map[CALL := LINKED1], PAUSED2, map[],
    Beside(Publishing(CALL, 1, 100, Ready(Some(100)))), {}, [])
  const TWO_FENCES := State(
    map[CALL := LINKED1], PAUSED2, map[],
    Beside(Publishing(CALL, 1, 100, Arming(Some(100), 0))), {}, [])
  const TWO_ARMS := State(
    map[CALL := LINKED1], HALF_ARMED, map[],
    Beside(Publishing(CALL, 1, 100, Arming(Some(100), 1))), {}, [])
  const TWO_ARMED := State(
    map[CALL := LINKED1], ALL_ARMED, map[],
    Beside(Publishing(CALL, 1, 100, Arming(Some(100), 2))), {}, [])
  const DUE := State(map[CALL := LINKED1.(status := Scheduled)], ALL_ARMED, map[], map[1 := STALLED], {}, [])
  const FIRED := State(map[CALL := LINKED1.(status := Scheduled)], RINGING, LIVE, map[1 := STALLED], {}, [])
  const ADMITS := State(
    map[CALL := LINKED1.(status := Scheduled)], RINGING, LIVE,
    map[1 := STALLED, 5 := Admitting(CALL, FIRST, "e", 100)], {}, [])
  const CALLING := State(map[CALL := CALLING1], RINGING, LIVE, map[1 := STALLED], {}, [])
  const UNANSWERED := State(map[CALL := MISSED1], RINGING, LIVE, map[1 := STALLED], {}, [])
  const RETRYING := State(map[CALL := RETRY1], RINGING, LIVE, map[1 := STALLED], {}, CHARGED)
  const THREE_STARTS := State(
    map[CALL := RETRY1], RINGING, LIVE,
    map[1 := STALLED, 3 := Publishing(CALL, 2, 28800, Start)], {}, CHARGED)
  const THREE_MADE := State(
    map[CALL := RETRY1], RINGING2, LIVE,
    map[1 := STALLED, 3 := Publishing(CALL, 2, 28800, Made)], {}, CHARGED)
  const THREE_READY := State(
    map[CALL := RETRY1.(cronJob := Some(SECOND))], RINGING2, LIVE,
    map[1 := STALLED, 3 := Publishing(CALL, 2, 28800, Ready(None))], {}, CHARGED)
  const THREE_FENCES := State(
    map[CALL := RETRY1.(cronJob := Some(SECOND))], RINGING2, LIVE,
    map[1 := STALLED, 3 := Publishing(CALL, 2, 28800, Arming(None, 0))], {}, CHARGED)
  const THREE_ARMED := State(
    map[CALL := RETRY1.(cronJob := Some(SECOND))], RINGING3, LIVE,
    map[1 := STALLED, 3 := Publishing(CALL, 2, 28800, Arming(None, 1))], {}, CHARGED)
  const DUE_AGAIN := State(map[CALL := AGAIN], RINGING3, LIVE, map[1 := STALLED], {}, CHARGED)
  const RELINKED := State(
    map[CALL := AGAIN.(cronJob := Some(FIRST))], RINGING3, LIVE,
    map[1 := Publishing(CALL, 1, 100, Ready(None))], {CALL}, CHARGED)
  const MOVE_READS := State(
    map[CALL := AGAIN], RINGING3, LIVE,
    map[1 := STALLED, 4 := MoveRead(CALL, "m", 28800, 2, [SECOND, NOTICE])], {}, CHARGED)
  const MOVE_HOLDS := State(
    map[CALL := HELD1], RINGING3, LIVE,
    map[1 := STALLED, 4 := Moving(CALL, "m", 28800, 2, [SECOND, NOTICE], 0)], {}, CHARGED)
  const MOVES_ONE := State(
    map[CALL := HELD1], RINGING3, LIVE,
    map[1 := STALLED, 4 := Moving(CALL, "m", 28800, 2, [SECOND, NOTICE], 1)], {}, CHARGED)
  const MOVES_TWO := State(
    map[CALL := HELD1], MOVED, LIVE,
    map[1 := STALLED, 4 := Moving(CALL, "m", 28800, 2, [SECOND, NOTICE], 2)], {}, CHARGED)
  const CRASHED := State(map[CALL := HELD1], MOVED, LIVE, map[], {}, CHARGED)
  const SIX_STARTS := State(map[CALL := HELD1], MOVED, LIVE, map[6 := Publishing(CALL, 2, 28800, Start)], {}, CHARGED)
  const SIX_MADE := State(map[CALL := HELD1], MOVED, LIVE, map[6 := Publishing(CALL, 2, 28800, Made)], {}, CHARGED)
  const SIX_READY := State(
    map[CALL := HELD1], MOVED, LIVE,
    map[6 := Publishing(CALL, 2, 28800, Ready(None))], {}, CHARGED)
  const SIX_FENCES := State(
    map[CALL := HELD1], MOVED, LIVE,
    map[6 := Publishing(CALL, 2, 28800, Arming(None, 0))], {}, CHARGED)
  const SIX_ARMED := State(
    map[CALL := HELD1], MOVED, LIVE,
    map[6 := Publishing(CALL, 2, 28800, Arming(None, 1))], {}, CHARGED)
  const OVERWRITTEN := State(map[CALL := HELD1.(status := Scheduled)], MOVED, LIVE, map[], {CALL}, CHARGED)
  const INTERRUPTED := State(map[CALL := HELD1], RINGING3, LIVE, map[], {}, CHARGED)
  const AGAIN_STARTS := State(
    map[CALL := HELD1], RINGING3, LIVE,
    map[6 := Publishing(CALL, 2, 28800, Start)], {}, CHARGED)
  const BOTH_START := State(map[CALL := HELD1], RINGING3, LIVE, Both(Publishing(CALL, 2, 28800, Start)), {}, CHARGED)
  const BOTH_MADE := State(map[CALL := HELD1], RINGING3, LIVE, Both(Publishing(CALL, 2, 28800, Made)), {}, CHARGED)
  const BOTH_READY := State(
    map[CALL := HELD1], RINGING3, LIVE,
    Both(Publishing(CALL, 2, 28800, Ready(None))), {}, CHARGED)
  const BOTH_FENCE := State(
    map[CALL := HELD1], RINGING3, LIVE,
    Both(Publishing(CALL, 2, 28800, Arming(None, 0))), {}, CHARGED)
  const BOTH_ARMED := State(
    map[CALL := HELD1], RINGING3, LIVE,
    Both(Publishing(CALL, 2, 28800, Arming(None, 1))), {}, CHARGED)
  const BACK := State(
    map[CALL := HELD1.(status := Scheduled)], RINGING3, LIVE,
    map[7 := ReconcileRead(CALL, LATE_CHANGE)], {CALL}, CHARGED)
  const LATE_FENCES := State(
    map[CALL := HELD1.(status := Scheduled)], RINGING3, LIVE,
    map[7 := Reconciling(CALL, LATE_CHANGE, 0)], {CALL}, CHARGED)
  const LATE_ONE := State(
    map[CALL := HELD1.(status := Scheduled)], RINGING3, LIVE,
    map[7 := Reconciling(CALL, LATE_CHANGE, 1)], {CALL}, CHARGED)
  const LATE_TWO := State(
    map[CALL := HELD1.(status := Scheduled)], MOVED, LIVE,
    map[7 := Reconciling(CALL, LATE_CHANGE, 2)], {CALL}, CHARGED)
  const RECONCILED := State(map[CALL := HELD1.(status := Scheduled)], MOVED, LIVE, map[], {CALL}, CHARGED)

  lemma ToAsked()
    ensures Do(INITIAL, RowStep(TCreate("r", PLAN, 0), 0)) == ASKED
  {}

  lemma ToOneStarts()
    ensures Do(ASKED, StartPublish(1, CALL)) == ONE_STARTS
  {}

  lemma ToOneStalls()
    ensures Do(ONE_STARTS, CreateJob(1)) == ONE_STALLS
  {}

  lemma ToTwoStarts()
    ensures Do(ONE_STALLS, StartPublish(2, CALL)) == TWO_STARTS
  {}

  lemma ToTwoMade()
    ensures Do(TWO_STARTS, CreateJob(2)) == TWO_MADE
  {}

  lemma ToTwoLinked()
    ensures Do(TWO_MADE, Link(2)) == TWO_LINKED
  {}

  lemma ToTwoNotice()
    ensures Do(TWO_LINKED, CreateReminder(2)) == TWO_NOTICE
  {}

  lemma ToTwoReady()
    ensures Do(TWO_NOTICE, LinkNotice(2)) == TWO_READY
  {}

  lemma ToTwoFences()
    ensures Do(TWO_READY, PublishFence(2)) == TWO_FENCES
  {}

  lemma ToTwoArms()
    ensures Do(TWO_FENCES, Arm(2)) == TWO_ARMS
  {}

  lemma ToTwoArmed()
    ensures Do(TWO_ARMS, Arm(2)) == TWO_ARMED
  {}

  lemma ToDue()
    ensures Do(TWO_ARMED, Publish(2)) == DUE
  {
    assert TWO_ARMED.procs - {2} == map[1 := STALLED];
  }

  lemma ToFired()
    ensures Do(DUE, Fire("e", FIRST, 100)) == FIRED
  {
    assert Free(DUE.procs, {FIRST});
    assert ALL_ARMED[FIRST := Job(100, Armed, true, false)] == RINGING;
  }

  lemma ToAdmits()
    ensures Do(FIRED, ReadAdmit(5, CALL, "e", 100, true)) == ADMITS
  {
    assert FindExecution(LINKED1.attempts, "e") == 0;
  }

  lemma ToCalling()
    ensures Do(ADMITS, Admit(5, 100)) == CALLING
  {
    hide Claim;
    FirstClaim();
    assert ADMITS.procs - {5} == map[1 := STALLED];
  }

  lemma ToUnanswered()
    ensures Do(CALLING, RowStep(TOutcome(CALL, 1, NO_REPLY), 100)) == UNANSWERED
  {
    assert [CALL1][0 := CALL1.(outcome := Some(NO_REPLY))] == MISSED1.attempts;
  }

  lemma ToRetrying()
    ensures Do(UNANSWERED, RowStep(TRunDecision(CALL, 1, true), 100)) == RETRYING
  {
    hide RunDecision;
    RetryDecided();
  }

  lemma ToThreeStarts()
    ensures Do(RETRYING, StartPublish(3, CALL)) == THREE_STARTS
  {}

  lemma ToThreeMade()
    ensures Do(THREE_STARTS, CreateJob(3)) == THREE_MADE
  {
    assert THREE_STARTS.procs[3 := Publishing(CALL, 2, 28800, Made)] == THREE_MADE.procs;
  }

  lemma ToThreeReady()
    ensures Do(THREE_MADE, Link(3)) == THREE_READY
  {
    assert THREE_MADE.procs[3 := Publishing(CALL, 2, 28800, Ready(None))] == THREE_READY.procs;
  }

  lemma ToThreeFences()
    ensures Do(THREE_READY, PublishFence(3)) == THREE_FENCES
  {
    assert THREE_READY.procs[3 := Publishing(CALL, 2, 28800, Arming(None, 0))] == THREE_FENCES.procs;
  }

  lemma ToThreeArmed()
    ensures Do(THREE_FENCES, Arm(3)) == THREE_ARMED
  {
    assert THREE_FENCES.procs[3 := Publishing(CALL, 2, 28800, Arming(None, 1))] == THREE_ARMED.procs;
    assert RINGING2[SECOND := Job(28800, Armed, false, false)] == RINGING3;
  }

  lemma ToDueAgain()
    ensures Do(THREE_ARMED, Publish(3)) == DUE_AGAIN
  {
    hide Do, Free;
    Hazards.PublishStep(THREE_ARMED, 3, None);
    assert THREE_ARMED.procs - {3} == map[1 := STALLED];
  }

  lemma ToRelinked()
    ensures Do(DUE_AGAIN, Link(1)) == RELINKED
  {}

  lemma ToMoveReads()
    ensures Do(DUE_AGAIN, ReadMove(4, CALL, "m", 28800, 2)) == MOVE_READS
  {
    assert PendingComponents(AGAIN, RINGING3) == [SECOND, NOTICE];
  }

  lemma ToMoveHolds()
    ensures Do(MOVE_READS, HoldMove(4, 100)) == MOVE_HOLDS
  {
    hide HoldForMove, Settled;
    FencesAreFree();
    MoveIsHeld();
    assert MOVE_READS.procs[4 := Moving(CALL, "m", 28800, 2, [SECOND, NOTICE], 0)] == MOVE_HOLDS.procs;
  }

  lemma ToMovesOne()
    ensures Do(MOVE_HOLDS, Move(4)) == MOVES_ONE
  {
    assert MOVE_HOLDS.procs[4 := Moving(CALL, "m", 28800, 2, [SECOND, NOTICE], 1)] == MOVES_ONE.procs;
    assert RINGING3[SECOND := Job(28800, Armed, false, false)] == RINGING3;
  }

  lemma ToMovesTwo()
    ensures Do(MOVES_ONE, Move(4)) == MOVES_TWO
  {
    assert MOVES_ONE.procs[4 := Moving(CALL, "m", 28800, 2, [SECOND, NOTICE], 2)] == MOVES_TWO.procs;
    assert RINGING3[NOTICE := Job(28800, Armed, false, false)] == MOVED;
  }

  lemma ToCrashed()
    ensures Do(MOVES_TWO, Crash) == CRASHED
  {}

  lemma ToSixStarts()
    ensures Do(CRASHED, StartPublish(6, CALL)) == SIX_STARTS
  {}

  lemma ToSixMade()
    ensures Do(SIX_STARTS, CreateJob(6)) == SIX_MADE
  {}

  lemma ToSixReady()
    ensures Do(SIX_MADE, Link(6)) == SIX_READY
  {
    assert HELD1.(cronJob := Some(SECOND)) == HELD1;
  }

  lemma ToSixFences()
    ensures Do(SIX_READY, PublishFence(6)) == SIX_FENCES
  {}

  lemma ToSixArmed()
    ensures Do(SIX_FENCES, Arm(6)) == SIX_ARMED
  {
    assert MOVED[SECOND := Job(28800, Armed, false, false)] == MOVED;
  }

  lemma ToOverwritten()
    ensures Do(SIX_ARMED, Publish(6)) == OVERWRITTEN
  {
    assert SIX_ARMED.procs - {6} == map[];
  }

  lemma ToInterrupted()
    ensures Do(MOVE_HOLDS, Crash) == INTERRUPTED
  {}

  lemma ToAgainStarts()
    ensures Do(INTERRUPTED, StartPublish(6, CALL)) == AGAIN_STARTS
  {}

  lemma ToBothStart()
    ensures Do(AGAIN_STARTS, ReadReconcile(7, CALL)) == BOTH_START
  {}

  lemma ToBothMade()
    ensures Do(BOTH_START, CreateJob(6)) == BOTH_MADE
  {}

  lemma ToBothReady()
    ensures Do(BOTH_MADE, Link(6)) == BOTH_READY
  {
    assert HELD1.(cronJob := Some(SECOND)) == HELD1;
  }

  lemma ToBothFence()
    ensures Do(BOTH_READY, PublishFence(6)) == BOTH_FENCE
  {
    hide Do;
    Hazards.FenceStep(BOTH_READY, 6);
    BothFencesAreFree();
  }

  lemma BothFencesAreFree()
    ensures Free(BOTH_READY.procs, set c | c in Parts(CALL, 2, None))
  {}

  lemma ToBothArmed()
    ensures Do(BOTH_FENCE, Arm(6)) == BOTH_ARMED
  {
    assert RINGING3[SECOND := Job(28800, Armed, false, false)] == RINGING3;
  }

  lemma ToBack()
    ensures Do(BOTH_ARMED, Publish(6)) == BACK
  {
    hide Do, Free, With;
    Hazards.PublishStep(BOTH_ARMED, 6, None);
    BackInPlace();
    assert BOTH_ARMED.procs - {6} == map[7 := ReconcileRead(CALL, LATE_CHANGE)];
  }

  lemma BackInPlace()
    ensures With(BOTH_ARMED, TPublished(CALL), 0) == BOTH_ARMED.(rows := BACK.rows)
  {}

  lemma ToLateFences()
    ensures Do(BACK, ReconcileFence(7)) == LATE_FENCES
  {
    LateFencesAreFree();
  }

  lemma ToLateOne()
    ensures Do(LATE_FENCES, ReconcileJob(7)) == LATE_ONE
  {
    hide Do;
    Hazards.ReconcileStep(LATE_FENCES, 7);
    assert RINGING3[SECOND := Job(28800, Armed, false, false)] == RINGING3;
  }

  lemma ToLateTwo()
    ensures Do(LATE_ONE, ReconcileJob(7)) == LATE_TWO
  {
    hide Do;
    Hazards.ReconcileStep(LATE_ONE, 7);
    assert RINGING3[NOTICE := Job(28800, Armed, false, false)] == MOVED;
  }

  lemma ToReconciled()
    ensures Do(LATE_TWO, FinishReconcile(7)) == RECONCILED
  {
    assert LATE_TWO.procs - {7} == map[];
  }

  lemma FirstPublisherStalls()
    requires Reached(INITIAL)
    ensures Reached(TWO_READY)
  {
    hide Do, Reached;
    ToAsked();
    ToOneStarts();
    ToOneStalls();
    ToTwoStarts();
    ToTwoMade();
    ToTwoLinked();
    ToTwoNotice();
    ToTwoReady();
    ReachedStep(INITIAL, RowStep(TCreate("r", PLAN, 0), 0));
    ReachedStep(ASKED, StartPublish(1, CALL));
    ReachedStep(ONE_STARTS, CreateJob(1));
    ReachedStep(ONE_STALLS, StartPublish(2, CALL));
    ReachedStep(TWO_STARTS, CreateJob(2));
    ReachedStep(TWO_MADE, Link(2));
    ReachedStep(TWO_LINKED, CreateReminder(2));
    ReachedStep(TWO_NOTICE, LinkNotice(2));
  }

  lemma FirstCallIsMissed()
    requires Reached(TWO_READY)
    ensures Reached(UNANSWERED)
  {
    hide Do, Reached;
    ToTwoFences();
    ToTwoArms();
    ToTwoArmed();
    ToDue();
    ToFired();
    ToAdmits();
    ToCalling();
    ToUnanswered();
    ReachedStep(TWO_READY, PublishFence(2));
    ReachedStep(TWO_FENCES, Arm(2));
    ReachedStep(TWO_ARMS, Arm(2));
    ReachedStep(TWO_ARMED, Publish(2));
    ReachedStep(DUE, Fire("e", FIRST, 100));
    ReachedStep(FIRED, ReadAdmit(5, CALL, "e", 100, true));
    ReachedStep(ADMITS, Admit(5, 100));
    ReachedStep(CALLING, RowStep(TOutcome(CALL, 1, NO_REPLY), 100));
  }

  lemma RetryIsScheduled()
    requires Reached(UNANSWERED)
    ensures Reached(DUE_AGAIN)
  {
    hide Do, Reached;
    ToRetrying();
    ToThreeStarts();
    ToThreeMade();
    ToThreeReady();
    ToThreeFences();
    ToThreeArmed();
    ToDueAgain();
    ReachedStep(UNANSWERED, RowStep(TRunDecision(CALL, 1, true), 100));
    ReachedStep(RETRYING, StartPublish(3, CALL));
    ReachedStep(THREE_STARTS, CreateJob(3));
    ReachedStep(THREE_MADE, Link(3));
    ReachedStep(THREE_READY, PublishFence(3));
    ReachedStep(THREE_FENCES, Arm(3));
    ReachedStep(THREE_ARMED, Publish(3));
  }

  lemma MoveIsHeldBack()
    requires Reached(DUE_AGAIN)
    ensures Reached(MOVE_HOLDS)
  {
    hide Do, Reached;
    ToMoveReads();
    ToMoveHolds();
    ReachedStep(DUE_AGAIN, ReadMove(4, CALL, "m", 28800, 2));
    ReachedStep(MOVE_READS, HoldMove(4, 100));
  }

  lemma MoveIsCutOff()
    requires Reached(MOVE_HOLDS)
    ensures Reached(CRASHED)
  {
    hide Do, Reached;
    ToMovesOne();
    ToMovesTwo();
    ToCrashed();
    ReachedStep(MOVE_HOLDS, Move(4));
    ReachedStep(MOVES_ONE, Move(4));
    ReachedStep(MOVES_TWO, Crash);
  }

  lemma PublishedBeforeReconciling()
    requires Reached(MOVE_HOLDS)
    ensures Reached(BACK)
  {
    hide Do, Reached;
    ToInterrupted();
    ToAgainStarts();
    ToBothStart();
    ToBothMade();
    ToBothReady();
    ToBothFence();
    ToBothArmed();
    ToBack();
    ReachedStep(MOVE_HOLDS, Crash);
    ReachedStep(INTERRUPTED, StartPublish(6, CALL));
    ReachedStep(AGAIN_STARTS, ReadReconcile(7, CALL));
    ReachedStep(BOTH_START, CreateJob(6));
    ReachedStep(BOTH_MADE, Link(6));
    ReachedStep(BOTH_READY, PublishFence(6));
    ReachedStep(BOTH_FENCE, Arm(6));
    ReachedStep(BOTH_ARMED, Publish(6));
  }

  lemma ReconciledTooLate()
    requires Reached(BACK)
    ensures Reached(RECONCILED)
  {
    hide Do, Reached;
    ToLateFences();
    ToLateOne();
    ToLateTwo();
    ToReconciled();
    ReachedStep(BACK, ReconcileFence(7));
    ReachedStep(LATE_FENCES, ReconcileJob(7));
    ReachedStep(LATE_ONE, ReconcileJob(7));
    ReachedStep(LATE_TWO, FinishReconcile(7));
  }

  lemma PublishedAgain()
    requires Reached(CRASHED)
    ensures Reached(OVERWRITTEN)
  {
    hide Do, Reached;
    ToSixStarts();
    ToSixMade();
    ToSixReady();
    ToSixFences();
    ToSixArmed();
    ToOverwritten();
    ReachedStep(CRASHED, StartPublish(6, CALL));
    ReachedStep(SIX_STARTS, CreateJob(6));
    ReachedStep(SIX_MADE, Link(6));
    ReachedStep(SIX_READY, PublishFence(6));
    ReachedStep(SIX_FENCES, Arm(6));
    ReachedStep(SIX_ARMED, Publish(6));
  }

  lemma FirstClaim()
    ensures Claim(ADMITS.rows, CALL, FIRST, "e", 100, 100) == Ok(Claimed(map[CALL := CALLING1], 1, true))
  {
    assert FindExecution(LINKED1.attempts, "e") == 0;
    assert LINKED1.attempts + [CALL1] == [CALL1];
    assert ADMITS.rows[CALL := CALLING1] == map[CALL := CALLING1];
  }

  // The missed call is retried at the first callable instant, and the root is charged.
  lemma RetryDecided()
    ensures RunDecision(UNANSWERED.rows, CALL, 1, 100, true) == Ok(Verdict(map[CALL := RETRY1], AutomaticRetry))
  {
    hide NextAllowed, RetryAt, DelayedStart;
    AtEight();
    assert MISSED1.WithAttempt(1, DECIDED1).attempts == [DECIDED1];
    assert UNANSWERED.rows[CALL := RETRY1] == map[CALL := RETRY1];
  }

  lemma AtEight()
    ensures DelayedStart(NO_REPLY, 1, 100) == 160
    ensures RetryAt(RetryTiming(MISSED1, 100, false, false), Some(160)) == Ok(28800)
  {
    hide NextAllowed;
    EightOClock();
  }

  lemma EightOClock()
    ensures NextAllowed(160, 0) == 28800
  {}

  lemma MoveIsHeld()
    ensures HoldForMove(MOVE_READS.rows, CALL, "m", 28800, 2, [SECOND, NOTICE], 100) == Ok(map[CALL := HELD1])
    ensures Settled(AGAIN, RINGING3, [SECOND, NOTICE])
  {
    assert MOVE_READS.rows[CALL := HELD1] == map[CALL := HELD1];
  }

  lemma LateFencesAreFree()
    ensures Free(BACK.procs, set c | c in [SECOND, NOTICE])
  {}

  lemma FencesAreFree()
    ensures Free(MOVE_READS.procs, set c | c in [SECOND, NOTICE])
  {}

  ghost predicate Reached(s: State) {
    exists steps :: Run(INITIAL, steps) == s
  }

  lemma ReachedStep(s: State, step: Step)
    requires Reached(s)
    ensures Reached(Do(s, step))
  {
    hide Do;
    var steps :| Run(INITIAL, steps) == s;
    assert (steps + [step])[..|steps|] == steps;
    assert Run(INITIAL, steps + [step]) == Do(s, step);
  }

  lemma DueAgainIsReached()
    ensures Reached(DUE_AGAIN)
  {
    hide Reached;
    AtFirst();
    FirstPublisherStalls();
    FirstCallIsMissed();
    RetryIsScheduled();
  }

  lemma AtFirst()
    ensures Reached(INITIAL)
  {
    assert Run(INITIAL, []) == INITIAL;
  }

  // The stalled publisher links the job of the first attempt to the row of the second.
  lemma StaleLinkHappens()
    ensures Reached(RELINKED)
    ensures CALL in RELINKED.rows && !Aligned(RELINKED.rows[CALL], RELINKED.jobs)
  {
    hide Do, Reached;
    DueAgainIsReached();
    ToRelinked();
    ReachedStep(DUE_AGAIN, Link(1));
  }

  // A crash cuts off a move to the same call time after it has moved the reminder; a publisher
  // then arms the row with its old reminder time.
  lemma PublishOverMoveHappens()
    ensures Reached(OVERWRITTEN)
    ensures CALL in OVERWRITTEN.rows && !Aligned(OVERWRITTEN.rows[CALL], OVERWRITTEN.jobs)
  {
    hide Reached;
    DueAgainIsReached();
    MoveIsHeldBack();
    MoveIsCutOff();
    PublishedAgain();
  }

  // A reconciliation holds a copy of the row while a publisher schedules it again. It takes the
  // call job to where it stands, and the unclaimed reminder away.
  lemma LateReconcileMovesReminder()
    ensures Reached(BACK) && Aligned(BACK.rows[CALL], BACK.jobs) && LATE_CHANGE.target == BACK.rows[CALL].runAt
    ensures Reached(RECONCILED) && RECONCILED.rows == BACK.rows && !Aligned(RECONCILED.rows[CALL], RECONCILED.jobs)
  {
    hide Do, Reached;
    DueAgainIsReached();
    MoveIsHeldBack();
    PublishedBeforeReconciling();
    ReconciledTooLate();
  }
}
