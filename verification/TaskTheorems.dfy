// What the phone task registry promises over every run of every gateway.
module TaskTheorems {
  import opened Wrappers
  import opened PhoneTasks
  import opened TaskRuns
  import opened TaskSteps

  // ----- Runs -----

  lemma {:induction false} RunKeeps(w: World, steps: seq<Step>)
    requires Inv(w)
    ensures Inv(Run(w, steps)) && Changes(w, Run(w, steps))
  {
    hide Inv, Do, Changes;
    if steps == [] {
      SameWorld(w);
    } else {
      var before := Run(w, steps[..|steps| - 1]);
      RunKeeps(w, steps[..|steps| - 1]);
      StepKeeps(before, steps[|steps| - 1]);
      ChangesOn(w, before, Run(w, steps));
    }
  }

  lemma ChangesOn(a: World, b: World, c: World)
    requires Changes(a, b) && Changes(b, c)
    ensures Changes(a, c)
  {
    hide TaskEvolves;
    forall t | t in a.tasks ensures t in c.tasks && TaskEvolves(a.tasks[t], c.tasks[t]) {
      EvolvesOn(a.tasks[t], b.tasks[t], c.tasks[t]);
    }
  }

  lemma EvolvesOn(a: Task, b: Task, c: Task)
    requires TaskEvolves(a, b) && TaskEvolves(b, c)
    ensures TaskEvolves(a, c)
  {}

  lemma EmptyOk(limit: nat, up: set<Owner>)
    ensures Inv(Empty(limit, up))
  {
    assert Holders(map[], map[], {}) == {};
  }

  // ----- Delivery -----

  // A result goes to the messaging gateway at most once, and only of a task that is over.
  lemma {:induction false} HandedOverOnce(limit: nat, up: set<Owner>, steps: seq<Step>)
    ensures var w := Run(Empty(limit, up), steps);
      && (forall i, j :: 0 <= i < j < |w.sent| ==> w.sent[i] != w.sent[j])
      && (forall i :: 0 <= i < |w.sent| ==> w.sent[i] in w.tasks && w.tasks[w.sent[i]].status.Closed())
  {
    hide Run, SlotsOk, NoLeak, ProposalsOk, SessionsOk, PostsOk, LocksOk, CopiesOk, GrantsOk, RunsOk;
    EmptyOk(limit, up);
    RunKeeps(Empty(limit, up), steps);
  }

  // Once claimed, a delivery never becomes pending again, whatever arrives late.
  lemma {:induction false} ClaimIsForever(w: World, steps: seq<Step>, t: TaskId)
    requires Inv(w) && t in w.claimed
    ensures var v := Run(w, steps);
      t in v.claimed && t in v.tasks && v.tasks[t].status.Closed() && !v.tasks[t].delivery.Pending?
  {
    hide Run, SlotsOk, NoLeak, ProposalsOk, SessionsOk, PostsOk, LocksOk, CopiesOk, GrantsOk, RunsOk;
    RunKeeps(w, steps);
  }

  // The set of final and stopping tasks is never left, and neither does such a task go on
  // after a hangup on a new permission.
  lemma {:induction false} ClosedForever(w: World, steps: seq<Step>, t: TaskId)
    requires Inv(w) && t in w.tasks && w.tasks[t].status.Closed()
    ensures var v := Run(w, steps);
      t in v.tasks && v.tasks[t].status.Closed() && (v.tasks[t].continued ==> w.tasks[t].continued)
  {
    hide Run, Inv;
    RunKeeps(w, steps);
  }

  // ----- Runs and their authority -----

  // No attempt of a task is posted twice, across any crashes and restarts.
  lemma AttemptPostedOnce(limit: nat, up: set<Owner>, steps: seq<Step>)
    ensures var posted := Run(Empty(limit, up), steps).posted;
      forall i, j :: 0 <= i < j < |posted| && posted[i].task == posted[j].task ==>
        posted[i].attempt != posted[j].attempt
  {
    hide Run, SlotsOk, NoLeak, ProposalsOk, SessionsOk, DeliveryOk, LocksOk, CopiesOk, GrantsOk, RunsOk;
    EmptyOk(limit, up);
    RunKeeps(Empty(limit, up), steps);
  }

  // At most one lease of a task is active, it is the one its row names, and all its leases end
  // at the time of the first.
  lemma {:induction false} OneLeaseEach(limit: nat, up: set<Owner>, steps: seq<Step>, a: BindingId, b: BindingId)
    requires var w := Run(Empty(limit, up), steps); a in w.granted && b in w.granted && w.granted[a] == w.granted[b]
    ensures var w := Run(Empty(limit, up), steps);
      && a in w.bindings && b in w.bindings && w.bindings[a].expires == w.bindings[b].expires
      && (w.bindings[a].active && w.bindings[b].active ==> a == b)
      && w.granted[a] in w.tasks && (w.bindings[a].active ==> w.tasks[w.granted[a]].binding == a)
  {
    hide Run, SlotsOk, NoLeak, ProposalsOk, SessionsOk, PostsOk, DeliveryOk, LocksOk, CopiesOk, RunsOk;
    EmptyOk(limit, up);
    RunKeeps(Empty(limit, up), steps);
  }

  // A correction starts a new attempt under the same deadline, the same lease time, the same
  // session and the same slot; the run that it replaces never has authority again.
  lemma {:induction false} SupersededForever(w: World, t: TaskId, child: BindingId, now: int, parentLive: bool,
                                             steps: seq<Step>, later: int, live: bool)
    requires Inv(w) && DoCorrect(w, t, child, now, parentLive) != w
    ensures t in w.tasks && w.tasks[t].run.Some?
    ensures var v := DoCorrect(w, t, child, now, parentLive);
      && v.tasks[t] == w.tasks[t].(run := None, binding := child, attempt := w.tasks[t].attempt + 1,
                                   status := Submitting)
      && v.bindings[child] == w.bindings[w.tasks[t].binding] && v.slots == w.slots
    ensures var v := Run(DoCorrect(w, t, child, now, parentLive), steps);
      !Authority(v.tasks, v.bindings, v.runs, w.tasks[t].run.value, later, live)
  {
    hide Run, SlotsOk, NoLeak, ProposalsOk, SessionsOk, PostsOk, DeliveryOk, LocksOk, CopiesOk;
    var v := DoCorrect(w, t, child, now, parentLive);
    CorrectKeeps(w, t, child, now, parentLive);
    LeaseEnds(v, w.tasks[t].run.value, steps);
  }

  // A run whose lease has ended stays without authority.
  lemma {:induction false} LeaseEnds(w: World, run: RunId, steps: seq<Step>)
    requires Inv(w) && run in w.runs && w.runs[run] in w.bindings && !w.bindings[w.runs[run]].active
    ensures var v := Run(w, steps); run in v.runs && v.runs[run] in v.bindings && !v.bindings[v.runs[run]].active
  {
    hide Run, Inv, TaskEvolves;
    RunKeeps(w, steps);
  }

  // A task that is stopping or over never lends its run authority again.
  lemma {:induction false} StoppedHasNoAuthority(w: World, steps: seq<Step>, t: TaskId, run: RunId, now: int,
                                                 live: bool)
    requires Inv(w) && t in w.tasks && w.tasks[t].run == Some(run)
    requires w.tasks[t].status in {Stopping, Completed, Failed, Cancelled, Interrupted, Uncertain}
    ensures var v := Run(w, steps); !Authority(v.tasks, v.bindings, v.runs, run, now, live)
  {
    hide Run, Inv;
    RunKeeps(w, steps);
  }

  // Whatever happens to a task that may continue: from its deadline on, no run of it has authority.
  lemma {:induction false} DeadlineEndsAuthority(w: World, steps: seq<Step>, t: TaskId, run: RunId, now: int,
                                                 live: bool)
    requires Inv(w) && t in w.tasks && w.tasks[t].continued && w.tasks[t].expiresAt.Some?
    requires w.tasks[t].expiresAt.value <= now
    requires var v := Run(w, steps); t in v.tasks && v.tasks[t].run == Some(run)
    ensures var v := Run(w, steps); !Authority(v.tasks, v.bindings, v.runs, run, now, live)
  {
    hide Run, Inv;
    RunKeeps(w, steps);
    var v := Run(w, steps);
    AuthorityExactly(v.tasks, v.bindings, v.runs, run, now, live);
  }

  // Without permission to go on, the end of the call ends the authority of every run of a task.
  lemma {:induction false} CallEndsAuthority(limit: nat, up: set<Owner>, steps: seq<Step>, t: TaskId, run: RunId,
                                             now: int)
    requires var w := Run(Empty(limit, up), steps);
      t in w.tasks && w.tasks[t].run == Some(run) && !w.tasks[t].continued
    ensures var w := Run(Empty(limit, up), steps); !Authority(w.tasks, w.bindings, w.runs, run, now, false)
  {
    hide Run;
    var w := Run(Empty(limit, up), steps);
    AuthorityExactly(w.tasks, w.bindings, w.runs, run, now, false);
  }

  // While a task may continue after a hangup, its deadline does not move.
  lemma {:induction false} DeadlineIsFixed(w: World, steps: seq<Step>, t: TaskId)
    requires Inv(w) && t in w.tasks && w.tasks[t].continued
    ensures var v := Run(w, steps);
      t in v.tasks && (v.tasks[t].continued ==> v.tasks[t].expiresAt == w.tasks[t].expiresAt)
  {
    hide Run, Inv;
    RunKeeps(w, steps);
  }

  // ----- Capacity and sessions -----

  // Over all gateways, every active task holds a slot and there are never more than the limit;
  // the exceptions are tasks whose slot was released before the end of their run was saved.
  lemma CapacityHolds(limit: nat, up: set<Owner>, steps: seq<Step>)
    ensures var w := Run(Empty(limit, up), steps);
      && BusyTasks(w.tasks, w.lost) <= w.slots.Keys
      && |BusyTasks(w.tasks, w.lost)| <= limit
      && |BusyTasks(w.tasks, {})| <= limit + |BusyTasks(w.tasks, {}) * w.lost|
  {
    hide Run, NoLeak, ProposalsOk, SessionsOk, PostsOk, DeliveryOk, LocksOk, CopiesOk, GrantsOk, RunsOk, BusyTasks;
    EmptyOk(limit, up);
    RunKeeps(Empty(limit, up), steps);
    var w := Run(Empty(limit, up), steps);
    Fewer(BusyTasks(w.tasks, w.lost), Holders(w.tasks, w.proposals, w.lost));
    LimitStays(limit, up, steps);
    BusySplit(w.tasks, w.lost);
  }

  lemma {:induction false} LimitStays(limit: nat, up: set<Owner>, steps: seq<Step>)
    ensures Run(Empty(limit, up), steps).limit == limit
  {
    hide Run, Inv, TaskEvolves;
    EmptyOk(limit, up);
    RunKeeps(Empty(limit, up), steps);
  }

  lemma BusySplit(tasks: map<TaskId, Task>, lost: set<TaskId>)
    ensures |BusyTasks(tasks, {})| == |BusyTasks(tasks, lost)| + |BusyTasks(tasks, {}) * lost|
  {
    assert BusyTasks(tasks, {}) == BusyTasks(tasks, lost) + BusyTasks(tasks, {}) * lost;
    assert BusyTasks(tasks, lost) !! BusyTasks(tasks, {}) * lost;
  }

  // An active task that has its slot loses it, and stays active, in exactly one way: a refresh of
  // its finished run stops between releasing the slot and saving the row. Then it is on record.
  ghost predicate Deprived(w: World, t: TaskId) {
    t in w.tasks && w.tasks[t].Busy() && t !in w.slots
  }

  lemma SlotLostExactly(w: World, step: Step, t: TaskId)
    requires Inv(w) && t in w.tasks && w.tasks[t].Busy() && t in w.slots
    ensures Deprived(Do(w, step), t) <==>
      step.Refresh? && step.task == t && step.cut == 2 && step.native.status.Terminal() && t in w.locks
    ensures Deprived(Do(w, step), t) ==> t in Do(w, step).lost
  {
    hide Inv, Deprived, DoSubmit, DoReserve, DoSave, DoPost, DoAdmit, DoLaunchFails, DoStop, DoContinue, DoLock,
      DoRefresh, DoCorrect, DoClaim, DoHandOver, DoCrash, DoRecover, DoStart, WithReceipt, RowsOf;
    SlotsAreOk(w);
    match step
    case Reserve(g) => ReserveSlots(w, g, t);
    case Save(g, ok) => SaveSlots(w, g, ok, t);
    case LaunchFails(r, cut) => LaunchSlots(w, r, cut, t);
    case Stop(u, cut) => StopSlots(w, u, cut, t);
    case Refresh(u, native, cut) => RefreshSlots(w, u, native, cut, t);
    case Start(g) => StartSlots(w, g, t);
    case _ => OtherSlots(w, step, t);
  }

  // No other step takes a slot away.
  lemma OtherSlots(w: World, step: Step, t: TaskId)
    requires t in w.slots
    requires !step.Reserve? && !step.Save? && !step.LaunchFails? && !step.Stop? && !step.Refresh? && !step.Start?
    ensures !Deprived(Do(w, step), t)
  {
    hide DoSubmit, DoPost, DoAdmit, DoContinue, DoLock, DoCorrect, DoClaim, DoHandOver, DoCrash, DoRecover,
      WithReceipt, RowsOf;
    SubmissionKeepsSlots(w, step);
    RunKeepsSlots(w, step);
    ClaimKeepsSlots(w, if step.Claim? then step.task else t);
    HandOverKeepsSlots(w, if step.HandOver? then step.task else t);
    RestartKeepsSlots(w, if step.Crash? then step.gateway else "", if step.Recover? then step.task else t);
  }

  lemma SlotsAreOk(w: World)
    requires Inv(w)
    ensures SlotsOk(w)
  {
    hide SlotsOk, NoLeak, ProposalsOk, SessionsOk, PostsOk, LocksOk, DeliveryOk, CopiesOk, GrantsOk, RunsOk;
  }

  lemma ReserveSlots(w: World, g: Owner, t: TaskId)
    requires t in w.slots
    ensures !Deprived(DoReserve(w, g), t)
  {
    hide Revoke;
  }

  lemma SaveSlots(w: World, g: Owner, ok: bool, t: TaskId)
    requires Inv(w) && t in w.slots && t in w.tasks
    ensures !Deprived(DoSave(w, g, ok), t)
  {
    hide Revoke, SlotsOk, NoLeak, SessionsOk, PostsOk, LocksOk, DeliveryOk, CopiesOk, GrantsOk, RunsOk;
  }

  lemma LaunchSlots(w: World, r: Request, cut: nat, t: TaskId)
    requires t in w.slots
    ensures !Deprived(DoLaunchFails(w, r, cut), t)
  {
    hide Revoke;
  }

  lemma StopSlots(w: World, u: TaskId, cut: nat, t: TaskId)
    requires t in w.slots
    ensures !Deprived(DoStop(w, u, cut), t)
  {
    hide Revoke;
  }

  lemma RefreshSlots(w: World, u: TaskId, native: Native, cut: nat, t: TaskId)
    requires SlotsOk(w) && t in w.tasks && w.tasks[t].Busy() && t in w.slots
    ensures Deprived(DoRefresh(w, u, native, cut), t) <==>
      u == t && cut == 2 && native.status.Terminal() && t in w.locks
    ensures Deprived(DoRefresh(w, u, native, cut), t) ==> t in DoRefresh(w, u, native, cut).lost
  {
    hide Revoke, Holders;
  }

  lemma StartSlots(w: World, g: Owner, t: TaskId)
    requires SlotsOk(w) && t in w.tasks && w.tasks[t].Busy() && t in w.slots
    ensures !Deprived(DoStart(w, g), t)
  {
    hide Holders;
  }

  lemma SubmissionKeepsSlots(w: World, step: Step)
    ensures step.Submit? ==>
      DoSubmit(w, step.gateway, step.key, step.conversation, step.session, step.child, step.grant, step.continued,
               step.until).slots == w.slots
    ensures step.Post? ==> DoPost(w, step.request).slots == w.slots
    ensures step.Admit? ==> DoAdmit(w, step.request, step.run, step.bound).slots == w.slots
  {
    hide SessionFree, RunFree, Admitted;
  }

  lemma RunKeepsSlots(w: World, step: Step)
    ensures step.Continue? ==> DoContinue(w, step.task, step.expiry).slots == w.slots
    ensures step.Lock? ==> DoLock(w, step.task).slots == w.slots
    ensures step.Correct? ==> DoCorrect(w, step.task, step.child, step.now, step.parentLive).slots == w.slots
  {
    hide Continued, Authority, HandedOver, Corrected;
  }

  lemma ClaimKeepsSlots(w: World, t: TaskId)
    ensures DoClaim(w, t).slots == w.slots
  {
    if t.owner in w.copies && t in w.copies[t.owner] && t in w.tasks {
      var copy := w.copies[t.owner][t];
      var seen := if copy.status.Terminal() then copy else w.tasks[t];
    }
  }

  lemma HandOverKeepsSlots(w: World, t: TaskId)
    ensures DoHandOver(w, t).slots == w.slots
  {
    if t in w.delivering && t in w.tasks {
      var done := w.(delivering := w.delivering - {t});
      assert done.slots == w.slots;
      assert w.tasks[t].delivery.Claimed? && w.tasks[t].ByCallOnly() ==>
          DoHandOver(w, t) == done.(tasks := w.tasks[t := w.tasks[t].(delivery := Suppressed)]);
    }
  }

  lemma RestartKeepsSlots(w: World, g: Owner, t: TaskId)
    ensures DoCrash(w, g).slots == w.slots
    ensures DoRecover(w, t).slots == w.slots
  {
    hide Revoke;
  }

  // No two active tasks share a native session.
  lemma {:induction false} SessionsApart(limit: nat, up: set<Owner>, steps: seq<Step>, t: TaskId, u: TaskId)
    requires var w := Run(Empty(limit, up), steps);
      t in w.tasks && u in w.tasks && t != u && w.tasks[t].Busy() && w.tasks[u].Busy()
    ensures Run(Empty(limit, up), steps).tasks[t].session != Run(Empty(limit, up), steps).tasks[u].session
  {
    hide Run, SlotsOk, NoLeak, ProposalsOk, PostsOk, DeliveryOk, LocksOk, CopiesOk, GrantsOk, RunsOk;
    EmptyOk(limit, up);
    RunKeeps(Empty(limit, up), steps);
  }

  // ----- The failing case -----

  // With a limit of one: the slot of a finished run is released, the gateway crashes before it
  // saves the end of the run, and another gateway takes the slot.
  const A := TaskId("a", "k")
  const B := TaskId("b", "k")
  const ROW_A := Submitted("c", "s1", "b1", false, None)
  const ROW_B := Submitted("c", "s2", "b2", false, None)
  const NATIVE_DONE := Native(Completed, false, true)

  const BOTH_UP := Empty(1, {"a", "b"})
  const PROPOSED_A := BOTH_UP.(proposals := map["a" := Proposal(A, ROW_A, false)],
                            bindings := map["b1" := Binding(true, 100)], home := map["s1" := Home("a", "c")])
  const SLOTTED_A := PROPOSED_A.(slots := map[A := "a"], proposals := map["a" := Proposal(A, ROW_A, true)])
  const LAUNCHING_A := SLOTTED_A.(proposals := map[], tasks := map[A := ROW_A], granted := map["b1" := A],
                              launches := {Request(A, 0, "b1")})
  const POSTED_A := LAUNCHING_A.(launches := {}, posted := [Request(A, 0, "b1")], waiting := {Request(A, 0, "b1")})
  const GOING_A := POSTED_A.(tasks := map[A := ROW_A.(run := Some("r"), status := Accepted)], runs := map["r" := "b1"])
  const REFRESHING_A := GOING_A.(locks := {A})
  const CUT_OFF := REFRESHING_A.(locks := {}, bindings := map["b1" := Binding(false, 100)], slots := map[], lost := {A})
  const PROPOSED_B := CUT_OFF.(proposals := map["b" := Proposal(B, ROW_B, false)],
                             bindings := CUT_OFF.bindings["b2" := Binding(true, 100)],
                             home := CUT_OFF.home["s2" := Home("b", "c")])
  const SLOTTED_B := PROPOSED_B.(slots := map[B := "b"], proposals := map["b" := Proposal(B, ROW_B, true)])
  const BOTH_BUSY := SLOTTED_B.(proposals := map[], tasks := SLOTTED_B.tasks[B := ROW_B],
                              granted := SLOTTED_B.granted["b2" := B], launches := {Request(B, 0, "b2")})

  lemma FirstIsSubmitted()
    ensures Do(BOTH_UP, Submit("a", "k", "c", "s1", "b1", 100, false, None)) == PROPOSED_A
    ensures Do(PROPOSED_A, Reserve("a")) == SLOTTED_A
  {
    assert PROPOSED_A.slots == map[] && |PROPOSED_A.slots| == 0;
  }

  lemma FirstIsSaved()
    ensures Do(SLOTTED_A, Save("a", true)) == LAUNCHING_A
    ensures Do(LAUNCHING_A, Post(Request(A, 0, "b1"))) == POSTED_A
  {
    assert SLOTTED_A.proposals - {"a"} == map[];
    assert SLOTTED_A.launches + {Request(A, 0, "b1")} == {Request(A, 0, "b1")};
    assert LAUNCHING_A.launches - {Request(A, 0, "b1")} == {};
    assert LAUNCHING_A.waiting + {Request(A, 0, "b1")} == {Request(A, 0, "b1")};
  }

  lemma FirstIsAdmitted()
    ensures Do(POSTED_A, Admit(Request(A, 0, "b1"), "r", true)) == GOING_A
  {
    hide Admitted;
    AdmittedA();
    assert Request(A, 0, "b1") in POSTED_A.posted;
    assert RunFree(POSTED_A, Request(A, 0, "b1"), "r");
  }

  lemma AdmittedA()
    ensures Admitted(ROW_A, "r", "b1") == Ok(Admission(ROW_A.(run := Some("r"), status := Accepted), true))
  {}

  lemma FirstIsRefreshed()
    ensures Do(GOING_A, Lock(A)) == REFRESHING_A
  {
    assert GOING_A.locks + {A} == {A};
  }

  lemma FirstIsCutOff()
    ensures Do(REFRESHING_A, Refresh(A, NATIVE_DONE, 2)) == CUT_OFF
  {
    assert REFRESHING_A.locks - {A} == {};
    assert REFRESHING_A.slots - {A} == map[];
    assert REFRESHING_A.lost + {A} == {A};
  }

  lemma SecondIsSubmitted()
    ensures Do(CUT_OFF, Submit("b", "k", "c", "s2", "b2", 100, false, None)) == PROPOSED_B
  {
    assert SessionFree(CUT_OFF, "b", "c", "s2");
  }

  lemma SecondGetsTheSlot()
    ensures Do(PROPOSED_B, Reserve("b")) == SLOTTED_B
  {
    hide Reserved, Revoke;
    FreeSlot();
    assert PROPOSED_B.proposals["b" := Proposal(B, ROW_B, true)] == map["b" := Proposal(B, ROW_B, true)];
  }

  lemma FreeSlot()
    ensures Reserved(PROPOSED_B.slots, B, "b", 1) == Some(map[B := "b"])
  {
    assert PROPOSED_B.slots == map[] && |PROPOSED_B.slots| == 0;
  }

  lemma SecondIsSaved()
    ensures Do(SLOTTED_B, Save("b", true)) == BOTH_BUSY
  {
    assert SLOTTED_B.proposals - {"b"} == map[];
    assert SLOTTED_B.launches + {Request(B, 0, "b2")} == {Request(B, 0, "b2")};
  }

  ghost predicate Reaches(a: World, b: World) {
    exists steps :: Run(a, steps) == b
  }

  lemma ReachesStep(a: World, b: World, step: Step)
    requires Reaches(a, b)
    ensures Reaches(a, Do(b, step))
  {
    hide Do;
    var steps :| Run(a, steps) == b;
    assert (steps + [step])[..|steps|] == steps;
    assert Run(a, steps + [step]) == Do(b, step);
  }

  lemma LimitCanBeExceeded()
    ensures Reaches(BOTH_UP, BOTH_BUSY)
    ensures BusyTasks(BOTH_BUSY.tasks, {}) == {A, B} && |{A, B}| == 2 && BOTH_BUSY.limit == 1
  {
    hide Do, Reaches, BusyTasks;
    FirstReaches();
    FirstIsRefreshed();
    FirstIsCutOff();
    SecondIsSubmitted();
    SecondGetsTheSlot();
    SecondIsSaved();
    ReachesStep(BOTH_UP, GOING_A, Lock(A));
    ReachesStep(BOTH_UP, REFRESHING_A, Refresh(A, NATIVE_DONE, 2));
    ReachesStep(BOTH_UP, CUT_OFF, Submit("b", "k", "c", "s2", "b2", 100, false, None));
    ReachesStep(BOTH_UP, PROPOSED_B, Reserve("b"));
    ReachesStep(BOTH_UP, SLOTTED_B, Save("b", true));
    TwoAreBusy();
  }

  lemma FirstReaches()
    ensures Reaches(BOTH_UP, GOING_A)
  {
    hide Do, Reaches;
    StartReaches(BOTH_UP);
    FirstIsSubmitted();
    FirstIsSaved();
    FirstIsAdmitted();
    ReachesStep(BOTH_UP, BOTH_UP, Submit("a", "k", "c", "s1", "b1", 100, false, None));
    ReachesStep(BOTH_UP, PROPOSED_A, Reserve("a"));
    ReachesStep(BOTH_UP, SLOTTED_A, Save("a", true));
    ReachesStep(BOTH_UP, LAUNCHING_A, Post(Request(A, 0, "b1")));
    ReachesStep(BOTH_UP, POSTED_A, Admit(Request(A, 0, "b1"), "r", true));
  }

  lemma StartReaches(w: World)
    ensures Reaches(w, w)
  {
    assert Run(w, []) == w;
  }

  lemma TwoAreBusy()
    ensures BusyTasks(BOTH_BUSY.tasks, {}) == {A, B} && |{A, B}| == 2 && BOTH_BUSY.limit == 1
  {
    assert A != B;
    assert BOTH_BUSY.tasks == map[A := ROW_A.(run := Some("r"), status := Accepted), B := ROW_B];
  }
}
