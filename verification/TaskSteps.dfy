// Every step of the phone task machine keeps its invariant.
module TaskSteps {
  import opened Wrappers
  import opened PhoneTasks
  import opened TaskRuns

  // ----- One row changes -----

  lemma HoldersShrink(w: World, t: TaskId, task: Task, slots: Slots, lost: set<TaskId>)
    requires SlotsOk(w) && t in w.tasks && (task.Busy() ==> w.tasks[t].Busy())
    requires lost == w.lost || lost == w.lost + {t}
    requires slots == w.slots || (slots == Released(w.slots, t, t.owner) && (!task.Busy() || t in lost))
    requires forall g :: g in w.proposals ==> w.proposals[g].task != t
    ensures SlotsOk(w.(tasks := w.tasks[t := task], slots := slots, lost := lost))
  {
    var before, after := Holders(w.tasks, w.proposals, w.lost), Holders(w.tasks[t := task], w.proposals, lost);
    assert after <= before;
    Fewer(after, before);
  }

  lemma Fewer(a: set<TaskId>, b: set<TaskId>)
    requires a <= b
    ensures |a| <= |b|
  {
    assert b == a + (b - a);
  }

  lemma SessionsStep(tasks: map<TaskId, Task>, proposals: map<Owner, Proposal>, home: map<Session, Home>, t: TaskId,
                     task: Task)
    requires SessionsOk(tasks, proposals, home) && t in tasks && TaskEvolves(tasks[t], task)
    ensures SessionsOk(tasks[t := task], proposals, home)
  {}

  lemma PostsStep(launches: set<Request>, posted: seq<Request>, tasks: map<TaskId, Task>, t: TaskId, task: Task)
    requires PostsOk(launches, posted, tasks) && t in tasks && TaskEvolves(tasks[t], task)
    ensures PostsOk(launches, posted, tasks[t := task])
  {}

  lemma LocksStep(locks: set<TaskId>, up: set<Owner>, tasks: map<TaskId, Task>, t: TaskId, task: Task,
                  fewer: set<TaskId>)
    requires LocksOk(locks, up, tasks) && t in tasks && fewer <= locks
    requires t in fewer ==> task.run.Some? && !task.status.Terminal()
    ensures LocksOk(fewer, up, tasks[t := task])
  {}

  lemma DeliveryStep(w: World, t: TaskId, task: Task)
    requires DeliveryOk(w.tasks, w.claimed, w.delivering, w.sent) && t in w.tasks && TaskEvolves(w.tasks[t], task)
    requires t in w.claimed ==> !task.delivery.Pending?
    ensures DeliveryOk(w.tasks[t := task], w.claimed, w.delivering, w.sent)
  {}

  lemma CopiesStep(copies: map<Owner, map<TaskId, Task>>, tasks: map<TaskId, Task>, claimed: set<TaskId>, t: TaskId,
                   task: Task)
    requires CopiesOk(copies, tasks, claimed) && t in tasks && TaskEvolves(tasks[t], task)
    ensures CopiesOk(copies, tasks[t := task], claimed)
  {}

  lemma GrantsStep(granted: map<BindingId, TaskId>, bindings: map<BindingId, Binding>, tasks: map<TaskId, Task>,
                   t: TaskId, task: Task, fewer: map<BindingId, Binding>)
    requires GrantsOk(granted, bindings, tasks) && t in tasks && task.binding == tasks[t].binding
    requires fewer == bindings || fewer == Revoke(bindings, task.binding)
    ensures GrantsOk(granted, fewer, tasks[t := task])
  {}

  lemma RunsStep(runs: map<RunId, BindingId>, granted: map<BindingId, TaskId>, tasks: map<TaskId, Task>, t: TaskId,
                 task: Task)
    requires RunsOk(runs, granted, tasks) && t in tasks && task.binding == tasks[t].binding
    requires task.run.Some? && task.run.value in runs ==> runs[task.run.value] == task.binding
    ensures RunsOk(runs, granted, tasks[t := task])
  {}

  lemma ProposalsStep(w: World, t: TaskId, task: Task, fewer: map<BindingId, Binding>)
    requires ProposalsOk(w.proposals, w.up, w.tasks, w.bindings, w.granted) && t in w.tasks
    requires forall b :: b in w.bindings ==> b in fewer
    ensures ProposalsOk(w.proposals, w.up, w.tasks[t := task], fewer, w.granted)
    ensures forall g :: g in w.proposals ==> w.proposals[g].task != t
  {}

  lemma LeakStep(w: World, t: TaskId, task: Task, slots: Slots)
    requires NoLeak(w.slots, w.up, w.tasks, w.proposals) && t in w.tasks
    requires slots == w.slots || slots == Released(w.slots, t, t.owner)
    ensures NoLeak(slots, w.up, w.tasks[t := task], w.proposals)
  {}

  lemma ChangesStep(w: World, t: TaskId, task: Task, v: World)
    requires t in w.tasks && TaskEvolves(w.tasks[t], task)
    requires v == w.(tasks := w.tasks[t := task], slots := v.slots, bindings := v.bindings, locks := v.locks,
                     waiting := v.waiting, lost := v.lost, delivering := v.delivering)
    requires v.bindings == w.bindings || v.bindings == Revoke(w.bindings, task.binding)
    requires v.lost == w.lost || v.lost == w.lost + {t}
    ensures Changes(w, v)
  {
    forall u | u in w.tasks ensures TaskEvolves(w.tasks[u], v.tasks[u]) {}
  }

  // A row is rewritten; its lease may end, its slot may go when it is no longer needed.
  ghost predicate Rewritten(w: World, t: TaskId, task: Task, v: World) {
    && t in w.tasks && TaskEvolves(w.tasks[t], task) && task.binding == w.tasks[t].binding
    && v == w.(tasks := w.tasks[t := task], slots := v.slots, bindings := v.bindings, locks := v.locks,
               waiting := v.waiting, lost := v.lost)
    && (v.bindings == w.bindings || v.bindings == Revoke(w.bindings, task.binding))
    && (v.lost == w.lost || v.lost == w.lost + {t})
    && (v.slots == w.slots || (v.slots == Released(w.slots, t, t.owner) && (!task.Busy() || t in v.lost)))
    && v.locks <= w.locks && (t in v.locks ==> task.run.Some? && !task.status.Terminal())
    && (task.run.Some? && task.run.value in w.runs ==> w.runs[task.run.value] == task.binding)
    && (t in w.claimed ==> !task.delivery.Pending?)
  }

  lemma RowSlots(w: World, t: TaskId, task: Task, v: World)
    requires SlotsOk(w) && NoLeak(w.slots, w.up, w.tasks, w.proposals)
    requires ProposalsOk(w.proposals, w.up, w.tasks, w.bindings, w.granted)
    requires Rewritten(w, t, task, v)
    ensures SlotsOk(v) && NoLeak(v.slots, v.up, v.tasks, v.proposals)
    ensures ProposalsOk(v.proposals, v.up, v.tasks, v.bindings, v.granted)
  {
    hide SlotsOk, NoLeak, ProposalsOk, Released, TaskEvolves;
    ProposalsStep(w, t, task, v.bindings);
    StaysClosed(w.tasks[t], task);
    HoldersShrink(w, t, task, v.slots, v.lost);
    SlotsFrame(w.(tasks := w.tasks[t := task], slots := v.slots, lost := v.lost), v);
    LeakStep(w, t, task, v.slots);
  }

  lemma RowRest(w: World, t: TaskId, task: Task, v: World)
    requires SessionsOk(w.tasks, w.proposals, w.home) && PostsOk(w.launches, w.posted, w.tasks)
      && LocksOk(w.locks, w.up, w.tasks)
    requires DeliveryOk(w.tasks, w.claimed, w.delivering, w.sent) && CopiesOk(w.copies, w.tasks, w.claimed)
    requires GrantsOk(w.granted, w.bindings, w.tasks) && RunsOk(w.runs, w.granted, w.tasks)
    requires Rewritten(w, t, task, v)
    ensures SessionsOk(v.tasks, v.proposals, v.home) && PostsOk(v.launches, v.posted, v.tasks)
      && LocksOk(v.locks, v.up, v.tasks)
    ensures DeliveryOk(v.tasks, v.claimed, v.delivering, v.sent) && CopiesOk(v.copies, v.tasks, v.claimed)
    ensures GrantsOk(v.granted, v.bindings, v.tasks) && RunsOk(v.runs, v.granted, v.tasks)
    ensures Changes(w, v)
  {
    hide SessionsOk, PostsOk, LocksOk, DeliveryOk, CopiesOk, GrantsOk, RunsOk, Changes, Released, TaskEvolves, Revoke;
    SessionsStep(w.tasks, w.proposals, w.home, t, task);
    PostsStep(w.launches, w.posted, w.tasks, t, task);
    LocksStep(w.locks, w.up, w.tasks, t, task, v.locks);
    DeliveryStep(w, t, task);
    CopiesStep(w.copies, w.tasks, w.claimed, t, task);
    GrantsStep(w.granted, w.bindings, w.tasks, t, task, v.bindings);
    RunsStep(w.runs, w.granted, w.tasks, t, task);
    ChangesStep(w, t, task, v);
  }

  lemma RowStep(w: World, t: TaskId, task: Task, v: World)
    requires Inv(w) && Rewritten(w, t, task, v)
    ensures Inv(v) && Changes(w, v)
  {
    hide SlotsOk, NoLeak, ProposalsOk, SessionsOk, PostsOk, LocksOk, DeliveryOk, CopiesOk, GrantsOk, RunsOk, Changes,
      Rewritten;
    RowSlots(w, t, task, v);
    RowRest(w, t, task, v);
  }

  lemma StaysClosed(a: Task, b: Task)
    requires TaskEvolves(a, b)
    ensures b.Busy() ==> a.Busy()
  {}

  lemma SlotsFrame(a: World, b: World)
    requires SlotsOk(a) && b.tasks == a.tasks && b.proposals == a.proposals && b.lost == a.lost && b.slots == a.slots
      && b.limit == a.limit
    ensures SlotsOk(b)
  {}

  lemma SameWorld(w: World)
    ensures Changes(w, w)
  {}

  lemma StopKeeps(w: World, t: TaskId, cut: nat)
    requires Inv(w)
    ensures Inv(DoStop(w, t, cut)) && Changes(w, DoStop(w, t, cut))
  {
    hide SlotsOk, NoLeak, ProposalsOk, SessionsOk, PostsOk, DeliveryOk, CopiesOk, GrantsOk, Changes, Released, Revoke;
    var v := DoStop(w, t, cut);
    if t in w.tasks && t.owner in w.up && !w.tasks[t].status.Terminal() {
      RowStep(w, t, v.tasks[t], v);
    } else {
      SameWorld(w);
    }
  }

  // The row itself stays as it is.
  lemma RowStays(w: World, t: TaskId, v: World)
    requires Inv(w) && t in w.tasks
    requires v == w.(slots := v.slots, bindings := v.bindings, locks := v.locks, waiting := v.waiting, lost := v.lost)
    requires v.bindings == w.bindings || v.bindings == Revoke(w.bindings, w.tasks[t].binding)
    requires v.lost == w.lost || v.lost == w.lost + {t}
    requires v.slots == w.slots || (v.slots == Released(w.slots, t, t.owner) && t in v.lost)
    requires v.locks <= w.locks
    ensures Inv(v) && Changes(w, v)
  {
    hide SlotsOk, NoLeak, ProposalsOk, SessionsOk, PostsOk, CopiesOk, GrantsOk, Changes, Released, Revoke;
    assert w.tasks[t := w.tasks[t]] == w.tasks;
    RowStep(w, t, w.tasks[t], v);
  }

  lemma LaunchFailsKeeps(w: World, r: Request, cut: nat)
    requires Inv(w)
    ensures Inv(DoLaunchFails(w, r, cut)) && Changes(w, DoLaunchFails(w, r, cut))
  {
    hide Inv, Changes, DoLaunchFails;
    if r in w.waiting && r.task in w.tasks {
      if w.tasks[r.task].binding == r.binding && w.tasks[r.task].run.None? {
        LaunchFailsUnadmitted(w, r, cut);
      } else {
        LaunchFailsLate(w, r, cut);
      }
    } else {
      SameWorld(w);
      assert DoLaunchFails(w, r, cut) == w by { NoLaunch(w, r, cut); }
    }
  }

  lemma NoLaunch(w: World, r: Request, cut: nat)
    requires r !in w.waiting || r.task !in w.tasks
    ensures DoLaunchFails(w, r, cut) == w
  {}

  lemma LaunchFailsUnadmitted(w: World, r: Request, cut: nat)
    requires Inv(w) && r in w.waiting && r.task in w.tasks && w.tasks[r.task].binding == r.binding
      && w.tasks[r.task].run.None?
    ensures Inv(DoLaunchFails(w, r, cut)) && Changes(w, DoLaunchFails(w, r, cut))
  {
    hide Inv, Changes, Released, Revoke;
    AdmissionGivenUp(w, r.task, DoLaunchFails(w, r, cut));
  }

  lemma LaunchFailsLate(w: World, r: Request, cut: nat)
    requires Inv(w) && r in w.waiting && r.task in w.tasks
      && (w.tasks[r.task].binding != r.binding || w.tasks[r.task].run.Some?)
    ensures Inv(DoLaunchFails(w, r, cut)) && Changes(w, DoLaunchFails(w, r, cut))
  {
    hide Inv, Changes, Released, Revoke;
    RowStays(w, r.task, DoLaunchFails(w, r, cut));
  }

  lemma AdmissionGivenUp(w: World, t: TaskId, v: World)
    requires Inv(w) && t in w.tasks && w.tasks[t].run.None?
    requires v == w.(tasks := w.tasks[t := w.tasks[t].(status := Uncertain)], slots := v.slots, bindings := v.bindings,
                     waiting := v.waiting)
    requires v.bindings == w.bindings || v.bindings == Revoke(w.bindings, w.tasks[t].binding)
    requires v.slots == w.slots || v.slots == Released(w.slots, t, t.owner)
    ensures Inv(v) && Changes(w, v)
  {
    hide SlotsOk, NoLeak, ProposalsOk, SessionsOk, PostsOk, CopiesOk, GrantsOk, Changes, Released, Revoke;
    RowStep(w, t, v.tasks[t], v);
  }

  lemma ContinueKeeps(w: World, t: TaskId, expiry: int)
    requires Inv(w)
    ensures Inv(DoContinue(w, t, expiry)) && Changes(w, DoContinue(w, t, expiry))
  {
    hide SlotsOk, NoLeak, ProposalsOk, SessionsOk, PostsOk, CopiesOk, GrantsOk, Changes;
    if t in w.tasks && t.owner in w.up && Continued(w.tasks[t], expiry).Ok? {
      RowStep(w, t, DoContinue(w, t, expiry).tasks[t], DoContinue(w, t, expiry));
    } else {
      SameWorld(w);
    }
  }

  lemma ReceiveKeeps(w: World, t: TaskId, kept: seq<bool>, byCall: bool)
    requires Inv(w) && t in w.tasks && t.owner in w.up
    ensures var v := w.(tasks := w.tasks[t := WithReceipt(w.tasks[t], kept, byCall)]); Inv(v) && Changes(w, v)
  {
    hide SlotsOk, NoLeak, ProposalsOk, SessionsOk, PostsOk, CopiesOk, GrantsOk, Changes;
    RowStep(w, t, WithReceipt(w.tasks[t], kept, byCall),
            w.(tasks := w.tasks[t := WithReceipt(w.tasks[t], kept, byCall)]));
  }

  lemma RecoverKeeps(w: World, t: TaskId)
    requires Inv(w)
    ensures Inv(DoRecover(w, t)) && Changes(w, DoRecover(w, t))
  {
    hide SlotsOk, NoLeak, ProposalsOk, SessionsOk, PostsOk, CopiesOk, GrantsOk, Changes, Revoke;
    if t in w.tasks && t.owner !in w.up && !w.tasks[t].status.Terminal() && w.tasks[t].run.None? {
      RowStep(w, t, DoRecover(w, t).tasks[t], DoRecover(w, t));
    } else {
      SameWorld(w);
    }
  }

  lemma DeliveredKeeps(w: World, t: TaskId)
    requires Inv(w) && t in w.sent && t in w.tasks
    ensures var v := w.(tasks := w.tasks[t := w.tasks[t].(delivery := Sent)]); Inv(v) && Changes(w, v)
  {
    hide SlotsOk, NoLeak, ProposalsOk, SessionsOk, PostsOk, CopiesOk, GrantsOk, Changes;
    RowStep(w, t, w.tasks[t].(delivery := Sent), w.(tasks := w.tasks[t := w.tasks[t].(delivery := Sent)]));
  }

  // Nothing that is compared between two states has changed.
  lemma HistorySame(w: World, v: World)
    requires v.tasks == w.tasks && v.bindings == w.bindings && v.runs == w.runs && v.granted == w.granted
      && v.limit == w.limit
    requires w.lost <= v.lost && w.claimed <= v.claimed && w.posted <= v.posted && w.sent <= v.sent
    ensures Changes(w, v)
  {}

  lemma LocksChange(w: World, locks: set<TaskId>, waiting: set<Request>)
    requires Inv(w) && LocksOk(locks, w.up, w.tasks)
    ensures Inv(w.(locks := locks, waiting := waiting)) && Changes(w, w.(locks := locks, waiting := waiting))
  {
    hide SlotsOk, NoLeak, ProposalsOk, SessionsOk, PostsOk, LocksOk, DeliveryOk, CopiesOk, GrantsOk, RunsOk, Changes;
    SlotsFrame(w, w.(locks := locks, waiting := waiting));
    HistorySame(w, w.(locks := locks, waiting := waiting));
  }

  lemma LockKeeps(w: World, t: TaskId)
    requires Inv(w)
    ensures Inv(DoLock(w, t)) && Changes(w, DoLock(w, t))
  {
    hide Inv, Changes;
    MoreLocks(w, t);
    LocksChange(w, DoLock(w, t).locks, w.waiting);
    assert DoLock(w, t) == w.(locks := DoLock(w, t).locks, waiting := w.waiting);
  }

  lemma MoreLocks(w: World, t: TaskId)
    requires Inv(w)
    ensures LocksOk(DoLock(w, t).locks, w.up, w.tasks)
  {
    hide SlotsOk, NoLeak, ProposalsOk, SessionsOk, PostsOk, DeliveryOk, CopiesOk, GrantsOk, RunsOk;
  }

  lemma RefreshKeeps(w: World, t: TaskId, native: Native, cut: nat)
    requires Inv(w)
    ensures Inv(DoRefresh(w, t, native, cut)) && Changes(w, DoRefresh(w, t, native, cut))
  {
    hide Inv, Changes, Released, Revoke, Refreshed;
    var v := DoRefresh(w, t, native, cut);
    if t !in w.locks || t !in w.tasks {
      SameWorld(w);
    } else if native.status.Terminal() && cut < 3 {
      RowStays(w, t, v);
    } else {
      RefreshWrites(w, t, native, v);
    }
  }

  lemma RefreshWrites(w: World, t: TaskId, native: Native, v: World)
    requires Inv(w) && t in w.locks && t in w.tasks
    requires v == w.(tasks := w.tasks[t := Refreshed(w.tasks[t], native)], slots := v.slots, bindings := v.bindings,
                     locks := w.locks - {t})
    requires v.bindings == w.bindings || v.bindings == Revoke(w.bindings, w.tasks[t].binding)
    requires v.slots == w.slots || (v.slots == Released(w.slots, t, t.owner) && native.status.Terminal())
    ensures Inv(v) && Changes(w, v)
  {
    hide SlotsOk, NoLeak, ProposalsOk, SessionsOk, PostsOk, CopiesOk, GrantsOk, Changes, Released, Revoke;
    RowStep(w, t, v.tasks[t], v);
  }

  // ----- Admission -----

  lemma AdmitKeeps(w: World, r: Request, run: RunId, bound: bool)
    requires Inv(w)
    ensures Inv(DoAdmit(w, r, run, bound)) && Changes(w, DoAdmit(w, r, run, bound))
  {
    hide Inv, Changes, DoAdmit;
    if r in w.posted && r.task in w.tasks && r.task.owner in w.up && RunFree(w, r, run)
       && Admitted(w.tasks[r.task], run, r.binding).Ok? {
      AdmittedKeeps(w, r, run, bound);
    } else {
      SameWorld(w);
      NoAdmission(w, r, run, bound);
    }
  }

  lemma NoAdmission(w: World, r: Request, run: RunId, bound: bool)
    requires !(r in w.posted && r.task in w.tasks && r.task.owner in w.up && RunFree(w, r, run)
               && Admitted(w.tasks[r.task], run, r.binding).Ok?)
    ensures DoAdmit(w, r, run, bound) == w
  {}

  lemma AdmittedKeeps(w: World, r: Request, run: RunId, bound: bool)
    requires Inv(w) && r.task in w.tasks && r in w.posted && r.task.owner in w.up && RunFree(w, r, run)
    requires Admitted(w.tasks[r.task], run, r.binding).Ok?
    ensures Inv(DoAdmit(w, r, run, bound)) && Changes(w, DoAdmit(w, r, run, bound))
  {
    hide SlotsOk, NoLeak, ProposalsOk, SessionsOk, PostsOk, DeliveryOk, CopiesOk, GrantsOk, Changes, RunsOk;
    var a := Admitted(w.tasks[r.task], run, r.binding).value;
    var written := w.(tasks := w.tasks[r.task := a.task]);
    if r.task in w.claimed {
      ClaimedIsNotPending(w, r.task);
    }
    RowStep(w, r.task, a.task, written);
    if a.allowed && bound && run !in w.runs {
      BindRun(w, written, r.task, run, r.binding);
    }
  }

  lemma ClaimedIsNotPending(w: World, t: TaskId)
    requires DeliveryOk(w.tasks, w.claimed, w.delivering, w.sent) && t in w.claimed
    ensures t in w.tasks && !w.tasks[t].delivery.Pending? && w.tasks[t].status.Closed()
  {}

  // bind_run, in the same step: the run gets the binding of its task. The run is new.
  lemma BindRun(w: World, written: World, t: TaskId, run: RunId, binding: BindingId)
    requires Inv(written) && Changes(w, written) && run !in written.runs && written.runs == w.runs
    requires t in written.tasks && written.tasks[t].binding == binding
    requires forall u :: u in written.tasks && written.tasks[u].run == Some(run) ==> u == t
    ensures Inv(written.(runs := written.runs[run := binding]))
      && Changes(w, written.(runs := written.runs[run := binding]))
  {
    hide SlotsOk, NoLeak, ProposalsOk, SessionsOk, PostsOk, DeliveryOk, CopiesOk, LocksOk, GrantsOk, RunsOk, Changes;
    var v := written.(runs := written.runs[run := binding]);
    SlotsFrame(written, v);
    RunsGrow(written.runs, written.granted, written.bindings, written.tasks, t, run);
    ChangesRuns(w, written, v, run);
  }

  lemma RunsGrow(runs: map<RunId, BindingId>, granted: map<BindingId, TaskId>, bindings: map<BindingId, Binding>,
                 tasks: map<TaskId, Task>, t: TaskId, run: RunId)
    requires RunsOk(runs, granted, tasks) && GrantsOk(granted, bindings, tasks) && t in tasks && run !in runs
    requires forall u :: u in tasks && tasks[u].run == Some(run) ==> u == t
    ensures RunsOk(runs[run := tasks[t].binding], granted, tasks)
  {}

  lemma ChangesRuns(w: World, written: World, v: World, run: RunId)
    requires Changes(w, written) && run !in w.runs && written.runs == w.runs
    requires v == written.(runs := v.runs) && run in v.runs && v.runs == written.runs[run := v.runs[run]]
    ensures Changes(w, v)
  {}

  // ----- Submission -----

  lemma SubmitSessions(w: World, g: Owner, conversation: string, session: Session, p: Proposal)
    requires SessionsOk(w.tasks, w.proposals, w.home) && SessionFree(w, g, conversation, session)
    requires g !in w.proposals && p.row.session == session && p.row.conversation == conversation
    ensures SessionsOk(w.tasks, w.proposals[g := p], w.home[session := Home(g, conversation)])
  {
    forall t | t in w.tasks && w.tasks[t].Busy() ensures w.tasks[t].session != session {
      assert w.home[w.tasks[t].session] == Home(t.owner, w.tasks[t].conversation);
    }
  }

  lemma SubmitKeeps(w: World, g: Owner, key: string, conversation: string, session: Session, child: BindingId,
                    grant: int, continued: bool, until: Option<int>)
    requires Inv(w)
    ensures var v := DoSubmit(w, g, key, conversation, session, child, grant, continued, until); Inv(v) && Changes(w, v)
  {
    hide SlotsOk, NoLeak, ProposalsOk, SessionsOk, PostsOk, LocksOk, DeliveryOk, CopiesOk, GrantsOk, RunsOk, Changes,
      SessionFree;
    SameWorld(w);
    var v := DoSubmit(w, g, key, conversation, session, child, grant, continued, until);
    if g in w.up && g !in w.proposals && TaskId(g, key) !in w.tasks && child !in w.bindings
      && SessionFree(w, g, conversation, session) {
      var p := v.proposals[g];
      SubmitSessions(w, g, conversation, session, p);
      MoreProposals(w, g, p, Binding(true, grant), v);
      MoreBindings(w, child, Binding(true, grant), v);
    }
  }

  lemma MoreProposals(w: World, g: Owner, p: Proposal, lease: Binding, v: World)
    requires SlotsOk(w) && NoLeak(w.slots, w.up, w.tasks, w.proposals)
    requires ProposalsOk(w.proposals, w.up, w.tasks, w.bindings, w.granted) && GrantsOk(w.granted, w.bindings, w.tasks)
    requires g in w.up && g !in w.proposals && !p.reserved && p.task.owner == g && p.task !in w.tasks
      && p.row.binding !in w.bindings
    requires p.row.status == Submitting && p.row.run.None? && p.row.attempt == 0
    requires v.tasks == w.tasks && v.proposals == w.proposals[g := p] && v.lost == w.lost && v.slots == w.slots
      && v.limit == w.limit
    ensures SlotsOk(v)
    ensures NoLeak(w.slots, w.up, w.tasks, w.proposals[g := p])
    ensures ProposalsOk(w.proposals[g := p], w.up, w.tasks, w.bindings[p.row.binding := lease], w.granted)
  {
    hide SlotsOk, NoLeak, ProposalsOk, GrantsOk;
    UnreservedHolds(w, g, p, v);
    UnreservedLeaks(w, g, p);
    NewProposal(w, g, p, lease);
  }

  lemma UnreservedHolds(w: World, g: Owner, p: Proposal, v: World)
    requires SlotsOk(w) && g !in w.proposals && !p.reserved
    requires v.tasks == w.tasks && v.proposals == w.proposals[g := p] && v.lost == w.lost && v.slots == w.slots
      && v.limit == w.limit
    ensures SlotsOk(v)
  {
    hide Reservations, BusyTasks;
    ReservationsGrow(w.proposals, g, p);
  }

  lemma ReservationsGrow(proposals: map<Owner, Proposal>, g: Owner, p: Proposal)
    requires g !in proposals || (proposals[g].task == p.task && !proposals[g].reserved)
    ensures Reservations(proposals[g := p]) == Reservations(proposals) + if p.reserved then {p.task} else {}
  {
    var more := proposals[g := p];
    assert p.reserved ==> more[g].task in Reservations(more);
    forall h | h in proposals && proposals[h].reserved ensures proposals[h].task in Reservations(more) {
      assert more[h] == proposals[h];
    }
  }

  lemma ReservationsShrink(proposals: map<Owner, Proposal>, g: Owner)
    requires g in proposals && forall h :: h in proposals && proposals[h].task == proposals[g].task ==> h == g
    ensures Reservations(proposals - {g}) == Reservations(proposals) - {proposals[g].task}
    ensures proposals[g].reserved ==> proposals[g].task in Reservations(proposals)
  {
    forall h | h in proposals && h != g && proposals[h].reserved
      ensures proposals[h].task in Reservations(proposals - {g}) {
      assert (proposals - {g})[h] == proposals[h];
    }
  }

  lemma UnreservedLeaks(w: World, g: Owner, p: Proposal)
    requires NoLeak(w.slots, w.up, w.tasks, w.proposals) && g !in w.proposals
    ensures NoLeak(w.slots, w.up, w.tasks, w.proposals[g := p])
  {}

  lemma NewProposal(w: World, g: Owner, p: Proposal, lease: Binding)
    requires ProposalsOk(w.proposals, w.up, w.tasks, w.bindings, w.granted) && GrantsOk(w.granted, w.bindings, w.tasks)
    requires g in w.up && g !in w.proposals && p.task.owner == g && p.task !in w.tasks && p.row.binding !in w.bindings
    requires p.row.status == Submitting && p.row.run.None? && p.row.attempt == 0
    ensures ProposalsOk(w.proposals[g := p], w.up, w.tasks, w.bindings[p.row.binding := lease], w.granted)
  {}

  lemma MoreBindings(w: World, child: BindingId, lease: Binding, v: World)
    requires GrantsOk(w.granted, w.bindings, w.tasks) && child !in w.bindings
    requires v == w.(bindings := w.bindings[child := lease], proposals := v.proposals, home := v.home)
    ensures GrantsOk(v.granted, v.bindings, v.tasks) && Changes(w, v)
  {}

  // The proposal ends without a task; a slot that it had goes with it.
  lemma Withdrawn(w: World, g: Owner, v: World)
    requires Inv(w) && g in w.proposals
    requires v == w.(proposals := w.proposals - {g}, bindings := v.bindings, slots := v.slots)
    requires v.bindings == w.bindings || v.bindings == Revoke(w.bindings, w.proposals[g].row.binding)
    requires v.slots == (if w.proposals[g].reserved then Released(w.slots, w.proposals[g].task, g) else w.slots)
    ensures Inv(v) && Changes(w, v)
  {
    hide PostsOk, LocksOk, DeliveryOk, CopiesOk, RunsOk, SlotsOk, NoLeak, ProposalsOk, SessionsOk, GrantsOk, Changes;
    WithdrawnSlots(w, g, v);
    WithdrawnLease(w, g, v);
  }

  lemma WithdrawnSlots(w: World, g: Owner, v: World)
    requires SlotsOk(w) && NoLeak(w.slots, w.up, w.tasks, w.proposals)
      && ProposalsOk(w.proposals, w.up, w.tasks, w.bindings, w.granted)
    requires SessionsOk(w.tasks, w.proposals, w.home) && g in w.proposals
    requires v == w.(proposals := w.proposals - {g}, bindings := v.bindings, slots := v.slots)
    requires v.slots == (if w.proposals[g].reserved then Released(w.slots, w.proposals[g].task, g) else w.slots)
    ensures SlotsOk(v) && NoLeak(v.slots, v.up, v.tasks, v.proposals) && SessionsOk(v.tasks, v.proposals, v.home)
  {
    hide SlotsOk, NoLeak, SessionsOk, ProposalsOk, Released;
    WithdrawnHolds(w, g, v);
    WithdrawnLeaks(w, g, v);
    WithdrawnSessions(w.tasks, w.proposals, w.home, g);
  }

  lemma WithdrawnHolds(w: World, g: Owner, v: World)
    requires SlotsOk(w) && ProposalsOk(w.proposals, w.up, w.tasks, w.bindings, w.granted) && g in w.proposals
    requires v == w.(proposals := w.proposals - {g}, bindings := v.bindings, slots := v.slots)
    requires v.slots == (if w.proposals[g].reserved then Released(w.slots, w.proposals[g].task, g) else w.slots)
    ensures SlotsOk(v)
  {
    hide Reservations, ProposalsOk;
    OwnTask(w, g);
    ReservationsShrink(w.proposals, g);
    Fewer(Holders(v.tasks, v.proposals, v.lost), Holders(w.tasks, w.proposals, w.lost));
  }

  // Proposals of different gateways are different tasks, and none is saved yet.
  lemma OwnTask(w: World, g: Owner)
    requires ProposalsOk(w.proposals, w.up, w.tasks, w.bindings, w.granted) && g in w.proposals
    ensures w.proposals[g].task.owner == g && w.proposals[g].task !in w.tasks && g in w.up
    ensures forall h :: h in w.proposals && w.proposals[h].task == w.proposals[g].task ==> h == g
  {}

  lemma WithdrawnLeaks(w: World, g: Owner, v: World)
    requires SlotsOk(w) && NoLeak(w.slots, w.up, w.tasks, w.proposals) && g in w.proposals
    requires ProposalsOk(w.proposals, w.up, w.tasks, w.bindings, w.granted)
    requires v == w.(proposals := w.proposals - {g}, bindings := v.bindings, slots := v.slots)
    requires v.slots == (if w.proposals[g].reserved then Released(w.slots, w.proposals[g].task, g) else w.slots)
    ensures NoLeak(v.slots, v.up, v.tasks, v.proposals)
  {
    hide Holders;
    OwnTask(w, g);
  }

  lemma WithdrawnSessions(tasks: map<TaskId, Task>, proposals: map<Owner, Proposal>, home: map<Session, Home>, g: Owner)
    requires SessionsOk(tasks, proposals, home)
    ensures SessionsOk(tasks, proposals - {g}, home)
  {}

  lemma WithdrawnLease(w: World, g: Owner, v: World)
    requires ProposalsOk(w.proposals, w.up, w.tasks, w.bindings, w.granted) && GrantsOk(w.granted, w.bindings, w.tasks)
      && g in w.proposals
    requires v == w.(proposals := w.proposals - {g}, bindings := v.bindings, slots := v.slots)
    requires v.bindings == w.bindings || v.bindings == Revoke(w.bindings, w.proposals[g].row.binding)
    ensures ProposalsOk(v.proposals, v.up, v.tasks, v.bindings, v.granted) && GrantsOk(v.granted, v.bindings, v.tasks)
      && Changes(w, v)
  {}

  lemma ReserveKeeps(w: World, g: Owner)
    requires Inv(w)
    ensures Inv(DoReserve(w, g)) && Changes(w, DoReserve(w, g))
  {
    hide PostsOk, LocksOk, DeliveryOk, CopiesOk, RunsOk, SlotsOk, NoLeak, ProposalsOk, SessionsOk, GrantsOk, Changes,
      Revoke, Reserved;
    SameWorld(w);
    if g in w.proposals && !w.proposals[g].reserved {
      var v := DoReserve(w, g);
      if Reserved(w.slots, w.proposals[g].task, g, w.limit).None? {
        Withdrawn(w, g, v);
      } else {
        ReservedKeeps(w, g, v);
        SlotChanges(w, v);
      }
    }
  }

  lemma SlotChanges(w: World, v: World)
    requires v == w.(slots := v.slots, proposals := v.proposals)
    ensures Changes(w, v)
  {}

  ghost predicate ReservedAs(w: World, g: Owner, v: World) {
    && g in w.proposals && !w.proposals[g].reserved
    && var p := w.proposals[g]; var r := Reserved(w.slots, p.task, g, w.limit);
       r.Some? && v == w.(slots := r.value, proposals := w.proposals[g := p.(reserved := true)])
  }

  lemma ReservedKeeps(w: World, g: Owner, v: World)
    requires SlotsOk(w) && NoLeak(w.slots, w.up, w.tasks, w.proposals)
      && ProposalsOk(w.proposals, w.up, w.tasks, w.bindings, w.granted)
    requires SessionsOk(w.tasks, w.proposals, w.home) && ReservedAs(w, g, v)
    ensures SlotsOk(v) && NoLeak(v.slots, v.up, v.tasks, v.proposals)
      && ProposalsOk(v.proposals, v.up, v.tasks, v.bindings, v.granted)
    ensures SessionsOk(v.tasks, v.proposals, v.home)
  {
    hide SlotsOk, NoLeak, ProposalsOk, SessionsOk, Reserved;
    OwnTask(w, g);
    NotYetSlotted(w, g);
    ReservedHolds(w, g, v);
    ReservedLeaks(w, g, v);
    ReservedProposal(w, g);
    ReservedSession(w.tasks, w.proposals, w.home, g);
  }

  // No leaked slot is left for a task that is being submitted.
  lemma NotYetSlotted(w: World, g: Owner)
    requires NoLeak(w.slots, w.up, w.tasks, w.proposals) && g in w.proposals && !w.proposals[g].reserved
    requires w.proposals[g].task.owner == g && g in w.up && w.proposals[g].task !in w.tasks
    ensures w.proposals[g].task !in w.slots
  {}

  lemma ReservedHolds(w: World, g: Owner, v: World)
    requires SlotsOk(w) && g in w.proposals && ReservedAs(w, g, v) && w.proposals[g].task !in w.slots
      && w.proposals[g].task.owner == g
    ensures SlotsOk(v)
  {
    hide Reservations, BusyTasks, ReservedAs;
    ReservedChanges(w, g, v);
    OneMoreHolder(BusyTasks(w.tasks, w.lost), Reservations(w.proposals), w.proposals[g].task, g, w.slots, w.limit);
  }

  lemma ReservedChanges(w: World, g: Owner, v: World)
    requires g in w.proposals && ReservedAs(w, g, v) && w.proposals[g].task !in w.slots
    ensures v.slots == w.slots[w.proposals[g].task := g] && |w.slots| < w.limit
    ensures v.tasks == w.tasks && v.lost == w.lost && v.limit == w.limit
    ensures Reservations(v.proposals) == Reservations(w.proposals) + {w.proposals[g].task}
  {
    hide Reservations;
    ReservationsGrow(w.proposals, g, w.proposals[g].(reserved := true));
  }

  lemma OneMoreHolder(busy: set<TaskId>, reserved: set<TaskId>, t: TaskId, g: Owner, slots: Slots, limit: nat)
    requires busy + reserved <= slots.Keys && |slots| < limit && t !in slots
    ensures busy + (reserved + {t}) <= slots[t := g].Keys && |busy + (reserved + {t})| <= limit
  {
    Fewer(busy + reserved, slots.Keys);
    assert |slots.Keys| == |slots|;
    assert busy + (reserved + {t}) == (busy + reserved) + {t};
  }

  lemma ReservedLeaks(w: World, g: Owner, v: World)
    requires NoLeak(w.slots, w.up, w.tasks, w.proposals) && ReservedAs(w, g, v) && w.proposals[g].task.owner == g
    ensures NoLeak(v.slots, v.up, v.tasks, v.proposals)
  {}

  lemma ReservedProposal(w: World, g: Owner)
    requires ProposalsOk(w.proposals, w.up, w.tasks, w.bindings, w.granted) && g in w.proposals
    ensures ProposalsOk(w.proposals[g := w.proposals[g].(reserved := true)], w.up, w.tasks, w.bindings, w.granted)
  {}

  lemma ReservedSession(tasks: map<TaskId, Task>, proposals: map<Owner, Proposal>, home: map<Session, Home>, g: Owner)
    requires SessionsOk(tasks, proposals, home) && g in proposals
    ensures SessionsOk(tasks, proposals[g := proposals[g].(reserved := true)], home)
  {}

  lemma SaveKeeps(w: World, g: Owner, ok: bool)
    requires Inv(w)
    ensures Inv(DoSave(w, g, ok)) && Changes(w, DoSave(w, g, ok))
  {
    hide PostsOk, LocksOk, DeliveryOk, CopiesOk, RunsOk, SlotsOk, NoLeak, ProposalsOk, SessionsOk, GrantsOk, Changes,
      Revoke, Released;
    SameWorld(w);
    if g in w.proposals && w.proposals[g].reserved {
      var v := DoSave(w, g, ok);
      if ok {
        SavedSlots(w, g, v);
        SavedRest(w, g, v);
      } else {
        Withdrawn(w, g, v);
      }
    }
  }

  ghost predicate SavedAs(w: World, g: Owner, v: World) {
    && g in w.proposals && w.proposals[g].reserved
    && var p := w.proposals[g];
       v == w.(proposals := w.proposals - {g}, tasks := w.tasks[p.task := p.row],
               granted := w.granted[p.row.binding := p.task],
               launches := w.launches + {Request(p.task, 0, p.row.binding)})
  }

  lemma SavedSlots(w: World, g: Owner, v: World)
    requires SlotsOk(w) && NoLeak(w.slots, w.up, w.tasks, w.proposals)
      && ProposalsOk(w.proposals, w.up, w.tasks, w.bindings, w.granted)
    requires SessionsOk(w.tasks, w.proposals, w.home) && SavedAs(w, g, v)
    ensures SlotsOk(v) && NoLeak(v.slots, v.up, v.tasks, v.proposals)
      && ProposalsOk(v.proposals, v.up, v.tasks, v.bindings, v.granted)
    ensures SessionsOk(v.tasks, v.proposals, v.home)
  {
    hide SlotsOk, NoLeak, ProposalsOk, SessionsOk, SavedAs;
    WasProposed(w, g, v);
    OwnTask(w, g);
    SavedHolds(w, g, v);
    SavedLeaks(w, g, v);
    SavedProposals(w, g, v);
    SavedSessions(w, g, v);
  }

  lemma WasProposed(w: World, g: Owner, v: World)
    requires SavedAs(w, g, v)
    ensures g in w.proposals
  {}

  lemma SavedHolds(w: World, g: Owner, v: World)
    requires SlotsOk(w) && SavedAs(w, g, v)
    requires forall h :: h in w.proposals && w.proposals[h].task == w.proposals[g].task ==> h == g
    ensures SlotsOk(v)
  {
    hide Reservations;
    ReservationsShrink(w.proposals, g);
    var before, after := Holders(w.tasks, w.proposals, w.lost), Holders(v.tasks, v.proposals, v.lost);
    assert BusyTasks(v.tasks, v.lost) <= BusyTasks(w.tasks, w.lost) + {w.proposals[g].task};
    assert after <= before;
    Fewer(after, before);
  }

  lemma SavedLeaks(w: World, g: Owner, v: World)
    requires NoLeak(w.slots, w.up, w.tasks, w.proposals) && SavedAs(w, g, v) && w.proposals[g].task.owner == g
    ensures NoLeak(v.slots, v.up, v.tasks, v.proposals)
  {}

  lemma SavedProposals(w: World, g: Owner, v: World)
    requires ProposalsOk(w.proposals, w.up, w.tasks, w.bindings, w.granted) && SavedAs(w, g, v)
    ensures ProposalsOk(v.proposals, v.up, v.tasks, v.bindings, v.granted)
  {
    OwnTask(w, g);
  }

  lemma SavedSessions(w: World, g: Owner, v: World)
    requires SessionsOk(w.tasks, w.proposals, w.home) && SavedAs(w, g, v)
    requires w.proposals[g].task.owner == g && w.proposals[g].task !in w.tasks
    ensures SessionsOk(v.tasks, v.proposals, v.home)
  {}

  lemma SavedRest(w: World, g: Owner, v: World)
    requires ProposalsOk(w.proposals, w.up, w.tasks, w.bindings, w.granted) && SavedAs(w, g, v)
    requires PostsOk(w.launches, w.posted, w.tasks) && LocksOk(w.locks, w.up, w.tasks)
    requires DeliveryOk(w.tasks, w.claimed, w.delivering, w.sent) && CopiesOk(w.copies, w.tasks, w.claimed)
    requires GrantsOk(w.granted, w.bindings, w.tasks) && RunsOk(w.runs, w.granted, w.tasks)
    ensures PostsOk(v.launches, v.posted, v.tasks) && LocksOk(v.locks, v.up, v.tasks)
    ensures DeliveryOk(v.tasks, v.claimed, v.delivering, v.sent) && CopiesOk(v.copies, v.tasks, v.claimed)
    ensures GrantsOk(v.granted, v.bindings, v.tasks) && RunsOk(v.runs, v.granted, v.tasks)
    ensures Changes(w, v)
  {
    hide PostsOk, DeliveryOk, CopiesOk, GrantsOk, ProposalsOk, RunsOk, LocksOk, Changes;
    SavedPosts(w, g, v);
    SavedGrants(w, g, v);
    SavedRuns(w, g, v);
    SavedChanges(w, g, v);
  }

  lemma SavedRuns(w: World, g: Owner, v: World)
    requires SavedAs(w, g, v) && RunsOk(w.runs, w.granted, w.tasks) && LocksOk(w.locks, w.up, w.tasks)
    requires w.proposals[g].task !in w.tasks && w.proposals[g].row.binding !in w.granted && w.proposals[g].row.run.None?
    ensures RunsOk(v.runs, v.granted, v.tasks) && LocksOk(v.locks, v.up, v.tasks)
  {}

  lemma SavedChanges(w: World, g: Owner, v: World)
    requires SavedAs(w, g, v) && w.proposals[g].task !in w.tasks && w.proposals[g].row.binding !in w.granted
    ensures Changes(w, v)
  {}

  lemma SavedPosts(w: World, g: Owner, v: World)
    requires ProposalsOk(w.proposals, w.up, w.tasks, w.bindings, w.granted) && SavedAs(w, g, v)
    requires PostsOk(w.launches, w.posted, w.tasks)
    requires DeliveryOk(w.tasks, w.claimed, w.delivering, w.sent) && CopiesOk(w.copies, w.tasks, w.claimed)
    ensures PostsOk(v.launches, v.posted, v.tasks)
    ensures DeliveryOk(v.tasks, v.claimed, v.delivering, v.sent) && CopiesOk(v.copies, v.tasks, v.claimed)
  {}

  lemma SavedGrants(w: World, g: Owner, v: World)
    requires ProposalsOk(w.proposals, w.up, w.tasks, w.bindings, w.granted) && SavedAs(w, g, v)
    requires GrantsOk(w.granted, w.bindings, w.tasks)
    ensures GrantsOk(v.granted, v.bindings, v.tasks)
    ensures w.proposals[g].task !in w.tasks && w.proposals[g].row.binding !in w.granted && w.proposals[g].row.run.None?
  {}

  lemma PostKeeps(w: World, r: Request)
    requires Inv(w)
    ensures Inv(DoPost(w, r)) && Changes(w, DoPost(w, r))
  {
    hide SlotsOk, NoLeak, ProposalsOk, SessionsOk, LocksOk, DeliveryOk, CopiesOk, GrantsOk, RunsOk, PostsOk, Changes;
    SameWorld(w);
    if r in w.launches {
      SlotsFrame(w, DoPost(w, r));
      PostedOnce(w.launches, w.posted, w.tasks, r);
      HistorySame(w, DoPost(w, r));
    }
  }

  lemma PostedOnce(launches: set<Request>, posted: seq<Request>, tasks: map<TaskId, Task>, r: Request)
    requires PostsOk(launches, posted, tasks) && r in launches
    ensures PostsOk(launches - {r}, posted + [r], tasks)
  {}

  lemma UnlockKeeps(w: World, locks: set<TaskId>, waiting: set<Request>)
    requires Inv(w) && locks <= w.locks
    ensures Inv(w.(locks := locks, waiting := waiting)) && Changes(w, w.(locks := locks, waiting := waiting))
  {
    hide SlotsOk, NoLeak, ProposalsOk, SessionsOk, PostsOk, DeliveryOk, CopiesOk, GrantsOk, RunsOk, Changes;
    LocksChange(w, locks, waiting);
  }

  // ----- Corrections -----

  ghost predicate CorrectedAs(w: World, t: TaskId, child: BindingId, v: World) {
    && t in w.locks && t in w.tasks && child !in w.bindings && w.tasks[t].run.Some?
    && !w.tasks[t].status.Closed() && w.tasks[t].binding in w.bindings
    && v == w.(locks := w.locks - {t}, tasks := w.tasks[t := Corrected(w.tasks[t], child)],
               bindings := HandedOver(w.bindings, w.tasks[t].binding, child), granted := w.granted[child := t],
               launches := w.launches + {Request(t, w.tasks[t].attempt + 1, child)})
  }

  lemma CorrectKeeps(w: World, t: TaskId, child: BindingId, now: int, parentLive: bool)
    requires Inv(w)
    ensures Inv(DoCorrect(w, t, child, now, parentLive)) && Changes(w, DoCorrect(w, t, child, now, parentLive))
  {
    hide SlotsOk, NoLeak, ProposalsOk, SessionsOk, PostsOk, LocksOk, DeliveryOk, CopiesOk, GrantsOk, RunsOk, Changes,
      Authority, CorrectedAs, HandedOver;
    SameWorld(w);
    var v := DoCorrect(w, t, child, now, parentLive);
    if t in w.locks && t in w.tasks && child !in w.bindings && w.tasks[t].run.Some? && !w.tasks[t].status.Closed()
      && w.tasks[t].binding in w.bindings
       && Authority(w.tasks, w.bindings, w.runs, w.tasks[t].run.value, now, parentLive) {
      assert CorrectedAs(w, t, child, v) by { IsCorrected(w, t, child, v); }
      CorrectedSlots(w, t, child, v);
      CorrectedPosts(w, t, child, v);
      CorrectedDelivery(w, t, child, v);
      CorrectedGrants(w, t, child, v);
      CorrectedProposals(w, t, child, v);
      CorrectedChanges(w, t, child, v);
    }
  }

  lemma IsCorrected(w: World, t: TaskId, child: BindingId, v: World)
    requires t in w.locks && t in w.tasks && child !in w.bindings && w.tasks[t].run.Some?
    requires !w.tasks[t].status.Closed() && w.tasks[t].binding in w.bindings
    requires v == w.(locks := w.locks - {t}, tasks := w.tasks[t := Corrected(w.tasks[t], child)],
                     bindings := HandedOver(w.bindings, w.tasks[t].binding, child), granted := w.granted[child := t],
                     launches := w.launches + {Request(t, w.tasks[t].attempt + 1, child)})
    ensures CorrectedAs(w, t, child, v)
  {}

  lemma CorrectedEvolves(task: Task, child: BindingId)
    requires !task.status.Closed()
    ensures TaskEvolves(task, Corrected(task, child)) && Corrected(task, child).Busy() && task.Busy()
  {}

  lemma CorrectedSlots(w: World, t: TaskId, child: BindingId, v: World)
    requires SlotsOk(w) && NoLeak(w.slots, w.up, w.tasks, w.proposals) && SessionsOk(w.tasks, w.proposals, w.home)
      && LocksOk(w.locks, w.up, w.tasks)
    requires ProposalsOk(w.proposals, w.up, w.tasks, w.bindings, w.granted) && CorrectedAs(w, t, child, v)
    ensures SlotsOk(v) && NoLeak(v.slots, v.up, v.tasks, v.proposals) && SessionsOk(v.tasks, v.proposals, v.home)
      && LocksOk(v.locks, v.up, v.tasks)
  {
    hide SlotsOk, NoLeak, SessionsOk, LocksOk, ProposalsOk, TaskEvolves, HandedOver;
    var task := Corrected(w.tasks[t], child);
    CorrectedEvolves(w.tasks[t], child);
    ProposalsStep(w, t, task, w.bindings);
    HoldersShrink(w, t, task, w.slots, w.lost);
    SlotsFrame(w.(tasks := w.tasks[t := task], slots := w.slots, lost := w.lost), v);
    LeakStep(w, t, task, w.slots);
    SessionsStep(w.tasks, w.proposals, w.home, t, task);
    LocksStep(w.locks, w.up, w.tasks, t, task, w.locks - {t});
  }

  lemma CorrectedPosts(w: World, t: TaskId, child: BindingId, v: World)
    requires PostsOk(w.launches, w.posted, w.tasks) && CorrectedAs(w, t, child, v)
    ensures PostsOk(v.launches, v.posted, v.tasks)
  {
    hide HandedOver;
  }

  lemma CorrectedDelivery(w: World, t: TaskId, child: BindingId, v: World)
    requires DeliveryOk(w.tasks, w.claimed, w.delivering, w.sent) && CopiesOk(w.copies, w.tasks, w.claimed)
      && CorrectedAs(w, t, child, v)
    ensures DeliveryOk(v.tasks, v.claimed, v.delivering, v.sent) && CopiesOk(v.copies, v.tasks, v.claimed)
  {
    hide DeliveryOk, CopiesOk, HandedOver, TaskEvolves;
    CorrectedEvolves(w.tasks[t], child);
    if t in w.claimed {
      ClaimedIsNotPending(w, t);
    }
    DeliveryStep(w, t, Corrected(w.tasks[t], child));
    CopiesStep(w.copies, w.tasks, w.claimed, t, Corrected(w.tasks[t], child));
  }

  lemma CorrectedGrants(w: World, t: TaskId, child: BindingId, v: World)
    requires GrantsOk(w.granted, w.bindings, w.tasks) && RunsOk(w.runs, w.granted, w.tasks)
      && CorrectedAs(w, t, child, v)
    ensures GrantsOk(v.granted, v.bindings, v.tasks) && RunsOk(v.runs, v.granted, v.tasks)
  {
    hide GrantsOk, RunsOk;
    GrantHandedOver(w, t, child, v);
    RunLeftBehind(w, t, child, v);
  }

  lemma GrantHandedOver(w: World, t: TaskId, child: BindingId, v: World)
    requires GrantsOk(w.granted, w.bindings, w.tasks) && CorrectedAs(w, t, child, v)
    ensures GrantsOk(v.granted, v.bindings, v.tasks)
  {}

  lemma RunLeftBehind(w: World, t: TaskId, child: BindingId, v: World)
    requires GrantsOk(w.granted, w.bindings, w.tasks) && RunsOk(w.runs, w.granted, w.tasks)
      && CorrectedAs(w, t, child, v)
    ensures RunsOk(v.runs, v.granted, v.tasks)
  {
    hide HandedOver;
  }

  lemma CorrectedProposals(w: World, t: TaskId, child: BindingId, v: World)
    requires ProposalsOk(w.proposals, w.up, w.tasks, w.bindings, w.granted) && CorrectedAs(w, t, child, v)
    ensures ProposalsOk(v.proposals, v.up, v.tasks, v.bindings, v.granted)
  {}

  lemma CorrectedChanges(w: World, t: TaskId, child: BindingId, v: World)
    requires CorrectedAs(w, t, child, v) && GrantsOk(w.granted, w.bindings, w.tasks)
    ensures Changes(w, v)
  {
    forall u | u in w.tasks ensures TaskEvolves(w.tasks[u], v.tasks[u]) {}
  }

  // ----- Delivery -----

  lemma WatchKeeps(w: World, g: Owner)
    requires Inv(w)
    ensures var v := w.(copies := w.copies[g := RowsOf(w.tasks, g)]); Inv(v) && Changes(w, v)
  {
    hide SlotsOk, NoLeak, ProposalsOk, SessionsOk, PostsOk, LocksOk, GrantsOk, RunsOk, Changes;
    SlotsFrame(w, w.(copies := w.copies[g := RowsOf(w.tasks, g)]));
    HistorySame(w, w.(copies := w.copies[g := RowsOf(w.tasks, g)]));
  }

  lemma VisitKeeps(w: World, t: TaskId)
    requires Inv(w) && t.owner in w.copies
    ensures var v := w.(copies := w.copies[t.owner := w.copies[t.owner] - {t}]); Inv(v) && Changes(w, v)
  {
    hide SlotsOk, NoLeak, ProposalsOk, SessionsOk, PostsOk, LocksOk, GrantsOk, RunsOk, DeliveryOk, Changes;
    SlotsFrame(w, w.(copies := w.copies[t.owner := w.copies[t.owner] - {t}]));
    HistorySame(w, w.(copies := w.copies[t.owner := w.copies[t.owner] - {t}]));
  }

  lemma ClaimKeeps(w: World, t: TaskId)
    requires Inv(w)
    ensures Inv(DoClaim(w, t)) && Changes(w, DoClaim(w, t))
  {
    hide Inv, Changes;
    SameWorld(w);
    if t.owner in w.copies && t in w.copies[t.owner] && t in w.tasks {
      var copy := w.copies[t.owner][t];
      var seen := if copy.status.Terminal() then copy else w.tasks[t];
      var visited := w.(copies := w.copies[t.owner := w.copies[t.owner] - {t}]);
      VisitKeeps(w, t);
      if seen.status.Terminal() && seen.continued && seen.delivery.Pending? {
        SeenIsOpen(w, t);
        ClaimedKeeps(w, visited, t);
      }
    }
  }

  // What the watcher takes for an unclaimed result is one.
  lemma SeenIsOpen(w: World, t: TaskId)
    requires Inv(w) && t.owner in w.copies && t in w.copies[t.owner] && t in w.tasks
    ensures var copy := w.copies[t.owner][t];
      var seen := if copy.status.Terminal() then copy else w.tasks[t];
      seen.status.Terminal() && seen.delivery.Pending? ==> w.tasks[t].status.Closed() && t !in w.claimed
    ensures forall g :: g in w.copies && t in w.copies[g] ==> g == t.owner
  {
    hide SlotsOk, NoLeak, ProposalsOk, SessionsOk, PostsOk, LocksOk, GrantsOk, RunsOk;
  }

  lemma ClaimedKeeps(w: World, visited: World, t: TaskId)
    requires Inv(visited) && Changes(w, visited) && t in visited.tasks && t !in visited.claimed
      && visited.tasks[t].status.Closed()
    requires forall g :: g in visited.copies ==> t !in visited.copies[g]
    ensures var v := visited.(tasks := visited.tasks[t := visited.tasks[t].(delivery := Claimed)],
                              delivering := visited.delivering + {t}, claimed := visited.claimed + {t});
      Inv(v) && Changes(w, v)
  {
    hide SlotsOk, NoLeak, ProposalsOk, SessionsOk, PostsOk, GrantsOk, DeliveryOk, CopiesOk, Changes;
    var task := visited.tasks[t].(delivery := Claimed);
    var written := visited.(tasks := visited.tasks[t := task]);
    RowStep(visited, t, task, written);
    SlotsFrame(written, written.(delivering := visited.delivering + {t}, claimed := visited.claimed + {t}));
    MoreClaims(written, t);
    ClaimChanges(w, visited, t);
  }

  lemma MoreClaims(w: World, t: TaskId)
    requires DeliveryOk(w.tasks, w.claimed, w.delivering, w.sent) && CopiesOk(w.copies, w.tasks, w.claimed)
    requires t in w.tasks && w.tasks[t].status.Closed() && !w.tasks[t].delivery.Pending? && t !in w.claimed
    requires forall g :: g in w.copies ==> t !in w.copies[g]
    ensures DeliveryOk(w.tasks, w.claimed + {t}, w.delivering + {t}, w.sent)
    ensures CopiesOk(w.copies, w.tasks, w.claimed + {t})
  {}

  lemma ClaimChanges(w: World, visited: World, t: TaskId)
    requires Changes(w, visited) && t in visited.tasks
    ensures Changes(w, visited.(tasks := visited.tasks[t := visited.tasks[t].(delivery := Claimed)],
                                delivering := visited.delivering + {t}, claimed := visited.claimed + {t}))
  {}

  lemma HandOverKeeps(w: World, t: TaskId)
    requires Inv(w)
    ensures Inv(DoHandOver(w, t)) && Changes(w, DoHandOver(w, t))
  {
    hide SlotsOk, NoLeak, ProposalsOk, SessionsOk, PostsOk, LocksOk, GrantsOk, RunsOk, DeliveryOk, CopiesOk, Changes;
    SameWorld(w);
    if t in w.delivering && t in w.tasks {
      var done := w.(delivering := w.delivering - {t});
      assert Inv(done) && Changes(w, done) by { FewerDeliveries(w, t); SlotsFrame(w, done); HistorySame(w, done); }
      if w.tasks[t].delivery.Claimed? {
        if w.tasks[t].ByCallOnly() {
          SuppressKeeps(w, done, t);
        } else {
          FewerDeliveries(w, t);
          var v := done.(sent := w.sent + [t]);
          SlotsFrame(w, v);
          HistorySame(w, v);
        }
      }
    }
  }

  lemma SuppressKeeps(w: World, done: World, t: TaskId)
    requires Inv(done) && done == w.(delivering := w.delivering - {t}) && t in w.tasks
    ensures var v := done.(tasks := w.tasks[t := w.tasks[t].(delivery := Suppressed)]); Inv(v) && Changes(w, v)
  {
    hide SlotsOk, NoLeak, ProposalsOk, SessionsOk, PostsOk, GrantsOk, CopiesOk, Changes;
    var v := done.(tasks := w.tasks[t := w.tasks[t].(delivery := Suppressed)]);
    RowStep(done, t, w.tasks[t].(delivery := Suppressed), v);
    ChangesStep(w, t, w.tasks[t].(delivery := Suppressed), v);
  }

  // One claimed delivery ends; it may become the one hand-over of this task.
  lemma FewerDeliveries(w: World, t: TaskId)
    requires DeliveryOk(w.tasks, w.claimed, w.delivering, w.sent) && t in w.delivering
    ensures DeliveryOk(w.tasks, w.claimed, w.delivering - {t}, w.sent)
    ensures DeliveryOk(w.tasks, w.claimed, w.delivering - {t}, w.sent + [t])
  {}

  // ----- Crash and restart -----

  lemma CrashKeeps(w: World, g: Owner)
    requires Inv(w)
    ensures Inv(DoCrash(w, g)) && Changes(w, DoCrash(w, g))
  {
    hide SlotsOk, NoLeak, ProposalsOk, SessionsOk, PostsOk, LocksOk, GrantsOk, RunsOk, DeliveryOk, CopiesOk, Changes;
    CrashSlots(w, g);
    CrashTables(w, g);
    HistorySame(w, DoCrash(w, g));
  }

  lemma CrashSlots(w: World, g: Owner)
    requires SlotsOk(w) && NoLeak(w.slots, w.up, w.tasks, w.proposals)
    requires ProposalsOk(w.proposals, w.up, w.tasks, w.bindings, w.granted) && SessionsOk(w.tasks, w.proposals, w.home)
    ensures var v := DoCrash(w, g);
      && SlotsOk(v) && NoLeak(v.slots, v.up, v.tasks, v.proposals)
      && ProposalsOk(v.proposals, v.up, v.tasks, v.bindings, v.granted) && SessionsOk(v.tasks, v.proposals, v.home)
  {
    hide SlotsOk, NoLeak, ProposalsOk, SessionsOk;
    CrashHolds(w, g);
    CrashLeaks(w, g);
    CrashProposals(w, g);
    WithdrawnSessions(w.tasks, w.proposals, w.home, g);
  }

  lemma CrashHolds(w: World, g: Owner)
    requires SlotsOk(w)
    ensures SlotsOk(DoCrash(w, g))
  {
    hide BusyTasks;
    var v := DoCrash(w, g);
    assert Reservations(v.proposals) <= Reservations(w.proposals);
    Fewer(Holders(v.tasks, v.proposals, v.lost), Holders(w.tasks, w.proposals, w.lost));
  }

  lemma CrashLeaks(w: World, g: Owner)
    requires NoLeak(w.slots, w.up, w.tasks, w.proposals)
    ensures NoLeak(w.slots, w.up - {g}, w.tasks, w.proposals - {g})
  {}

  lemma CrashProposals(w: World, g: Owner)
    requires ProposalsOk(w.proposals, w.up, w.tasks, w.bindings, w.granted)
    ensures ProposalsOk(w.proposals - {g}, w.up - {g}, w.tasks, w.bindings, w.granted)
  {}

  lemma CrashTables(w: World, g: Owner)
    requires PostsOk(w.launches, w.posted, w.tasks) && LocksOk(w.locks, w.up, w.tasks)
    requires DeliveryOk(w.tasks, w.claimed, w.delivering, w.sent) && CopiesOk(w.copies, w.tasks, w.claimed)
    ensures var v := DoCrash(w, g);
      && PostsOk(v.launches, v.posted, v.tasks) && LocksOk(v.locks, v.up, v.tasks)
      && DeliveryOk(v.tasks, v.claimed, v.delivering, v.sent) && CopiesOk(v.copies, v.tasks, v.claimed)
  {}

  lemma StartKeeps(w: World, g: Owner)
    requires Inv(w)
    ensures Inv(DoStart(w, g)) && Changes(w, DoStart(w, g))
  {
    hide SlotsOk, NoLeak, SessionsOk, PostsOk, GrantsOk, RunsOk, DeliveryOk, CopiesOk, Changes, Reconciled, ActiveOf;
    SameWorld(w);
    var v := DoStart(w, g);
    if g !in w.up
      && !(exists t :: t in w.tasks && t.owner == g && !w.tasks[t].status.Terminal() && w.tasks[t].run.None?) {
      StartHolds(w, g);
      StartLeaks(w, g);
      SlotsFrame(w.(slots := v.slots), v);
      HistorySame(w, v);
    }
  }

  lemma StartHolds(w: World, g: Owner)
    requires SlotsOk(w) && ProposalsOk(w.proposals, w.up, w.tasks, w.bindings, w.granted) && g !in w.up
    ensures SlotsOk(w.(slots := Reconciled(w.slots, g, ActiveOf(w.tasks, g))))
  {
    var slots := Reconciled(w.slots, g, ActiveOf(w.tasks, g));
    forall t | t in Holders(w.tasks, w.proposals, w.lost) ensures t in slots {
      assert t in w.slots && w.slots[t] == t.owner;
      if t in Reservations(w.proposals) {
        assert t.owner in w.up;
      } else {
        assert t.owner == g ==> t in ActiveOf(w.tasks, g);
      }
    }
  }

  lemma StartLeaks(w: World, g: Owner)
    requires NoLeak(w.slots, w.up, w.tasks, w.proposals) && SlotsOk(w)
    ensures NoLeak(Reconciled(w.slots, g, ActiveOf(w.tasks, g)), w.up + {g}, w.tasks, w.proposals)
  {
    hide Holders;
  }

  // ----- All steps -----

  lemma StepKeeps(w: World, step: Step)
    requires Inv(w)
    ensures Inv(Do(w, step)) && Changes(w, Do(w, step))
  {
    hide Inv, Changes, DoSubmit, DoReserve, DoSave, DoPost, DoAdmit, DoLaunchFails, DoStop, DoContinue, DoLock,
      DoRefresh, DoCorrect, DoClaim, DoHandOver, DoCrash, DoRecover, DoStart, WithReceipt, RowsOf;
    SameWorld(w);
    match step
    case Submit(g, key, conversation, session, child, grant, continued, until) =>
      SubmitKeeps(w, g, key, conversation, session, child, grant, continued, until);
    case Reserve(g) => ReserveKeeps(w, g);
    case Save(g, ok) => SaveKeeps(w, g, ok);
    case Post(r) => PostKeeps(w, r);
    case Admit(r, run, bound) => AdmitKeeps(w, r, run, bound);
    case LaunchEnds(r) => UnlockKeeps(w, w.locks, w.waiting - {r});
    case LaunchFails(r, cut) => LaunchFailsKeeps(w, r, cut);
    case Stop(t, cut) => StopKeeps(w, t, cut);
    case Continue(t, expiry) => ContinueKeeps(w, t, expiry);
    case Receive(t, kept, byCall) =>
      if t in w.tasks && t.owner in w.up {
        ReceiveKeeps(w, t, kept, byCall);
      }
    case Lock(t) => LockKeeps(w, t);
    case Unlock(t) => UnlockKeeps(w, w.locks - {t}, w.waiting);
    case Refresh(t, native, cut) => RefreshKeeps(w, t, native, cut);
    case Correct(t, child, now, parentLive) => CorrectKeeps(w, t, child, now, parentLive);
    case Watch(g) =>
      if g in w.up {
        WatchKeeps(w, g);
      }
    case Claim(t) => ClaimKeeps(w, t);
    case HandOver(t) => HandOverKeeps(w, t);
    case Delivered(t) =>
      if t in w.sent && t in w.tasks {
        DeliveredKeeps(w, t);
      }
    case Crash(g) => CrashKeeps(w, g);
    case Recover(t) => RecoverKeeps(w, t);
    case Start(g) => StartKeeps(w, g);
  }
}
