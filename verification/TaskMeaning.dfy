// What the transactions on task rows and slots do, on their fields.
module TaskMeaning {
  import opened Wrappers
  import opened PhoneTasks
  import opened TaskRuns

  // The statuses that end a task, and the ones that keep it going.
  lemma EndsAre(s: Status)
    ensures s.Terminal() <==> s in {Completed, Failed, Cancelled, Interrupted, Uncertain}
    ensures s.Closed() <==> s !in {Submitting, Accepted, Running, WaitingForApproval}
  {}

  // A run is admitted exactly for the binding of its task and as its first or its own run; it may
  // go on exactly when nobody has stopped or ended the task meanwhile, and is recorded anyway.
  lemma AdmissionMeans(task: Task, run: RunId, binding: BindingId)
    ensures Admitted(task, run, binding).Ok? <==>
      binding == task.binding && (task.run == None || task.run == Some(run))
    ensures Admitted(task, run, binding).Ok? ==>
      var a := Admitted(task, run, binding).value;
      && (a.allowed <==> task.status in {Submitting, Accepted, Running, WaitingForApproval})
      && a.task == task.(run := Some(run), status := if a.allowed then Accepted else Stopping)
  {}

  // Stopping takes back the permission and the delivery of a task that is not over yet.
  lemma StopMeans(task: Task)
    ensures task.status in {Completed, Failed, Cancelled, Interrupted, Uncertain} ==> Stopped(task) == task
    ensures task.status in {Submitting, Accepted, Running, WaitingForApproval, Stopping} ==>
      Stopped(task) == task.(status := Stopping, continued := false, delivery := Revoked)
  {}

  // Only a task that is on its way may continue, and only the first deadline counts.
  lemma ContinueMeans(task: Task, until: int)
    ensures Continued(task, until).Ok? <==> task.status in {Submitting, Accepted, Running, WaitingForApproval}
    ensures Continued(task, until).Ok? ==>
      var after := Continued(task, until).value;
      && after.continued
      && (task.continued ==> after == task)
      && (!task.continued ==> after == task.(continued := true, delivery := Pending, expiresAt := Some(until)))
  {}

  // Of the receipts the last eight count; the result is kept back from the chat exactly while all
  // of them say that the call itself tells it.
  lemma ReceiptMeans(task: Task, kept: seq<bool>, byCall: bool)
    ensures task.status !in {Submitting, Accepted, Running, WaitingForApproval} ==>
      WithReceipt(task, kept, byCall) == task
    ensures task.status in {Submitting, Accepted, Running, WaitingForApproval} ==>
      var all, after := kept + [byCall], WithReceipt(task, kept, byCall);
      && 1 <= |after.receipts| <= 8 && |after.receipts| <= |all|
      && (|all| <= 8 ==> |after.receipts| == |all|) && (|all| > 8 ==> |after.receipts| == 8)
      && (forall i :: 0 <= i < |after.receipts| ==> after.receipts[i] == all[|all| - |after.receipts| + i])
      && after == task.(receipts := after.receipts, delivery := after.delivery)
      && (task.continued && task.delivery in {Pending, Suppressed} ==>
            && (after.delivery == Suppressed <==> forall i :: 0 <= i < |after.receipts| ==> after.receipts[i])
            && (after.delivery == Pending <==> exists i :: 0 <= i < |after.receipts| && !after.receipts[i]))
      && (!task.continued || task.delivery !in {Pending, Suppressed} ==> after.delivery == task.delivery)
  {}

  // The native status is taken over, but for a stop that is still under way, and for a success
  // that was corrected or that verified none of what it did.
  lemma RefreshMeans(task: Task, native: Native)
    ensures var after := Refreshed(task, native);
      && after == task.(status := after.status)
      && (task.status == Stopping && native.status in {Submitting, Accepted, Running, WaitingForApproval, Stopping} ==>
            after.status == Stopping)
      && (native.status in {Failed, Cancelled, Interrupted, Uncertain} ==> after.status == native.status)
      && (task.status != Stopping && native.status != Completed ==> after.status == native.status)
      && (native.status == Completed ==>
            && (after.status == Failed <==> native.correction || (task.receipts != [] && !native.verified))
            && (after.status == Completed <==> !native.correction && (task.receipts == [] || native.verified)))
  {}

  // A slot is granted exactly to a task that has one or while there is room, it goes only with
  // its owner, and reconciling leaves the owner with the slots of its active tasks.
  lemma SlotsMean(slots: Slots, task: TaskId, owner: Owner, limit: nat, active: set<TaskId>)
    ensures Reserved(slots, task, owner, limit).Some? <==> task in slots || |slots| < limit
    ensures Reserved(slots, task, owner, limit).Some? ==>
      var after := Reserved(slots, task, owner, limit).value;
      && after.Keys == slots.Keys + {task} && after[task] == (if task in slots then slots[task] else owner)
      && forall t :: t in slots ==> after[t] == slots[t]
    ensures var after := Released(slots, task, owner);
      && (forall t :: t in after <==> t in slots && !(t == task && slots[t] == owner))
      && (forall t :: t in after ==> after[t] == slots[t])
    ensures var after := Reconciled(slots, owner, active);
      && (forall t :: t in after <==> t in active || (t in slots && slots[t] != owner))
      && (forall t :: t in after ==> after[t] == if t in slots then slots[t] else owner)
  {}

  // A submission begins without a run, for the delivery that it asks for.
  lemma SubmissionMeans(conversation: string, session: Session, binding: BindingId, continued: bool,
                        until: Option<int>)
    ensures var t := Submitted(conversation, session, binding, continued, until);
      && t.status == Submitting && t.run == None && t.attempt == 0 && t.receipts == []
      && t.conversation == conversation && t.session == session && t.binding == binding
      && t.continued == continued && t.expiresAt == until
      && t.delivery == if continued then Pending else NotRequested
  {}

  // Only the result of a task that is over, that asked for it and that nobody claimed, is claimed.
  lemma ClaimMeans(w: World, t: TaskId)
    requires t in DoClaim(w, t).claimed && t !in w.claimed
    ensures t in w.tasks && t.owner in w.copies && t in w.copies[t.owner]
    ensures var copy := w.copies[t.owner][t];
      var seen := if copy.status in {Completed, Failed, Cancelled, Interrupted, Uncertain} then copy else w.tasks[t];
      && seen.status in {Completed, Failed, Cancelled, Interrupted, Uncertain} && seen.continued
      && seen.delivery == Pending && DoClaim(w, t).tasks[t] == w.tasks[t].(delivery := Claimed)
  {}

  // It is handed over once it is claimed, unless the call itself has told everything.
  lemma HandOverMeans(w: World, t: TaskId)
    requires t in w.delivering && t in w.tasks
    ensures var task := w.tasks[t];
      var told := task.receipts != [] && forall i :: 0 <= i < |task.receipts| ==> task.receipts[i];
      DoHandOver(w, t).sent == if task.delivery == Claimed && !told then w.sent + [t] else w.sent
  {}

  // ----- The steps of a gateway -----

  // A lease that is taken back stays on record with its expiry.
  lemma RevocationMeans(bindings: map<BindingId, Binding>, b: BindingId)
    ensures Revoke(bindings, b) == if b in bindings then bindings[b := Binding(false, bindings[b].expires)]
      else bindings
  {}

  predicate Occupies(task: Task, conversation: string, session: Session) {
    task.conversation == conversation && task.session == session
    && task.status !in {Completed, Failed, Cancelled, Interrupted, Uncertain}
  }

  // A submission is prepared exactly for a new task of a gateway that is up and prepares no other,
  // with a new lease and a session that is new or an idle one of the conversation.
  lemma PreparingMeans(w: World, g: Owner, key: string, conversation: string, session: Session, child: BindingId,
                       grant: int, continued: bool, until: Option<int>)
    ensures var t, after := TaskId(g, key), DoSubmit(w, g, key, conversation, session, child, grant, continued, until);
      var ready := g in w.up && g !in w.proposals && t !in w.tasks && child !in w.bindings
                   && (session in w.home ==>
                         && w.home[session] == Home(g, conversation)
                         && forall u :: u in w.tasks && u.owner == g ==>
                              !Occupies(w.tasks[u], conversation, session));
      && (!ready ==> after == w)
      && (ready ==>
            && after.bindings == w.bindings[child := Binding(true, grant)]
            && after.home == w.home[session := Home(g, conversation)]
            && after.proposals.Keys == w.proposals.Keys + {g}
            && after.proposals[g].task == t && !after.proposals[g].reserved
            && after == w.(proposals := w.proposals[g := after.proposals[g]], bindings := after.bindings,
                           home := after.home))
  {}

  // Without a slot the submission is over and its lease is taken back.
  lemma ReservingMeans(w: World, g: Owner)
    requires g in w.proposals && !w.proposals[g].reserved
    ensures var p, after := w.proposals[g], DoReserve(w, g);
      var room := p.task in w.slots || |w.slots| < w.limit;
      && (room ==>
            && after.slots == (if p.task in w.slots then w.slots else w.slots[p.task := g])
            && after == w.(slots := after.slots, proposals := w.proposals[g := p.(reserved := true)]))
      && (!room ==> after == w.(proposals := w.proposals - {g}, bindings := Revoke(w.bindings, p.row.binding)))
  {
    hide Revoke;
  }

  // The row is saved and its first attempt may be posted; if it cannot be saved, slot and lease go.
  lemma SavingMeans(w: World, g: Owner, ok: bool)
    requires g in w.proposals && w.proposals[g].reserved
    ensures var p := w.proposals[g];
      DoSave(w, g, ok) ==
        if ok then w.(proposals := w.proposals - {g}, tasks := w.tasks[p.task := p.row],
                      granted := w.granted[p.row.binding := p.task],
                      launches := w.launches + {Request(p.task, 0, p.row.binding)})
        else w.(proposals := w.proposals - {g}, slots := Released(w.slots, p.task, g),
                bindings := Revoke(w.bindings, p.row.binding))
  {
    hide Revoke, Released;
  }

  // A stop that is not cut off marks the row, takes back the lease and, when no run is known,
  // cancels the task and frees its slot; a crash leaves a beginning of this.
  lemma StoppingMeans(w: World, t: TaskId, cut: nat)
    requires t in w.tasks
    ensures var task, after := w.tasks[t], DoStop(w, t, cut);
      var over := t.owner !in w.up || task.status in {Completed, Failed, Cancelled, Interrupted, Uncertain};
      && (over ==> after == w)
      && (!over ==>
            && after == w.(tasks := after.tasks, bindings := after.bindings, slots := after.slots)
            && after.tasks == w.tasks[t := task.(continued := false, delivery := Revoked,
                                                 status := if task.run == None && 3 <= cut then Cancelled
                                                   else Stopping)]
            && after.bindings == (if 2 <= cut then Revoke(w.bindings, task.binding) else w.bindings)
            && after.slots == if task.run == None && 4 <= cut then Released(w.slots, t, t.owner) else w.slots)
  {
    hide Revoke, Released;
  }

  // The end of a run takes back the lease, then the slot, and then ends the row.
  lemma RefreshingMeans(w: World, t: TaskId, native: Native, cut: nat)
    requires t in w.locks && t in w.tasks
    ensures var after := DoRefresh(w, t, native, cut);
      var ended := native.status in {Completed, Failed, Cancelled, Interrupted, Uncertain};
      && after.locks == w.locks - {t}
      && after.bindings == (if ended then Revoke(w.bindings, w.tasks[t].binding) else w.bindings)
      && after.slots == (if ended && 2 <= cut then Released(w.slots, t, t.owner) else w.slots)
      && after.tasks == if !ended || 3 <= cut then w.tasks[t := Refreshed(w.tasks[t], native)] else w.tasks
  {
    hide Revoke, Released, Refreshed;
  }

  // At startup a task without a recorded run becomes uncertain and loses its lease.
  lemma RecoveringMeans(w: World, t: TaskId)
    requires t in w.tasks
    ensures var task := w.tasks[t];
      var left := t.owner !in w.up && task.run == None
                  && task.status !in {Completed, Failed, Cancelled, Interrupted, Uncertain};
      DoRecover(w, t) == if !left then w else
        w.(tasks := w.tasks[t := task.(status := Uncertain)], bindings := Revoke(w.bindings, task.binding))
  {
    hide Revoke;
  }

  lemma ActiveAre(tasks: map<TaskId, Task>, g: Owner)
    ensures forall t :: t in ActiveOf(tasks, g) <==>
      && t in tasks && t.owner == g
      && tasks[t].status !in {Completed, Failed, Cancelled, Interrupted, Uncertain}
  {}

  // Once there is none left, the gateway comes up with the slots of its active tasks.
  lemma StartingMeans(w: World, g: Owner)
    ensures var after := DoStart(w, g);
      var ready := g !in w.up && forall u :: u in w.tasks && u.owner == g && w.tasks[u].run == None ==>
                                   w.tasks[u].status in {Completed, Failed, Cancelled, Interrupted, Uncertain};
      && (!ready ==> after == w)
      && (ready ==> after == w.(up := w.up + {g}, slots := Reconciled(w.slots, g, ActiveOf(w.tasks, g))))
  {
    hide Reconciled, ActiveOf;
  }

  // A launch that fails makes its task uncertain, unless a run was admitted or another attempt
  // has begun; lease and slot follow.
  lemma FailingMeans(w: World, r: Request, cut: nat)
    requires r in w.waiting && r.task in w.tasks
    ensures var task, after := w.tasks[r.task], DoLaunchFails(w, r, cut);
      var current := task.binding == r.binding && task.run == None;
      && after.waiting == w.waiting - {r}
      && after.tasks == (if current then w.tasks[r.task := task.(status := Uncertain)] else w.tasks)
      && after.bindings == (if current && 2 <= cut then Revoke(w.bindings, r.binding) else w.bindings)
      && after.slots == if current && 3 <= cut then Released(w.slots, r.task, r.task.owner) else w.slots
  {
    hide Revoke, Released;
  }
}
