// Several gateways with their phone tasks as one state machine: submission in three
// transactions, native admission that may come late, stopping, corrections, refreshes, result
// delivery, and a crash of any gateway between any two of its transactions.
module TaskRuns {
  import opened Wrappers
  import opened PhoneTasks

  // One POST of a run: the attempt of a task under its binding.
  datatype Request = Request(task: TaskId, attempt: nat, binding: BindingId)

  // A submission under the admission lock.
  datatype Proposal = Proposal(task: TaskId, row: Task, reserved: bool)

  datatype Home = Home(owner: Owner, conversation: string)

  // `launches` and `waiting` are the coroutines before and after their POST, `locks` the held
  // run locks, `copies` what the watchers have read, `delivering` the claimed deliveries in
  // flight. `posted`, `sent`, `claimed`, `granted` and `lost` are history.
  datatype World = World(
    limit: nat,
    slots: Slots,
    tasks: map<TaskId, Task>,
    proposals: map<Owner, Proposal>,
    bindings: map<BindingId, Binding>,
    runs: map<RunId, BindingId>,
    home: map<Session, Home>,
    up: set<Owner>,
    launches: set<Request>,
    posted: seq<Request>,
    waiting: set<Request>,
    locks: set<TaskId>,
    copies: map<Owner, map<TaskId, Task>>,
    delivering: set<TaskId>,
    sent: seq<TaskId>,
    claimed: set<TaskId>,
    granted: map<BindingId, TaskId>,
    lost: set<TaskId>)

  // No task yet; these gateways are running.
  function Empty(limit: nat, up: set<Owner>): World {
    World(limit, map[], map[], map[], map[], map[], map[], up, {}, [], {}, {}, map[], {}, [], {}, map[], {})
  }

  datatype Step =
    | Submit(gateway: Owner, key: string, conversation: string, session: Session, child: BindingId, grant: int,
             continued: bool, until: Option<int>)
    | Reserve(gateway: Owner)
    | Save(gateway: Owner, ok: bool)
    | Post(request: Request)
    | Admit(request: Request, run: RunId, bound: bool)
    | LaunchEnds(request: Request)
    | LaunchFails(request: Request, cut: nat)
    | Stop(task: TaskId, cut: nat)
    | Continue(task: TaskId, expiry: int)
    | Receive(task: TaskId, kept: seq<bool>, byCall: bool)
    | Lock(task: TaskId)
    | Unlock(task: TaskId)
    | Refresh(task: TaskId, native: Native, cut: nat)
    | Correct(task: TaskId, child: BindingId, now: int, parentLive: bool)
    | Watch(gateway: Owner)
    | Claim(task: TaskId)
    | HandOver(task: TaskId)
    | Delivered(task: TaskId)
    | Crash(gateway: Owner)
    | Recover(task: TaskId)
    | Start(gateway: Owner)

  function Revoke(bindings: map<BindingId, Binding>, b: BindingId): map<BindingId, Binding> {
    if b in bindings then bindings[b := bindings[b].(active := false)] else bindings
  }

  // ----- Submission -----

  // A session is new, or belongs to the conversation and carries none of its active tasks.
  predicate SessionFree(w: World, g: Owner, conversation: string, session: Session) {
    session in w.home ==>
      && w.home[session] == Home(g, conversation)
      && forall t ::
        (t in w.tasks && t.owner == g && w.tasks[t].conversation == conversation && !w.tasks[t].status.Terminal())
        ==> w.tasks[t].session != session
  }

  function DoSubmit(w: World, g: Owner, key: string, conversation: string, session: Session, child: BindingId,
                    grant: int, continued: bool, until: Option<int>): World {
    var t := TaskId(g, key);
    if g !in w.up || g in w.proposals || t in w.tasks || child in w.bindings
      || !SessionFree(w, g, conversation, session) then w
    else
      w.(proposals := w.proposals[g := Proposal(t, Submitted(conversation, session, child, continued, until), false)],
         bindings := w.bindings[child := Binding(true, grant)],
         home := w.home[session := Home(g, conversation)])
  }

  function DoReserve(w: World, g: Owner): World {
    if g !in w.proposals || w.proposals[g].reserved then w
    else
      var p := w.proposals[g];
      match Reserved(w.slots, p.task, g, w.limit)
      case None => w.(proposals := w.proposals - {g}, bindings := Revoke(w.bindings, p.row.binding))
      case Some(slots) => w.(slots := slots, proposals := w.proposals[g := p.(reserved := true)])
  }

  function DoSave(w: World, g: Owner, ok: bool): World {
    if g !in w.proposals || !w.proposals[g].reserved then w
    else
      var p := w.proposals[g];
      var free := w.(proposals := w.proposals - {g});
      if ok then
        free.(tasks := w.tasks[p.task := p.row], granted := w.granted[p.row.binding := p.task],
              launches := w.launches + {Request(p.task, 0, p.row.binding)})
      else free.(slots := Released(w.slots, p.task, g), bindings := Revoke(w.bindings, p.row.binding))
  }

  // ----- Native runs -----

  function DoPost(w: World, r: Request): World {
    if r !in w.launches then w
    else w.(launches := w.launches - {r}, posted := w.posted + [r], waiting := w.waiting + {r})
  }

  // Run identities are not reused for another task or binding.
  predicate RunFree(w: World, r: Request, run: RunId) {
    && (run in w.runs ==> w.runs[run] == r.binding)
    && forall t :: t in w.tasks && w.tasks[t].run == Some(run) ==> t == r.task
  }

  // The middleware admits a posted run, once or again.
  function DoAdmit(w: World, r: Request, run: RunId, bound: bool): World {
    if r !in w.posted || r.task !in w.tasks || r.task.owner !in w.up || !RunFree(w, r, run) then w
    else
      match Admitted(w.tasks[r.task], run, r.binding)
      case Err(_) => w
      case Ok(a) =>
        w.(tasks := w.tasks[r.task := a.task],
           runs := if a.allowed && bound && run !in w.runs then w.runs[run := r.binding] else w.runs)
  }

  // `cut` is the number of writes before a crash ends the coroutine.
  function DoLaunchFails(w: World, r: Request, cut: nat): World {
    if r !in w.waiting || r.task !in w.tasks then w
    else
      var task, done := w.tasks[r.task], w.(waiting := w.waiting - {r});
      if task.binding != r.binding || task.run.Some? then done
      else
        done.(tasks := w.tasks[r.task := task.(status := Uncertain)],
              bindings := if cut >= 2 then Revoke(w.bindings, r.binding) else w.bindings,
              slots := if cut >= 3 then Released(w.slots, r.task, r.task.owner) else w.slots)
  }

  function DoStop(w: World, t: TaskId, cut: nat): World {
    if t !in w.tasks || t.owner !in w.up || w.tasks[t].status.Terminal() then w
    else
      var task := Stopped(w.tasks[t]);
      w.(tasks := w.tasks[t := if task.run.None? && cut >= 3 then task.(status := Cancelled) else task],
         bindings := if cut >= 2 then Revoke(w.bindings, task.binding) else w.bindings,
         slots := if task.run.None? && cut >= 4 then Released(w.slots, t, t.owner) else w.slots)
  }

  function DoContinue(w: World, t: TaskId, expiry: int): World {
    if t !in w.tasks || t.owner !in w.up then w
    else
      match Continued(w.tasks[t], expiry)
      case Err(_) => w
      case Ok(task) => w.(tasks := w.tasks[t := task])
  }

  // ----- Under the run lock -----

  function DoLock(w: World, t: TaskId): World {
    if t !in w.tasks || t.owner !in w.up || t in w.locks || w.tasks[t].run.None? || w.tasks[t].status.Terminal() then w
    else w.(locks := w.locks + {t})
  }

  // A finished run first loses its binding, then its slot, then its row is updated.
  function DoRefresh(w: World, t: TaskId, native: Native, cut: nat): World {
    if t !in w.locks || t !in w.tasks then w
    else
      var task, done := w.tasks[t], w.(locks := w.locks - {t});
      if !native.status.Terminal() then done.(tasks := w.tasks[t := Refreshed(task, native)])
      else
        done.(bindings := Revoke(w.bindings, task.binding),
              slots := if cut >= 2 then Released(w.slots, t, t.owner) else w.slots,
              tasks := if cut >= 3 then w.tasks[t := Refreshed(task, native)] else w.tasks,
              lost := if cut == 2 then w.lost + {t} else w.lost)
  }

  function DoCorrect(w: World, t: TaskId, child: BindingId, now: int, parentLive: bool): World {
    if t !in w.locks || t !in w.tasks || child in w.bindings || w.tasks[t].run.None? then w
    else
      var task := w.tasks[t];
      if task.status.Closed() || task.binding !in w.bindings
         || !Authority(w.tasks, w.bindings, w.runs, task.run.value, now, parentLive) then w
      else
        w.(locks := w.locks - {t}, tasks := w.tasks[t := Corrected(task, child)],
           bindings := HandedOver(w.bindings, task.binding, child), granted := w.granted[child := t],
           launches := w.launches + {Request(t, task.attempt + 1, child)})
  }

  // ----- Delivery -----

  function RowsOf(tasks: map<TaskId, Task>, g: Owner): map<TaskId, Task> {
    map t | t in tasks && t.owner == g :: tasks[t]
  }

  // The watcher visits one row of its list: a final copy is taken as it is, any other is refreshed.
  function DoClaim(w: World, t: TaskId): World {
    if t.owner !in w.copies || t !in w.copies[t.owner] || t !in w.tasks then w
    else
      var copy := w.copies[t.owner][t];
      var seen := if copy.status.Terminal() then copy else w.tasks[t];
      var visited := w.(copies := w.copies[t.owner := w.copies[t.owner] - {t}]);
      if seen.status.Terminal() && seen.continued && seen.delivery.Pending? then
        visited.(tasks := w.tasks[t := w.tasks[t].(delivery := Claimed)], delivering := w.delivering + {t},
                 claimed := w.claimed + {t})
      else visited
  }

  function DoHandOver(w: World, t: TaskId): World {
    if t !in w.delivering || t !in w.tasks then w
    else
      var done := w.(delivering := w.delivering - {t});
      if !w.tasks[t].delivery.Claimed? then done
      else if w.tasks[t].ByCallOnly() then done.(tasks := w.tasks[t := w.tasks[t].(delivery := Suppressed)])
      else done.(sent := w.sent + [t])
  }

  // ----- Crash and restart -----

  function DoCrash(w: World, g: Owner): World {
    w.(up := w.up - {g}, proposals := w.proposals - {g},
       launches := (set r | r in w.launches && r.task.owner != g),
       waiting := (set r | r in w.waiting && r.task.owner != g),
       locks := (set t | t in w.locks && t.owner != g),
       delivering := (set t | t in w.delivering && t.owner != g),
       copies := w.copies - {g})
  }

  // At startup, a task without a recorded run is never submitted again.
  function DoRecover(w: World, t: TaskId): World {
    if t !in w.tasks || t.owner in w.up || w.tasks[t].status.Terminal() || w.tasks[t].run.Some? then w
    else w.(tasks := w.tasks[t := w.tasks[t].(status := Uncertain)], bindings := Revoke(w.bindings, w.tasks[t].binding))
  }

  function ActiveOf(tasks: map<TaskId, Task>, g: Owner): set<TaskId> {
    set t | t in tasks && t.owner == g && !tasks[t].status.Terminal()
  }

  function DoStart(w: World, g: Owner): World {
    if g in w.up
      || (exists t :: t in w.tasks && t.owner == g && !w.tasks[t].status.Terminal() && w.tasks[t].run.None?) then w
    else w.(up := w.up + {g}, slots := Reconciled(w.slots, g, ActiveOf(w.tasks, g)))
  }

  function Do(w: World, step: Step): World {
    match step
    case Submit(g, key, conversation, session, child, grant, continued, until) =>
      DoSubmit(w, g, key, conversation, session, child, grant, continued, until)
    case Reserve(g) => DoReserve(w, g)
    case Save(g, ok) => DoSave(w, g, ok)
    case Post(r) => DoPost(w, r)
    case Admit(r, run, bound) => DoAdmit(w, r, run, bound)
    case LaunchEnds(r) => w.(waiting := w.waiting - {r})
    case LaunchFails(r, cut) => DoLaunchFails(w, r, cut)
    case Stop(t, cut) => DoStop(w, t, cut)
    case Continue(t, expiry) => DoContinue(w, t, expiry)
    case Receive(t, kept, byCall) =>
      if t in w.tasks && t.owner in w.up then w.(tasks := w.tasks[t := WithReceipt(w.tasks[t], kept, byCall)]) else w
    case Lock(t) => DoLock(w, t)
    case Unlock(t) => w.(locks := w.locks - {t})
    case Refresh(t, native, cut) => DoRefresh(w, t, native, cut)
    case Correct(t, child, now, parentLive) => DoCorrect(w, t, child, now, parentLive)
    case Watch(g) => if g in w.up then w.(copies := w.copies[g := RowsOf(w.tasks, g)]) else w
    case Claim(t) => DoClaim(w, t)
    case HandOver(t) => DoHandOver(w, t)
    case Delivered(t) =>
      if t in w.sent && t in w.tasks then w.(tasks := w.tasks[t := w.tasks[t].(delivery := Sent)]) else w
    case Crash(g) => DoCrash(w, g)
    case Recover(t) => DoRecover(w, t)
    case Start(g) => DoStart(w, g)
  }

  function Run(w: World, steps: seq<Step>): World {
    if steps == [] then w else Do(Run(w, steps[..|steps| - 1]), steps[|steps| - 1])
  }

  // ----- Invariant -----

  // The tasks that need a slot, but for those whose slot was given away too early.
  function Holders(tasks: map<TaskId, Task>, proposals: map<Owner, Proposal>, lost: set<TaskId>): set<TaskId> {
    BusyTasks(tasks, lost) + Reservations(proposals)
  }

  function BusyTasks(tasks: map<TaskId, Task>, lost: set<TaskId>): set<TaskId> {
    set t | t in tasks && tasks[t].Busy() && t !in lost
  }

  function Reservations(proposals: map<Owner, Proposal>): set<TaskId> {
    set g | g in proposals && proposals[g].reserved :: proposals[g].task
  }

  ghost predicate SlotsOk(w: World) {
    && Holders(w.tasks, w.proposals, w.lost) <= w.slots.Keys
    && |Holders(w.tasks, w.proposals, w.lost)| <= w.limit
    && (forall t :: t in w.slots ==> w.slots[t] == t.owner)
  }

  ghost predicate NoLeak(slots: Slots, up: set<Owner>, tasks: map<TaskId, Task>, proposals: map<Owner, Proposal>) {
    forall t :: t in slots && t.owner in up ==>
      t in tasks || (t.owner in proposals && proposals[t.owner].reserved && proposals[t.owner].task == t)
  }

  ghost predicate ProposalsOk(proposals: map<Owner, Proposal>, up: set<Owner>, tasks: map<TaskId, Task>,
                              bindings: map<BindingId, Binding>, granted: map<BindingId, TaskId>) {
    forall g :: g in proposals ==>
      var p := proposals[g];
      && g in up && p.task.owner == g && p.task !in tasks
      && p.row.status == Submitting && p.row.run.None? && p.row.attempt == 0
      && p.row.binding in bindings && p.row.binding !in granted
      && (forall h :: h in proposals && h != g ==> proposals[h].row.binding != p.row.binding)
  }

  ghost predicate SessionsOk(tasks: map<TaskId, Task>, proposals: map<Owner, Proposal>, home: map<Session, Home>) {
    && (forall t :: t in tasks ==>
        tasks[t].session in home && home[tasks[t].session] == Home(t.owner, tasks[t].conversation))
    && (forall g :: g in proposals ==>
        && proposals[g].row.session in home
        && home[proposals[g].row.session] == Home(g, proposals[g].row.conversation))
    && (forall t, u ::
        t in tasks && u in tasks && t != u && tasks[t].Busy() && tasks[u].Busy() ==>
          tasks[t].session != tasks[u].session)
    && (forall g, t :: g in proposals && t in tasks && tasks[t].Busy() ==> tasks[t].session != proposals[g].row.session)
  }

  ghost predicate PostsOk(launches: set<Request>, posted: seq<Request>, tasks: map<TaskId, Task>) {
    && (forall r :: r in launches || r in posted ==> r.task in tasks && r.attempt <= tasks[r.task].attempt)
    && (forall q, r :: q in launches && r in launches && q.task == r.task && q.attempt == r.attempt ==> q == r)
    && (forall q, i ::
        q in launches && 0 <= i < |posted| && q.task == posted[i].task ==> q.attempt != posted[i].attempt)
    && (forall i, j ::
        0 <= i < j < |posted| && posted[i].task == posted[j].task ==> posted[i].attempt != posted[j].attempt)
  }

  ghost predicate LocksOk(locks: set<TaskId>, up: set<Owner>, tasks: map<TaskId, Task>) {
    forall t :: t in locks ==> t.owner in up && t in tasks && tasks[t].run.Some? && !tasks[t].status.Terminal()
  }

  ghost predicate DeliveryOk(tasks: map<TaskId, Task>, claimed: set<TaskId>, delivering: set<TaskId>,
                             sent: seq<TaskId>) {
    && (forall t :: t in claimed ==> t in tasks && tasks[t].status.Closed() && !tasks[t].delivery.Pending?)
    && delivering <= claimed
    && (forall i :: 0 <= i < |sent| ==> sent[i] in claimed && sent[i] !in delivering)
    && (forall i, j :: 0 <= i < j < |sent| ==> sent[i] != sent[j])
  }

  ghost predicate CopiesOk(copies: map<Owner, map<TaskId, Task>>, tasks: map<TaskId, Task>, claimed: set<TaskId>) {
    forall g, t :: g in copies && t in copies[g] ==>
      && t in tasks && t.owner == g
      && (copies[g][t].status.Closed() ==> tasks[t].status.Closed())
      && (t in claimed && copies[g][t].status.Terminal() ==> !copies[g][t].delivery.Pending?)
  }

  // The active leases of a task are at most the one that its row names, and none outlives another.
  ghost predicate GrantsOk(granted: map<BindingId, TaskId>, bindings: map<BindingId, Binding>,
                           tasks: map<TaskId, Task>) {
    && (forall t :: t in tasks ==> tasks[t].binding in granted && granted[tasks[t].binding] == t)
    && (forall b :: b in granted ==>
          && b in bindings && granted[b] in tasks && tasks[granted[b]].binding in bindings
          && (bindings[b].active ==> tasks[granted[b]].binding == b)
          && bindings[b].expires == bindings[tasks[granted[b]].binding].expires)
  }

  ghost predicate RunsOk(runs: map<RunId, BindingId>, granted: map<BindingId, TaskId>, tasks: map<TaskId, Task>) {
    && (forall r :: r in runs ==> runs[r] in granted)
    && (forall t ::
        t in tasks && tasks[t].run.Some? && tasks[t].run.value in runs ==> runs[tasks[t].run.value] == tasks[t].binding)
  }

  ghost predicate Inv(w: World) {
    && SlotsOk(w) && NoLeak(w.slots, w.up, w.tasks, w.proposals)
    && ProposalsOk(w.proposals, w.up, w.tasks, w.bindings, w.granted)
    && SessionsOk(w.tasks, w.proposals, w.home)
    && PostsOk(w.launches, w.posted, w.tasks)
    && LocksOk(w.locks, w.up, w.tasks)
    && DeliveryOk(w.tasks, w.claimed, w.delivering, w.sent) && CopiesOk(w.copies, w.tasks, w.claimed)
    && GrantsOk(w.granted, w.bindings, w.tasks) && RunsOk(w.runs, w.granted, w.tasks)
  }

  // What every step respects.
  ghost predicate Changes(a: World, b: World) {
    && b.limit == a.limit && a.lost <= b.lost && a.claimed <= b.claimed
    && a.posted <= b.posted && a.sent <= b.sent
    && (forall t :: t in a.tasks ==> t in b.tasks && TaskEvolves(a.tasks[t], b.tasks[t]))
    && (forall x :: x in a.bindings ==>
        x in b.bindings && b.bindings[x].expires == a.bindings[x].expires
          && (b.bindings[x].active ==> a.bindings[x].active))
    && (forall r :: r in a.runs ==> r in b.runs && b.runs[r] == a.runs[r])
    && (forall x :: x in a.granted ==> x in b.granted && b.granted[x] == a.granted[x])
  }

  ghost predicate TaskEvolves(a: Task, b: Task) {
    && b.session == a.session && b.conversation == a.conversation
    && a.attempt <= b.attempt
    && (a.status.Closed() ==> b.status.Closed())
    && (a.continued ==> b.status.Closed() || b.continued)
    && (a.status.Closed() && b.continued ==> a.continued)
    && (a.continued && b.continued ==> b.expiresAt == a.expiresAt)
    && (a.status.Closed() && a.run.Some? ==> b.run == a.run)
  }
}
