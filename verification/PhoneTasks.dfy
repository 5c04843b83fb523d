// Phone tasks as saved rows: what admission, stopping, correction, receipts and refreshes do
// to a row, and the table of slots that several gateways share.
module PhoneTasks {
  import opened Wrappers

  type Owner = string
  type RunId = string
  type BindingId = string
  type Session = string

  // The source hashes the parent binding, which belongs to one gateway, with the request.
  datatype TaskId = TaskId(owner: Owner, key: string)

  datatype Status =
    | Submitting | Accepted | Running | WaitingForApproval | Stopping
    | Completed | Failed | Cancelled | Interrupted | Uncertain
  {
    predicate Terminal() {
      Completed? || Failed? || Cancelled? || Interrupted? || Uncertain?
    }

    // Terminal, or on the way there: the set that is never left.
    predicate Closed() {
      Terminal() || Stopping?
    }
  }

  datatype Delivery = NotRequested | Pending | Suppressed | Revoked | Claimed | Sent

  datatype Task = Task(
    conversation: string,
    session: Session,
    binding: BindingId,
    run: Option<RunId>,
    attempt: nat,
    status: Status,
    continued: bool,
    expiresAt: Option<int>,
    delivery: Delivery,
    receipts: seq<bool>)
  {
    // Active, and not on its way out: such a task needs its slot and its session.
    predicate Busy() {
      !status.Closed()
    }

    predicate ByCallOnly() {
      receipts != [] && forall i :: 0 <= i < |receipts| ==> receipts[i]
    }
  }

  // A lease of caller authority.
  datatype Binding = Binding(active: bool, expires: int)

  // What the native gateway says about a run.
  datatype Native = Native(status: Status, correction: bool, verified: bool)

  // ----- Rows -----

  function Submitted(conversation: string, session: Session, binding: BindingId, continued: bool,
                     expiresAt: Option<int>): Task {
    Task(conversation, session, binding, None, 0, Submitting, continued, expiresAt,
         if continued then Pending else NotRequested, [])
  }

  // Late admission of a revoked task records the run, so that it can be stopped, and is refused.
  datatype Admission = Admission(task: Task, allowed: bool)

  function Admitted(task: Task, run: RunId, binding: BindingId): Result<Admission> {
    if task.binding != binding || (task.run.Some? && task.run.value != run) then Err(Denied)
    else if task.status.Closed() then Ok(Admission(task.(run := Some(run), status := Stopping), false))
    else Ok(Admission(task.(run := Some(run), status := Accepted), true))
  }

  function Stopped(task: Task): Task {
    if task.status.Terminal() then task else task.(status := Stopping, continued := false, delivery := Revoked)
  }

  function Continued(task: Task, expiresAt: int): Result<Task> {
    if task.status.Closed() then Err(Invalid)
    else if task.continued then Ok(task)
    else Ok(task.(continued := true, delivery := Pending, expiresAt := Some(expiresAt)))
  }

  // A tool outcome that this run observed; `byCall` says that the call itself will tell.
  // Outcomes with an earlier identity are replaced by the caller, the last eight are kept.
  function WithReceipt(task: Task, kept: seq<bool>, byCall: bool): Task {
    if task.status.Closed() then task
    else
      var all := kept + [byCall];
      var receipts := if |all| <= 8 then all else all[|all| - 8..];
      var next := task.(receipts := receipts);
      if task.continued && (task.delivery.Pending? || task.delivery.Suppressed?)
      then next.(delivery := if next.ByCallOnly() then Suppressed else Pending) else next
  }

  // The same task under a new binding: the row keeps its deadline, its slot and its session.
  function Corrected(task: Task, child: BindingId): Task {
    task.(run := None, binding := child, attempt := task.attempt + 1, status := Submitting)
  }

  // What a refresh writes when it does not start a correction.
  function RefreshedStatus(task: Task, native: Native): Status {
    if task.status.Stopping? && !native.status.Terminal() then Stopping
    else if native.status.Completed? && (native.correction || (task.receipts != [] && !native.verified)) then Failed
    else native.status
  }

  function Refreshed(task: Task, native: Native): Task {
    task.(status := RefreshedStatus(task, native))
  }

  // ----- TaskCapacity -----

  type Slots = map<TaskId, Owner>

  // Whether the task has a slot now; a slot that it has already is enough.
  function Reserved(slots: Slots, task: TaskId, owner: Owner, limit: nat): Option<Slots> {
    if task in slots then Some(slots)
    else if |slots| >= limit then None
    else Some(slots[task := owner])
  }

  function Released(slots: Slots, task: TaskId, owner: Owner): Slots {
    if task in slots && slots[task] == owner then slots - {task} else slots
  }

  function Reconciled(slots: Slots, owner: Owner, active: set<TaskId>): Slots {
    map t | t in slots.Keys + active && (t in active || slots[t] != owner) :: if t in slots then slots[t] else owner
  }

  class TaskCapacity {
    const owner: Owner
    var slots: Slots

    constructor (owner: Owner)
      ensures this.owner == owner && slots == map[]
    {
      this.owner, slots := owner, map[];
    }

    method Reserve(task: TaskId, limit: nat) returns (ok: bool)
      modifies this`slots
      ensures var want := Reserved(old(slots), task, owner, limit);
        ok == want.Some? && slots == if ok then want.value else old(slots)
    {
      if task in slots {
        return true;
      }
      if |slots| >= limit {
        return false;
      }
      slots := slots[task := owner];
      return true;
    }

    method Release(task: TaskId)
      modifies this`slots
      ensures slots == Released(old(slots), task, owner)
    {
      if task in slots && slots[task] == owner {
        slots := slots - {task};
      }
    }

    method Reconcile(active: set<TaskId>)
      modifies this`slots
      ensures slots == Reconciled(old(slots), owner, active)
    {
      hide Kept, Added, Reconciled;
      AddedAll(slots, owner, active);
      DropStale(active);
      AddMissing(active);
    }

    method DropStale(active: set<TaskId>)
      modifies this`slots
      ensures slots == Kept(old(slots), owner, active, {})
    {
      hide Kept;
      ghost var was := slots;
      var left := slots.Keys;
      KeptAll(was, owner, active);
      while left != {}
        invariant left <= was.Keys && slots == Kept(was, owner, active, left)
        decreases |left|
      {
        var key :| key in left;
        KeptStep(was, owner, active, left, key);
        left := left - {key};
        if slots[key] == owner && key !in active {
          slots := slots - {key};
        }
      }
    }

    method AddMissing(active: set<TaskId>)
      modifies this`slots
      ensures slots == Added(old(slots), owner, active)
    {
      hide Added;
      ghost var was, done := slots, {};
      var left := active;
      AddedNone(was, owner);
      while left != {}
        invariant left !! done && left + done == active && slots == Added(was, owner, done)
        decreases |left|
      {
        var key :| key in left;
        AddedStep(was, owner, done, key);
        left := left - {key};
        done := done + {key};
        if key !in slots {
          slots := slots[key := owner];
        }
      }
      assert done == active;
    }
  }

  // The slots after the first walk of reconcile, up to the ones that are left, and after the second.
  function Kept(was: Slots, owner: Owner, active: set<TaskId>, left: set<TaskId>): Slots {
    map t | t in was && (t in left || t in active || was[t] != owner) :: was[t]
  }

  function Added(kept: Slots, owner: Owner, more: set<TaskId>): Slots {
    map t | t in kept.Keys + more :: if t in kept then kept[t] else owner
  }

  lemma KeptAll(was: Slots, owner: Owner, active: set<TaskId>)
    ensures Kept(was, owner, active, was.Keys) == was
  {}

  lemma KeptStep(was: Slots, owner: Owner, active: set<TaskId>, left: set<TaskId>, key: TaskId)
    requires key in left && left <= was.Keys
    ensures var before := Kept(was, owner, active, left);
      && key in before && before[key] == was[key]
      && Kept(was, owner, active, left - {key}) == if was[key] == owner && key !in active then before - {key}
        else before
  {}

  lemma AddedNone(kept: Slots, owner: Owner)
    ensures Added(kept, owner, {}) == kept
  {}

  lemma AddedAll(was: Slots, owner: Owner, active: set<TaskId>)
    ensures Added(Kept(was, owner, active, {}), owner, active) == Reconciled(was, owner, active)
  {}

  lemma AddedStep(kept: Slots, owner: Owner, more: set<TaskId>, key: TaskId)
    requires key !in more
    ensures var before := Added(kept, owner, more);
      Added(kept, owner, more + {key}) == if key in before then before else before[key := owner]
  {}

  // ----- TaskRegistry and the leases -----

  class Registry {
    var rows: map<TaskId, Task>
    var bindings: map<BindingId, Binding>
    var runs: map<RunId, BindingId>

    constructor ()
      ensures rows == map[] && bindings == map[] && runs == map[]
    {
      rows, bindings, runs := map[], map[], map[];
    }

    predicate Live(binding: BindingId, now: int)
      reads this
    {
      binding in bindings && bindings[binding].active && now < bindings[binding].expires
    }

    // authority and run_binding: the caller is told whether this run may still act.
    method MayAct(run: RunId, now: int, parentLive: bool) returns (ok: bool)
      ensures ok <==> Authority(rows, bindings, runs, run, now, parentLive)
      ensures ok <==>
        && run in runs && runs[run] in bindings && bindings[runs[run]].active && now < bindings[runs[run]].expires
        && (forall t :: t in rows && rows[t].run == Some(run) ==>
              && rows[t].status in {Submitting, Accepted, Running, WaitingForApproval}
              && (rows[t].continued ==> rows[t].expiresAt.Some? && now < rows[t].expiresAt.value)
              && (!rows[t].continued ==> parentLive))
    {
      AuthorityExactly(rows, bindings, runs, run, now, parentLive);
      if run !in runs {
        return false;
      }
      var left := rows.Keys;
      while left != {}
        invariant left <= rows.Keys
        invariant forall t :: t in rows && t !in left && rows[t].run == Some(run) ==> Entitled(rows[t], now, parentLive)
        decreases |left|
      {
        var t :| t in left;
        left := left - {t};
        if rows[t].run == Some(run) {
          if rows[t].status.Terminal() || rows[t].status.Stopping? {
            return false;
          }
          if rows[t].continued {
            if rows[t].expiresAt.None? || rows[t].expiresAt.value <= now {
              return false;
            }
          } else if !parentLive {
            return false;
          }
        }
      }
      return Live(runs[run], now);
    }

    method Admit(task: TaskId, run: RunId, binding: BindingId) returns (allowed: bool)
      modifies this`rows, this`runs
      ensures task !in old(rows) ==> !allowed && rows == old(rows) && runs == old(runs)
      ensures task in old(rows) ==>
        match Admitted(old(rows)[task], run, binding)
        case Err(_) => !allowed && rows == old(rows) && runs == old(runs)
        case Ok(a) => allowed == a.allowed && rows == old(rows)[task := a.task]
                      && runs == if allowed && run !in old(runs) then old(runs)[run := binding] else old(runs)
    {
      if task !in rows || rows[task].binding != binding {
        return false;
      }
      var row := rows[task];
      if row.run.Some? && row.run.value != run {
        return false;
      }
      if row.status.Terminal() || row.status.Stopping? {
        rows := rows[task := row.(run := Some(run), status := Stopping)];
        return false;
      }
      rows := rows[task := row.(run := Some(run), status := Accepted)];
      if run !in runs {
        runs := runs[run := binding];
      }
      return true;
    }

    // start_correction: one transaction that hands the grant on to a new child.
    method Correct(task: TaskId, child: BindingId, now: int, parentLive: bool) returns (ok: bool)
      requires task in rows && rows[task].run.Some? && child !in bindings
      modifies this
      ensures ok <==>
        && !old(rows)[task].status.Closed() && old(rows)[task].binding in old(bindings)
        && Authority(old(rows), old(bindings), old(runs), old(rows)[task].run.value, now, parentLive)
      ensures var was, run := old(rows)[task], old(rows)[task].run.value;
        ok <==>
          && was.binding in old(bindings)
          && run in old(runs) && old(runs)[run] in old(bindings)
          && old(bindings)[old(runs)[run]].active && now < old(bindings)[old(runs)[run]].expires
          && (forall t :: t in old(rows) && old(rows)[t].run == Some(run) ==>
                && old(rows)[t].status in {Submitting, Accepted, Running, WaitingForApproval}
                && (old(rows)[t].continued ==>
                      old(rows)[t].expiresAt.Some? && now < old(rows)[t].expiresAt.value)
                && (!old(rows)[t].continued ==> parentLive))
      ensures ok ==>
        && rows == old(rows)[task := old(rows)[task].(run := None, binding := child, status := Submitting,
                                                      attempt := old(rows)[task].attempt + 1)]
        && child in bindings && bindings[child] == old(bindings)[old(rows)[task].binding]
        && bindings - {child} ==
           old(bindings)[old(rows)[task].binding := old(bindings)[old(rows)[task].binding].(active := false)]
      ensures runs == old(runs)
      ensures !ok ==> rows == old(rows) && bindings == old(bindings)
      ensures ok ==> rows == old(rows)[task := Corrected(old(rows)[task], child)]
                     && bindings == HandedOver(old(bindings), old(rows)[task].binding, child)
    {
      AuthorityExactly(rows, bindings, runs, rows[task].run.value, now, parentLive);
      var row := rows[task];
      if row.status.Terminal() || row.status.Stopping? {
        return false;
      }
      var may := MayAct(row.run.value, now, parentLive);
      if !may || row.binding !in bindings {
        return false;
      }
      bindings := bindings[child := bindings[row.binding]];
      bindings := bindings[row.binding := bindings[row.binding].(active := false)];
      row := row.(run := None, binding := child, attempt := row.attempt + 1);
      rows := rows[task := row.(status := Submitting)];
      return true;
    }
  }

  // The row of a run still stands behind it.
  predicate Entitled(task: Task, now: int, parentLive: bool) {
    !task.status.Closed() && if task.continued then task.expiresAt.Some? && now < task.expiresAt.value else parentLive
  }

  predicate Authority(rows: map<TaskId, Task>, bindings: map<BindingId, Binding>, runs: map<RunId, BindingId>,
                      run: RunId, now: int, parentLive: bool) {
    && run in runs && runs[run] in bindings
    && bindings[runs[run]].active && now < bindings[runs[run]].expires
    && forall t :: t in rows && rows[t].run == Some(run) ==> Entitled(rows[t], now, parentLive)
  }

  // A run may act exactly while its lease lasts and every task behind it is on its way and either
  // goes on after the call, within its deadline, or the call itself still lasts.
  lemma AuthorityExactly(rows: map<TaskId, Task>, bindings: map<BindingId, Binding>, runs: map<RunId, BindingId>,
                         run: RunId, now: int, parentLive: bool)
    ensures Authority(rows, bindings, runs, run, now, parentLive) <==>
      && run in runs && runs[run] in bindings && bindings[runs[run]].active && now < bindings[runs[run]].expires
      && (forall t :: t in rows && rows[t].run == Some(run) ==>
            && rows[t].status in {Submitting, Accepted, Running, WaitingForApproval}
            && (rows[t].continued ==> rows[t].expiresAt.Some? && now < rows[t].expiresAt.value)
            && (!rows[t].continued ==> parentLive))
  {}

  // The child gets the grant as it is; the old lease ends.
  function HandedOver(bindings: map<BindingId, Binding>, was: BindingId, child: BindingId): map<BindingId, Binding>
    requires was in bindings
  {
    bindings[child := bindings[was]][was := bindings[was].(active := false)]
  }
}
