// What every transaction keeps about a request and its attempts, in any order and with
// any arguments, and what it can never undo.
module WorkflowLifecycle {
  import opened Wrappers
  import opened WorkflowRows
  import CallingHours

  // One committed (or refused) transaction on the saved rows.
  datatype Txn =
    | TCreate(name: string, terms: Terms, offset: int)
    | TClaim(key: Key, job: JobId, execution: ExecId, scheduled: int)
    | TObserving(key: Key, ordinal: nat)
    | TOutcome(key: Key, ordinal: nat, outcome: CallOutcome)
    | TBindRun(key: Key, ordinal: nat, run: string, live: bool)
    | TLinkCall(key: Key, job: JobId)
    | TLinkReminder(key: Key, job: JobId)
    | TPublished(key: Key)
    | THold(key: Key, op: string, target: int, expected: nat, components: seq<JobId>)
    | TMoved(key: Key, target: int, expected: nat, components: seq<JobId>)
    | TReconciled(key: Key, target: int, components: seq<JobId>)
    | TCancel(key: Key)
    | TExpire
    | TBlockHours(key: Key)
    | TClaimReminder(key: Key, job: JobId, scheduled: int, live: bool)
    | TCallback(key: Key, ordinal: nat, name: string, target: int, live: bool)
    | TGuidance(key: Key, ordinal: nat)
    | TRunDecision(key: Key, ordinal: nat, live: bool)
    | TApply(key: Key, ordinal: nat, run: string, args: DecisionArgs, live: bool)

  function Settle(before: Rows, r: Result<Rows>): Verdict {
    Verdict(if r.Ok? then r.value else before, NoRetry)
  }

  function Judged(before: Rows, r: Result<Verdict>): Verdict {
    if r.Ok? then r.value else Verdict(before, NoRetry)
  }

  // A transaction that raises leaves the rows as they were.
  function Commit(rows: Rows, t: Txn, now: int): Verdict {
    match t
    case TCreate(name, terms, offset) =>
      Settle(rows, Create(rows, OwnerRequest(name), terms.(root := None), offset, now))
    case TClaim(key, job, execution, scheduled) =>
      var c := Claim(rows, key, job, execution, scheduled, now);
      Verdict(if c.Ok? then c.value.rows else rows, NoRetry)
    case TObserving(key, ordinal) => Settle(rows, MarkObserving(rows, key, ordinal))
    case TOutcome(key, ordinal, outcome) => Settle(rows, RecordOutcome(rows, key, ordinal, outcome))
    case TBindRun(key, ordinal, run, live) => Settle(rows, BindDecisionRun(rows, key, ordinal, run, now, live))
    case TLinkCall(key, job) => Settle(rows, LinkCall(rows, key, job))
    case TLinkReminder(key, job) => Settle(rows, LinkReminder(rows, key, job))
    case TPublished(key) => Settle(rows, FinishPublish(rows, key))
    case THold(key, op, target, expected, components) =>
      Settle(rows, HoldForMove(rows, key, op, target, expected, components, now))
    case TMoved(key, target, expected, components) => Settle(rows, CommitMove(rows, key, target, expected, components))
    case TReconciled(key, target, components) => Settle(rows, ReconcileMove(rows, key, target, components))
    case TCancel(key) => Settle(rows, Cancel(rows, key))
    case TExpire => Verdict(ExpireAll(rows, now), NoRetry)
    case TBlockHours(key) => Settle(rows, BlockHours(rows, key, now))
    case TClaimReminder(key, job, scheduled, live) =>
      var c := ClaimReminder(rows, key, job, scheduled, now, live);
      Verdict(if c.Ok? then c.value.0 else rows, NoRetry)
    case TCallback(key, ordinal, name, target, live) =>
      Settle(rows, RequestCallback(rows, key, ordinal, name, target, now, live))
    case TGuidance(key, ordinal) => Settle(rows, SetGuidance(rows, key, ordinal))
    case TRunDecision(key, ordinal, live) => Judged(rows, RunDecision(rows, key, ordinal, now, live))
    case TApply(key, ordinal, run, args, live) => Judged(rows, ApplyDecision(rows, key, ordinal, run, args, now, live))
  }

  // ----- the invariant of one row -----

  predicate Open(a: Attempt) {
    a.decision.None?
  }

  ghost predicate AttemptsOk(attempts: seq<Attempt>) {
    && (forall i :: 0 <= i < |attempts| ==> attempts[i].ordinal == i + 1)
    && (forall i :: 0 <= i < |attempts| ==> (attempts[i].status.Decided? <==> !Open(attempts[i])))
    && (forall i :: 0 <= i < |attempts| - 1 ==> !Open(attempts[i]))
    && (forall i, j :: 0 <= i < j < |attempts| ==> attempts[i].execution != attempts[j].execution)
  }

  // The last attempt has no decision yet: a call may be live.
  predicate Undecided(row: Row) {
    row.attempts != [] && Open(row.attempts[|row.attempts| - 1])
  }

  ghost predicate RowOk(row: Row) {
    && AttemptsOk(row.attempts)
    && (row.status.Waiting() ==> !Undecided(row))
    && (row.status.Firing? ==> Undecided(row))
    && row.runAt < row.deadline
    && (row.change.Some? ==> row.change.value.target < row.deadline)
  }

  // Every chain is rooted at an owner's request, and no callback outlives its parent's terms.
  ghost predicate LineageOk(rows: Rows, key: Key)
    requires key in rows
  {
    && rows[key].root in rows
    && rows[rows[key].root].root == rows[key].root
    && match key
       case OwnerRequest(_) => rows[key].root == key
       case CallbackRequest(parent, _, _) =>
         parent in rows && rows[key].root == rows[parent].root && rows[key].deadline <= rows[parent].deadline
  }

  ghost predicate RowsOk(rows: Rows) {
    && (forall k :: k in rows ==> RowOk(rows[k]))
    && (forall k {:trigger LineageOk(rows, k)} :: k in rows ==> LineageOk(rows, k))
  }

  // ----- what a step may do to one row -----

  ghost predicate SameIdentity(a: Attempt, b: Attempt) {
    && b.ordinal == a.ordinal && b.job == a.job && b.execution == a.execution
    && (!Open(a) ==> !Open(b))
  }

  ghost predicate Evolves(was: Row, now: Row) {
    && now.terms == was.terms && now.root == was.root && now.deadline == was.deadline
    && was.revision <= now.revision
    && was.used <= now.used
    && |was.attempts| <= |now.attempts| <= |was.attempts| + 1
    && (forall i :: 0 <= i < |was.attempts| ==> SameIdentity(was.attempts[i], now.attempts[i]))
    && (|now.attempts| > |was.attempts| ==> was.status.Scheduled? && now.status.Firing?)
    && (was.status.Final() ==> now.status.Final())
    && (was.status.Cancelled? ==> now.status.Cancelled?)
    && (was.notificationClaimed ==> now.notificationClaimed)
  }

  ghost predicate AllEvolve(rows: Rows, after: Rows) {
    && rows.Keys <= after.Keys
    && (forall k :: k in rows ==> Evolves(rows[k], after[k]))
  }

  // The instant that a commit writes was checked against the deadline when the row was held.
  predicate Checked(rows: Rows, t: Txn) {
    match t
    case TMoved(key, target, _, _) => key in rows ==> target < rows[key].deadline
    case TReconciled(key, target, _) => key in rows ==> target < rows[key].deadline
    case _ => true
  }

  // ----- building blocks -----

  lemma Unchanged(rows: Rows)
    requires RowsOk(rows)
    ensures AllEvolve(rows, rows)
    ensures forall k :: k in rows ==> RowOk(rows[k])
  {}

  // Rewriting one row, well, keeps everything.
  lemma OneRow(rows: Rows, key: Key, row: Row)
    requires RowsOk(rows) && key in rows
    requires RowOk(row) && Evolves(rows[key], row)
    ensures RowsOk(rows[key := row]) && AllEvolve(rows, rows[key := row])
  {
    hide RowOk, AttemptsOk;
    var after := rows[key := row];
    forall k | k in after ensures LineageOk(after, k) {
      assert LineageOk(rows, k);
    }
  }

  lemma NewRow(rows: Rows, key: Key, terms: Terms, offset: int, now: int)
    requires RowsOk(rows) && key !in rows && Create(rows, key, terms, offset, now).Ok?
    requires key.OwnerRequest? ==> terms.root.None?
    requires key.CallbackRequest? ==>
      && key.parent in rows && terms.root == Some(rows[key.parent].root)
        && terms.deadline == Some(rows[key.parent].deadline)
    ensures var after := Create(rows, key, terms, offset, now).value;
      RowsOk(after) && AllEvolve(rows, after)
  {
    hide AttemptsOk, Evolves;
    var after := Create(rows, key, terms, offset, now).value;
    Unchanged(rows);
    FreshRow(rows, key, terms, offset, now);
    assert LineageOk(after, key) by {
      if key.CallbackRequest? { assert LineageOk(rows, key.parent); }
    }
    forall k | k in after ensures LineageOk(after, k) {
      if k in rows { assert LineageOk(rows, k); }
    }
  }

  lemma FreshRow(rows: Rows, key: Key, terms: Terms, offset: int, now: int)
    requires key !in rows && Create(rows, key, terms, offset, now).Ok?
    ensures RowOk(Create(rows, key, terms, offset, now).value[key])
  {}

  // Changing an attempt other than its identity keeps the attempts in order.
  lemma OneAttempt(rows: Rows, key: Key, ordinal: nat, a: Attempt)
    requires RowsOk(rows) && key in rows && rows[key].Has(ordinal)
    requires SameIdentity(rows[key].Nth(ordinal), a) && (a.status.Decided? <==> !Open(a))
    requires Open(a) == Open(rows[key].Nth(ordinal))
    ensures var after := rows[key := rows[key].WithAttempt(ordinal, a)]; RowsOk(after) && AllEvolve(rows, after)
  {
    hide RowsOk, AllEvolve, LineageOk;
    Unchanged(rows);
    OneRow(rows, key, rows[key].WithAttempt(ordinal, a));
  }

  // An open attempt is not decided.
  lemma OpenStatus(rows: Rows, key: Key, ordinal: nat)
    requires RowsOk(rows) && key in rows && rows[key].Has(ordinal)
    ensures rows[key].Nth(ordinal).status.Decided? <==> !Open(rows[key].Nth(ordinal))
  {
    assert RowOk(rows[key]);
  }

  // A decision closes its attempt; the row can then wait, rest or end, but not fire.
  lemma OneDecision(row: Row, ordinal: nat, decision: Decision, status: Status)
    requires RowOk(row) && row.Has(ordinal) && !status.Firing?
    requires row.status.Final() ==> status == row.status
    requires status.Waiting() ==> Open(row.Nth(ordinal))
    ensures var after := Decide(row, ordinal, decision).(status := status);
      RowOk(after) && Evolves(row, after)
  {}

  lemma Closed(rows: Rows, key: Key, ordinal: nat, decision: Decision, status: Status)
    requires RowsOk(rows) && key in rows && rows[key].Has(ordinal) && !status.Firing? && !status.Waiting()
    requires rows[key].status.Final() ==> status == rows[key].status
    ensures var after := rows[key := Decide(rows[key], ordinal, decision).(status := status)];
      RowsOk(after) && AllEvolve(rows, after)
  {
    hide RowOk, Evolves, LineageOk, RowsOk, AllEvolve;
    Unchanged(rows);
    OneDecision(rows[key], ordinal, decision, status);
    OneRow(rows, key, Decide(rows[key], ordinal, decision).(status := status));
  }

  function Held(row: Row, ordinal: nat, decision: Decision, target: int, hours: bool): Row
    requires row.Has(ordinal)
  {
    Decide(row, ordinal, decision).(runAt := target, status := Holding, automaticHours := hours)
  }

  // A retry decision of an open attempt holds the row for its next native job.
  lemma RetryHeld(rows: Rows, key: Key, ordinal: nat, decision: Decision, target: int, hours: bool)
    requires RowsOk(rows) && key in rows && rows[key].Has(ordinal) && Open(rows[key].Nth(ordinal))
    requires target < rows[key].deadline && !rows[key].status.Final()
    ensures var row := Held(rows[key], ordinal, decision, target, hours);
      RowOk(row) && Evolves(rows[key], row)
    ensures var after := rows[key := Held(rows[key], ordinal, decision, target, hours)];
      RowsOk(after) && AllEvolve(rows, after)
  {
    hide LineageOk, RowsOk, AllEvolve, AttemptsOk;
    Unchanged(rows);
    OneDecision(rows[key], ordinal, decision, Holding);
    OneRow(rows, key, Held(rows[key], ordinal, decision, target, hours));
  }

  // An automatic retry charges the root in the same transaction.
  lemma Charged(rows: Rows, key: Key, row: Row)
    requires RowsOk(rows) && key in rows && row.root in rows
    requires RowOk(row) && Evolves(rows[key], row) && row.used == rows[key].used
    ensures var after := ChargeRoot(rows, key, row, row.root, rows[row.root].used + 1);
      RowsOk(after) && AllEvolve(rows, after)
  {
    hide RowOk, Evolves, LineageOk, RowsOk, AllEvolve;
    var root := row.root;
    if root == key {
      MoreUsed(rows[key], row);
      OneRow(rows, key, row.(used := row.used + 1));
    } else {
      Unchanged(rows);
      SelfEvolves(rows[root]);
      MoreUsed(rows[root], rows[root]);
      var charged := rows[root := rows[root].(used := rows[root].used + 1)];
      OneRow(rows, root, charged[root]);
      OneRow(charged, key, row);
      EvolveBoth(rows, root, charged[root], key, row);
    }
  }

  lemma EvolveBoth(rows: Rows, a: Key, x: Row, b: Key, y: Row)
    requires a in rows && b in rows && a != b
    requires AllEvolve(rows, rows[a := x]) && Evolves(rows[b], y)
    ensures AllEvolve(rows, rows[a := x][b := y])
  {
    hide Evolves;
  }

  lemma SelfEvolves(row: Row)
    ensures Evolves(row, row)
  {}

  lemma MoreUsed(was: Row, row: Row)
    requires Evolves(was, row)
    ensures Evolves(was, row.(used := row.used + 1))
    ensures RowOk(row) ==> RowOk(row.(used := row.used + 1))
  {}

  lemma RootKnown(rows: Rows, key: Key)
    requires RowsOk(rows) && key in rows
    ensures rows[key].root in rows && rows[rows[key].root].root == rows[key].root
  {
    assert LineageOk(rows, key);
  }

  // ----- the transactions, one by one -----

  lemma GuidanceKeeps(rows: Rows, key: Key, ordinal: nat)
    requires RowsOk(rows)
    ensures var after := Settle(rows, SetGuidance(rows, key, ordinal)).rows; RowsOk(after) && AllEvolve(rows, after)
  {
    hide RowOk, Evolves, LineageOk, RowsOk, AllEvolve;
    Unchanged(rows);
    if key in rows && rows[key].Has(ordinal) {
      var status := if rows[key].status.Final() then rows[key].status else UncertainCall;
      if !(rows[key].Nth(ordinal).decision.Some? && !rows[key].status.Holding?) {
        Closed(rows, key, ordinal, Decision(AskOwner, DUncertain, {}, true), status);
      }
    }
  }

  ghost predicate ClosedBy(rows: Rows, key: Key, ordinal: nat, after: Rows, d: Decision, status: Status) {
    && key in rows && rows[key].Has(ordinal)
    && !status.Firing? && !status.Waiting()
    && after == rows[key := Decide(rows[key], ordinal, d).(status := status)]
  }

  ghost predicate ChargedBy(rows: Rows, key: Key, ordinal: nat, after: Rows, d: Decision, target: int) {
    && key in rows && rows[key].Has(ordinal) && rows[key].root in rows
    && target < rows[key].deadline
    && rows[rows[key].root].used < |rows[rows[key].root].terms.delays|
    && after == ChargeRoot(rows, key, Held(rows[key], ordinal, d, target, true), rows[key].root,
                           rows[rows[key].root].used + 1)
  }

  // The shape of a routine verdict: no change, a closing decision, or a charged retry.
  lemma RoutineShape(rows: Rows, key: Key, ordinal: nat, now: int)
    requires key in rows && rows[key].Has(ordinal)
    requires Routine(rows, key, ordinal, now).Ok? && Routine(rows, key, ordinal, now).value.Some?
    ensures var v := Routine(rows, key, ordinal, now).value.value;
      || (v.rows == rows && v.charge.NoRetry?)
      || (Open(rows[key].Nth(ordinal)) && v.charge.NoRetry?
          && exists d, status :: ClosedBy(rows, key, ordinal, v.rows, d, status))
      || (Open(rows[key].Nth(ordinal)) && v.charge.AutomaticRetry?
          && exists d, target :: ChargedBy(rows, key, ordinal, v.rows, d, target))
  {
    hide Routine;
    RoutineDecides(rows, key, ordinal, now);
    var v := Routine(rows, key, ordinal, now).value.value;
    if Open(rows[key].Nth(ordinal)) {
      if v.charge.NoRetry? {
        RoutineCloses(rows, key, ordinal, now);
      } else {
        RoutineCharges(rows, key, ordinal, now);
      }
    }
  }

  lemma RoutineDecides(rows: Rows, key: Key, ordinal: nat, now: int)
    requires key in rows && rows[key].Has(ordinal)
    requires Routine(rows, key, ordinal, now).Ok? && Routine(rows, key, ordinal, now).value.Some?
    ensures var v := Routine(rows, key, ordinal, now).value.value;
      && (!Open(rows[key].Nth(ordinal)) ==> v == Verdict(rows, NoRetry))
      && (v.charge.NoRetry? || v.charge.AutomaticRetry?)
  {
    hide ChargeRoot, CallingHours.RetryAt, DelayedStart, Decide;
  }

  lemma RoutineCloses(rows: Rows, key: Key, ordinal: nat, now: int)
    requires key in rows && rows[key].Has(ordinal) && Open(rows[key].Nth(ordinal))
    requires Routine(rows, key, ordinal, now).Ok? && Routine(rows, key, ordinal, now).value.Some?
    requires Routine(rows, key, ordinal, now).value.value.charge.NoRetry?
    ensures var v := Routine(rows, key, ordinal, now).value.value;
      exists d, status :: ClosedBy(rows, key, ordinal, v.rows, d, status)
  {
    hide ChargeRoot, CallingHours.RetryAt, DelayedStart, Closing, Decide, Routine;
    var v := Routine(rows, key, ordinal, now).value.value;
    RoutineIsClosing(rows, key, ordinal, now);
    var status: Status, action, disposition :|
      !status.Firing? && !status.Waiting() && v == Closing(rows, key, ordinal, status, action, disposition);
    assert ClosedBy(rows, key, ordinal, v.rows, Decision(action, disposition, {}, true), status) by {
      ClosingCloses(rows, key, ordinal, status, action, disposition);
    }
  }

  lemma RoutineIsClosing(rows: Rows, key: Key, ordinal: nat, now: int)
    requires key in rows && rows[key].Has(ordinal) && Open(rows[key].Nth(ordinal))
    requires Routine(rows, key, ordinal, now).Ok? && Routine(rows, key, ordinal, now).value.Some?
    requires Routine(rows, key, ordinal, now).value.value.charge.NoRetry?
    ensures var v := Routine(rows, key, ordinal, now).value.value;
      exists status: Status, action, disposition ::
        !status.Firing? && !status.Waiting() && v == Closing(rows, key, ordinal, status, action, disposition)
  {
    hide ChargeRoot, CallingHours.RetryAt, DelayedStart, Closing, Decide;
  }

  lemma ClosingCloses(rows: Rows, key: Key, ordinal: nat, status: Status, action: Action, disposition: Disposition)
    requires key in rows && rows[key].Has(ordinal) && !status.Firing? && !status.Waiting()
    ensures var d := Decision(action, disposition, {}, true);
      ClosedBy(rows, key, ordinal, Closing(rows, key, ordinal, status, action, disposition).rows, d, status)
  {
    hide Decide;
  }

  lemma RoutineCharges(rows: Rows, key: Key, ordinal: nat, now: int)
    requires key in rows && rows[key].Has(ordinal) && Open(rows[key].Nth(ordinal))
    requires Routine(rows, key, ordinal, now).Ok? && Routine(rows, key, ordinal, now).value.Some?
    requires !Routine(rows, key, ordinal, now).value.value.charge.NoRetry?
    ensures var v := Routine(rows, key, ordinal, now).value.value;
      exists d, target :: ChargedBy(rows, key, ordinal, v.rows, d, target)
  {
    hide ChargeRoot, CallingHours.RetryAt, DelayedStart, Closing;
    ClosingIsFree(rows, key, ordinal);
    var row := rows[key];
    var root, outcome := rows[row.root], row.Nth(ordinal).outcome.value;
    var v := Routine(rows, key, ordinal, now).value.value;
    var start := Some(DelayedStart(outcome, root.terms.delays[root.used], now));
    BeforeDeadline(RetryTiming(row, now, false, false), start);
    var target := CallingHours.RetryAt(RetryTiming(row, now, false, false), start);
    assert ChargedBy(rows, key, ordinal, v.rows, Decision(Retry, DIncomplete, {}, true), target.value);
  }

  lemma ClosingIsFree(rows: Rows, key: Key, ordinal: nat)
    requires key in rows && rows[key].Has(ordinal)
    ensures forall status, action, disposition ::
      Closing(rows, key, ordinal, status, action, disposition).charge.NoRetry?
  {}

  lemma BeforeDeadline(timing: CallingHours.Timing, requested: Option<int>)
    ensures var r := CallingHours.RetryAt(timing, requested); r.Ok? ==> r.value < timing.deadline
  {}

  lemma RoutineKeeps(rows: Rows, key: Key, ordinal: nat, now: int)
    requires RowsOk(rows) && key in rows && rows[key].Has(ordinal) && !rows[key].status.Final()
    requires Routine(rows, key, ordinal, now).Ok? && Routine(rows, key, ordinal, now).value.Some?
    ensures var after := Routine(rows, key, ordinal, now).value.value.rows; RowsOk(after) && AllEvolve(rows, after)
  {
    hide RowOk, Evolves, LineageOk, RowsOk, AllEvolve, Routine, ChargeRoot;
    var row := rows[key];
    var v := Routine(rows, key, ordinal, now).value.value;
    Unchanged(rows);
    RoutineShape(rows, key, ordinal, now);
    if v.charge.AutomaticRetry? {
      var d, target :| ChargedBy(rows, key, ordinal, v.rows, d, target);
      RetryHeld(rows, key, ordinal, d, target, true);
      Charged(rows, key, Held(row, ordinal, d, target, true));
    } else if v.rows != rows {
      var d, status :| ClosedBy(rows, key, ordinal, v.rows, d, status);
      Closed(rows, key, ordinal, d, status);
    }
  }

  lemma RunDecisionKeeps(rows: Rows, key: Key, ordinal: nat, now: int, live: bool)
    requires RowsOk(rows)
    ensures var after := Judged(rows, RunDecision(rows, key, ordinal, now, live)).rows;
      RowsOk(after) && AllEvolve(rows, after)
  {
    hide RowOk, Evolves, LineageOk, RowsOk, AllEvolve, Routine, SetGuidance;
    Unchanged(rows);
    if RunDecision(rows, key, ordinal, now, live).Ok? {
      GuidanceKeeps(rows, key, ordinal);
      var row, a := rows[key], rows[key].Nth(ordinal);
      if !row.status.Cancelled? && Authorized(row, now, live, false) {
        var routine := Routine(rows, key, ordinal, now);
        if routine.Ok? && routine.value.Some? {
          RoutineKeeps(rows, key, ordinal, now);
        } else if routine.Ok? && a.decideBy.None? {
          RoutineOpen(rows, key, ordinal, now);
          OneAttempt(rows, key, ordinal, a.(status := Deciding, decideBy := Some(now + 120)));
        }
      }
    }
  }

  lemma RoutineOpen(rows: Rows, key: Key, ordinal: nat, now: int)
    requires key in rows && rows[key].Has(ordinal) && Routine(rows, key, ordinal, now) == Ok(None)
    ensures Open(rows[key].Nth(ordinal))
  {}

  // The shape of an accepted model decision.
  lemma ApplyShape(rows: Rows, key: Key, ordinal: nat, run: string, args: DecisionArgs, now: int, live: bool)
    requires ApplyDecision(rows, key, ordinal, run, args, now, live).Ok?
    ensures key in rows && rows[key].Has(ordinal)
    ensures rows[key].Nth(ordinal).status.Deciding? && !rows[key].status.Final()
    ensures var v := ApplyDecision(rows, key, ordinal, run, args, now, live).value;
      var d := Decision(args.action, args.disposition, args.evidence, false);
      || (v.charge.NoRetry? && exists status :: ClosedBy(rows, key, ordinal, v.rows, d, status))
      || (v.charge.TimedRetry? && exists target ::
            target < rows[key].deadline && v.rows == rows[key := Held(rows[key], ordinal, d, target, false)])
      || (v.charge.AutomaticRetry? && exists target :: ChargedBy(rows, key, ordinal, v.rows, d, target))
  {
    hide ChargeRoot, DecisionArgs.Supported;
    var v := ApplyDecision(rows, key, ordinal, run, args, now, live).value;
    var row := rows[key];
    var d := Decision(args.action, args.disposition, args.evidence, false);
    if v.charge.NoRetry? {
      assert ClosedBy(rows, key, ordinal, v.rows, d, v.rows[key].status);
    } else if v.charge.TimedRetry? {
      assert v.rows == rows[key := Held(row, ordinal, d, v.rows[key].runAt, false)];
    } else {
      var root := rows[row.root];
      var requested := if args.runAt.None?
                       then Some(DelayedStart(row.Nth(ordinal).outcome.value, root.terms.delays[root.used], now))
                         else args.runAt;
      var target := CallingHours.RetryAt(RetryTiming(row, now, false, false), requested);
      assert ChargedBy(rows, key, ordinal, v.rows, d, target.value);
    }
  }

  lemma ApplyKeeps(rows: Rows, key: Key, ordinal: nat, run: string, args: DecisionArgs, now: int, live: bool)
    requires RowsOk(rows)
    ensures var after := Judged(rows, ApplyDecision(rows, key, ordinal, run, args, now, live)).rows;
      RowsOk(after) && AllEvolve(rows, after)
  {
    hide RowOk, Evolves, LineageOk, RowsOk, AllEvolve, ApplyDecision, ChargeRoot;
    Unchanged(rows);
    if ApplyDecision(rows, key, ordinal, run, args, now, live).Ok? {
      ApplyShape(rows, key, ordinal, run, args, now, live);
      OpenStatus(rows, key, ordinal);
      var v := ApplyDecision(rows, key, ordinal, run, args, now, live).value;
      var d := Decision(args.action, args.disposition, args.evidence, false);
      if v.charge.NoRetry? {
        var status :| ClosedBy(rows, key, ordinal, v.rows, d, status);
        Closed(rows, key, ordinal, d, status);
      } else if v.charge.TimedRetry? {
        var target :| target < rows[key].deadline && v.rows == rows[key := Held(rows[key], ordinal, d, target, false)];
        RetryHeld(rows, key, ordinal, d, target, false);
      } else {
        var target :| ChargedBy(rows, key, ordinal, v.rows, d, target);
        RetryHeld(rows, key, ordinal, d, target, true);
        Charged(rows, key, Held(rows[key], ordinal, d, target, true));
      }
    }
  }

  function FirstClaim(row: Row, job: JobId, execution: ExecId): Row {
    var a := Attempt(|row.attempts| + 1, job, execution, Admitted, None, None, None, None, None);
    row.(attempts := row.attempts + [a], status := Firing, revision := row.revision + 1)
  }

  // A new attempt is only ever added to a scheduled row, whose attempts are all decided.
  lemma FirstClaimOk(row: Row, job: JobId, execution: ExecId)
    requires RowOk(row) && row.status.Scheduled?
    requires FindExecution(row.attempts, execution) == |row.attempts|
    ensures RowOk(FirstClaim(row, job, execution)) && Evolves(row, FirstClaim(row, job, execution))
  {
    hide AttemptsOk, FindExecution;
    var a := FirstClaim(row, job, execution).attempts[|row.attempts|];
    Appended(row.attempts, a);
  }

  lemma Appended(attempts: seq<Attempt>, a: Attempt)
    requires AttemptsOk(attempts) && (attempts != [] ==> !Open(attempts[|attempts| - 1]))
    requires a.ordinal == |attempts| + 1 && Open(a) && !a.status.Decided?
    requires forall i :: 0 <= i < |attempts| ==> attempts[i].execution != a.execution
    ensures AttemptsOk(attempts + [a])
  {}

  lemma ClaimKeeps(rows: Rows, key: Key, job: JobId, execution: ExecId, scheduled: int, now: int)
    requires RowsOk(rows)
    ensures var after := Commit(rows, TClaim(key, job, execution, scheduled), now).rows;
      RowsOk(after) && AllEvolve(rows, after)
  {
    hide RowsOk, AllEvolve, LineageOk, RowOk, Evolves;
    Unchanged(rows);
    var c := Claim(rows, key, job, execution, scheduled, now);
    if c.Ok? && c.value.created {
      FirstClaimOk(rows[key], job, execution);
      OneRow(rows, key, FirstClaim(rows[key], job, execution));
    }
  }

  lemma CallbackKeeps(rows: Rows, key: Key, ordinal: nat, name: string, target: int, now: int, live: bool)
    requires RowsOk(rows)
    ensures var after := Settle(rows, RequestCallback(rows, key, ordinal, name, target, now, live)).rows;
      RowsOk(after) && AllEvolve(rows, after)
  {
    hide RowOk, Evolves, LineageOk, RowsOk, AllEvolve;
    Unchanged(rows);
    var r := RequestCallback(rows, key, ordinal, name, target, now, live);
    if r.Ok? && rows[key].Nth(ordinal).callback.None? {
      var row, child := rows[key], CallbackRequest(key, ordinal, name);
      var a := row.Nth(ordinal).(callback := Some(child));
      OpenStatus(rows, key, ordinal);
      OneAttempt(rows, key, ordinal, a);
      var linked := rows[key := row.WithAttempt(ordinal, a)];
      if child !in linked {
        NewRow(linked, child, CallbackTerms(row, rows[row.root], target), row.offset, now);
        EvolveInto(rows, linked, r.value);
      }
    }
  }

  lemma EvolveInto(rows: Rows, linked: Rows, after: Rows)
    requires AllEvolve(rows, linked) && linked.Keys <= after.Keys
    requires forall k :: k in linked ==> after[k] == linked[k]
    ensures AllEvolve(rows, after)
  {
    hide Evolves;
  }

  lemma ExpireKeeps(rows: Rows, now: int)
    requires RowsOk(rows)
    ensures RowsOk(ExpireAll(rows, now)) && AllEvolve(rows, ExpireAll(rows, now))
  {
    hide RowOk, Evolves;
    var after := ExpireAll(rows, now);
    forall k | k in after ensures RowOk(after[k]) && Evolves(rows[k], after[k]) {
      ExpireOne(rows[k], now);
    }
    forall k | k in after ensures LineageOk(after, k) {
      assert LineageOk(rows, k);
    }
  }

  lemma ExpireOne(row: Row, now: int)
    requires RowOk(row)
    ensures RowOk(ExpireRow(row, now)) && Evolves(row, ExpireRow(row, now))
  {}

  // Every transaction keeps the invariant and only moves rows forward.
  lemma CommitKeeps(rows: Rows, t: Txn, now: int)
    requires RowsOk(rows) && Checked(rows, t)
    ensures RowsOk(Commit(rows, t, now).rows)
    ensures AllEvolve(rows, Commit(rows, t, now).rows)
  {
    hide RowOk, Evolves, LineageOk, RowsOk, AllEvolve;
    Unchanged(rows);
    match t
    case TCreate(name, terms, offset) => CreateKeeps(rows, name, terms, offset, now);
    case TClaim(key, job, execution, scheduled) => ClaimKeeps(rows, key, job, execution, scheduled, now);
    case TExpire => ExpireKeeps(rows, now);
    case TCallback(key, ordinal, name, target, live) => CallbackKeeps(rows, key, ordinal, name, target, now, live);
    case TGuidance(key, ordinal) => GuidanceKeeps(rows, key, ordinal);
    case TRunDecision(key, ordinal, live) => RunDecisionKeeps(rows, key, ordinal, now, live);
    case TApply(key, ordinal, run, args, live) => ApplyKeeps(rows, key, ordinal, run, args, now, live);
    case TObserving(_, _) => FieldKeeps(rows, t, now);
    case TOutcome(_, _, _) => FieldKeeps(rows, t, now);
    case TBindRun(_, _, _, _) => FieldKeeps(rows, t, now);
    case _ => StatusKeeps(rows, t, now);
  }

  lemma CreateKeeps(rows: Rows, name: string, terms: Terms, offset: int, now: int)
    requires RowsOk(rows)
    ensures var after := Commit(rows, TCreate(name, terms, offset), now).rows; RowsOk(after) && AllEvolve(rows, after)
  {
    hide RowOk, Evolves, LineageOk, RowsOk, AllEvolve;
    Unchanged(rows);
    var own := terms.(root := None);
    if OwnerRequest(name) !in rows && Create(rows, OwnerRequest(name), own, offset, now).Ok? {
      NewRow(rows, OwnerRequest(name), own, offset, now);
    }
  }

  lemma FieldKeeps(rows: Rows, t: Txn, now: int)
    requires RowsOk(rows) && (t.TObserving? || t.TOutcome? || t.TBindRun?)
    ensures RowsOk(Commit(rows, t, now).rows) && AllEvolve(rows, Commit(rows, t, now).rows)
  {
    hide RowOk, Evolves, LineageOk, RowsOk, AllEvolve;
    Unchanged(rows);
    if t.key in rows && rows[t.key].Has(t.ordinal) {
      OpenStatus(rows, t.key, t.ordinal);
      var a := rows[t.key].Nth(t.ordinal);
      match t
      case TObserving(key, ordinal) =>
        if a.status.Admitted? {
          OneAttempt(rows, key, ordinal, a.(status := Observing));
        }
      case TOutcome(key, ordinal, outcome) => OneAttempt(rows, key, ordinal, a.(outcome := Some(outcome)));
      case TBindRun(key, ordinal, run, live) => OneAttempt(rows, key, ordinal, a.(run := Some(run)));
    }
  }

  predicate OnlyStatus(t: Txn) {
    t.TLinkCall? || t.TLinkReminder? || t.TPublished? || t.THold? || t.TMoved? || t.TReconciled?
    || t.TCancel? || t.TBlockHours? || t.TClaimReminder?
  }

  // Fields that neither the attempts nor the deadline depend on.
  predicate SameBody(row: Row, after: Row) {
    && after == row.(status := after.status, revision := after.revision, cronJob := after.cronJob, runAt := after.runAt,
                     notificationJob := after.notificationJob, notificationRunAt := after.notificationRunAt,
                     notificationClaimed := after.notificationClaimed, automaticHours := after.automaticHours,
                     change := after.change)
    && row.revision <= after.revision
    && after.runAt < row.deadline && (after.change.Some? ==> after.change.value.target < row.deadline)
    && (row.notificationClaimed ==> after.notificationClaimed)
    && (after.status == row.status || after.status.Cancelled?
        || (!row.status.Final() && !after.status.Firing? && (after.status.Waiting() ==> row.status.Waiting())))
  }

  lemma BodyKept(row: Row, after: Row)
    requires RowOk(row) && SameBody(row, after)
    ensures RowOk(after) && Evolves(row, after)
  {}

  // The remaining transactions rewrite one row and leave its attempts alone.
  lemma StatusKeeps(rows: Rows, t: Txn, now: int)
    requires RowsOk(rows) && Checked(rows, t) && OnlyStatus(t)
    ensures RowsOk(Commit(rows, t, now).rows) && AllEvolve(rows, Commit(rows, t, now).rows)
  {
    hide RowsOk, AllEvolve, LineageOk, RowOk, Evolves, SameBody, Commit;
    Unchanged(rows);
    if Commit(rows, t, now).rows != rows {
      StatusShape(rows, t, now);
      var after := Commit(rows, t, now).rows[t.key];
      BodyKept(rows[t.key], after);
      OneRow(rows, t.key, after);
    }
  }

  ghost predicate OneBody(rows: Rows, key: Key, after: Rows) {
    key in rows && key in after && after == rows[key := after[key]] && SameBody(rows[key], after[key])
  }

  lemma StatusShape(rows: Rows, t: Txn, now: int)
    requires RowsOk(rows) && Checked(rows, t) && OnlyStatus(t) && Commit(rows, t, now).rows != rows
    ensures OneBody(rows, t.key, Commit(rows, t, now).rows)
  {
    hide LineageOk, AttemptsOk, Commit, OneBody;
    StatusKnown(rows, t, now);
    assert RowOk(rows[t.key]);
    if t.THold? || t.TMoved? || t.TReconciled? {
      MoveShape(rows, t, now);
    } else {
      PlainShape(rows, t, now);
    }
  }

  lemma StatusKnown(rows: Rows, t: Txn, now: int)
    requires OnlyStatus(t) && Commit(rows, t, now).rows != rows
    ensures t.key in rows
  {}

  lemma PlainShape(rows: Rows, t: Txn, now: int)
    requires Checked(rows, t) && OnlyStatus(t) && !t.THold? && !t.TMoved? && !t.TReconciled?
    requires t.key in rows && RowOk(rows[t.key]) && Commit(rows, t, now).rows != rows
    ensures OneBody(rows, t.key, Commit(rows, t, now).rows)
  {
    hide LineageOk, AttemptsOk;
  }

  lemma MoveShape(rows: Rows, t: Txn, now: int)
    requires Checked(rows, t) && (t.THold? || t.TMoved? || t.TReconciled?) && Commit(rows, t, now).rows != rows
    requires t.key in rows && RowOk(rows[t.key])
    ensures OneBody(rows, t.key, Commit(rows, t, now).rows)
  {
    hide LineageOk, AttemptsOk;
  }
}
