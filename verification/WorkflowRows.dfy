// Phone requests as saved rows, and every transaction that rewrites them.
//
// Each function below is one `with store.lock, store.db` block of the source: it either
// raises, leaving the rows as they were, or returns the rows that are committed.
module WorkflowRows {
  import opened Wrappers
  import opened CallingHours

  // Identifiers that the source derives by hashing are the values that are hashed.
  datatype Key = OwnerRequest(name: string) | CallbackRequest(parent: Key, ordinal: nat, name: string)

  // The script marker of a native job fixes its row and attempt ordinal.
  datatype JobId = CallJob(key: Key, ordinal: nat) | ReminderJob(key: Key)

  type ExecId = string

  datatype Status =
    | Holding | Scheduled | Firing
    | Completed | Declined | Cancelled | Expired | Exhausted
    | NeedsGuidance | UncertainCall
  {
    predicate Final() {
      Completed? || Declined? || Cancelled? || Expired? || Exhausted?
    }

    // Waiting for a native occurrence, now or once its schedule is verified.
    predicate Waiting() {
      Holding? || Scheduled?
    }
  }

  datatype EvidenceKind = CallerSpeech | OtherSpeech | VerifiedAction | VerifiedSchedule

  datatype Evidence = Evidence(id: string, kind: EvidenceKind)

  datatype Connection = Connected | NotConnected | Unclear

  datatype Termination = Busy | NoAnswer | AnswerTimeout | OtherReason

  datatype CallOutcome = CallOutcome(
    connection: Connection,
    reason: Termination,
    uncertain: bool,
    stillActive: bool,
    endedAt: Option<int>,
    evidence: set<Evidence>)
  {
    predicate Missed() {
      connection.NotConnected? && !reason.OtherReason?
    }

    function Available(): set<string> {
      set e | e in evidence :: e.id
    }

    function FromCaller(): set<string> {
      set e | e in evidence && e.kind.CallerSpeech? :: e.id
    }

    function Objective(): set<string> {
      set e | e in evidence && !e.kind.OtherSpeech? :: e.id
    }
  }

  datatype Action = Close | Retry | AskOwner

  datatype Disposition = DCompleted | DDeclined | DDeferred | DIncomplete | DUncertain | DCancelled | DExpired
    | DExhausted

  datatype Decision = Decision(action: Action, disposition: Disposition, evidence: set<string>, programmed: bool)

  datatype AttemptStatus = Admitted | Observing | Deciding | Decided

  datatype Attempt = Attempt(
    ordinal: nat,
    job: JobId,
    execution: ExecId,
    status: AttemptStatus,
    outcome: Option<CallOutcome>,
    decision: Option<Decision>,
    run: Option<string>,
    decideBy: Option<int>,
    callback: Option<Key>)

  datatype Change = Change(op: string, target: int, previous: int, pending: bool, components: seq<JobId>)

  // What the caller fixed when the request was made.
  datatype Terms = Terms(number: string, purpose: string, authority: string, runAt: int, deadline: Option<int>,
                         notifyAtDue: bool, reminder: bool, delays: seq<nat>, root: Option<Key>)

  datatype Row = Row(
    terms: Terms,
    root: Key,
    offset: int,
    runAt: int,
    deadline: int,
    revision: nat,
    status: Status,
    attempts: seq<Attempt>,
    cronJob: Option<JobId>,
    notificationJob: Option<JobId>,
    notificationRunAt: int,
    notificationClaimed: bool,
    used: nat,
    automaticHours: bool,
    change: Option<Change>)
  {
    predicate Has(ordinal: nat) {
      1 <= ordinal <= |attempts|
    }

    function Nth(ordinal: nat): Attempt
      requires Has(ordinal)
    {
      attempts[ordinal - 1]
    }

    function WithAttempt(ordinal: nat, a: Attempt): Row
      requires Has(ordinal)
    {
      this.(attempts := attempts[ordinal - 1 := a])
    }

    predicate Pending() {
      change.Some? && change.value.pending
    }

    function Applied(): Option<Change> {
      match change
      case Some(c) => Some(c.(pending := false))
      case None => None
    }
  }

  type Rows = map<Key, Row>

  const WEEK: int := 7 * 86400
  const YEAR: int := 366 * 86400

  // Live routing is re-read for every authorization; `live` is what it says now.
  predicate Authorized(row: Row, now: int, live: bool, result: bool) {
    live && (result || (now < row.deadline && !row.status.Final()))
  }

  function Min(a: int, b: int): int {
    if a <= b then a else b
  }

  function Max(a: int, b: int): int {
    if a >= b then a else b
  }

  // ----- WorkflowStore.create -----

  function Create(rows: Rows, key: Key, terms: Terms, offset: int, now: int): Result<Rows> {
    if key in rows then
      if rows[key].terms == terms then Ok(rows) else Err(Conflict)
    else if !(now - 5 <= terms.runAt <= now + YEAR) then Err(Invalid)
    else
      var week := terms.runAt + WEEK;
      var expires := if terms.deadline.Some? then Min(week, terms.deadline.value) else week;
      if expires <= terms.runAt then Err(Invalid)
      else Ok(rows[key := Row(terms, if terms.root.Some? then terms.root.value else key, offset,
                              terms.runAt, expires, 0, Holding, [], None, None, terms.runAt, false, 0, false, None)])
  }

  // ----- WorkflowStore.claim -----

  datatype Claimed = Claimed(rows: Rows, ordinal: nat, created: bool)

  // The attempt that carries this execution, if there is one: the first in order.
  function FindExecution(attempts: seq<Attempt>, execution: ExecId): (i: nat)
    ensures i <= |attempts|
    ensures forall j :: 0 <= j < i ==> attempts[j].execution != execution
    ensures i < |attempts| ==> attempts[i].execution == execution
  {
    if attempts == [] || attempts[0].execution == execution then 0
    else 1 + FindExecution(attempts[1..], execution)
  }

  function Claim(rows: Rows, key: Key, job: JobId, execution: ExecId, scheduled: int, now: int): Result<Claimed> {
    if key !in rows then Err(Invalid)
    else
      var row := rows[key];
      var found := FindExecution(row.attempts, execution);
      if found < |row.attempts| then
        if row.attempts[found].job != job then Err(Conflict)
        else Ok(Claimed(rows, found + 1, false))
      else if !row.status.Scheduled? || row.cronJob != Some(job) || scheduled != row.runAt then Err(Conflict)
      else if now >= row.deadline then Err(Conflict)
      else
        var ordinal := |row.attempts| + 1;
        var attempt := Attempt(ordinal, job, execution, Admitted, None, None, None, None, None);
        Ok(Claimed(rows[key := row.(attempts := row.attempts + [attempt], status := Firing,
                                    revision := row.revision + 1)], ordinal, true))
  }

  // ----- WorkflowStore.update_attempt, by the field that its callers change -----

  function MarkObserving(rows: Rows, key: Key, ordinal: nat): Result<Rows> {
    if key !in rows || !rows[key].Has(ordinal) || !rows[key].Nth(ordinal).status.Admitted? then Err(Invalid)
    else Ok(rows[key := rows[key].WithAttempt(ordinal, rows[key].Nth(ordinal).(status := Observing))])
  }

  function RecordOutcome(rows: Rows, key: Key, ordinal: nat, outcome: CallOutcome): Result<Rows> {
    if key !in rows || !rows[key].Has(ordinal) || rows[key].Nth(ordinal).outcome.Some? then Err(Invalid)
    else Ok(rows[key := rows[key].WithAttempt(ordinal, rows[key].Nth(ordinal).(outcome := Some(outcome)))])
  }

  // The gateway binds the decision run that it admitted; the identity cannot change.
  function BindDecisionRun(rows: Rows, key: Key, ordinal: nat, run: string, now: int, live: bool): Result<Rows> {
    if key !in rows || !rows[key].Has(ordinal) then Err(Invalid)
    else
      var row, a := rows[key], rows[key].Nth(ordinal);
      if !Authorized(row, now, live, false) || !a.status.Deciding? || a.decideBy.None? || now >= a.decideBy.value
        then Err(Denied)
      else if a.run.Some? && a.run.value != run then Err(Denied)
      else Ok(rows[key := row.WithAttempt(ordinal, a.(run := Some(run)))])
  }

  // ----- PhoneWorkflows._publish -----

  function LinkCall(rows: Rows, key: Key, job: JobId): Result<Rows> {
    if key !in rows then Err(Invalid) else Ok(rows[key := rows[key].(cronJob := Some(job))])
  }

  function LinkReminder(rows: Rows, key: Key, job: JobId): Result<Rows> {
    if key !in rows then Err(Invalid) else Ok(rows[key := rows[key].(notificationJob := Some(job))])
  }

  function FinishPublish(rows: Rows, key: Key): Result<Rows> {
    if key !in rows then Err(Invalid)
    else if !rows[key].status.Holding? then Err(Conflict)
    else Ok(rows[key := rows[key].(status := Scheduled)])
  }

  // ----- PhoneWorkflows.reschedule and the restart reconciliation -----

  function HoldForMove(rows: Rows, key: Key, op: string, target: int, expected: nat, components: seq<JobId>,
                       now: int): Result<Rows> {
    if key !in rows then Err(Invalid)
    else
      var row := rows[key];
      if row.revision != expected || !row.status.Scheduled? then Err(Conflict)
      else if !(now < target < row.deadline) then Err(Invalid)
      else Ok(rows[key := row.(status := Holding, revision := row.revision + 1,
                               change := Some(Change(op, target, row.runAt, true, components)))])
  }

  function ApplyMove(row: Row, target: int, components: seq<JobId>): Row {
    var at := if row.notificationJob.Some? && row.notificationJob.value in components then target
      else row.notificationRunAt;
    row.(runAt := target, status := Scheduled, notificationRunAt := at, automaticHours := false,
         change := row.Applied())
  }

  function CommitMove(rows: Rows, key: Key, target: int, expected: nat, components: seq<JobId>): Result<Rows> {
    if key !in rows then Err(Invalid)
    else if !rows[key].status.Holding? || rows[key].revision != expected + 1 then Err(Conflict)
    else Ok(rows[key := ApplyMove(rows[key], target, components)])
  }

  function ReconcileMove(rows: Rows, key: Key, target: int, components: seq<JobId>): Result<Rows> {
    if key !in rows then Err(Invalid)
    else if !rows[key].status.Holding? then Err(Conflict)
    else Ok(rows[key := ApplyMove(rows[key], target, components)])
  }

  // ----- cancel, expire_requests, authorize_calling_hours, notification -----

  function Cancel(rows: Rows, key: Key): Result<Rows> {
    if key !in rows then Err(Invalid)
    else Ok(rows[key := rows[key].(status := Cancelled, revision := rows[key].revision + 1)])
  }

  predicate Expires(row: Row, now: int) {
    now >= row.deadline && !row.status.Final() && !row.status.Firing?
  }

  function ExpireRow(row: Row, now: int): Row {
    if Expires(row, now) then row.(status := Expired, revision := row.revision + 1) else row
  }

  function ExpireAll(rows: Rows, now: int): Rows {
    map k | k in rows :: ExpireRow(rows[k], now)
  }

  // An automatic retry that reaches execution outside calling hours is handed to the owner.
  function BlockHours(rows: Rows, key: Key, now: int): Result<Rows> {
    if key !in rows then Err(Invalid)
    else
      var row := rows[key];
      if row.automaticHours && !WithinHours(now, row.offset) && (row.status.Scheduled? || row.status.Firing?)
      then Ok(rows[key := row.(status := NeedsGuidance, revision := row.revision + 1)])
      else Ok(rows)
  }

  function ClaimReminder(rows: Rows, key: Key, job: JobId, scheduled: int, now: int, live: bool): Result<(Rows, bool)> {
    if key !in rows then Err(Invalid)
    else
      var row := rows[key];
      if !live || row.status.Holding? || row.status.Cancelled? || row.status.Expired? || now >= row.deadline
         || row.notificationJob != Some(job) || scheduled != row.notificationRunAt
      then Err(Denied)
      else if row.notificationClaimed then Ok((rows, false))
      else Ok((rows[key := row.(notificationClaimed := true)], true))
  }

  // ----- request_callback -----

  function CallbackTerms(row: Row, root: Row, target: int): Terms {
    Terms(row.terms.number, row.terms.purpose, row.terms.authority, target, Some(row.deadline),
          row.terms.notifyAtDue, row.terms.reminder, root.terms.delays, Some(row.root))
  }

  // The recipient asks, during the call, to be called again: the first such request of an
  // attempt creates a child row in the same commit, later ones only move that row.
  function RequestCallback(rows: Rows, key: Key, ordinal: nat, name: string, target: int, now: int,
                           live: bool): Result<Rows> {
    if key !in rows || !rows[key].Has(ordinal) then Err(Invalid)
    else
      var row, a := rows[key], rows[key].Nth(ordinal);
      if !Authorized(row, now, live, false) then Err(Denied)
      else if !(now < target <= now + YEAR) then Err(Invalid)
      else if row.root !in rows then Err(Invalid)
      else if rows[row.root].status.Cancelled? then Err(Denied)
      else if a.callback.Some? then Ok(rows)
      else
        var child := CallbackRequest(key, ordinal, name);
        Create(rows[key := row.WithAttempt(ordinal, a.(callback := Some(child)))], child,
               CallbackTerms(row, rows[row.root], target), row.offset, now)
  }

  // ----- set_guidance -----

  function SetGuidance(rows: Rows, key: Key, ordinal: nat): Result<Rows> {
    if key !in rows || !rows[key].Has(ordinal) then Err(Invalid)
    else
      var row, a := rows[key], rows[key].Nth(ordinal);
      if a.decision.Some? && !row.status.Holding? then Ok(rows)
      else
        var status := if row.status.Final() then row.status else UncertainCall;
        Ok(rows[key := Decide(row, ordinal, Decision(AskOwner, DUncertain, {}, true)).(status := status)])
  }

  // The write that every decision shares.
  function Decide(row: Row, ordinal: nat, decision: Decision): Row
    requires row.Has(ordinal)
  {
    row.WithAttempt(ordinal, row.Nth(ordinal).(decision := Some(decision), status := Decided))
       .(revision := row.revision + 1)
  }

  // What a committed decision did to the retry budget of its chain.
  datatype Charge = NoRetry | AutomaticRetry | TimedRetry

  datatype Verdict = Verdict(rows: Rows, charge: Charge)

  // The root row is charged in the same transaction, before the row itself is written.
  function ChargeRoot(rows: Rows, key: Key, row: Row, root: Key, used: nat): Rows {
    if root == key then rows[key := row.(used := used)]
    else if root in rows then rows[root := rows[root].(used := used)][key := row]
    else rows
  }

  // ----- routine_decision -----

  function RetryTiming(row: Row, now: int, recipient: bool, owner: bool): Timing {
    Timing(now, row.offset, row.deadline, |row.attempts|, true, recipient, owner)
  }

  function DelayedStart(outcome: CallOutcome, delay: nat, now: int): int {
    Max((if outcome.endedAt.Some? then outcome.endedAt.value else now) + delay * 60, now + 5)
  }

  // None: not a routine outcome, a model decision is needed.
  function Routine(rows: Rows, key: Key, ordinal: nat, now: int): Result<Option<Verdict>>
    requires key in rows && rows[key].Has(ordinal)
  {
    var row, a := rows[key], rows[key].Nth(ordinal);
    if a.decision.Some? then Ok(Some(Verdict(rows, NoRetry)))
    else if a.outcome.None? then Err(Invalid)
    else
      var outcome := a.outcome.value;
      if a.callback.None? && !outcome.Missed() && !outcome.uncertain && !outcome.stillActive && !row.terms.reminder
        then Ok(None)
      else if row.root !in rows then Err(Invalid)
      else
        var root := rows[row.root];
        var delays := root.terms.delays;
        if a.callback.Some? then
          if a.callback.value !in rows then Err(Invalid)
          else
            var verified := rows[a.callback.value].status.Scheduled?;
            Ok(Some(Closing(rows, key, ordinal, if verified then Completed else NeedsGuidance, Close, DDeferred)))
        else if root.status.Cancelled? then Ok(Some(Closing(rows, key, ordinal, Cancelled, Close, DCancelled)))
        else if outcome.uncertain || outcome.stillActive
          then Ok(Some(Closing(rows, key, ordinal, UncertainCall, AskOwner, DUncertain)))
        else if outcome.Missed() && root.used < |delays| then
          var target := RetryAt(RetryTiming(row, now, false, false),
                                Some(DelayedStart(outcome, delays[root.used], now)));
          if target.Err? then Ok(Some(Closing(rows, key, ordinal, Expired, Close, DExpired)))
          else
            var decided := Decide(row, ordinal, Decision(Retry, DIncomplete, {}, true))
                             .(runAt := target.value, status := Holding, automaticHours := true);
            Ok(Some(Verdict(ChargeRoot(rows, key, decided, row.root, root.used + 1), AutomaticRetry)))
        else if outcome.Missed() then Ok(Some(Closing(rows, key, ordinal, Exhausted, Close, DExhausted)))
        else if outcome.connection.Connected? then Ok(Some(Closing(rows, key, ordinal, Completed, Close, DCompleted)))
        else Ok(Some(Closing(rows, key, ordinal, NeedsGuidance, AskOwner, DIncomplete)))
  }

  function Closing(rows: Rows, key: Key, ordinal: nat, status: Status, action: Action,
                   disposition: Disposition): Verdict
    requires key in rows && rows[key].Has(ordinal)
  {
    Verdict(rows[key := Decide(rows[key], ordinal, Decision(action, disposition, {}, true)).(status := status)],
            NoRetry)
  }

  // ----- the decision step of run -----

  // From the re-read of the row to the next await: cancellation, live authority, the
  // routine policy, and otherwise the hand-over to a model decision with a deadline.
  function RunDecision(rows: Rows, key: Key, ordinal: nat, now: int, live: bool): Result<Verdict> {
    if key !in rows || !rows[key].Has(ordinal) || rows[key].Nth(ordinal).outcome.None? then Err(Invalid)
    else if rows[key].status.Cancelled? || !Authorized(rows[key], now, live, false) then Guided(rows, key, ordinal)
    else
      var routine := Routine(rows, key, ordinal, now);
      if routine.Err? then Guided(rows, key, ordinal)
      else if routine.value.Some? then Ok(routine.value.value)
      else
        var row, a := rows[key], rows[key].Nth(ordinal);
        if a.decideBy.None? then
          Ok(Verdict(rows[key := row.WithAttempt(ordinal, a.(status := Deciding, decideBy := Some(now + 120)))],
                     NoRetry))
        else if now >= a.decideBy.value then Guided(rows, key, ordinal)
        else Ok(Verdict(rows, NoRetry))
  }

  function Guided(rows: Rows, key: Key, ordinal: nat): Result<Verdict> {
    match SetGuidance(rows, key, ordinal)
    case Ok(after) => Ok(Verdict(after, NoRetry))
    case Err(e) => Err(e)
  }

  // ----- apply -----

  // An owner's timing instruction counts only when its quote occurs in the purpose.
  datatype DecisionArgs = DecisionArgs(
    expected: nat,
    action: Action,
    disposition: Disposition,
    evidence: set<string>,
    runAt: Option<int>,
    quoteInPurpose: Option<bool>)
  {
    predicate Automatic() {
      !disposition.DDeferred? && quoteInPurpose.None?
    }

    // The evidence and timing rules that come before the retry window.
    predicate Supported(outcome: CallOutcome) {
      && (disposition.DCompleted? || disposition.DDeclined? || disposition.DDeferred? || disposition.DIncomplete?
          || disposition.DUncertain?)
      && evidence <= outcome.Available()
      && (action.Close? && disposition.DCompleted? ==>
          outcome.Objective() * evidence != {} && outcome.connection.Connected?)
      && (disposition.DDeclined? ==> action.Close? && outcome.FromCaller() * evidence != {})
      && (action.Close? ==> disposition.DCompleted? || disposition.DDeclined?)
      && (action.Retry? ==>
            && (disposition.DIncomplete? || disposition.DDeferred?)
            && !outcome.uncertain && !outcome.stillActive
            && (disposition.DDeferred? ==> outcome.FromCaller() * evidence != {} && runAt.Some?)
            && (quoteInPurpose.Some? ==> quoteInPurpose.value && runAt.Some?))
    }
  }

  function ApplyDecision(rows: Rows, key: Key, ordinal: nat, run: string, args: DecisionArgs, now: int,
                         live: bool): Result<Verdict> {
    if key !in rows || !rows[key].Has(ordinal) then Err(Denied)
    else
      var row, a := rows[key], rows[key].Nth(ordinal);
      if !Authorized(row, now, live, a.status.Decided?) || !(a.status.Deciding? || a.status.Decided?)
         || a.decideBy.None? || now >= a.decideBy.value || a.run != Some(run) then Err(Denied)
      else if row.revision != args.expected || !a.status.Deciding? then Err(Conflict)
      else if a.outcome.None? || !args.Supported(a.outcome.value) then Err(Invalid)
      else
        var decided := Decide(row, ordinal, Decision(args.action, args.disposition, args.evidence, false));
        match args.action
        case Close =>
          Ok(Verdict(rows[key := decided.(status := if args.disposition.DCompleted? then Completed else Declined)],
                     NoRetry))
        case AskOwner =>
          Ok(Verdict(rows[key := decided.(status := if args.disposition.DUncertain? then UncertainCall
                                          else NeedsGuidance)], NoRetry))
        case Retry =>
          if row.root !in rows then Err(Invalid)
          else
            var root := rows[row.root];
            if args.Automatic() && root.used >= |root.terms.delays| then Err(Invalid)
            else
              var requested := if args.runAt.None? && args.Automatic()
                               then Some(DelayedStart(a.outcome.value, root.terms.delays[root.used], now))
                                 else args.runAt;
              var target := RetryAt(RetryTiming(row, now, args.disposition.DDeferred? && args.evidence != {},
                                                args.quoteInPurpose.Some?), requested);
              if target.Err? then Err(Invalid)
              else
                var held := decided.(runAt := target.value, status := Holding, automaticHours := args.Automatic());
                if args.Automatic() then Ok(Verdict(ChargeRoot(rows, key, held, row.root, root.used + 1),
                                                    AutomaticRetry))
                else Ok(Verdict(rows[key := held], TimedRetry))
  }
}
