// The saved rows and operations of the phone workflows, and the code that rewrites them.
// Every method is proved against the transaction it performs.
module WorkflowStore {
  import opened Wrappers
  import opened CallingHours
  import opened WorkflowRows
  import opened WorkflowLifecycle
  import opened WorkflowSchedule
  import opened WorkflowTheorems
  import opened WorkflowHazards
  import WorkflowOperations

  class Store {
    var rows: Rows
    var operations: WorkflowOperations.Operations<string, string>

    constructor ()
      ensures rows == map[] && operations == map[]
    {
      rows := map[];
      operations := map[];
    }

    // A new identity is announced, a known one is answered or refused.
    method BeginOperation(id: string, payload: string) returns (r: Result<Option<string>>)
      modifies this`operations
      ensures var b := WorkflowOperations.Begin(old(operations), id, payload);
        if b.Ok? then r == Ok(b.value.saved) && operations == b.value.operations
        else r == Err(b.error) && operations == old(operations)
    {
      if id in operations {
        var was := operations[id];
        if was.payload != payload || was.result.None? {
          return Err(Conflict);
        }
        return Ok(was.result);
      }
      operations := operations[id := WorkflowOperations.Operation(payload, None)];
      return Ok(None);
    }

    method FinishOperation(id: string, result: string)
      modifies this`operations
      ensures operations == WorkflowOperations.Finish(old(operations), id, result)
    {
      if id in operations {
        operations := operations[id := operations[id].(result := Some(result))];
      }
    }

    method CreateRow(key: Key, terms: Terms, offset: int, now: int) returns (r: Result<Row>)
      modifies this`rows
      ensures var c := Create(old(rows), key, terms, offset, now);
        if c.Ok? then rows == c.value && key in rows && r == Ok(rows[key]) else rows == old(rows) && r == Err(c.error)
    {
      if key in rows {
        if rows[key].terms != terms {
          return Err(Conflict);
        }
        return Ok(rows[key]);
      }
      if !(now - 5 <= terms.runAt <= now + YEAR) {
        return Err(Invalid);
      }
      var expires := terms.runAt + WEEK;
      if terms.deadline.Some? && terms.deadline.value < expires {
        expires := terms.deadline.value;
      }
      if expires <= terms.runAt {
        return Err(Invalid);
      }
      var root := key;
      if terms.root.Some? {
        root := terms.root.value;
      }
      rows := rows[key := Row(terms, root, offset, terms.runAt, expires, 0, Holding, [], None, None, terms.runAt, false,
                              0, false, None)];
      return Ok(rows[key]);
    }

    method ClaimAttempt(key: Key, job: JobId, execution: ExecId, scheduled: int, now: int)
        returns (r: Result<(nat, bool)>)
      modifies this`rows
      ensures var c := Claim(old(rows), key, job, execution, scheduled, now);
        if c.Ok? then rows == c.value.rows && r == Ok((c.value.ordinal, c.value.created))
          else rows == old(rows) && r == Err(c.error)
    {
      if key !in rows {
        return Err(Invalid);
      }
      var row := rows[key];
      var i := 0;
      while i < |row.attempts| && row.attempts[i].execution != execution
        invariant i <= |row.attempts|
        invariant forall j :: 0 <= j < i ==> row.attempts[j].execution != execution
      {
        i := i + 1;
      }
      if i < |row.attempts| {
        if row.attempts[i].job != job {
          return Err(Conflict);
        }
        return Ok((i + 1, false));
      }
      if !row.status.Scheduled? || row.cronJob != Some(job) || scheduled != row.runAt {
        return Err(Conflict);
      }
      if now >= row.deadline {
        return Err(Conflict);
      }
      var attempt := Attempt(|row.attempts| + 1, job, execution, Admitted, None, None, None, None, None);
      row := row.(attempts := row.attempts + [attempt]);
      row := row.(status := Firing);
      row := row.(revision := row.revision + 1);
      rows := rows[key := row];
      return Ok((|row.attempts|, true));
    }

    method Guide(key: Key, ordinal: nat) returns (ok: bool)
      modifies this`rows
      ensures ok == SetGuidance(old(rows), key, ordinal).Ok?
      ensures rows == Settle(old(rows), SetGuidance(old(rows), key, ordinal)).rows
    {
      if key !in rows || !rows[key].Has(ordinal) {
        return false;
      }
      var row := rows[key];
      var attempt := row.Nth(ordinal);
      if attempt.decision.None? || row.status.Holding? {
        attempt := attempt.(decision := Some(Decision(AskOwner, DUncertain, {}, true)), status := Decided);
        row := row.WithAttempt(ordinal, attempt);
        if !row.status.Final() {
          row := row.(status := UncertainCall);
        }
        row := row.(revision := row.revision + 1);
        rows := rows[key := row];
      }
      return true;
    }

    // The configured delay runs from the end of the call, but never starts in the past.
    static method AutomaticRetryTime(row: Row, outcome: CallOutcome, delay: nat, now: int) returns (r: Result<int>)
      ensures r == RetryAt(RetryTiming(row, now, false, false), Some(DelayedStart(outcome, delay, now)))
    {
      var ended := now;
      if outcome.endedAt.Some? {
        ended := outcome.endedAt.value;
      }
      var at := ended + delay * 60;
      if at < now + 5 {
        at := now + 5;
      }
      r := RetryTime(RetryTiming(row, now, false, false), Some(at));
    }

    // The programmed policy for transport outcomes and reminders, row and root in one commit.
    method DecideRoutine(key: Key, ordinal: nat, now: int) returns (r: Result<bool>)
      requires key in rows && rows[key].Has(ordinal)
      modifies this`rows
      ensures var v := Routine(old(rows), key, ordinal, now);
        && (v.Err? ==> rows == old(rows) && r == Err(v.error))
        && (v.Ok? ==> r == Ok(v.value.Some?) && rows == if v.value.Some? then v.value.value.rows else old(rows))
    {
      hide NextAllowed, RetryAt, DelayedStart;
      var row := rows[key];
      var attempt := row.Nth(ordinal);
      if attempt.decision.Some? {
        return Ok(true);
      }
      if attempt.outcome.None? {
        return Err(Invalid);
      }
      var outcome := attempt.outcome.value;
      if attempt.callback.None? && !outcome.Missed() && !outcome.uncertain && !outcome.stillActive
        && !row.terms.reminder {
        return Ok(false);
      }
      if row.root !in rows {
        return Err(Invalid);
      }
      var root := rows[row.root];
      var used, delays := root.used, root.terms.delays;
      var action, disposition, status := Close, DCompleted, row.status;
      if attempt.callback.Some? {
        if attempt.callback.value !in rows {
          return Err(Invalid);
        }
        disposition := DDeferred;
        status := if rows[attempt.callback.value].status.Scheduled? then Completed else NeedsGuidance;
      } else if root.status.Cancelled? {
        status, disposition := Cancelled, DCancelled;
      } else if outcome.uncertain || outcome.stillActive {
        status, action, disposition := UncertainCall, AskOwner, DUncertain;
      } else if outcome.Missed() && used < |delays| {
        var target := AutomaticRetryTime(row, outcome, delays[used], now);
        if target.Err? {
          status, disposition := Expired, DExpired;
        } else {
          root := root.(used := used + 1);
          if row.root == key {
            row := row.(used := used + 1);
          } else {
            rows := rows[row.root := root];
          }
          row := row.(runAt := target.value, automaticHours := true);
          status, action, disposition := Holding, Retry, DIncomplete;
        }
      } else if outcome.Missed() {
        status, disposition := Exhausted, DExhausted;
      } else if outcome.connection.Connected? {
        status := Completed;
      } else {
        status, action, disposition := NeedsGuidance, AskOwner, DIncomplete;
      }
      attempt := attempt.(decision := Some(Decision(action, disposition, {}, true)), status := Decided);
      row := row.WithAttempt(ordinal, attempt).(status := status, revision := row.revision + 1);
      rows := rows[key := row];
      return Ok(true);
    }

    // The decision of the model, within the authority of its run.
    method ApplyModelDecision(key: Key, ordinal: nat, run: string, args: DecisionArgs, now: int, live: bool)
        returns (r: Result<Charge>)
      modifies this`rows
      ensures var v := ApplyDecision(old(rows), key, ordinal, run, args, now, live);
        && (v.Err? ==> rows == old(rows) && r == Err(v.error))
        && (v.Ok? ==> rows == v.value.rows && r == Ok(v.value.charge))
    {
      hide NextAllowed, RetryAt, DecisionArgs.Supported, DelayedStart;
      if key !in rows || !rows[key].Has(ordinal) {
        return Err(Denied);
      }
      var row := rows[key];
      var attempt := row.Nth(ordinal);
      if !Authorized(row, now, live, attempt.status.Decided?) || !(attempt.status.Deciding? || attempt.status.Decided?)
         || attempt.decideBy.None? || now >= attempt.decideBy.value || attempt.run != Some(run) {
        return Err(Denied);
      }
      if row.revision != args.expected || !attempt.status.Deciding? {
        return Err(Conflict);
      }
      if attempt.outcome.None? || !args.Supported(attempt.outcome.value) {
        return Err(Invalid);
      }
      var charge := NoRetry;
      var decided := attempt.(decision := Some(Decision(args.action, args.disposition, args.evidence, false)),
                              status := Decided);
      row := row.WithAttempt(ordinal, decided).(revision := row.revision + 1);
      if args.action.Retry? {
        if row.root !in rows {
          return Err(Invalid);
        }
        var root := rows[row.root];
        var target := TimeOfRetry(rows[key], root, attempt.outcome.value, args, now);
        if target.Err? {
          return Err(Invalid);
        }
        charge := TimedRetry;
        if args.Automatic() {
          charge := AutomaticRetry;
          if row.root == key {
            row := row.(used := root.used + 1);
          } else {
            rows := rows[row.root := root.(used := root.used + 1)];
          }
        }
        row := row.(runAt := target.value, status := Holding, automaticHours := args.Automatic());
      } else if args.action.Close? {
        row := row.(status := if args.disposition.DCompleted? then Completed else Declined);
      } else {
        row := row.(status := if args.disposition.DUncertain? then UncertainCall else NeedsGuidance);
      }
      rows := rows[key := row];
      return Ok(charge);
    }

    // None of the budget left, or no instant for the retry, refuses it.
    static method TimeOfRetry(row: Row, root: Row, outcome: CallOutcome, args: DecisionArgs, now: int)
        returns (r: Result<int>)
      ensures var delays := root.terms.delays;
        if args.Automatic() && root.used >= |delays| then r == Err(Invalid)
        else
          var requested := if args.runAt.None? && args.Automatic()
            then Some(DelayedStart(outcome, delays[root.used], now)) else args.runAt;
          r == RetryAt(RetryTiming(row, now, args.disposition.DDeferred? && args.evidence != {},
                                   args.quoteInPurpose.Some?), requested)
    {
      if args.Automatic() && root.used >= |root.terms.delays| {
        return Err(Invalid);
      }
      var requested := args.runAt;
      if requested.None? && args.Automatic() {
        var ended := now;
        if outcome.endedAt.Some? {
          ended := outcome.endedAt.value;
        }
        requested := Some(Max(ended + root.terms.delays[root.used] * 60, now + 5));
      }
      r := RetryTime(RetryTiming(row, now, args.disposition.DDeferred? && args.evidence != {},
                                 args.quoteInPurpose.Some?), requested);
    }

    // Every request past its deadline that is neither final nor firing becomes expired.
    method ExpireRequests(now: int)
      modifies this`rows
      ensures rows == ExpireAll(old(rows), now)
    {
      hide ExpireRow;
      ghost var was := rows;
      var left := rows.Keys;
      while left != {}
        invariant left <= was.Keys && rows == ExpireExcept(was, left, now)
        decreases |left|
      {
        var key :| key in left;
        ExpireStep(was, left, key, now);
        var row := rows[key];
        if now >= row.deadline && !row.status.Final() && !row.status.Firing? {
          row := row.(status := Expired);
          row := row.(revision := row.revision + 1);
          rows := rows[key := row];
        }
        left := left - {key};
      }
    }

    // Cancelling a request cancels its chain, as far as the live routing authorizes each peer;
    // without authority for the request itself nothing changes.
    method CancelChain(key: Key, live: set<Key>) returns (r: Result<()>)
      modifies this`rows
      ensures if key in old(rows) && key in live then r.Ok? && rows == CancelExcept(old(rows), key, live, {})
        else r.Err? && rows == old(rows)
    {
      hide CancelPeer;
      if key !in rows {
        return Err(Invalid);
      }
      if key !in live {
        return Err(Denied);
      }
      ghost var was := rows;
      var row := rows[key];
      rows := rows[key := row.(status := Cancelled, revision := row.revision + 1)];
      var left := rows.Keys - {key};
      while left != {}
        invariant left <= was.Keys - {key} && rows == CancelExcept(was, key, live, left)
        decreases |left|
      {
        var peer :| peer in left;
        CancelStep(was, key, live, left, peer);
        if rows[peer].root == row.root && !rows[peer].status.Cancelled? && peer in live {
          rows := rows[peer := rows[peer].(status := Cancelled, revision := rows[peer].revision + 1)];
        }
        left := left - {peer};
      }
      return Ok(());
    }
  }

  // The rows after the walk of expire_requests, up to the ones that are left.
  function ExpireExcept(was: Rows, left: set<Key>, now: int): Rows {
    map k | k in was :: if k in left then was[k] else ExpireRow(was[k], now)
  }

  lemma ExpireStep(was: Rows, left: set<Key>, key: Key, now: int)
    requires key in left && left <= was.Keys
    ensures var before, after := ExpireExcept(was, left, now), ExpireExcept(was, left - {key}, now);
      && before[key] == was[key]
      && (!Expires(was[key], now) ==> after == before)
      && (Expires(was[key], now) ==>
          after == before[key := was[key].(status := Expired, revision := was[key].revision + 1)])
  {}

  function CancelPeer(row: Row, root: Key, live: bool): Row {
    if row.root == root && !row.status.Cancelled? && live then row.(status := Cancelled, revision := row.revision + 1)
      else row
  }

  // The rows after the walk of cancel, up to the ones that are left.
  function CancelExcept(was: Rows, key: Key, live: set<Key>, left: set<Key>): Rows
    requires key in was
  {
    map k | k in was ::
      if k == key then was[k].(status := Cancelled, revision := was[k].revision + 1)
      else if k in left then was[k]
      else CancelPeer(was[k], was[key].root, k in live)
  }

  lemma CancelStep(was: Rows, key: Key, live: set<Key>, left: set<Key>, peer: Key)
    requires key in was && peer in left && left <= was.Keys - {key}
    ensures var before, after := CancelExcept(was, key, live, left), CancelExcept(was, key, live, left - {peer});
      && before[peer] == was[peer]
      && after == if was[peer].root == was[key].root && !was[peer].status.Cancelled? && peer in live
         then before[peer := was[peer].(status := Cancelled, revision := was[peer].revision + 1)] else before
  {}

  // After a cancel the requests of the chain are cancelled exactly where they were already or the
  // routing authorized it, every other chain is as before, and only statuses and revisions changed.
  lemma CancelReachesTheChain(was: Rows, key: Key, live: set<Key>, k: Key)
    requires key in was && k in was
    ensures var now := CancelExcept(was, key, live, {});
      && now.Keys == was.Keys && now[key].status.Cancelled?
      && (k != key && was[k].root == was[key].root ==>
            (now[k].status.Cancelled? <==> was[k].status.Cancelled? || k in live))
      && (k != key && was[k].root != was[key].root ==> now[k] == was[k])
      && now[k].(status := was[k].status, revision := was[k].revision) == was[k]
      && (now[k] != was[k] ==> now[k].revision == was[k].revision + 1)
  {}

  // A store and the native job table that it is kept consistent with.
  class Scheduler {
    const store: Store
    var jobs: Jobs

    constructor (store: Store)
      ensures this.store == store && jobs == map[]
    {
      this.store := store;
      jobs := map[];
    }

    // A reschedule under the fences of its components. The native table carries out `able` job
    // moves; when one fails the row stays held, with its change pending, for the reconciliation.
    method Reschedule(key: Key, op: string, target: int, expected: nat, components: seq<JobId>, now: int, able: nat)
      returns (r: Result<Row>)
      modifies store`rows, this`jobs
      // It succeeds exactly on a scheduled row at the revision that the caller saw, for a later
      // instant before the deadline, with every component movable and where the row says.
      ensures r.Ok? <==>
        && key in old(store.rows) && able >= |components|
        && var row := old(store.rows)[key];
           && row.status == Scheduled && row.revision == expected && now < target && target < row.deadline
           && (forall c :: c in components ==>
                 && c in old(jobs) && !old(jobs)[c].ran && !old(jobs)[c].claimed && old(jobs)[c].state.Armed?
                 && old(jobs)[c].instant == (if row.notificationJob == Some(c) then row.notificationRunAt
                                             else row.runAt))
      // Then row and components, and nothing else, are at the target.
      ensures r.Ok? ==>
        && (var row := old(store.rows)[key];
            var reminded := row.notificationJob.Some? && row.notificationJob.value in components;
            r.value == row.(runAt := target, revision := expected + 1, automaticHours := false,
                            notificationRunAt := if reminded then target else row.notificationRunAt,
                            change := Some(Change(op, target, row.runAt, false, components))))
        && store.rows == old(store.rows)[key := r.value] && jobs.Keys == old(jobs).Keys
        && (forall id :: id in jobs ==>
              jobs[id] == if id in components then old(jobs)[id].(instant := target) else old(jobs)[id])
      ensures var held := HoldForMove(old(store.rows), key, op, target, expected, components, now);
        var ready := held.Ok? && Settled(old(store.rows)[key], old(jobs), components);
        && (!ready ==> r.Err? && store.rows == old(store.rows) && jobs == old(jobs))
        && (ready && able < |components| ==>
              && r.Err? && store.rows == held.value && store.rows[key].Pending()
              && jobs == MoveAll(old(jobs), components[..able], target))
        && (ready && able >= |components| ==>
              && r.Ok? && key in store.rows && r.value == store.rows[key]
              && r.value == ApplyMove(held.value[key], target, components)
              && store.rows == old(store.rows)[key := r.value]
              && jobs == MoveAll(old(jobs), components, target)
              && r.value.runAt == target && r.value.status.Scheduled? && !r.value.Pending()
                && r.value.revision == expected + 1)
    {
      hide MoveAll, MoveJob;
      if key !in store.rows {
        return Err(Invalid);
      }
      var row := store.rows[key];
      if row.revision != expected || !row.status.Scheduled? {
        return Err(Conflict);
      }
      var i := 0;
      while i < |components|
        invariant i <= |components|
        invariant Settled(row, jobs, components[..i])
      {
        var id := components[i];
        if id !in jobs || !jobs[id].Movable() || jobs[id].instant != ExpectedAt(row, id) {
          assert id in components;
          return Err(Conflict);
        }
        i := i + 1;
        assert components[..i] == components[..i - 1] + [id];
      }
      assert components[..i] == components;
      if !(now < target < row.deadline) {
        return Err(Invalid);
      }
      row := row.(status := Holding, revision := row.revision + 1,
                  change := Some(Change(op, target, row.runAt, true, components)));
      store.rows := store.rows[key := row];
      ghost var held := store.rows;
      i := 0;
      NoMoves(jobs, target);
      assert components[..0] == [];
      while i < |components|
        invariant i <= |components| && i <= able
        invariant jobs == MoveAll(old(jobs), components[..i], target)
        invariant store.rows == held
      {
        if i == able {
          return Err(Conflict);
        }
        MoveOneMore(old(jobs), components, i, target);
        jobs := MoveJob(jobs, components[i], target);
        i := i + 1;
      }
      assert components[..i] == components;
      row := row.(runAt := target, status := Scheduled, automaticHours := false);
      if row.notificationJob.Some? && row.notificationJob.value in components {
        row := row.(notificationRunAt := target);
      }
      row := row.(change := row.Applied());
      store.rows := store.rows[key := row];
      MoveAllAt(old(jobs), components, target);
      return Ok(row);
    }
  }

  lemma NoMoves(jobs: Jobs, target: int)
    ensures MoveAll(jobs, [], target) == jobs
  {}

  lemma MoveOneMore(jobs: Jobs, components: seq<JobId>, i: nat, target: int)
    requires i < |components|
    ensures MoveAll(jobs, components[..i + 1], target) ==
      MoveJob(MoveAll(jobs, components[..i], target), components[i], target)
  {
    assert components[..i + 1][..i] == components[..i];
  }
}
