// The retry budget of a callback chain: who is charged for every further attempt.
module WorkflowBudget {
  import opened Wrappers
  import opened WorkflowRows
  import opened WorkflowLifecycle

  // One entry per retry decision that was committed.
  datatype Entry = Entry(key: Key, root: Key, charge: Charge)

  type History = seq<Entry>

  function Record(h: History, rows: Rows, t: Txn, charge: Charge): History {
    if charge.NoRetry? then h
    else
      match t
      case TRunDecision(key, _, _) => if key in rows then h + [Entry(key, rows[key].root, charge)] else h
      case TApply(key, _, _, _, _) => if key in rows then h + [Entry(key, rows[key].root, charge)] else h
      case _ => h
  }

  function Retries(h: History, key: Key): nat {
    if h == [] then 0 else Retries(h[..|h| - 1], key) + if h[|h| - 1].key == key then 1 else 0
  }

  function Charges(h: History, root: Key, kind: Charge): nat {
    if h == [] then 0
    else Charges(h[..|h| - 1], root, kind) + if h[|h| - 1].root == root && h[|h| - 1].charge == kind then 1 else 0
  }

  lemma Appended(h: History, e: Entry, key: Key, kind: Charge)
    ensures Retries(h + [e], key) == Retries(h, key) + if e.key == key then 1 else 0
    ensures Charges(h + [e], key, kind) == Charges(h, key, kind) + if e.root == key && e.charge == kind then 1 else 0
  {
    assert (h + [e])[..|h|] == h;
  }

  // Attempts already made, and the one that the row is waiting for.
  function Spent(row: Row): nat {
    |row.attempts| + if row.status.Waiting() then 1 else 0
  }

  ghost predicate BudgetOk(rows: Rows, h: History) {
    && (forall k :: k in rows ==> Spent(rows[k]) <= 1 + Retries(h, k))
    && (forall r :: r in rows && rows[r].root == r ==>
          rows[r].used == Charges(h, r, AutomaticRetry) && rows[r].used <= |rows[r].terms.delays|)
    && Traced(rows, h)
  }

  ghost predicate Traced(rows: Rows, h: History) {
    forall i :: 0 <= i < |h| ==>
      h[i].key in rows && h[i].root in rows && rows[h[i].key].root == h[i].root && !h[i].charge.NoRetry?
  }

  // ----- what one transaction spends -----

  ghost predicate Steady(rows: Rows, after: Rows) {
    && rows.Keys <= after.Keys
    && (forall k :: k in rows ==> after[k].used == rows[k].used && Spent(after[k]) <= Spent(rows[k]))
    && (forall k :: k in after && k !in rows ==> after[k].used == 0 && Spent(after[k]) <= 1)
  }

  ghost predicate Retried(rows: Rows, key: Key, after: Rows, automatic: bool) {
    && key in rows && after.Keys == rows.Keys
    && (forall k :: k in rows ==> Spent(after[k]) <= Spent(rows[k]) + if k == key then 1 else 0)
    && (forall k :: k in rows ==> after[k].used == rows[k].used + if automatic && k == rows[key].root then 1 else 0)
    && (automatic ==> rows[key].root in rows && rows[rows[key].root].used < |rows[rows[key].root].terms.delays|)
  }

  lemma ClosedIsSteady(rows: Rows, key: Key, ordinal: nat, after: Rows, d: Decision, status: Status)
    requires ClosedBy(rows, key, ordinal, after, d, status)
    ensures Steady(rows, after)
  {}

  lemma ChargedIsRetried(rows: Rows, key: Key, ordinal: nat, after: Rows, d: Decision, target: int)
    requires ChargedBy(rows, key, ordinal, after, d, target)
    ensures Retried(rows, key, after, true)
  {}

  lemma GuidanceSteady(rows: Rows, key: Key, ordinal: nat)
    ensures Steady(rows, Settle(rows, SetGuidance(rows, key, ordinal)).rows)
  {}

  lemma RunDecisionSpends(rows: Rows, key: Key, ordinal: nat, now: int, live: bool)
    ensures var v := Judged(rows, RunDecision(rows, key, ordinal, now, live));
      if v.charge.NoRetry? then Steady(rows, v.rows) else v.charge.AutomaticRetry? && Retried(rows, key, v.rows, true)
  {
    hide Steady, Retried, Routine, SetGuidance;
    Idle(rows);
    if RunDecision(rows, key, ordinal, now, live).Ok? {
      GuidanceSteady(rows, key, ordinal);
      var row, a := rows[key], rows[key].Nth(ordinal);
      if !row.status.Cancelled? && Authorized(row, now, live, false) {
        var routine := Routine(rows, key, ordinal, now);
        if routine.Ok? && routine.value.Some? {
          RoutineShape(rows, key, ordinal, now);
          var v := routine.value.value;
          if v.charge.AutomaticRetry? {
            var d, target :| ChargedBy(rows, key, ordinal, v.rows, d, target);
            ChargedIsRetried(rows, key, ordinal, v.rows, d, target);
          } else if v.rows != rows {
            var d, status :| ClosedBy(rows, key, ordinal, v.rows, d, status);
            ClosedIsSteady(rows, key, ordinal, v.rows, d, status);
          }
        } else if routine.Ok? && a.decideBy.None? {
          OneSteady(rows, key, row.WithAttempt(ordinal, a.(status := Deciding, decideBy := Some(now + 120))));
        }
      }
    }
  }

  lemma Idle(rows: Rows)
    ensures Steady(rows, rows)
  {}

  lemma OneSteady(rows: Rows, key: Key, row: Row)
    requires key in rows && row.used == rows[key].used && Spent(row) <= Spent(rows[key])
    ensures Steady(rows, rows[key := row])
  {}

  lemma ApplySpends(rows: Rows, key: Key, ordinal: nat, run: string, args: DecisionArgs, now: int, live: bool)
    ensures var v := Judged(rows, ApplyDecision(rows, key, ordinal, run, args, now, live));
      if v.charge.NoRetry? then Steady(rows, v.rows) else Retried(rows, key, v.rows, v.charge.AutomaticRetry?)
  {
    hide Steady, ApplyDecision, ChargeRoot;
    Idle(rows);
    if ApplyDecision(rows, key, ordinal, run, args, now, live).Ok? {
      ApplyShape(rows, key, ordinal, run, args, now, live);
      var v := ApplyDecision(rows, key, ordinal, run, args, now, live).value;
      var d := Decision(args.action, args.disposition, args.evidence, false);
      if v.charge.NoRetry? {
        var status :| ClosedBy(rows, key, ordinal, v.rows, d, status);
        ClosedIsSteady(rows, key, ordinal, v.rows, d, status);
      } else if v.charge.AutomaticRetry? {
        var target :| ChargedBy(rows, key, ordinal, v.rows, d, target);
        ChargedIsRetried(rows, key, ordinal, v.rows, d, target);
      }
    }
  }

  lemma RestIsSteady(rows: Rows, t: Txn, now: int)
    requires RowsOk(rows) && Checked(rows, t) && !t.TRunDecision? && !t.TApply?
    ensures Commit(rows, t, now).charge.NoRetry? && Steady(rows, Commit(rows, t, now).rows)
  {
    hide Steady, RowsOk;
    Idle(rows);
    if OnlyStatus(t) {
      hide Commit;
      if Commit(rows, t, now).rows != rows {
        StatusShape(rows, t, now);
        OneSteady(rows, t.key, Commit(rows, t, now).rows[t.key]);
      }
    } else {
      OtherSteady(rows, t, now);
    }
  }

  lemma OtherSteady(rows: Rows, t: Txn, now: int)
    requires !OnlyStatus(t) && !t.TRunDecision? && !t.TApply?
    ensures Steady(rows, Commit(rows, t, now).rows)
  {
    hide Steady;
    Idle(rows);
    match t
    case TCreate(name, terms, offset) => CreateSteady(rows, OwnerRequest(name), terms.(root := None), offset, now);
    case TClaim(key, job, execution, scheduled) =>
      var c := Claim(rows, key, job, execution, scheduled, now);
      if c.Ok? && c.value.created { OneSteady(rows, key, c.value.rows[key]); }
    case TCallback(key, ordinal, name, target, live) =>
      var r := RequestCallback(rows, key, ordinal, name, target, now, live);
      if r.Ok? && rows[key].Nth(ordinal).callback.None? {
        var row, child := rows[key], CallbackRequest(key, ordinal, name);
        var linked := rows[key := row.WithAttempt(ordinal, row.Nth(ordinal).(callback := Some(child)))];
        OneSteady(rows, key, linked[key]);
        CreateSteady(linked, child, CallbackTerms(row, rows[row.root], target), row.offset, now);
        SteadyTwice(rows, linked, r.value);
      }
    case TGuidance(key, ordinal) => GuidanceSteady(rows, key, ordinal);
    case TExpire => ExpireSteady(rows, now);
    case TObserving(key, ordinal) =>
      if MarkObserving(rows, key, ordinal).Ok? {
        OneSteady(rows, key, MarkObserving(rows, key, ordinal).value[key]);
      }
    case TOutcome(key, ordinal, outcome) =>
      if RecordOutcome(rows, key, ordinal, outcome).Ok? {
        OneSteady(rows, key, RecordOutcome(rows, key, ordinal, outcome).value[key]);
      }
    case TBindRun(key, ordinal, run, live) =>
      var r := BindDecisionRun(rows, key, ordinal, run, now, live);
      if r.Ok? { OneSteady(rows, key, r.value[key]); }
  }

  lemma CreateSteady(rows: Rows, key: Key, terms: Terms, offset: int, now: int)
    ensures var r := Create(rows, key, terms, offset, now); r.Ok? ==> Steady(rows, r.value)
  {}

  lemma SteadyTwice(rows: Rows, mid: Rows, after: Rows)
    requires Steady(rows, mid) && Steady(mid, after) && mid.Keys == rows.Keys
    ensures Steady(rows, after)
  {}

  lemma ExpireSteady(rows: Rows, now: int)
    ensures Steady(rows, ExpireAll(rows, now))
  {}

  // ----- the ledger over one transaction -----

  lemma SameTerms(rows: Rows, after: Rows)
    requires AllEvolve(rows, after)
    ensures rows.Keys <= after.Keys
    ensures forall k :: k in rows ==> after[k].terms == rows[k].terms && after[k].root == rows[k].root
  {}

  lemma SteadyKeeps(rows: Rows, after: Rows, h: History)
    requires BudgetOk(rows, h) && Steady(rows, after) && AllEvolve(rows, after)
    ensures BudgetOk(after, h)
  {
    hide AllEvolve, Retries, Charges;
    SameTerms(rows, after);
    forall k | k in after && k !in rows ensures Charges(h, k, AutomaticRetry) == 0 {
      NoCharge(rows, h, k);
    }
  }

  // A chain is charged only after its root was saved.
  lemma {:induction false} NoCharge(rows: Rows, h: History, root: Key)
    requires Traced(rows, h) && root !in rows
    ensures Charges(h, root, AutomaticRetry) == 0
  {
    if h != [] { NoCharge(rows, h[..|h| - 1], root); }
  }

  lemma RetryKeeps(rows: Rows, key: Key, after: Rows, h: History, charge: Charge)
    requires BudgetOk(rows, h) && AllEvolve(rows, after) && RowsOk(rows) && !charge.NoRetry?
    requires Retried(rows, key, after, charge.AutomaticRetry?)
    ensures BudgetOk(after, h + [Entry(key, rows[key].root, charge)])
  {
    hide AllEvolve, RowsOk, Retries, Charges, Spent;
    RootKnown(rows, key);
    SameTerms(rows, after);
    var e := Entry(key, rows[key].root, charge);
    forall k | k in after ensures Spent(after[k]) <= 1 + Retries(h + [e], k) {
      Appended(h, e, k, AutomaticRetry);
    }
    forall r | r in after && after[r].root == r
      ensures after[r].used == Charges(h + [e], r, AutomaticRetry) && after[r].used <= |after[r].terms.delays|
    {
      Appended(h, e, r, AutomaticRetry);
    }
  }

  // Every transaction keeps the ledger balanced.
  lemma CommitKeepsBudget(rows: Rows, t: Txn, now: int, h: History)
    requires RowsOk(rows) && Checked(rows, t) && BudgetOk(rows, h)
    ensures var v := Commit(rows, t, now); BudgetOk(v.rows, Record(h, rows, t, v.charge))
  {
    hide RowsOk, AllEvolve, BudgetOk, Steady, Retried, RunDecision, ApplyDecision;
    CommitKeeps(rows, t, now);
    var v := Commit(rows, t, now);
    match t
    case TRunDecision(key, ordinal, live) =>
      RunDecisionSpends(rows, key, ordinal, now, live);
      Booked(rows, key, v, h);
    case TApply(key, ordinal, run, args, live) =>
      ApplySpends(rows, key, ordinal, run, args, now, live);
      Booked(rows, key, v, h);
    case _ =>
      hide Commit;
      RestIsSteady(rows, t, now);
      SteadyKeeps(rows, v.rows, h);
  }

  lemma Booked(rows: Rows, key: Key, v: Verdict, h: History)
    requires RowsOk(rows) && BudgetOk(rows, h) && AllEvolve(rows, v.rows)
    requires if v.charge.NoRetry? then Steady(rows, v.rows) else Retried(rows, key, v.rows, v.charge.AutomaticRetry?)
    ensures v.charge.NoRetry? ==> BudgetOk(v.rows, h)
    ensures !v.charge.NoRetry? ==> key in rows && BudgetOk(v.rows, h + [Entry(key, rows[key].root, v.charge)])
  {
    hide BudgetOk, AllEvolve, RowsOk, Steady;
    if v.charge.NoRetry? { SteadyKeeps(rows, v.rows, h); } else { RetryKeeps(rows, key, v.rows, h, v.charge); }
  }

  // ----- what the ledger says about a whole chain -----

  function Chain(rows: Rows, root: Key): set<Key> {
    set k | k in rows && rows[k].root == root
  }

  ghost function AttemptsOf(rows: Rows, keys: set<Key>): nat
    requires keys <= rows.Keys
  {
    if keys == {} then 0
    else
      var k :| k in keys;
      |rows[k].attempts| + AttemptsOf(rows, keys - {k})
  }

  function RetriesIn(h: History, keys: set<Key>): nat {
    if h == [] then 0 else RetriesIn(h[..|h| - 1], keys) + if h[|h| - 1].key in keys then 1 else 0
  }

  lemma {:induction false} RetriesSplit(h: History, keys: set<Key>, k: Key)
    requires k in keys
    ensures RetriesIn(h, keys) == Retries(h, k) + RetriesIn(h, keys - {k})
  {
    if h != [] { RetriesSplit(h[..|h| - 1], keys, k); }
  }

  lemma {:induction false} AttemptsBound(rows: Rows, h: History, keys: set<Key>)
    requires BudgetOk(rows, h) && keys <= rows.Keys
    ensures AttemptsOf(rows, keys) <= |keys| + RetriesIn(h, keys)
    decreases keys
  {
    if keys != {} {
      var k :| k in keys && AttemptsOf(rows, keys) == |rows[k].attempts| + AttemptsOf(rows, keys - {k});
      AttemptsBound(rows, h, keys - {k});
      RetriesSplit(h, keys, k);
    }
  }

  lemma {:induction false} ChainRetries(rows: Rows, h: History, root: Key)
    requires Traced(rows, h)
    ensures RetriesIn(h, Chain(rows, root)) == Charges(h, root, AutomaticRetry) + Charges(h, root, TimedRetry)
  {
    if h != [] { ChainRetries(rows, h[..|h| - 1], root); }
  }

  // The chain of a root: what its rows were charged together is what the root records and
  // stays within the configured delays, and every attempt beyond one per row was paid for.
  lemma ChainWithinBudget(rows: Rows, h: History, root: Key)
    requires BudgetOk(rows, h) && root in rows && rows[root].root == root
    ensures rows[root].used == Charges(h, root, AutomaticRetry) <= |rows[root].terms.delays|
    ensures AttemptsOf(rows, Chain(rows, root)) <= |Chain(rows, root)| + rows[root].used + Charges(h, root, TimedRetry)
  {
    AttemptsBound(rows, h, Chain(rows, root));
    ChainRetries(rows, h, root);
  }
}
