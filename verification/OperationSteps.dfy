// Every act of reschedules under operation identities keeps what the table promises.
module OperationSteps {
  import opened Wrappers
  import opened WorkflowRows
  import opened WorkflowOperations
  import WorkflowLifecycle
  import WorkflowSchedule
  import WorkflowAlignment
  import WorkflowSteps
  import WorkflowTheorems
  import Frames = WorkflowFrames

  type Table = Operations<Request, Row>

  // ----- Invariant -----

  // Every move in the schedule belongs to the call with its number.
  ghost predicate MoversOk(procs: WorkflowSchedule.Procs, calls: map<nat, Call>, held: seq<string>) {
    forall pid :: pid in procs && Frames.Mover(procs[pid]) ==>
      var p := procs[pid];
      && pid in calls && calls[pid].Working? && calls[pid].op == p.op
      && calls[pid].request == Request(p.key, p.target, p.expected)
      && (p.Moving? <==> p.op in held)
  }

  ghost predicate CallsOk(h: Hub) {
    && (forall pid :: pid in h.calls ==>
          var c := h.calls[pid];
          && c.op in h.ops && h.ops[c.op].payload == c.request
          && (c.Announced? ==> c.op !in h.held)
          && (c.Moved? ==> c.op in h.produced && (c.op !in h.overtaken ==> h.produced[c.op] == c.row)))
    && (forall p, q :: p in h.calls && q in h.calls && p != q ==> h.calls[p].op != h.calls[q].op)
  }

  // A change belongs to an operation that took hold of this row.
  predicate Linked(c: Change, key: Key, ops: Table, held: seq<string>) {
    c.op in held && c.op in ops && ops[c.op].payload.key == key && ops[c.op].payload.target == c.target
  }

  // A row that is held at the very revision of an operation is still waiting for that operation.
  ghost predicate HeldOk(rows: Rows, ops: Table, held: seq<string>, done: seq<string>) {
    forall op :: op in held ==>
      && op in ops && ops[op].payload.key in rows
      && var row, expected := rows[ops[op].payload.key], ops[op].payload.expected;
         && expected < row.revision
         && (row.status.Holding? && row.revision == expected + 1 ==>
               row.Pending() && row.change.value.op == op && op !in done)
  }

  ghost predicate ChangesOk(rows: Rows, ops: Table, held: seq<string>, done: seq<string>, overtaken: set<string>) {
    forall k :: k in rows && rows[k].change.Some? ==>
      var c := rows[k].change.value;
      && Linked(c, k, ops, held)
      && (c.pending ==> c.op !in done)
      && (!c.pending && overtaken == {} ==> c.op in done)
  }

  // A pending change is never another one of the same operation.
  ghost predicate CopiesOk(procs: WorkflowSchedule.Procs, rows: Rows, ops: Table, held: seq<string>) {
    forall pid :: pid in procs && Frames.Copy(procs[pid]) ==>
      var p := procs[pid];
      && p.change.pending && Linked(p.change, p.key, ops, held) && p.key in rows
      && (rows[p.key].Pending() && rows[p.key].change.value.op == p.change.op ==>
            rows[p.key].change == Some(p.change))
  }

  // Without an overlap nothing happens to a row between taking hold and letting go.
  ghost predicate RevisionsOk(rows: Rows, hazard: set<Key>, ops: Table) {
    forall k :: k in rows && k !in hazard && rows[k].Pending() && rows[k].status.Holding? ==>
      && rows[k].change.value.op in ops
      && rows[k].revision == ops[rows[k].change.value.op].payload.expected + 1
  }

  ghost predicate Distinct(s: seq<string>) {
    forall i, j :: 0 <= i < j < |s| ==> s[i] != s[j]
  }

  // The row is scheduled where the request wanted it, its change on record as applied, and it
  // was changed since the caller saw it.
  predicate Fulfils(op: string, row: Row, request: Request) {
    && row.status.Scheduled? && row.runAt == request.target && request.expected < row.revision
    && row.change.Some? && row.change.value.op == op && !row.change.value.pending
  }

  ghost predicate HistoryOk(h: Hub) {
    && Distinct(h.held)
    && (forall op :: op in h.done <==> op in h.produced)
    && (forall op :: op in h.done ==> op in h.held && op in h.ops)
    && h.overtaken <= h.produced.Keys
    && (forall i, j :: 0 <= i < j < |h.done| && h.done[i] == h.done[j] ==> h.done[i] in h.overtaken)
  }

  ghost predicate ResultsOk(h: Hub) {
    && (forall op :: op in h.overtaken ==> op in h.ops && h.ops[op].payload.key in h.base.hazard)
    && (forall op :: op in h.produced ==> op in h.ops && h.produced[op].runAt == h.ops[op].payload.target)
    && (forall op :: op in h.produced && op !in h.overtaken ==>
          && op in h.ops && Fulfils(op, h.produced[op], h.ops[op].payload)
          && (h.produced[op].revision == h.ops[op].payload.expected + 1 || h.ops[op].payload.key in h.base.hazard))
    && (forall op :: op in h.ops && h.ops[op].result.Some? ==>
          op in h.produced && (op !in h.overtaken ==> h.ops[op].result.value == h.produced[op]))
    && (forall r :: r in h.replies ==>
          r.op in h.produced && (r.op !in h.overtaken ==> r.row == h.produced[r.op]))
  }

  ghost predicate Inv(h: Hub) {
    && WorkflowAlignment.Inv(h.base)
    && MoversOk(h.base.procs, h.calls, h.held)
    && CallsOk(h)
    && HeldOk(h.base.rows, h.ops, h.held, h.done)
    && ChangesOk(h.base.rows, h.ops, h.held, h.done, h.overtaken)
    && CopiesOk(h.base.procs, h.base.rows, h.ops, h.held)
    && RevisionsOk(h.base.rows, h.base.hazard, h.ops)
    && HistoryOk(h) && ResultsOk(h)
  }

  // An operation keeps its payload, and its saved result unless it was overtaken.
  ghost predicate Keeps(a: Hub, b: Hub) {
    && a.overtaken <= b.overtaken
    && forall op :: op in a.ops ==>
      && op in b.ops && b.ops[op].payload == a.ops[op].payload
      && (a.ops[op].result.Some? ==>
            b.ops[op].result.Some? && (op !in b.overtaken ==> b.ops[op].result == a.ops[op].result))
  }

  // ----- Acts that only touch the table -----

  ghost predicate SamePayloads(a: Table, b: Table) {
    forall op :: op in a ==> op in b && b[op].payload == a[op].payload
  }

  // What hangs on the rows does not notice.
  lemma TableFrame(h: Hub, t: Hub)
    requires HeldOk(h.base.rows, h.ops, h.held, h.done)
    requires ChangesOk(h.base.rows, h.ops, h.held, h.done, h.overtaken)
    requires CopiesOk(h.base.procs, h.base.rows, h.ops, h.held)
    requires RevisionsOk(h.base.rows, h.base.hazard, h.ops) && HistoryOk(h)
    requires SamePayloads(h.ops, t.ops) && t == h.(ops := t.ops, calls := t.calls, replies := t.replies)
    ensures HeldOk(t.base.rows, t.ops, t.held, t.done)
    ensures ChangesOk(t.base.rows, t.ops, t.held, t.done, t.overtaken)
    ensures CopiesOk(t.base.procs, t.base.rows, t.ops, t.held)
    ensures RevisionsOk(t.base.rows, t.base.hazard, t.ops) && HistoryOk(t)
  {
    hide SamePayloads, HeldOk, ChangesOk, CopiesOk, RevisionsOk, HistoryOk;
    SameHeld(h.base.rows, h.ops, t.ops, h.held, h.done);
    SameChanges(h.base.rows, h.ops, t.ops, h.held, h.done, h.overtaken);
    SameCopied(h.base.procs, h.base.rows, h.ops, t.ops, h.held);
    SameRevisions(h.base.rows, h.base.hazard, h.ops, t.ops);
    SameHistory(h, t);
  }

  lemma SameHeld(rows: Rows, ops: Table, after: Table, held: seq<string>, done: seq<string>)
    requires HeldOk(rows, ops, held, done) && SamePayloads(ops, after)
    ensures HeldOk(rows, after, held, done)
  {}

  lemma SameChanges(rows: Rows, ops: Table, after: Table, held: seq<string>, done: seq<string>, overtaken: set<string>)
    requires ChangesOk(rows, ops, held, done, overtaken) && SamePayloads(ops, after)
    ensures ChangesOk(rows, after, held, done, overtaken)
  {}

  lemma SameCopied(procs: WorkflowSchedule.Procs, rows: Rows, ops: Table, after: Table, held: seq<string>)
    requires CopiesOk(procs, rows, ops, held) && SamePayloads(ops, after)
    ensures CopiesOk(procs, rows, after, held)
  {}

  lemma SameRevisions(rows: Rows, hazard: set<Key>, ops: Table, after: Table)
    requires RevisionsOk(rows, hazard, ops) && SamePayloads(ops, after)
    ensures RevisionsOk(rows, hazard, after)
  {}

  lemma SameHistory(h: Hub, t: Hub)
    requires HistoryOk(h) && SamePayloads(h.ops, t.ops)
    requires t == h.(ops := t.ops, calls := t.calls, replies := t.replies)
    ensures HistoryOk(t)
  {}

  lemma AskKeeps(h: Hub, pid: nat, op: string, request: Request)
    requires Inv(h)
    ensures Inv(DoAsk(h, pid, op, request)) && Keeps(h, DoAsk(h, pid, op, request))
  {
    hide WorkflowAlignment.Inv, HeldOk, ChangesOk, CopiesOk, RevisionsOk, CallsOk, MoversOk, ResultsOk, HistoryOk;
    var t := DoAsk(h, pid, op, request);
    if t != h {
      HeldKnown(h);
      TableFrame(h, t);
      AskedCalls(h, pid, op, request);
      AskedResults(h, pid, op, request);
      AskedMovers(h, pid, op, request);
    }
  }

  lemma AskedCalls(h: Hub, pid: nat, op: string, request: Request)
    requires CallsOk(h) && forall o :: o in h.held ==> o in h.ops
    ensures CallsOk(DoAsk(h, pid, op, request))
  {}

  lemma AskedResults(h: Hub, pid: nat, op: string, request: Request)
    requires ResultsOk(h)
    ensures ResultsOk(DoAsk(h, pid, op, request)) && Keeps(h, DoAsk(h, pid, op, request))
  {}

  lemma AskedMovers(h: Hub, pid: nat, op: string, request: Request)
    requires MoversOk(h.base.procs, h.calls, h.held)
    ensures MoversOk(h.base.procs, DoAsk(h, pid, op, request).calls, h.held)
  {}

  lemma HeldKnown(h: Hub)
    requires HeldOk(h.base.rows, h.ops, h.held, h.done)
    ensures forall op :: op in h.held ==> op in h.ops
  {}

  lemma SaveKeeps(h: Hub, pid: nat)
    requires Inv(h)
    ensures Inv(DoSave(h, pid)) && Keeps(h, DoSave(h, pid))
  {
    hide WorkflowAlignment.Inv, HeldOk, ChangesOk, CopiesOk, RevisionsOk, HistoryOk, ResultsOk;
    TableFrame(h, DoSave(h, pid));
    SavedResults(h, pid);
  }

  lemma SavedResults(h: Hub, pid: nat)
    requires ResultsOk(h) && CallsOk(h)
    ensures ResultsOk(DoSave(h, pid)) && Keeps(h, DoSave(h, pid))
  {}

  lemma AnswerKeeps(h: Hub, reply: Reply)
    requires Inv(h)
    ensures Inv(DoAnswer(h, reply)) && Keeps(h, DoAnswer(h, reply))
  {
    hide WorkflowAlignment.Inv, HeldOk, ChangesOk, CopiesOk, RevisionsOk, HistoryOk;
    TableFrame(h, DoAnswer(h, reply));
  }

  // ----- Ordinary steps of the schedule -----

  lemma SteadyHeld(rows: Rows, after: Rows, ops: Table, held: seq<string>, done: seq<string>)
    requires HeldOk(rows, ops, held, done) && Frames.SteadyStep(rows, after)
    ensures HeldOk(after, ops, held, done)
  {}

  lemma SteadyChanges(rows: Rows, after: Rows, ops: Table, held: seq<string>, done: seq<string>, overtaken: set<string>)
    requires ChangesOk(rows, ops, held, done, overtaken) && Frames.SteadyStep(rows, after)
    ensures ChangesOk(after, ops, held, done, overtaken)
  {}

  lemma SteadyRevisions(s: WorkflowSchedule.State, t: WorkflowSchedule.State, ops: Table)
    requires RevisionsOk(s.rows, s.hazard, ops) && Frames.SteadyStep(s.rows, t.rows) && s.hazard <= t.hazard
    requires WorkflowAlignment.Inv(s)
    ensures RevisionsOk(t.rows, t.hazard, ops)
  {
    hide WorkflowAlignment.RowSchedule, WorkflowLifecycle.RowsOk, WorkflowAlignment.ProcsOk, WorkflowAlignment.ExecsOk,
      WorkflowAlignment.FencesOk;
    forall k | k in t.rows && k !in t.hazard && t.rows[k].Pending() && t.rows[k].status.Holding?
      ensures t.rows[k].change.value.op in ops
      ensures t.rows[k].revision == ops[t.rows[k].change.value.op].payload.expected + 1
    {
      assert Frames.WorkflowSteps.KeepsChange(s.rows[k], t.rows[k]);
      PendingIsDecided(s, k);
    }
  }

  lemma PendingIsDecided(s: WorkflowSchedule.State, k: Key)
    requires WorkflowAlignment.Inv(s) && k in s.rows && k !in s.hazard
    ensures s.rows[k].Pending() ==> !WorkflowLifecycle.Undecided(s.rows[k])
  {
    assert WorkflowAlignment.RowSchedule(s.rows[k], s.jobs, false, k);
  }

  lemma SteadyCopies(s: WorkflowSchedule.State, t: WorkflowSchedule.State, step: WorkflowSchedule.Step, ops: Table,
                     held: seq<string>, done: seq<string>, overtaken: set<string>)
    requires CopiesOk(s.procs, s.rows, ops, held) && ChangesOk(s.rows, ops, held, done, overtaken)
    requires Frames.SteadyStep(s.rows, t.rows) && Frames.SameCopies(s, t, step)
    ensures CopiesOk(t.procs, t.rows, ops, held)
  {}

  lemma SteadyMovers(s: WorkflowSchedule.State, t: WorkflowSchedule.State, step: WorkflowSchedule.Step,
                     calls: map<nat, Call>, held: seq<string>)
    requires MoversOk(s.procs, calls, held) && Frames.SameMovers(s, t, step)
    requires step.HoldMove? && step.pid in t.procs && t.procs[step.pid].Moving? && step.pid in s.procs ==>
      s.procs[step.pid].Moving?
    ensures MoversOk(t.procs, calls, held)
  {}

  lemma OrdinaryKeeps(h: Hub, step: WorkflowSchedule.Step)
    requires Inv(h) && !step.Crash? && !step.ReadMove? && !Frames.Special(h.base, step)
    ensures Inv(DoSchedule(h, step)) && Keeps(h, DoSchedule(h, step))
  {
    hide WorkflowSchedule.Do, WorkflowAlignment.Inv, MoversOk, CallsOk, HeldOk, ChangesOk, CopiesOk, RevisionsOk,
      HistoryOk, Frames.SteadyStep, Frames.SameMovers, Frames.SameCopies;
    var s, t := h.base, WorkflowSchedule.Do(h.base, step);
    RowsWell(s);
    WorkflowSteps.StepKeeps(s, step);
    Frames.OrdinarySteps(s, step);
    Frames.FlagsStay(s, step);
    Frames.ScheduleMovers(s, step);
    Frames.ScheduleCopies(s, step);
    SteadyHeld(s.rows, t.rows, h.ops, h.held, h.done);
    SteadyChanges(s.rows, t.rows, h.ops, h.held, h.done, h.overtaken);
    SteadyRevisions(s, t, h.ops);
    SteadyCopies(s, t, step, h.ops, h.held, h.done, h.overtaken);
    NothingHeld(s, t, step);
    SteadyMovers(s, t, step, h.calls, h.held);
    CallsFrame(h, DoSchedule(h, step));
    HistoryFrame(h, DoSchedule(h, step));
  }

  lemma NothingHeld(s: WorkflowSchedule.State, t: WorkflowSchedule.State, step: WorkflowSchedule.Step)
    requires t == WorkflowSchedule.Do(s, step) && Frames.SameMovers(s, t, step) && !Frames.Holds(s, step)
    ensures step.HoldMove? && step.pid in t.procs && t.procs[step.pid].Moving? && step.pid in s.procs ==>
      s.procs[step.pid].Moving?
  {
    hide WorkflowSchedule.Do;
  }

  lemma RowsWell(s: WorkflowSchedule.State)
    requires WorkflowAlignment.Inv(s)
    ensures WorkflowLifecycle.RowsOk(s.rows)
  {}

  lemma CallsFrame(h: Hub, t: Hub)
    requires CallsOk(h) && t == h.(base := t.base)
    ensures CallsOk(t)
  {}

  lemma HistoryFrame(h: Hub, t: Hub)
    requires HistoryOk(h) && t == h.(base := t.base, calls := t.calls)
    ensures HistoryOk(t)
  {}

  // ----- Reading and crashing -----

  lemma ReadKeeps(h: Hub, pid: nat)
    requires Inv(h)
    ensures Inv(DoRead(h, pid)) && Keeps(h, DoRead(h, pid))
  {
    hide WorkflowSchedule.Do, WorkflowAlignment.Inv, HeldOk, ChangesOk, RevisionsOk, HistoryOk, CallsOk, MoversOk,
      CopiesOk;
    if pid in h.calls && h.calls[pid].Announced? {
      var c := h.calls[pid];
      var step := WorkflowSchedule.ReadMove(pid, c.request.key, c.op, c.request.target, c.request.expected);
      WorkflowSteps.StepKeeps(h.base, step);
      ReadIs(h.base, pid, c.request.key, c.op, c.request.target, c.request.expected);
      ReadCalls(h, pid);
      ReadMovers(h, pid);
      ReadCopies(h, pid);
      HistoryFrame(h, DoRead(h, pid));
    }
  }

  lemma ReadIs(s: WorkflowSchedule.State, pid: nat, key: Key, op: string, target: int, expected: nat)
    ensures var t := WorkflowSchedule.Do(s, WorkflowSchedule.ReadMove(pid, key, op, target, expected));
      && t.rows == s.rows && t.hazard == s.hazard
      && if pid in s.procs || key !in s.rows then t.procs == s.procs
         else
           && t.procs == s.procs[pid := t.procs[pid]] && pid in t.procs && t.procs[pid].MoveRead?
           && t.procs[pid].key == key && t.procs[pid].op == op && t.procs[pid].target == target
           && t.procs[pid].expected == expected
  {
    hide WorkflowSchedule.PendingComponents;
  }

  lemma ReadCalls(h: Hub, pid: nat)
    requires CallsOk(h) && pid in h.calls && h.calls[pid].Announced?
    ensures CallsOk(DoRead(h, pid))
  {
    hide WorkflowSchedule.Do;
  }

  lemma ReadMovers(h: Hub, pid: nat)
    requires MoversOk(h.base.procs, h.calls, h.held) && CallsOk(h)
    ensures MoversOk(DoRead(h, pid).base.procs, DoRead(h, pid).calls, h.held)
  {
    hide WorkflowSchedule.Do;
    if pid in h.calls && h.calls[pid].Announced? {
      var c := h.calls[pid];
      ReadIs(h.base, pid, c.request.key, c.op, c.request.target, c.request.expected);
    }
  }

  lemma ReadCopies(h: Hub, pid: nat)
    requires CopiesOk(h.base.procs, h.base.rows, h.ops, h.held)
    ensures CopiesOk(DoRead(h, pid).base.procs, DoRead(h, pid).base.rows, h.ops, h.held)
  {
    hide WorkflowSchedule.Do;
    if pid in h.calls && h.calls[pid].Announced? {
      var c := h.calls[pid];
      ReadIs(h.base, pid, c.request.key, c.op, c.request.target, c.request.expected);
    }
  }

  lemma CrashKeeps(h: Hub)
    requires Inv(h)
    ensures Inv(DoSchedule(h, WorkflowSchedule.Crash)) && Keeps(h, DoSchedule(h, WorkflowSchedule.Crash))
  {
    hide WorkflowAlignment.Inv, HeldOk, ChangesOk, RevisionsOk, HistoryOk, ResultsOk, WorkflowSchedule.Do;
    WorkflowSteps.StepKeeps(h.base, WorkflowSchedule.Crash);
    CrashIs(h.base);
    CrashHistory(h, DoSchedule(h, WorkflowSchedule.Crash));
  }

  lemma CrashIs(s: WorkflowSchedule.State)
    ensures WorkflowSchedule.Do(s, WorkflowSchedule.Crash) == s.(procs := map[])
  {}

  lemma CrashHistory(h: Hub, t: Hub)
    requires HistoryOk(h) && ResultsOk(h)
    requires t == h.(base := t.base, calls := map[], replies := {}) && t.base.hazard == h.base.hazard
    ensures HistoryOk(t) && ResultsOk(t) && Keeps(h, t)
  {}

  // ----- Taking hold of a row -----

  lemma HoldKeeps(h: Hub, step: WorkflowSchedule.Step)
    requires Inv(h) && Frames.Holds(h.base, step)
    ensures Inv(DoSchedule(h, step)) && Keeps(h, DoSchedule(h, step))
  {
    hide WorkflowSchedule.Do, WorkflowAlignment.Inv, MoversOk, CallsOk, HeldOk, ChangesOk, CopiesOk, RevisionsOk,
      HistoryOk, ResultsOk;
    var s, t, p := h.base, WorkflowSchedule.Do(h.base, step), h.base.procs[step.pid];
    WorkflowSteps.StepKeeps(s, step);
    Frames.FlagsStay(s, step);
    Frames.HoldIs(s, step);
    HeldIsNew(h, step.pid);
    HoldRows(h, step.pid, t.rows);
    HoldRevisions(h, step.pid, t.rows, t.hazard);
    HoldCopies(h, step.pid, t.procs, t.rows);
    HoldCalls(h, step.pid, DoSchedule(h, step));
    HoldHistory(h, p.op, DoSchedule(h, step));
    HoldResults(h, p.op, DoSchedule(h, step));
  }

  lemma HoldResults(h: Hub, op: string, t: Hub)
    requires ResultsOk(h) && t == h.(base := t.base, held := h.held + [op]) && h.base.hazard <= t.base.hazard
    ensures ResultsOk(t) && Keeps(h, t)
  {}

  lemma HeldIsNew(h: Hub, pid: nat)
    requires MoversOk(h.base.procs, h.calls, h.held) && CallsOk(h) && HistoryOk(h)
    requires pid in h.base.procs && h.base.procs[pid].MoveRead?
    ensures var p := h.base.procs[pid];
      && p.op !in h.held && p.op !in h.done && p.op in h.ops
      && h.ops[p.op].payload == Request(p.key, p.target, p.expected)
      && pid in h.calls && h.calls[pid].Working? && h.calls[pid].op == p.op
  {
    assert Frames.Mover(h.base.procs[pid]);
  }

  lemma HoldRows(h: Hub, pid: nat, after: Rows)
    requires HeldOk(h.base.rows, h.ops, h.held, h.done)
    requires ChangesOk(h.base.rows, h.ops, h.held, h.done, h.overtaken)
    requires pid in h.base.procs && h.base.procs[pid].MoveRead?
    requires var p := h.base.procs[pid];
      && p.op !in h.held && p.op !in h.done && p.op in h.ops
      && h.ops[p.op].payload == Request(p.key, p.target, p.expected)
      && p.key in h.base.rows && h.base.rows[p.key].revision == p.expected
      && after == h.base.rows[p.key := WorkflowSteps.HeldForMove(h.base.rows[p.key], p.op, p.target, p.components)]
    ensures var held := h.held + [h.base.procs[pid].op];
      HeldOk(after, h.ops, held, h.done) && ChangesOk(after, h.ops, held, h.done, h.overtaken)
  {}

  lemma HoldRevisions(h: Hub, pid: nat, after: Rows, hazard: set<Key>)
    requires RevisionsOk(h.base.rows, h.base.hazard, h.ops) && h.base.hazard <= hazard
    requires pid in h.base.procs && h.base.procs[pid].MoveRead?
    requires var p := h.base.procs[pid];
      && p.op in h.ops && h.ops[p.op].payload == Request(p.key, p.target, p.expected)
      && p.key in h.base.rows && h.base.rows[p.key].revision == p.expected
      && after == h.base.rows[p.key := WorkflowSteps.HeldForMove(h.base.rows[p.key], p.op, p.target, p.components)]
    ensures RevisionsOk(after, hazard, h.ops)
  {}

  lemma HoldCopies(h: Hub, pid: nat, procs: WorkflowSchedule.Procs, after: Rows)
    requires CopiesOk(h.base.procs, h.base.rows, h.ops, h.held)
    requires pid in h.base.procs && h.base.procs[pid].MoveRead?
    requires var p := h.base.procs[pid];
      && p.op !in h.held && p.key in h.base.rows
      && after == h.base.rows[p.key := WorkflowSteps.HeldForMove(h.base.rows[p.key], p.op, p.target, p.components)]
      && procs == h.base.procs[pid := WorkflowSchedule.Moving(p.key, p.op, p.target, p.expected, p.components, 0)]
    ensures CopiesOk(procs, after, h.ops, h.held + [h.base.procs[pid].op])
  {}

  lemma HoldCalls(h: Hub, pid: nat, t: Hub)
    requires CallsOk(h) && MoversOk(h.base.procs, h.calls, h.held) && pid in h.base.procs && h.base.procs[pid].MoveRead?
    requires var p := h.base.procs[pid];
      && pid in h.calls && h.calls[pid].Working? && h.calls[pid].op == p.op
      && t == h.(base := t.base, held := h.held + [p.op])
      && t.base.procs ==
         h.base.procs[pid := WorkflowSchedule.Moving(p.key, p.op, p.target, p.expected, p.components, 0)]
    ensures CallsOk(t) && MoversOk(t.base.procs, t.calls, t.held)
  {}

  lemma HoldHistory(h: Hub, op: string, t: Hub)
    requires HistoryOk(h) && op !in h.held && t == h.(base := t.base, held := h.held + [op])
    ensures HistoryOk(t)
  {}

  // ----- Writing the target to the row -----

  // Whoever writes it: the row is let go, and its change is not pending any more.
  lemma AppliedRows(h: Hub, key: Key, row: Row, op: string, stale: bool)
    requires HeldOk(h.base.rows, h.ops, h.held, h.done)
    requires ChangesOk(h.base.rows, h.ops, h.held, h.done, h.overtaken)
    requires key in h.base.rows && op in h.held && h.ops[op].payload.key == key
    requires row == h.base.rows[key].(runAt := row.runAt, status := Scheduled, change := h.base.rows[key].Applied(),
                                      notificationRunAt := row.notificationRunAt, automaticHours := false)
    requires !stale ==> h.base.rows[key].change.Some? && h.base.rows[key].change.value.op == op
    ensures var after, done := h.base.rows[key := row], h.done + [op];
      && HeldOk(after, h.ops, h.held, done)
      && ChangesOk(after, h.ops, h.held, done, if stale then h.overtaken + {op} else h.overtaken)
  {}

  lemma AppliedRevisions(h: Hub, key: Key, row: Row)
    requires RevisionsOk(h.base.rows, h.base.hazard, h.ops) && row.status.Scheduled?
    ensures RevisionsOk(h.base.rows[key := row], h.base.hazard, h.ops)
  {}

  lemma AppliedCopies(h: Hub, pid: nat, key: Key, row: Row)
    requires CopiesOk(h.base.procs, h.base.rows, h.ops, h.held) && !row.Pending() && key in h.base.rows
    ensures CopiesOk(h.base.procs - {pid}, h.base.rows[key := row], h.ops, h.held)
  {}

  lemma FewerMovers(procs: WorkflowSchedule.Procs, pid: nat, calls: map<nat, Call>, held: seq<string>)
    requires MoversOk(procs, calls, held)
    ensures MoversOk(procs - {pid}, calls, held)
  {}

  lemma MoveKeeps(h: Hub, step: WorkflowSchedule.Step)
    requires Inv(h) && Frames.Moves(h.base, step)
    ensures Inv(DoSchedule(h, step)) && Keeps(h, DoSchedule(h, step))
  {
    hide WorkflowSchedule.Do, WorkflowAlignment.Inv, MoversOk, CallsOk, HeldOk, ChangesOk, CopiesOk, RevisionsOk,
      HistoryOk, ResultsOk, CommitMove, DoSchedule, ApplyMove;
    var s, t, pid, p := h.base, DoSchedule(h, step), step.pid, h.base.procs[step.pid];
    WorkflowSteps.StepKeeps(s, step);
    Frames.MoveIs(s, step);
    var row := ApplyMove(s.rows[p.key], p.target, p.components);
    StillWaiting(h, pid);
    AppliedIs(s.rows[p.key], p.target, p.components);
    AppliedRows(h, p.key, row, p.op, false);
    AppliedRevisions(h, p.key, row);
    AppliedCopies(h, pid, p.key, row);
    MoveIsDone(h, step);
    MovedCalls(h, pid, row, t);
    MovedHistory(h, p.op, row, t);
    MovedResults(h, p.op, row, t);
  }

  lemma MoveIsDone(h: Hub, step: WorkflowSchedule.Step)
    requires Frames.Moves(h.base, step) && h.base.procs[step.pid].key in h.base.rows && step.pid in h.calls
    ensures var p, t := h.base.procs[step.pid], WorkflowSchedule.Do(h.base, step);
      var row := ApplyMove(h.base.rows[p.key], p.target, p.components);
      DoSchedule(h, step) ==
      h.(base := t, done := h.done + [p.op], produced := h.produced[p.op := row],
         calls := h.calls[step.pid := Moved(p.op, h.calls[step.pid].request, row)])
  {
    hide WorkflowSchedule.Do, CommitMove, ApplyMove;
  }

  lemma AppliedIs(row: Row, target: int, components: seq<WorkflowRows.JobId>)
    ensures var r := ApplyMove(row, target, components);
      && r == row.(runAt := target, status := Scheduled, change := row.Applied(),
                   notificationRunAt := r.notificationRunAt, automaticHours := false)
      && !r.Pending()
  {}

  // The row that a move is about to write is still waiting for this very operation.
  lemma StillWaiting(h: Hub, pid: nat)
    requires MoversOk(h.base.procs, h.calls, h.held) && CallsOk(h)
    requires HeldOk(h.base.rows, h.ops, h.held, h.done)
    requires pid in h.base.procs && h.base.procs[pid].Moving?
    requires var p := h.base.procs[pid];
      p.key in h.base.rows && h.base.rows[p.key].status.Holding? && h.base.rows[p.key].revision == p.expected + 1
    ensures var p := h.base.procs[pid];
      && h.base.rows[p.key].Pending() && h.base.rows[p.key].change.value.op == p.op
      && p.op in h.held && p.op !in h.done && p.op in h.ops
      && h.ops[p.op].payload == Request(p.key, p.target, p.expected)
      && pid in h.calls && h.calls[pid].Working? && h.calls[pid].op == p.op
  {
    assert Frames.Mover(h.base.procs[pid]);
  }

  lemma MovedCalls(h: Hub, pid: nat, row: Row, t: Hub)
    requires CallsOk(h) && MoversOk(h.base.procs, h.calls, h.held) && HistoryOk(h)
    requires pid in h.base.procs && h.base.procs[pid].Moving? && pid in h.calls && h.calls[pid].Working?
      && h.calls[pid].op == h.base.procs[pid].op && h.calls[pid].op !in h.done
    requires var op := h.base.procs[pid].op;
      && t == h.(base := t.base, done := h.done + [op], produced := h.produced[op := row],
                 calls := h.calls[pid := Moved(op, h.calls[pid].request, row)])
      && t.base.procs == h.base.procs - {pid}
    ensures CallsOk(t) && MoversOk(t.base.procs, t.calls, t.held)
  {}

  lemma MovedHistory(h: Hub, op: string, row: Row, t: Hub)
    requires HistoryOk(h) && op in h.held && op in h.ops && op !in h.done
    requires t == h.(base := t.base, done := h.done + [op], produced := h.produced[op := row], calls := t.calls)
    ensures HistoryOk(t)
  {}

  lemma MovedResults(h: Hub, op: string, row: Row, t: Hub)
    requires ResultsOk(h) && HistoryOk(h) && op in h.ops && op !in h.done
    requires Fulfils(op, row, h.ops[op].payload) && row.revision == h.ops[op].payload.expected + 1
    requires t == h.(base := t.base, done := h.done + [op], produced := h.produced[op := row], calls := t.calls)
    requires t.base.hazard == h.base.hazard
    ensures ResultsOk(t) && Keeps(h, t)
  {
    assert op !in h.produced;
  }

  lemma ReconcileKeeps(h: Hub, step: WorkflowSchedule.Step)
    requires Inv(h) && Frames.Reconciles(h.base, step)
    ensures Inv(DoSchedule(h, step)) && Keeps(h, DoSchedule(h, step))
  {
    hide WorkflowSchedule.Do, WorkflowAlignment.Inv, MoversOk, CallsOk, HeldOk, ChangesOk, CopiesOk, RevisionsOk,
      HistoryOk, ResultsOk, ReconcileMove, DoSchedule, Stale, ApplyMove;
    var s, t, pid, p := h.base, DoSchedule(h, step), step.pid, h.base.procs[step.pid];
    WorkflowSteps.StepKeeps(s, step);
    Frames.ReconcileIs(s, step);
    var row := ApplyMove(s.rows[p.key], p.change.target, p.change.components);
    ReconcileIsDone(h, step);
    Carries(h, pid);
    AppliedIs(s.rows[p.key], p.change.target, p.change.components);
    AppliedRows(h, p.key, row, p.change.op, Stale(h, pid));
    AppliedRevisions(h, p.key, row);
    AppliedCopies(h, pid, p.key, row);
    FewerMovers(s.procs, pid, h.calls, h.held);
    ReconciledCalls(h, p.change.op, row, Stale(h, pid), t);
    ReconciledHistory(h, p.change.op, row, Stale(h, pid), t);
    ReconciledResults(h, p.change.op, row, Stale(h, pid), t);
  }

  lemma ReconcileIsDone(h: Hub, step: WorkflowSchedule.Step)
    requires Frames.Reconciles(h.base, step) && h.base.procs[step.pid].key in h.base.rows
    ensures var p, t := h.base.procs[step.pid], WorkflowSchedule.Do(h.base, step);
      var row := ApplyMove(h.base.rows[p.key], p.change.target, p.change.components);
      DoSchedule(h, step) == Reconciled(h, p.change.op, row, Stale(h, step.pid), t)
  {
    hide WorkflowSchedule.Do, ReconcileMove, ApplyMove, Stale;
  }

  function Reconciled(h: Hub, op: string, row: Row, stale: bool, base: WorkflowSchedule.State): Hub {
    h.(base := base, done := h.done + [op], produced := h.produced[op := row], replies := h.replies + {Reply(op, row)},
       overtaken := if stale then h.overtaken + {op} else h.overtaken)
  }

  // What a reconciliation is about to write, from the pending change of the row or from an old
  // copy; the latter only after an overlap.
  lemma Carries(h: Hub, pid: nat)
    requires Inv(h) && pid in h.base.procs && h.base.procs[pid].Reconciling?
    requires h.base.procs[pid].key in h.base.rows && h.base.rows[h.base.procs[pid].key].status.Holding?
    ensures var p := h.base.procs[pid];
      var row := h.base.rows[p.key];
      && p.change.op in h.held && p.change.op in h.ops
      && h.ops[p.change.op].payload.key == p.key && h.ops[p.change.op].payload.target == p.change.target
      && h.ops[p.change.op].payload.expected < row.revision
      && (Stale(h, pid) ==> p.key in h.base.hazard)
      && (!Stale(h, pid) ==>
            && p.change.op !in h.done && row.change.Some? && row.change.value.op == p.change.op
            && (row.revision == h.ops[p.change.op].payload.expected + 1 || p.key in h.base.hazard))
  {
    hide WorkflowAlignment.Inv, MoversOk, CallsOk, HistoryOk, ResultsOk;
    assert Frames.Copy(h.base.procs[pid]);
    CopyIsCurrent(h.base, pid);
  }

  lemma CopyIsCurrent(s: WorkflowSchedule.State, pid: nat)
    requires WorkflowAlignment.Inv(s) && pid in s.procs && s.procs[pid].Reconciling?
    ensures var p := s.procs[pid];
      p.key in s.rows && (p.key !in s.hazard ==> s.rows[p.key].change == Some(p.change))
  {
    assert WorkflowAlignment.ProcOk(s.procs[pid], s.rows[s.procs[pid].key], s.jobs, s.execs,
                                    s.procs[pid].key in s.hazard);
  }

  lemma ReconciledCalls(h: Hub, op: string, row: Row, stale: bool, t: Hub)
    requires CallsOk(h) && HistoryOk(h) && (!stale ==> op !in h.done) && t == Reconciled(h, op, row, stale, t.base)
    ensures CallsOk(t)
  {}

  lemma ReconciledHistory(h: Hub, op: string, row: Row, stale: bool, t: Hub)
    requires HistoryOk(h) && op in h.held && op in h.ops && (!stale ==> op !in h.done)
    requires t == Reconciled(h, op, row, stale, t.base)
    ensures HistoryOk(t)
  {}

  lemma ReconciledResults(h: Hub, op: string, row: Row, stale: bool, t: Hub)
    requires ResultsOk(h) && HistoryOk(h) && op in h.ops && t == Reconciled(h, op, row, stale, t.base)
    requires t.base.hazard == h.base.hazard && (stale ==> h.ops[op].payload.key in h.base.hazard)
    requires row.runAt == h.ops[op].payload.target
    requires !stale ==>
      && op !in h.done && Fulfils(op, row, h.ops[op].payload)
      && (row.revision == h.ops[op].payload.expected + 1 || h.ops[op].payload.key in h.base.hazard)
    ensures ResultsOk(t) && Keeps(h, t)
  {}

  // ----- Every act, every run -----

  lemma ActKeeps(h: Hub, act: Act)
    requires Inv(h)
    ensures Inv(Do(h, act)) && Keeps(h, Do(h, act))
  {
    hide Inv, Keeps, DoAsk, DoRead, DoSave, DoAnswer, DoSchedule, Frames.Holds, Frames.Moves, Frames.Reconciles;
    match act
    case Ask(pid, op, request) => AskKeeps(h, pid, op, request);
    case Read(pid) => ReadKeeps(h, pid);
    case Save(pid) => SaveKeeps(h, pid);
    case Answer(reply) => AnswerKeeps(h, reply);
    case Schedule(step) =>
      if step.Crash? {
        CrashKeeps(h);
      } else if step.ReadMove? {
        NothingRead(h, step);
      } else if Frames.Holds(h.base, step) {
        HoldKeeps(h, step);
      } else if Frames.Moves(h.base, step) {
        MoveKeeps(h, step);
      } else if Frames.Reconciles(h.base, step) {
        ReconcileKeeps(h, step);
      } else {
        OrdinaryKeeps(h, step);
      }
  }

  lemma NothingRead(h: Hub, step: WorkflowSchedule.Step)
    requires step.ReadMove?
    ensures DoSchedule(h, step) == h && Keeps(h, h)
  {}

  lemma {:induction false} RunKeeps(h: Hub, acts: seq<Act>)
    requires Inv(h)
    ensures Inv(Run(h, acts)) && Keeps(h, Run(h, acts))
  {
    hide Inv, Do, Keeps;
    if acts == [] {
      KeepsItself(h);
    } else {
      var before := Run(h, acts[..|acts| - 1]);
      RunKeeps(h, acts[..|acts| - 1]);
      ActKeeps(before, acts[|acts| - 1]);
      KeepsOn(h, before, Run(h, acts));
    }
  }

  lemma KeepsItself(h: Hub)
    ensures Keeps(h, h)
  {}

  lemma KeepsOn(a: Hub, b: Hub, c: Hub)
    requires Keeps(a, b) && Keeps(b, c)
    ensures Keeps(a, c)
  {}

  lemma QuietOk()
    ensures Inv(QUIET)
  {
    hide WorkflowAlignment.Inv, WorkflowSchedule.Do;
    WorkflowTheorems.Reachable([]);
    assert WorkflowSchedule.Run(WorkflowSchedule.INITIAL, []) == WorkflowSchedule.INITIAL;
  }
}
