// What operation identities promise over whole runs with crashes, restart reconciliations and
// repeats, and exactly when one reconciliation breaks it.
module OperationTheorems {
  import opened Wrappers
  import opened WorkflowRows
  import opened WorkflowOperations
  import opened OperationSteps
  import WorkflowSchedule
  import WorkflowAlignment
  import WorkflowTheorems
  import Hazards = WorkflowHazards
  import Frames = WorkflowFrames

  // An operation takes hold of a row at most once. Unless a reconciliation carried it out from a
  // copy that was not the pending change of the row, its target is written to the row at most
  // once, by its own call or by one reconciliation, and a saved result is the row that was
  // written then: as requested, and one revision after the one that the caller saw if no overlap
  // hit the row. The exception needs an overlap, too.
  lemma {:induction false} OperationRunsOnce(acts: seq<Act>)
    ensures var h := Run(QUIET, acts);
      && Distinct(h.held)
      && (forall i, j :: 0 <= i < j < |h.done| && h.done[i] == h.done[j] ==> h.done[i] in h.overtaken)
      && (forall op :: op in h.ops && h.ops[op].result.Some? && op !in h.overtaken ==>
            var row, request := h.ops[op].result.value, h.ops[op].payload;
            && op in h.done && op in h.produced && h.produced[op] == row && Fulfils(op, row, request)
            && (request.key !in h.base.hazard ==> row.revision == request.expected + 1))
      && (forall op :: op in h.overtaken ==> op in h.ops && h.ops[op].payload.key in h.base.hazard)
  {
    hide Run, WorkflowAlignment.Inv, MoversOk, CallsOk, HeldOk, ChangesOk, CopiesOk, RevisionsOk;
    QuietOk();
    RunKeeps(QUIET, acts);
  }

  // A repeat changes nothing, now or ever after: it is answered with the result that was saved
  // first, or refused because the operation is unresolved or means something else.
  lemma {:induction false} RepeatIsAnswered(acts: seq<Act>, more: seq<Act>, pid: nat, op: string, request: Request)
    requires op in Run(QUIET, acts).ops
    ensures var before, h := Run(QUIET, acts), Run(Run(QUIET, acts), more);
      && op in h.ops && DoAsk(h, pid, op, request) == h
      && (before.ops[op].payload == request && before.ops[op].result.Some? && op !in h.overtaken ==>
            Begin(h.ops, op, request) == Ok(Begun(h.ops, before.ops[op].result)))
      && (h.ops[op].payload != request || h.ops[op].result.None? ==> Begin(h.ops, op, request) == Err(Conflict))
  {
    hide Run, Inv;
    QuietOk();
    RunKeeps(QUIET, acts);
    RunKeeps(Run(QUIET, acts), more);
  }

  // In this act the operation took hold of its row, before the time that it asked for.
  ghost predicate HeldBy(acts: seq<Act>, i: nat, op: string, target: int)
    requires i < |acts|
  {
    && acts[i].Schedule? && acts[i].step.HoldMove?
    && var s, step := Run(QUIET, acts[..i]).base, acts[i].step;
       Frames.Holds(s, step) && s.procs[step.pid].op == op && step.now < target
  }

  // Every target that was ever written is the one that was asked for, and it was still to come
  // when its operation took hold of the row.
  lemma {:induction false} TargetsWereToCome(acts: seq<Act>)
    ensures var h := Run(QUIET, acts);
      && (forall op :: op in h.done ==>
            && op in h.held && op in h.ops && op in h.produced
            && h.produced[op].runAt == h.ops[op].payload.target)
      && (forall op :: op in h.held ==>
            op in h.ops && exists i :: 0 <= i < |acts| && HeldBy(acts, i, op, h.ops[op].payload.target))
  {
    hide Run, WorkflowAlignment.Inv, MoversOk, CallsOk, ChangesOk, CopiesOk, RevisionsOk, HeldBy;
    QuietOk();
    RunKeeps(QUIET, acts);
    HeldWereToCome(acts);
  }

  lemma {:induction false} HeldWereToCome(acts: seq<Act>)
    ensures var h := Run(QUIET, acts);
      forall op :: op in h.held ==>
        op in h.ops && exists i :: 0 <= i < |acts| && HeldBy(acts, i, op, h.ops[op].payload.target)
  {
    hide Do, HeldBy, Inv, Keeps;
    if acts == [] {
      return;
    }
    var n := |acts| - 1;
    var before := acts[..n];
    var g, h, act := Run(QUIET, before), Run(QUIET, acts), acts[n];
    HeldWereToCome(before);
    QuietOk();
    RunKeeps(QUIET, before);
    ActKeeps(g, act);
    HeldGrows(g, act);
    forall op | op in h.held
      ensures op in h.ops && exists i :: 0 <= i < |acts| && HeldBy(acts, i, op, h.ops[op].payload.target)
    {
      SamePayload(g, h);
      if op in g.held {
        var i :| 0 <= i < n && HeldBy(before, i, op, g.ops[op].payload.target);
        HeldBefore(acts, n, i, op, g.ops[op].payload.target);
      } else {
        HeldNow(acts, n, op, h.ops[op].payload.target);
      }
    }
  }

  lemma SamePayload(g: Hub, h: Hub)
    requires Keeps(g, h)
    ensures forall op :: op in g.ops ==> op in h.ops && h.ops[op].payload == g.ops[op].payload
  {}

  lemma HeldBefore(acts: seq<Act>, n: nat, i: nat, op: string, target: int)
    requires i < n <= |acts| && HeldBy(acts[..n], i, op, target)
    ensures HeldBy(acts, i, op, target)
  {
    hide Run, Frames.Holds;
    assert acts[..n][..i] == acts[..i];
  }

  lemma HeldNow(acts: seq<Act>, n: nat, op: string, target: int)
    requires n < |acts| && acts[n].Schedule? && Frames.Holds(Run(QUIET, acts[..n]).base, acts[n].step)
    requires var s := Run(QUIET, acts[..n]).base; s.procs[acts[n].step.pid].op == op && acts[n].step.now < target
    ensures HeldBy(acts, n, op, target)
  {}

  // An operation joins the held ones only by taking hold, and before its target.
  lemma HeldGrows(h: Hub, act: Act)
    requires Inv(h)
    ensures var t := Do(h, act);
      && |h.held| <= |t.held| && t.held[..|h.held|] == h.held
      && forall op :: op in t.held && op !in h.held ==>
        && op in t.ops && act.Schedule? && Frames.Holds(h.base, act.step)
        && h.base.procs[act.step.pid].op == op && act.step.now < t.ops[op].payload.target
  {
    hide WorkflowSchedule.Do, WorkflowAlignment.Inv, HeldOk, ChangesOk, CopiesOk, RevisionsOk, ResultsOk, CommitMove,
      ReconcileMove, Frames.Moves, Frames.Reconciles, DoMoved, DoReconciled, DoAsk, DoRead;
    OnlyHolds(h, act);
    if act.Schedule? && Frames.Holds(h.base, act.step) {
      Frames.TakesHoldExactly(h.base, act.step.pid, act.step.now);
      HeldIsNew(h, act.step.pid);
    }
  }

  lemma OnlyHolds(h: Hub, act: Act)
    ensures var t := Do(h, act);
      if act.Schedule? && Frames.Holds(h.base, act.step)
      then t.held == h.held + [h.base.procs[act.step.pid].op] && t.ops == h.ops
      else t.held == h.held
  {
    hide WorkflowSchedule.Do, CommitMove, ReconcileMove, ApplyMove;
  }

  // Every target was written once, and every row that was written is as it was asked for.
  ghost predicate OnceAndAsAsked(h: Hub) {
    && Distinct(h.done)
    && (forall op :: op in h.produced ==> op in h.ops && Fulfils(op, h.produced[op], h.ops[op].payload))
  }

  // As long as every reconciliation so far carried out what its row was waiting for, the next one
  // keeps this exactly if it does so, too.
  lemma {:induction false} StaleFinishBreaksExactly(acts: seq<Act>, pid: nat)
    requires Run(QUIET, acts).overtaken == {}
    requires Frames.Reconciles(Run(QUIET, acts).base, WorkflowSchedule.FinishReconcile(pid))
    ensures var h := Run(QUIET, acts);
      var p, t := h.base.procs[pid], Do(h, Schedule(WorkflowSchedule.FinishReconcile(pid)));
      && p.key in h.base.rows && OnceAndAsAsked(h)
      && (OnceAndAsAsked(t) <==> h.base.rows[p.key].change == Some(p.change))
  {
    hide Run, WorkflowSchedule.Do, Inv, ReconcileMove, DoSchedule;
    var h, step := Run(QUIET, acts), WorkflowSchedule.FinishReconcile(pid);
    QuietOk();
    RunKeeps(QUIET, acts);
    NotOvertaken(h);
    Frames.ReconcileIs(h.base, step);
    ReconcileIsDone(h, step);
    if h.base.rows[h.base.procs[pid].key].change == Some(h.base.procs[pid].change) {
      ActKeeps(h, Schedule(step));
      NotOvertaken(Do(h, Schedule(step)));
    } else {
      StaleBreaks(h, pid, Do(h, Schedule(step)));
    }
  }

  lemma NotOvertaken(h: Hub)
    requires Inv(h) && h.overtaken == {}
    ensures OnceAndAsAsked(h)
  {
    hide WorkflowAlignment.Inv, MoversOk, CallsOk, HeldOk, ChangesOk, CopiesOk, RevisionsOk;
  }

  // The operation was carried out before, or the row it leaves bears another change.
  lemma StaleBreaks(h: Hub, pid: nat, t: Hub)
    requires Inv(h) && h.overtaken == {} && pid in h.base.procs && h.base.procs[pid].Reconciling?
    requires var p := h.base.procs[pid];
      && p.key in h.base.rows && h.base.rows[p.key].change != Some(p.change)
      && t == Reconciled(h, p.change.op, ApplyMove(h.base.rows[p.key], p.change.target, p.change.components), true,
                         t.base)
    ensures !OnceAndAsAsked(t)
  {
    hide WorkflowAlignment.Inv, MoversOk, CallsOk, HeldOk, RevisionsOk, ResultsOk;
    var p := h.base.procs[pid];
    assert Frames.Copy(p);
    var row, op := h.base.rows[p.key], p.change.op;
    if op in h.done {
      var i :| 0 <= i < |h.done| && h.done[i] == op;
      assert t.done[i] == t.done[|h.done|];
    } else {
      assert row.change.Some? ==> row.change.value.op != op;
      assert !Fulfils(op, t.produced[op], t.ops[op].payload);
    }
  }

  // ----- Recovery -----

  // What the schedule goes through is one of its own runs: all its theorems hold here.
  lemma {:induction false} ScheduleIsRun(acts: seq<Act>)
    ensures exists steps :: WorkflowSchedule.Run(WorkflowSchedule.INITIAL, steps) == Run(QUIET, acts).base
  {
    hide WorkflowSchedule.Do, Do;
    if acts == [] {
      assert WorkflowSchedule.Run(WorkflowSchedule.INITIAL, []) == Run(QUIET, acts).base;
    } else {
      var before, act := Run(QUIET, acts[..|acts| - 1]), acts[|acts| - 1];
      ScheduleIsRun(acts[..|acts| - 1]);
      var steps :| WorkflowSchedule.Run(WorkflowSchedule.INITIAL, steps) == before.base;
      BaseSteps(before, act);
      if Do(before, act).base != before.base {
        var step :| Do(before, act).base == WorkflowSchedule.Do(before.base, step);
        assert (steps + [step])[..|steps|] == steps;
        assert WorkflowSchedule.Run(WorkflowSchedule.INITIAL, steps + [step]) == Do(before, act).base;
      }
    }
  }

  lemma BaseSteps(h: Hub, act: Act)
    ensures Do(h, act).base == h.base || exists step :: Do(h, act).base == WorkflowSchedule.Do(h.base, step)
  {
    hide WorkflowSchedule.Do, Frames.Holds, Frames.Moves, Frames.Reconciles;
  }

  function AsActs(steps: seq<WorkflowSchedule.Step>): seq<Act> {
    if steps == [] then [] else AsActs(steps[..|steps| - 1]) + [Schedule(steps[|steps| - 1])]
  }

  // Steps that the table takes no notice of.
  predicate Plain(step: WorkflowSchedule.Step) {
    !step.ReadMove? && !step.HoldMove? && !step.FinishMove? && !step.FinishReconcile? && !step.Crash?
  }

  lemma {:induction false} Follows(h: Hub, steps: seq<WorkflowSchedule.Step>)
    requires forall i :: 0 <= i < |steps| ==> Plain(steps[i])
    ensures Run(h, AsActs(steps)) == h.(base := WorkflowSchedule.Run(h.base, steps))
  {
    hide WorkflowSchedule.Do;
    if steps != [] {
      Follows(h, steps[..|steps| - 1]);
      Then(h, AsActs(steps[..|steps| - 1]), Schedule(steps[|steps| - 1]));
    }
  }

  lemma {:induction false} Then(h: Hub, acts: seq<Act>, act: Act)
    ensures Run(h, acts + [act]) == Do(Run(h, acts), act)
  {
    hide Do;
    assert (acts + [act])[..|acts|] == acts;
  }

  lemma {:induction false} Splice(h: Hub, a: seq<Act>, b: seq<Act>)
    ensures Run(h, a + b) == Run(Run(h, a), b)
  {
    hide Do;
    if b == [] {
      assert a + b == a;
    } else {
      Splice(h, a, b[..|b| - 1]);
      assert a + b == (a + b[..|b| - 1]) + [b[|b| - 1]];
      Then(h, a + b[..|b| - 1], b[|b| - 1]);
    }
  }

  function RecoverySteps(key: Key, count: nat): seq<WorkflowSchedule.Step> {
    [WorkflowSchedule.ReadReconcile(0, key), WorkflowSchedule.ReconcileFence(0)]
    + Hazards.Repeat(WorkflowSchedule.ReconcileJob(0), count)
  }

  // After a crash at any point of a reschedule, the restart reconciliation carries the operation
  // out and saves its result: a repeat is then answered as if nothing had happened.
  lemma {:induction false} RecoveryAnswersRepeats(acts: seq<Act>, key: Key)
    requires var s := Run(QUIET, acts).base;
      && s.procs == map[] && key in s.rows && key !in s.hazard && s.rows[key].status.Holding? && s.rows[key].Pending()
      && (forall c :: c in s.rows[key].change.value.components ==> c in s.jobs && s.jobs[c].Movable())
    ensures var h := Run(QUIET, acts);
      var change := h.base.rows[key].change.value;
      var moved := Run(h, AsActs(RecoverySteps(key, |change.components|))
                          + [Schedule(WorkflowSchedule.FinishReconcile(0))]);
      && key in moved.base.rows && change.op in h.ops && h.ops[change.op].payload.key == key
      && var row, request := moved.base.rows[key], h.ops[change.op].payload;
         var t := Do(moved, Answer(Reply(change.op, row)));
         && Fulfils(change.op, row, request) && row.revision == request.expected + 1
         && WorkflowTheorems.Aligned(row, t.base.jobs)
         && Begin(t.ops, change.op, request) == Ok(Begun(t.ops, Some(row)))
  {
    hide Run, WorkflowSchedule.Do, WorkflowSchedule.Run, Inv, DoSchedule, RecoverySteps, ReconcileMove, ApplyMove,
      Fulfils;
    var h := Run(QUIET, acts);
    var change := h.base.rows[key].change.value;
    var steps := RecoverySteps(key, |change.components|);
    var finish := WorkflowSchedule.FinishReconcile(0);
    QuietOk();
    RunKeeps(QUIET, acts);
    PlainSteps(key, |change.components|);
    Follows(h, steps);
    var before := Run(h, AsActs(steps));
    Then(h, AsActs(steps), Schedule(finish));
    BeforeTheEnd(h.base, key);
    RunKeeps(h, AsActs(steps));
    ReconcileIsDone(before, finish);
    Frames.ReconcileIs(before.base, finish);
    ActKeeps(before, Schedule(finish));
    var moved := Do(before, Schedule(finish));
    RecoveredRow(h, before, key, moved);
    RecoveredSchedule(acts, key, moved.base);
  }

  lemma PlainSteps(key: Key, count: nat)
    ensures forall i :: 0 <= i < |RecoverySteps(key, count)| ==> Plain(RecoverySteps(key, count)[i])
  {
    PlainRepeat(WorkflowSchedule.ReconcileJob(0), count);
  }

  lemma {:induction false} PlainRepeat(step: WorkflowSchedule.Step, count: nat)
    requires Plain(step)
    ensures forall i :: 0 <= i < |Hazards.Repeat(step, count)| ==> Plain(Hazards.Repeat(step, count)[i])
  {
    if count > 0 {
      PlainRepeat(step, count - 1);
    }
  }

  lemma BeforeTheEnd(s: WorkflowSchedule.State, key: Key)
    requires s.procs == map[] && key in s.rows && s.rows[key].status.Holding? && s.rows[key].Pending()
    requires forall c :: c in s.rows[key].change.value.components ==> c in s.jobs && s.jobs[c].Movable()
    ensures var change := s.rows[key].change.value;
      var b := WorkflowSchedule.Run(s, RecoverySteps(key, |change.components|));
      && b.rows == s.rows && b.hazard == s.hazard
      && b.procs == map[0 := WorkflowSchedule.Reconciling(key, change, |change.components|)]
      && Frames.Reconciles(b, WorkflowSchedule.FinishReconcile(0))
  {
    hide WorkflowSchedule.Do, WorkflowSchedule.Run, Hazards.MoveAll;
    var change := s.rows[key].change.value;
    var begin := [WorkflowSchedule.ReadReconcile(0, key), WorkflowSchedule.ReconcileFence(0)];
    Hazards.RecoveryBegins(s, key);
    Hazards.ReconcileMoves(WorkflowSchedule.Run(s, begin), 0, |change.components|);
    Hazards.Splice(s, begin, Hazards.Repeat(WorkflowSchedule.ReconcileJob(0), |change.components|));
  }

  lemma RecoveredRow(h: Hub, before: Hub, key: Key, moved: Hub)
    requires Inv(before) && Inv(moved) && before == h.(base := before.base)
    requires before.base.rows == h.base.rows && before.base.hazard == h.base.hazard
    requires key in h.base.rows && key !in h.base.hazard && h.base.rows[key].Pending()
    requires var change := h.base.rows[key].change.value;
      && before.base.procs == map[0 := WorkflowSchedule.Reconciling(key, change, |change.components|)]
      && var row := ApplyMove(h.base.rows[key], change.target, change.components);
         && moved == Reconciled(before, change.op, row, false, moved.base)
         && moved.base.rows == h.base.rows[key := row] && moved.base.hazard == h.base.hazard
    ensures var change, row := h.base.rows[key].change.value, moved.base.rows[key];
      && change.op in h.ops && h.ops[change.op].payload.key == key
      && Fulfils(change.op, row, h.ops[change.op].payload) && row.revision == h.ops[change.op].payload.expected + 1
      && Begin(Do(moved, Answer(Reply(change.op, row))).ops, change.op, h.ops[change.op].payload)
         == Ok(Begun(Do(moved, Answer(Reply(change.op, row))).ops, Some(row)))
  {
    hide WorkflowAlignment.Inv, MoversOk, CallsOk, HeldOk, CopiesOk, RevisionsOk, ApplyMove, Fulfils;
    assert Linked(h.base.rows[key].change.value, key, h.ops, h.held);
    assert h.base.rows[key].change.value.op !in before.done;
  }

  lemma {:induction false} RecoveredSchedule(acts: seq<Act>, key: Key, t: WorkflowSchedule.State)
    requires var s := Run(QUIET, acts).base;
      && s.procs == map[] && key in s.rows && key !in s.hazard && s.rows[key].status.Holding? && s.rows[key].Pending()
      && (forall c :: c in s.rows[key].change.value.components ==> c in s.jobs && s.jobs[c].Movable())
      && t == WorkflowSchedule.Do(WorkflowSchedule.Run(s, RecoverySteps(key, |s.rows[key].change.value.components|)),
                                  WorkflowSchedule.FinishReconcile(0))
    ensures key in t.rows && WorkflowTheorems.Aligned(t.rows[key], t.jobs)
  {
    hide Run, WorkflowSchedule.Do, WorkflowSchedule.Run, WorkflowTheorems.Aligned;
    var s := Run(QUIET, acts).base;
    ScheduleIsRun(acts);
    var steps :| WorkflowSchedule.Run(WorkflowSchedule.INITIAL, steps) == s;
    Hazards.RecoveryFinishesTheMove(steps, key);
    Hazards.Then(s, RecoverySteps(key, |s.rows[key].change.value.components|), WorkflowSchedule.FinishReconcile(0));
  }
}
