// Reschedules under operation identities: a request announces itself before it changes anything,
// a repeat is answered from the table of operations instead of being carried out again, and a
// restart reconciliation that ends the work of an operation also saves its result.
module WorkflowOperations {
  import opened Wrappers
  import opened WorkflowRows
  import WorkflowSchedule
  import Frames = WorkflowFrames

  // ----- begin_operation, finish_operation -----

  // An external change that was announced before it was attempted; None is unresolved.
  datatype Operation<P, R> = Operation(payload: P, result: Option<R>)

  type Operations<P, R> = map<string, Operation<P, R>>

  datatype Begun<P, R> = Begun(operations: Operations<P, R>, saved: Option<R>)

  // A new identity is announced; a known one is answered, or refused when it is unresolved or
  // means something else.
  function Begin<P(==), R>(ops: Operations<P, R>, id: string, payload: P): Result<Begun<P, R>> {
    if id !in ops then Ok(Begun(ops[id := Operation(payload, None)], None))
    else if ops[id].payload != payload || ops[id].result.None? then Err(Conflict)
    else Ok(Begun(ops, ops[id].result))
  }

  function Finish<P, R>(ops: Operations<P, R>, id: string, result: R): Operations<P, R> {
    if id in ops then ops[id := ops[id].(result := Some(result))] else ops
  }

  // ----- The machine -----

  datatype Request = Request(key: Key, target: int, expected: nat)

  // A reschedule in progress: announced, working on the schedule, or moved and not yet answered.
  datatype Call =
    | Announced(op: string, request: Request)
    | Working(op: string, request: Request)
    | Moved(op: string, request: Request, row: Row)

  // What a reconciliation has written and is about to save as the result of the operation.
  datatype Reply = Reply(op: string, row: Row)

  // History, which no operation reads: `held` are the operations that took hold of a row, `done`
  // those whose target was written to a row, once for each time; `produced` are the rows last
  // written for them; `overtaken` are those that a reconciliation carried out from a copy
  // which was not the pending change of the row any more.
  datatype Hub = Hub(
    base: WorkflowSchedule.State,
    ops: Operations<Request, Row>,
    calls: map<nat, Call>,
    replies: set<Reply>,
    held: seq<string>,
    done: seq<string>,
    produced: map<string, Row>,
    overtaken: set<string>)

  const QUIET := Hub(WorkflowSchedule.INITIAL, map[], map[], {}, [], [], map[], {})

  datatype Act =
    | Ask(pid: nat, op: string, request: Request)
    | Read(pid: nat)
    | Schedule(step: WorkflowSchedule.Step)
    | Save(pid: nat)
    | Answer(reply: Reply)

  function DoAsk(h: Hub, pid: nat, op: string, request: Request): Hub {
    if pid in h.calls || pid in h.base.procs then h
    else
      match Begin(h.ops, op, request)
      case Err(_) => h
      case Ok(b) =>
        if b.saved.Some? then h else h.(ops := b.operations, calls := h.calls[pid := Announced(op, request)])
  }

  function DoRead(h: Hub, pid: nat): Hub {
    if pid !in h.calls || !h.calls[pid].Announced? then h
    else
      var c := h.calls[pid];
      var read := WorkflowSchedule.ReadMove(pid, c.request.key, c.op, c.request.target, c.request.expected);
      h.(base := WorkflowSchedule.Do(h.base, read), calls := h.calls[pid := Working(c.op, c.request)])
  }

  // The copy of the change that a reconciliation holds is not what the row is waiting for.
  predicate Stale(h: Hub, pid: nat) {
    && pid in h.base.procs && Frames.Copy(h.base.procs[pid])
    && var p := h.base.procs[pid];
       p.key in h.base.rows && h.base.rows[p.key].change != Some(p.change)
  }

  function DoMoved(h: Hub, after: Hub, pid: nat): Hub
    requires pid in h.base.procs && h.base.procs[pid].Moving? && h.base.procs[pid].key in h.base.rows
  {
    var p := h.base.procs[pid];
    var row := ApplyMove(h.base.rows[p.key], p.target, p.components);
    var moved := after.(done := h.done + [p.op], produced := h.produced[p.op := row]);
    if pid !in h.calls then moved
    else moved.(calls := h.calls[pid := Moved(p.op, h.calls[pid].request, row)])
  }

  function DoReconciled(h: Hub, after: Hub, pid: nat): Hub
    requires pid in h.base.procs && h.base.procs[pid].Reconciling? && h.base.procs[pid].key in h.base.rows
  {
    var p := h.base.procs[pid];
    var op, row := p.change.op, ApplyMove(h.base.rows[p.key], p.change.target, p.change.components);
    after.(done := h.done + [op], produced := h.produced[op := row], replies := h.replies + {Reply(op, row)},
           overtaken := if Stale(h, pid) then h.overtaken + {op} else h.overtaken)
  }

  function DoSchedule(h: Hub, step: WorkflowSchedule.Step): Hub {
    if step.ReadMove? then h
    else
      var after := h.(base := WorkflowSchedule.Do(h.base, step));
      if step.Crash? then after.(calls := map[], replies := {})
      else if Frames.Holds(h.base, step) then after.(held := h.held + [h.base.procs[step.pid].op])
      else if Frames.Moves(h.base, step) then DoMoved(h, after, step.pid)
      else if Frames.Reconciles(h.base, step) then DoReconciled(h, after, step.pid)
      else after
  }

  function DoSave(h: Hub, pid: nat): Hub {
    if pid !in h.calls || !h.calls[pid].Moved? then h
    else h.(ops := Finish(h.ops, h.calls[pid].op, h.calls[pid].row), calls := h.calls - {pid})
  }

  function DoAnswer(h: Hub, reply: Reply): Hub {
    if reply !in h.replies then h
    else h.(ops := Finish(h.ops, reply.op, reply.row), replies := h.replies - {reply})
  }

  function Do(h: Hub, act: Act): Hub {
    match act
    case Ask(pid, op, request) => DoAsk(h, pid, op, request)
    case Read(pid) => DoRead(h, pid)
    case Schedule(step) => DoSchedule(h, step)
    case Save(pid) => DoSave(h, pid)
    case Answer(reply) => DoAnswer(h, reply)
  }

  function Run(h: Hub, acts: seq<Act>): Hub {
    if acts == [] then h else Do(Run(h, acts[..|acts| - 1]), acts[|acts| - 1])
  }
}
