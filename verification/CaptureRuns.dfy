// One call's capture and its closeout together: a client that may crash at any point, a
// network that loses, delays and repeats, and the server of CloseoutRuns.
module CaptureRuns {
  import opened Wrappers
  import opened Closeouts
  import opened CloseoutRuns
  import opened MemoryCapture

  datatype Request = Check(events: seq<Event>, batch: nat) | Finish(complete: bool) | Ask

  // `heard` is every transcript event of the call, `acks` every event ever acknowledged.
  // Requests and answers are never removed: any of them may arrive late, twice, or not at all.
  datatype System = System(
    server: Server,
    serving: Option<nat>,
    up: bool,
    queue: Queue,
    waiting: Option<nat>,
    disk: Data,
    ledger: seq<Event>,
    requests: seq<Request>,
    answers: set<nat>,
    heard: seq<Event>,
    acks: set<string>)

  datatype Move =
    | Hear(e: Event, saved: bool)
    | Store(i: nat)
    | Spoil
    | EndCall(saved: bool)
    | Post
    | Receive(saved: bool)
    | GiveUp
    | Crash
    | Recover(retained: bool)
    | Serve(n: nat, ok: bool)
    | Complete(output: seq<Candidate>, room: bool, ok: bool)
    | ServeFinish(n: nat, ok: bool)
    | Answer(n: nat)
    | Elsewhere(step: Step)

  function Persisted(s: System, queue: Queue, saved: bool): System {
    s.(queue := queue, disk := if saved then queue.data else s.disk)
  }

  // The events of one call have distinct identities; the call hears nothing after its end.
  function DoHear(s: System, e: Event, saved: bool): System {
    if !s.up || s.queue.data.ended || e.id in Ids(s.heard) then s
    else Persisted(s, Captured(s.queue, e, saved), saved).(heard := s.heard + [e])
  }

  function DoStore(s: System, i: nat): System {
    if i < |s.heard| && s.heard[i] !in s.ledger then s.(ledger := s.ledger + [s.heard[i]]) else s
  }

  function DoPost(s: System): System {
    if !s.up || s.waiting.Some? then s
    else if s.queue.events != [] then
      s.(requests := s.requests + [Check(Posted(s.queue), |Batch(s.queue.events)|)], waiting := Some(|s.requests|))
    else if s.queue.data.ended then
      s.(requests := s.requests + [if s.queue.data.finalized then Ask else Finish(s.queue.data.complete)],
         waiting := Some(|s.requests|))
    else s
  }

  function DoReceive(s: System, saved: bool): System {
    if !s.up || s.waiting.None? || s.waiting.value !in s.answers || s.waiting.value >= |s.requests| then s
    else
      match s.requests[s.waiting.value]
      case Check(_, n) =>
        if n > |s.queue.events| then s
        else
          var after := Persisted(s, Acknowledged(s.queue, n), saved);
          after.(waiting := None, acks := s.acks + set e | e in s.queue.events[..n] :: e.id)
      case _ => Persisted(s, s.queue.(data := s.queue.data.(finalized := true)), saved).(waiting := None)
  }

  function DoServe(s: System, id: Id, n: nat, now: int, ok: bool): System {
    if n >= |s.requests| || !s.requests[n].Check? || id in s.server.jobs || id !in s.server.rows then s
    else
      var r := PrepareCheckpoint(s.server.rows[id], s.requests[n].events, now, ok, s.server.notes.generation);
      if r.Err? then s
      else if r.value.None? then s.(answers := s.answers + {n})
      else s.(server := Do(s.server, StartCheckpoint(id, s.requests[n].events, ok), now), serving := Some(n))
  }

  function DoComplete(s: System, id: Id, output: seq<Candidate>, room: bool, now: int, ok: bool): System {
    if id !in s.server.jobs || !s.server.jobs[id].Extracting? || s.serving.None? then s
    else
      var after := s.(server := Do(s.server, FinishCheckpoint(id, output, room, ok), now), serving := None);
      if id in s.server.rows
         && CommitCheckpoint(s.server.rows[id], s.server.jobs[id].events, s.server.jobs[id].news, output, room, now, ok,
                             s.server.notes.generation).Ok?
      then after.(answers := s.answers + {s.serving.value}) else after
  }

  // Only the holder of the credential posts for this closeout; everything else on the server goes on.
  predicate Foreign(step: Step, id: Id) {
    && (step.StartCheckpoint? ==> step.checked != id)
    && (step.FinishCheckpoint? ==> step.extracted != id)
    && (step.Finalize? ==> step.finalized != id)
  }

  function Move1(s: System, id: Id, move: Move, now: int): System {
    match move
    case Hear(e, saved) => DoHear(s, e, saved)
    case Store(i) => DoStore(s, i)
    case Spoil => s.(queue := s.queue.(data := s.queue.data.(complete := false)))
    case EndCall(saved) => if s.up then Persisted(s, s.queue.(data := s.queue.data.(ended := true)), saved) else s
    case Post => DoPost(s)
    case Receive(saved) => DoReceive(s, saved)
    case GiveUp => s.(waiting := None)
    case Crash => s.(up := false, waiting := None)
    case Recover(retained) =>
      if s.up then s
      else Persisted(s, Recovered(s.disk, s.ledger, retained), true).(up := true, waiting := None)
    case Serve(n, ok) => DoServe(s, id, n, now, ok)
    case Complete(output, room, ok) => DoComplete(s, id, output, room, now, ok)
    case ServeFinish(n, ok) =>
      if n < |s.requests| && s.requests[n].Finish?
      then s.(server := Do(s.server, Finalize(id, s.requests[n].complete, ok), now)) else s
    case Answer(n) =>
      if n < |s.requests| && !s.requests[n].Check? && id in s.server.rows
         && (s.requests[n].Finish? ==> s.server.rows[id].sealed || s.server.rows[id].status.Terminal())
      then s.(answers := s.answers + {n}) else s
    case Elsewhere(step) => if Foreign(step, id) then s.(server := Do(s.server, step, now)) else s
  }

  datatype Moved = Moved(move: Move, now: int)

  function RunOf(s: System, id: Id, moves: seq<Moved>): System {
    if moves == [] then s else
      var last := moves[|moves| - 1];
      Move1(RunOf(s, id, moves[..|moves| - 1]), id, last.move, last.now)
  }

  // ----- Invariant -----

  ghost predicate Among(events: seq<Event>, heard: seq<Event>) {
    forall e :: e in events ==> e in heard
  }

  ghost predicate DistinctIds(events: seq<Event>) {
    forall i, j :: 0 <= i < j < |events| ==> events[i].id != events[j].id
  }

  ghost predicate QueueOk(queue: Queue, heard: seq<Event>, acks: set<string>) {
    && Among(queue.events, heard) && DistinctIds(queue.events)
    && (forall e :: e in queue.events ==> e.id !in queue.data.acknowledged && |e.text| <= BATCH_CHARS)
    && Among(queue.context, heard) && |queue.context| <= CONTEXT_EVENTS
    && queue.data.acknowledged <= acks
    && (queue.data.complete ==> queue.data.counted == |heard|)
    && (queue.data.complete && !queue.data.finalized ==>
          forall e :: e in heard ==> e.id in queue.data.acknowledged || e in queue.events)
  }

  ghost predicate DiskOk(disk: Data, heard: seq<Event>, acks: set<string>) {
    disk.acknowledged <= acks && (disk.complete && disk.ended ==> disk.counted == |heard|)
  }

  ghost predicate RequestsOk(requests: seq<Request>, heard: seq<Event>, acks: set<string>) {
    forall n :: 0 <= n < |requests| ==>
      && (requests[n].Check? ==> Among(requests[n].events, heard))
      && (requests[n] == Finish(true) ==> forall e :: e in heard ==> e.id in acks)
  }

  ghost predicate WaitingOk(waiting: Option<nat>, requests: seq<Request>, queue: Queue) {
    waiting.Some? && waiting.value < |requests| && requests[waiting.value].Check? ==>
      && requests[waiting.value].batch <= |queue.events|
      && Among(queue.events[..requests[waiting.value].batch], requests[waiting.value].events)
  }

  // The row no longer tells what was recorded: it is gone, or an old copy was written back.
  predicate Lost(server: Server, id: Id) {
    id !in server.rows || server.rows[id].expired
  }

  ghost predicate Recorded(events: seq<Event>, server: Server, id: Id) {
    !Lost(server, id) ==> forall e :: e in Ids(events) ==> e in server.rows[id].hashes
  }

  ghost predicate AnswersOk(answers: set<nat>, requests: seq<Request>, server: Server, id: Id) {
    forall n :: n in answers ==> n < |requests| && (requests[n].Check? ==> Recorded(requests[n].events, server, id))
  }

  ghost predicate AcksOk(acks: set<string>, server: Server, id: Id) {
    !Lost(server, id) ==> forall a :: a in acks ==> a in server.rows[id].hashes
  }

  ghost predicate KnownHashes(hashes: map<string, Event>, heard: seq<Event>) {
    forall a :: a in hashes ==> hashes[a].id == a && hashes[a] in heard
  }

  ghost predicate KnownOk(server: Server, id: Id, heard: seq<Event>) {
    && (id in server.rows ==> KnownHashes(server.rows[id].hashes, heard))
    && (id in server.copies ==> KnownHashes(server.copies[id].hashes, heard))
    && (id in server.jobs && server.jobs[id].Extracting? ==> Among(server.jobs[id].events, heard))
  }

  ghost predicate ServingOk(server: Server, id: Id, serving: Option<nat>, requests: seq<Request>) {
    id in server.jobs && server.jobs[id].Extracting? ==>
      && serving.Some? && serving.value < |requests|
      && requests[serving.value].Check? && requests[serving.value].events == server.jobs[id].events
  }

  // A row is sealed as complete only at the client's word.
  ghost predicate SealOk(server: Server, id: Id, requests: seq<Request>) {
    !Lost(server, id) && server.rows[id].sealed && server.rows[id].complete ==> Finish(true) in requests
  }

  ghost predicate EndedOk(s: System) {
    && (s.up && s.disk.ended ==> s.queue.data.ended)
    && (s.up && (exists r :: r in s.requests && !r.Check?) ==> s.queue.data.ended)
  }

  ghost predicate AllOk(s: System, id: Id) {
    && Inv(s.server) && id in s.server.used
    && DistinctIds(s.heard) && Among(s.ledger, s.heard) && DistinctIds(s.ledger)
    && (s.up ==> QueueOk(s.queue, s.heard, s.acks))
    && DiskOk(s.disk, s.heard, s.acks)
    && RequestsOk(s.requests, s.heard, s.acks)
    && (s.up ==> WaitingOk(s.waiting, s.requests, s.queue))
    && AnswersOk(s.answers, s.requests, s.server, id)
    && AcksOk(s.acks, s.server, id)
    && (forall a :: a in s.acks ==> a in Ids(s.heard))
    && KnownOk(s.server, id, s.heard)
    && ServingOk(s.server, id, s.serving, s.requests)
    && SealOk(s.server, id, s.requests)
    && EndedOk(s)
  }
}
