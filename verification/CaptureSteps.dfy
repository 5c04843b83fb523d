// Every move of client, network and server keeps the invariant of CaptureRuns.
module CaptureSteps {
  import opened Wrappers
  import opened Closeouts
  import opened CloseoutRuns
  import opened MemoryCapture
  import opened CaptureRuns

  // ----- The client -----

  lemma MemberIds(events: seq<Event>)
    ensures forall e :: e in events ==> e.id in Ids(events)
  {
    forall e | e in events ensures e.id in Ids(events) {
      var i :| 0 <= i < |events| && events[i] == e;
      assert Ids(events)[i] == e.id;
    }
  }

  lemma HeardGrows(s: System, id: Id, e: Event)
    requires AllOk(s, id) && s.up && !s.queue.data.ended && e.id !in Ids(s.heard)
    ensures var heard := s.heard + [e];
      && DistinctIds(heard) && Among(s.ledger, heard)
      && RequestsOk(s.requests, heard, s.acks) && KnownOk(s.server, id, heard)
      && !s.disk.ended
      && (forall a :: a in s.acks ==> a in Ids(heard))
      && e.id !in s.acks && e !in s.heard
  {
    hide Inv, QueueOk, WaitingOk, AnswersOk, AcksOk, ServingOk, SealOk;
    var heard := s.heard + [e];
    assert Ids(heard) == Ids(s.heard) + [e.id];
    MemberIds(s.heard);
    forall n | 0 <= n < |s.requests| ensures s.requests[n].Check? {
      assert s.requests[n] in s.requests;
    }
  }

  lemma CaptureKeeps(queue: Queue, e: Event, saved: bool, heard: seq<Event>, acks: set<string>)
    requires QueueOk(queue, heard, acks) && e.id !in acks && e !in heard
    requires forall h :: h in heard ==> h.id != e.id
    ensures QueueOk(Captured(queue, e, saved), heard + [e], acks)
    ensures Captured(queue, e, saved).data.ended == queue.data.ended
    ensures queue.events <= Captured(queue, e, saved).events
  {}

  lemma HearKeeps(s: System, id: Id, e: Event, saved: bool)
    requires AllOk(s, id)
    ensures AllOk(DoHear(s, e, saved), id)
  {
    hide Inv, QueueOk, RequestsOk, AnswersOk, AcksOk, KnownOk, ServingOk, SealOk, Captured;
    if s.up && !s.queue.data.ended && e.id !in Ids(s.heard) {
      HeardGrows(s, id, e);
      MemberIds(s.heard);
      CaptureKeeps(s.queue, e, saved, s.heard, s.acks);
      CompleteCounts(Captured(s.queue, e, saved), s.heard + [e], s.acks);
      var q := Captured(s.queue, e, saved);
      assert WaitingOk(s.waiting, s.requests, q) by {
        if s.waiting.Some? && s.waiting.value < |s.requests| && s.requests[s.waiting.value].Check? {
          var n := s.requests[s.waiting.value].batch;
          assert q.events[..n] == s.queue.events[..n];
        }
      }
    }
  }

  lemma CompleteCounts(queue: Queue, heard: seq<Event>, acks: set<string>)
    requires QueueOk(queue, heard, acks)
    ensures queue.data.acknowledged <= acks
    ensures queue.data.complete ==> queue.data.counted == |heard|
  {}

  lemma StoreKeeps(s: System, id: Id, i: nat)
    requires AllOk(s, id)
    ensures AllOk(DoStore(s, i), id)
  {
    hide Inv, QueueOk, RequestsOk, WaitingOk, AnswersOk, AcksOk, KnownOk, ServingOk, SealOk, DiskOk;
    if i < |s.heard| && s.heard[i] !in s.ledger {
      forall j | 0 <= j < |s.ledger| ensures s.ledger[j].id != s.heard[i].id {
        assert s.ledger[j] in s.heard;
      }
    }
  }

  lemma FlagsKeep(s: System, id: Id, queue: Queue, saved: bool)
    requires AllOk(s, id)
    requires queue == s.queue.(data := s.queue.data.(complete := queue.data.complete, ended := queue.data.ended))
    requires (queue.data.complete ==> s.queue.data.complete) && (s.queue.data.ended ==> queue.data.ended)
    requires saved ==> s.up
    ensures AllOk(Persisted(s, queue, saved), id)
  {
    hide Inv, RequestsOk, AnswersOk, AcksOk, KnownOk, ServingOk, SealOk;
  }

  lemma GiveUpKeeps(s: System, id: Id, up: bool)
    requires AllOk(s, id) && (up ==> s.up)
    ensures AllOk(s.(waiting := None, up := up), id)
  {
    hide Inv, QueueOk, DiskOk, RequestsOk, AnswersOk, AcksOk, KnownOk, ServingOk, SealOk;
  }

  lemma PostKeeps(s: System, id: Id)
    requires AllOk(s, id)
    ensures AllOk(DoPost(s), id)
  {
    hide Inv, DiskOk, KnownOk, AcksOk;
    if s.up && s.waiting.None? && s.queue.events != [] {
      PostBatch(s.queue, s.heard, s.acks);
    }
    var t := DoPost(s);
    if t != s {
      assert forall n :: 0 <= n < |s.requests| ==> t.requests[n] == s.requests[n];
    }
  }

  lemma PostBatch(queue: Queue, heard: seq<Event>, acks: set<string>)
    requires QueueOk(queue, heard, acks) && queue.events != []
    ensures Among(Posted(queue), heard)
    ensures |Batch(queue.events)| <= |queue.events| && Among(queue.events[..|Batch(queue.events)|], Posted(queue))
    ensures |Posted(queue)| <= 100 && TextLength(Posted(queue)) <= BATCH_CHARS
  {
    PostedFits(queue);
    BatchBound(queue.events, 0, 0);
    TrimmedBound(queue.context, TextLength(Batch(queue.events)));
  }

  lemma AcknowledgeKeeps(queue: Queue, n: nat, heard: seq<Event>, acks: set<string>)
    requires QueueOk(queue, heard, acks) && n <= |queue.events|
    ensures QueueOk(Acknowledged(queue, n), heard, acks + set e | e in queue.events[..n] :: e.id)
    ensures Acknowledged(queue, n).data.ended == queue.data.ended
  {
    var batch := queue.events[..n];
    assert queue.events == batch + queue.events[n..];
    forall e | e in queue.events[n..] ensures forall b :: b in batch ==> b.id != e.id {
      var j :| n <= j < |queue.events| && queue.events[j] == e;
      forall b | b in batch ensures b.id != e.id {
        var i :| 0 <= i < n && queue.events[i] == b;
      }
    }
    assert forall e :: e in LastOf(queue.context + batch, CONTEXT_EVENTS) ==> e in queue.context + batch;
  }

  lemma ReceiveKeeps(s: System, id: Id, saved: bool)
    requires AllOk(s, id)
    ensures AllOk(DoReceive(s, saved), id)
  {
    hide Inv, KnownOk, ServingOk, SealOk, Acknowledged, QueueOk;
    if s.up && s.waiting.Some? && s.waiting.value in s.answers {
      var r := s.requests[s.waiting.value];
      if r.Check? {
        var batch := s.queue.events[..r.batch];
        AcknowledgeKeeps(s.queue, r.batch, s.heard, s.acks);
        CompleteCounts(Acknowledged(s.queue, r.batch), s.heard, s.acks + set e | e in batch :: e.id);
        NewAcks(s, id, batch, r.events);
      } else {
        assert r in s.requests;
        FinalizedKeeps(s.queue, s.heard, s.acks);
      }
    }
  }

  lemma FinalizedKeeps(queue: Queue, heard: seq<Event>, acks: set<string>)
    requires QueueOk(queue, heard, acks)
    ensures var q := queue.(data := queue.data.(finalized := true));
      QueueOk(q, heard, acks) && q.data.acknowledged <= acks && (q.data.complete ==> q.data.counted == |heard|)
  {}

  // What a reply acknowledges has been recorded and was heard.
  lemma NewAcks(s: System, id: Id, batch: seq<Event>, posted: seq<Event>)
    requires AcksOk(s.acks, s.server, id) && Recorded(posted, s.server, id)
    requires Among(batch, posted) && Among(posted, s.heard)
    requires forall a :: a in s.acks ==> a in Ids(s.heard)
    ensures var acks := s.acks + set e | e in batch :: e.id;
      AcksOk(acks, s.server, id) && forall a :: a in acks ==> a in Ids(s.heard)
  {
    MemberIds(posted);
    MemberIds(s.heard);
  }

  // ----- A restart of the client -----

  lemma {:induction false} ResentShape(ledger: seq<Event>, acknowledged: set<string>)
    requires DistinctIds(ledger)
    ensures var r := Resent(ledger, acknowledged);
      && DistinctIds(r)
      && (forall e :: e in r <==> e in ledger && e.id !in acknowledged && |e.text| <= BATCH_CHARS)
  {
    if ledger != [] {
      var last, rest := ledger[|ledger| - 1], ledger[..|ledger| - 1];
      LastIsDistinct(ledger);
      ResentShape(rest, acknowledged);
    }
  }

  lemma LastIsDistinct(events: seq<Event>)
    requires DistinctIds(events) && events != []
    ensures var last, rest := events[|events| - 1], events[..|events| - 1];
      events == rest + [last] && DistinctIds(rest) && forall e :: e in rest ==> e.id != last.id
  {
    var last, rest := events[|events| - 1], events[..|events| - 1];
    forall e | e in rest ensures e.id != last.id {
      var j :| 0 <= j < |rest| && rest[j] == e;
      assert events[j].id != events[|events| - 1].id;
    }
  }

  lemma {:induction false} IdsCount(events: seq<Event>)
    requires DistinctIds(events)
    ensures |set e | e in events :: e.id| == |events|
  {
    hide DistinctIds;
    if events != [] {
      var last, rest := events[|events| - 1], events[..|events| - 1];
      LastIsDistinct(events);
      IdsCount(rest);
      IdsStep(rest, last);
      var before := set e | e in rest :: e.id;
      assert last.id !in before;
      assert |before + {last.id}| == |before| + 1;
    }
  }

  // As many events at hand as were heard: then they are the ones that were heard.
  lemma CountingIsEnough(acknowledged: set<string>, events: seq<Event>, heard: seq<Event>)
    requires DistinctIds(heard) && DistinctIds(events) && Among(events, heard)
    requires forall a :: a in acknowledged ==> a in Ids(heard)
    requires forall e :: e in events ==> e.id !in acknowledged
    requires |acknowledged| + |events| >= |heard|
    ensures forall e :: e in heard ==> e.id in acknowledged || e in events
  {
    var sent, all := set e | e in events :: e.id, set e | e in heard :: e.id;
    IdsCount(events);
    IdsCount(heard);
    forall a | a in acknowledged ensures a in all {
      var i :| 0 <= i < |Ids(heard)| && Ids(heard)[i] == a;
      assert heard[i] in heard;
    }
    assert acknowledged !! sent;
    assert |acknowledged + sent| == |acknowledged| + |sent|;
    SubsetOfSameSize(acknowledged + sent, all);
    forall e | e in heard && e.id !in acknowledged ensures e in events {
      assert e.id in sent;
      var x :| x in events && x.id == e.id;
      var i :| 0 <= i < |heard| && heard[i] == e;
      var j :| 0 <= j < |heard| && heard[j] == x;
      assert i == j;
    }
  }

  lemma SubsetOfSameSize(a: set<string>, b: set<string>)
    requires a <= b && |a| >= |b|
    ensures a == b
  {
    assert |b - a| == |b| - |a|;
  }

  lemma RecoveredKeeps(disk: Data, ledger: seq<Event>, retained: bool, heard: seq<Event>, acks: set<string>)
    requires DiskOk(disk, heard, acks) && Among(ledger, heard) && DistinctIds(ledger) && DistinctIds(heard)
    requires forall a :: a in acks ==> a in Ids(heard)
    ensures var q := Recovered(disk, ledger, retained);
      QueueOk(q, heard, acks) && q.data.ended && DiskOk(q.data, heard, acks)
  {
    var q := Recovered(disk, ledger, retained);
    ResentShape(ledger, disk.acknowledged);
    if q.data.complete && !q.data.finalized {
      CountingIsEnough(disk.acknowledged, q.events, heard);
    }
  }

  lemma RecoverKeeps(s: System, id: Id, retained: bool)
    requires AllOk(s, id) && !s.up
    ensures AllOk(Persisted(s, Recovered(s.disk, s.ledger, retained), true).(up := true, waiting := None), id)
  {
    hide Inv, RequestsOk, AnswersOk, AcksOk, KnownOk, ServingOk, SealOk, Recovered, QueueOk;
    RecoveredKeeps(s.disk, s.ledger, retained, s.heard, s.acks);
  }

  // ----- The server -----

  lemma RecordsStay(a: Server, b: Server, id: Id)
    requires Changes(a, b) && id in a.used
    ensures !Lost(b, id) ==> !Lost(a, id) && forall h :: h in a.rows[id].hashes ==> h in b.rows[id].hashes
  {}

  // A change of the server that respects what was recorded keeps the whole invariant.
  lemma ServerKeeps(s: System, id: Id, t: System)
    requires AllOk(s, id) && Inv(t.server) && Changes(s.server, t.server)
    requires t == s.(server := t.server, serving := t.serving, answers := t.answers)
    requires s.answers <= t.answers
    requires forall n ::
      n in t.answers && n !in s.answers ==>
        && n < |s.requests|
        && (s.requests[n].Check? ==> Recorded(s.requests[n].events, t.server, id))
    requires KnownOk(t.server, id, s.heard) && ServingOk(t.server, id, t.serving, s.requests)
      && SealOk(t.server, id, s.requests)
    ensures AllOk(t, id)
  {
    hide Inv, QueueOk, DiskOk, RequestsOk, WaitingOk, KnownOk, ServingOk, SealOk, Changes, Lost;
    assert id in t.server.used by { UsedStays(s.server, t.server, id); }
    RecordsStay(s.server, t.server, id);
  }

  lemma UsedStays(a: Server, b: Server, id: Id)
    requires Changes(a, b) && id in a.used
    ensures id in b.used
  {}

  ghost predicate Quiet(a: Server, b: Server, id: Id) {
    && (id in b.rows ==>
          && id in a.rows
          && (b.rows[id].hashes == a.rows[id].hashes || (id in a.copies && b.rows[id].hashes == a.copies[id].hashes))
          && (b.rows[id].expired || (b.rows[id].sealed == a.rows[id].sealed
                                     && b.rows[id].complete == a.rows[id].complete && !a.rows[id].expired)))
    && (id in b.copies ==>
        (id in a.copies && b.copies[id] == a.copies[id]) || (id in a.rows && b.copies[id] == a.rows[id]))
    && (id in b.jobs && b.jobs[id].Extracting? ==> id in a.jobs && b.jobs[id] == a.jobs[id])
  }

  lemma ForeignQuiet(s: Server, step: Step, now: int, id: Id)
    requires Foreign(step, id) && id in s.used
    ensures Quiet(s, Do(s, step, now), id)
  {
    hide PrepareCheckpoint, CommitCheckpoint, DoStartMerge, DoFinishMerge, DoAbandonMerge;
    if step.StartMerge? || step.FinishMerge? || step.AbandonMerge? {
      MergeQuiet(s, step, now, id);
    }
  }

  lemma MergeQuiet(s: Server, step: Step, now: int, id: Id)
    requires step.StartMerge? || step.FinishMerge? || step.AbandonMerge?
    ensures Quiet(s, Do(s, step, now), id)
  {
    hide CommitNotes, FailedCommit;
    if step.StartMerge? && step.started in s.rows {
      FailQuiet(s.rows[step.started], now, true);
    }
    if step.AbandonMerge? && step.failed in s.rows {
      FailQuiet(s.rows[step.failed], now, step.fatal);
    }
    if step.FinishMerge? && step.merged in s.rows && step.merged in s.jobs && s.jobs[step.merged].Merging? {
      var job := s.jobs[step.merged];
      CommitQuiet(s.rows[step.merged], s.notes, job.base, job.merging, step.note, step.applied, now, step.ok);
    }
  }

  lemma FailQuiet(row: Row, now: int, fatal: bool)
    ensures var r := FailedCommit(row, now, fatal);
      r.hashes == row.hashes && r.sealed == row.sealed && r.complete == row.complete && r.expired == row.expired
  {}

  lemma CommitQuiet(row: Row, notes: CallerNotes.Notes, base: CallerNotes.Notes, updates: seq<Update>, note: string,
                    applied: nat, now: int, ok: bool)
    ensures var r := CommitNotes(row, notes, base, updates, note, applied, now, ok).row;
      r.hashes == row.hashes && r.sealed == row.sealed && r.complete == row.complete && r.expired == row.expired
  {}

  lemma ElsewhereKeeps(s: System, id: Id, step: Step, now: int)
    requires AllOk(s, id) && Foreign(step, id)
    ensures AllOk(s.(server := Do(s.server, step, now)), id)
  {
    hide Inv, Changes, Do, QueueOk, DiskOk, RequestsOk, WaitingOk, AnswersOk, AcksOk, KnownHashes;
    StepKeeps(s.server, step, now);
    ForeignQuiet(s.server, step, now, id);
    ServerKeeps(s, id, s.(server := Do(s.server, step, now)));
  }

  lemma ServeKeeps(s: System, id: Id, n: nat, now: int, ok: bool)
    requires AllOk(s, id)
    ensures AllOk(DoServe(s, id, n, now, ok), id)
  {
    hide Inv, Changes, PrepareCheckpoint, QueueOk, DiskOk, RequestsOk, WaitingOk, AnswersOk, AcksOk, KnownHashes,
      RowOk, JobOk;
    if n < |s.requests| && s.requests[n].Check? && id in s.server.rows && id !in s.server.jobs {
      var events := s.requests[n].events;
      InvRow(s.server, id);
      PreparedJob(s.server.rows[id], events, now, ok, s.server.notes.generation);
      StepKeeps(s.server, StartCheckpoint(id, events, ok), now);
      RequestHeard(s.requests, s.heard, s.acks, n);
      SameServer(s.server);
      ServerKeeps(s, id, DoServe(s, id, n, now, ok));
    }
  }

  lemma InvRow(server: Server, id: Id)
    requires Inv(server) && id in server.rows
    ensures RowOk(server.rows[id])
    ensures id in server.jobs ==> JobOk(server.rows[id], server.jobs[id])
  {}

  lemma RequestHeard(requests: seq<Request>, heard: seq<Event>, acks: set<string>, n: nat)
    requires RequestsOk(requests, heard, acks) && n < |requests| && requests[n].Check?
    ensures Among(requests[n].events, heard)
  {}

  lemma SameServer(server: Server)
    ensures Changes(server, server)
  {}

  lemma CompleteKeeps(s: System, id: Id, output: seq<Candidate>, room: bool, now: int, ok: bool)
    requires AllOk(s, id)
    ensures AllOk(DoComplete(s, id, output, room, now, ok), id)
  {
    hide Inv, Changes, CommitCheckpoint, QueueOk, DiskOk, RequestsOk, WaitingOk, AnswersOk, AcksOk, RowOk, JobOk;
    if id in s.server.jobs && s.server.jobs[id].Extracting? && s.serving.Some? {
      var job := s.server.jobs[id];
      StepKeeps(s.server, FinishCheckpoint(id, output, room, ok), now);
      if id in s.server.rows {
        InvRow(s.server, id);
        var r := CommitCheckpoint(s.server.rows[id], job.events, job.news, output, room, now, ok,
                                  s.server.notes.generation);
        if r.Ok? {
          CommitCheckpointKeeps(s.server.rows[id], job.events, job.news, output, room, now, ok,
                                s.server.notes.generation);
          CommitKnown(s.server.rows[id], job.events, job.news, output, room, now, ok, s.server.notes.generation,
                      s.heard);
        }
      }
      ServerKeeps(s, id, DoComplete(s, id, output, room, now, ok));
    }
  }

  lemma CommitKnown(row: Row, events: seq<Event>, news: seq<Event>, output: seq<Candidate>, room: bool, now: int,
                    ok: bool, generation: nat, heard: seq<Event>)
    requires KnownHashes(row.hashes, heard) && Among(events, heard)
    requires CommitCheckpoint(row, events, news, output, room, now, ok, generation).Ok?
    ensures KnownHashes(CommitCheckpoint(row, events, news, output, room, now, ok, generation).value.hashes, heard)
  {
    hide Validated, AddUpdates;
  }

  lemma ServeFinishKeeps(s: System, id: Id, n: nat, now: int, ok: bool)
    requires AllOk(s, id) && n < |s.requests| && s.requests[n].Finish?
    ensures AllOk(s.(server := Do(s.server, Finalize(id, s.requests[n].complete, ok), now)), id)
  {
    hide Inv, Changes, QueueOk, DiskOk, RequestsOk, WaitingOk, AnswersOk, AcksOk, KnownHashes;
    assert s.requests[n] in s.requests;
    StepKeeps(s.server, Finalize(id, s.requests[n].complete, ok), now);
    ServerKeeps(s, id, s.(server := Do(s.server, Finalize(id, s.requests[n].complete, ok), now)));
  }

  lemma AnswerKeeps(s: System, id: Id, n: nat)
    requires AllOk(s, id) && n < |s.requests| && !s.requests[n].Check?
    ensures AllOk(s.(answers := s.answers + {n}), id)
  {
    hide Inv, Changes, QueueOk, DiskOk, RequestsOk, WaitingOk, AnswersOk, AcksOk, KnownOk, ServingOk, SealOk;
    SameServer(s.server);
    ServerKeeps(s, id, s.(answers := s.answers + {n}));
  }

  // ----- All moves -----

  lemma MoveKeeps(s: System, id: Id, move: Move, now: int)
    requires AllOk(s, id)
    ensures AllOk(Move1(s, id, move, now), id)
  {
    hide AllOk, DoHear, DoStore, DoPost, DoReceive, DoServe, DoComplete, Do, Recovered;
    match move
    case Hear(e, saved) => HearKeeps(s, id, e, saved);
    case Store(i) => StoreKeeps(s, id, i);
    case Spoil => FlagsKeep(s, id, s.queue.(data := s.queue.data.(complete := false)), false);
    case EndCall(saved) =>
      if s.up {
        FlagsKeep(s, id, s.queue.(data := s.queue.data.(ended := true)), saved);
      }
    case Post => PostKeeps(s, id);
    case Receive(saved) => ReceiveKeeps(s, id, saved);
    case GiveUp => GiveUpKeeps(s, id, s.up);
    case Crash => GiveUpKeeps(s, id, false);
    case Recover(retained) =>
      if !s.up {
        RecoverKeeps(s, id, retained);
      }
    case Serve(n, ok) => ServeKeeps(s, id, n, now, ok);
    case Complete(output, room, ok) => CompleteKeeps(s, id, output, room, now, ok);
    case ServeFinish(n, ok) =>
      if n < |s.requests| && s.requests[n].Finish? {
        ServeFinishKeeps(s, id, n, now, ok);
      }
    case Answer(n) =>
      if n < |s.requests| && !s.requests[n].Check? {
        AnswerKeeps(s, id, n);
      }
    case Elsewhere(step) =>
      if Foreign(step, id) {
        ElsewhereKeeps(s, id, step, now);
      }
  }

  lemma {:induction false} RunOfKeeps(s: System, id: Id, moves: seq<Moved>)
    requires AllOk(s, id)
    ensures AllOk(RunOf(s, id, moves), id)
  {
    hide AllOk, Move1;
    if moves != [] {
      var last := moves[|moves| - 1];
      RunOfKeeps(s, id, moves[..|moves| - 1]);
      MoveKeeps(RunOf(s, id, moves[..|moves| - 1]), id, last.move, last.now);
    }
  }
}
