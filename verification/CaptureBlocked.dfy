// A captured event that is never accepted: the bound of the server is on escaped JSON, and the
// client neither knows it nor shortens a batch that was refused.
module CaptureBlocked {
  import opened Wrappers
  import opened Closeouts
  import opened CloseoutRuns
  import opened MemoryCapture
  import opened CaptureRuns
  import opened CaptureSteps
  import opened CaptureTheorems

  ghost predicate TooLong(requests: seq<Request>, n: nat) {
    n < |requests| && requests[n].Check? && EncodedSize(requests[n].events) > ENCODED_LIMIT
  }

  // What is answered, or still being worked on, has passed the server's bound.
  ghost predicate SizesOk(s: System, id: Id) {
    && (forall n :: n in s.answers ==> !TooLong(s.requests, n))
    && (id in s.server.jobs && s.server.jobs[id].Extracting? ==> EncodedSize(s.server.jobs[id].events) <= ENCODED_LIMIT)
  }

  lemma PreparedFits(row: Row, events: seq<Event>, now: int, allowed: bool, generation: nat)
    ensures PrepareCheckpoint(row, events, now, allowed, generation).Ok? ==> EncodedSize(events) <= ENCODED_LIMIT
  {
    hide EncodedSize;
  }

  lemma ServeSizes(s: System, id: Id, n: nat, now: int, ok: bool)
    requires SizesOk(s, id)
    ensures SizesOk(DoServe(s, id, n, now, ok), id)
  {
    hide EncodedSize, PrepareCheckpoint;
    if n < |s.requests| && s.requests[n].Check? && id in s.server.rows {
      PreparedFits(s.server.rows[id], s.requests[n].events, now, ok, s.server.notes.generation);
    }
  }

  lemma CompleteSizes(s: System, id: Id, output: seq<Candidate>, room: bool, now: int, ok: bool)
    requires SizesOk(s, id) && ServingOk(s.server, id, s.serving, s.requests)
    ensures SizesOk(DoComplete(s, id, output, room, now, ok), id)
  {
    hide EncodedSize, CommitCheckpoint;
  }

  lemma ServerSizes(s: System, id: Id, step: Step, now: int)
    requires SizesOk(s, id) && Foreign(step, id) && id in s.server.used
    ensures SizesOk(s.(server := Do(s.server, step, now)), id)
  {
    hide EncodedSize, Do;
    ForeignQuiet(s.server, step, now, id);
  }

  lemma FinishSizes(s: System, id: Id, complete: bool, now: int, ok: bool)
    requires SizesOk(s, id)
    ensures SizesOk(s.(server := Do(s.server, Finalize(id, complete, ok), now)), id)
  {
    hide EncodedSize, Seal;
  }

  lemma PostSizes(s: System, id: Id)
    requires SizesOk(s, id) && AnswersOk(s.answers, s.requests, s.server, id)
    ensures SizesOk(DoPost(s), id)
  {
    hide EncodedSize, Posted, Batch;
  }

  lemma MoveSizes(s: System, id: Id, move: Move, now: int)
    requires AllOk(s, id) && SizesOk(s, id)
    ensures SizesOk(Move1(s, id, move, now), id)
  {
    hide EncodedSize, DoPost, DoServe, DoComplete, Do, Captured, Acknowledged, Recovered, Inv;
    match move
    case Post => PostSizes(s, id);
    case Serve(n, ok) => ServeSizes(s, id, n, now, ok);
    case Complete(output, room, ok) => CompleteSizes(s, id, output, room, now, ok);
    case ServeFinish(n, ok) =>
      if n < |s.requests| && s.requests[n].Finish? {
        FinishSizes(s, id, s.requests[n].complete, now, ok);
      }
    case Elsewhere(step) =>
      if Foreign(step, id) {
        ServerSizes(s, id, step, now);
      }
    case _ =>
  }

  // The batch is over the bound, and no shorter request is still being waited for.
  ghost predicate Stuck(s: System) {
    && s.up && EncodedSize(Batch(s.queue.events)) > ENCODED_LIMIT
    && (s.waiting.Some? && s.waiting.value < |s.requests| && s.requests[s.waiting.value].Check? ==>
          TooLong(s.requests, s.waiting.value))
  }

  lemma HearStuck(s: System, e: Event, saved: bool)
    requires Stuck(s)
    ensures Stuck(DoHear(s, e, saved)) && DoHear(s, e, saved).acks == s.acks
  {
    hide EncodedSize, Batch;
    BatchGrows(s.queue.events, e);
  }

  lemma PostStuck(s: System)
    requires Stuck(s) && |s.queue.context| <= CONTEXT_EVENTS
    ensures Stuck(DoPost(s)) && DoPost(s).acks == s.acks
  {
    hide EncodedSize, Posted, Batch;
    PostedHoldsBatch(s.queue);
    NoBatch();
  }

  lemma NoBatch()
    ensures EncodedSize(Batch([])) == 2
  {
    assert Batch([]) == [];
  }

  lemma ReceiveStuck(s: System, id: Id, saved: bool)
    requires Stuck(s) && SizesOk(s, id)
    ensures Stuck(DoReceive(s, saved)) && DoReceive(s, saved).acks == s.acks
  {
    hide EncodedSize, Batch, Acknowledged;
  }

  lemma StuckStays(s: System, id: Id, move: Move, now: int)
    requires AllOk(s, id) && SizesOk(s, id) && Stuck(s) && !move.Crash?
    ensures Stuck(Move1(s, id, move, now)) && Move1(s, id, move, now).acks == s.acks
  {
    hide EncodedSize, Batch, DoPost, DoHear, DoReceive, PrepareCheckpoint, CommitCheckpoint, Do, Recovered, Inv;
    match move
    case Hear(e, saved) => HearStuck(s, e, saved);
    case Post => PostStuck(s);
    case Receive(saved) => ReceiveStuck(s, id, saved);
    case _ =>
  }

  lemma {:induction false} RunStaysStuck(s: System, id: Id, moves: seq<Moved>)
    requires AllOk(s, id) && SizesOk(s, id) && Stuck(s)
    requires forall i :: 0 <= i < |moves| ==> !moves[i].move.Crash?
    ensures var t := RunOf(s, id, moves); AllOk(t, id) && SizesOk(t, id) && Stuck(t) && t.acks == s.acks
  {
    hide AllOk, SizesOk, Stuck, Move1;
    if moves != [] {
      var last, before := moves[|moves| - 1], RunOf(s, id, moves[..|moves| - 1]);
      RunStaysStuck(s, id, moves[..|moves| - 1]);
      MoveKeeps(before, id, last.move, last.now);
      MoveSizes(before, id, last.move, last.now);
      StuckStays(before, id, last.move, last.now);
    }
  }

  lemma {:induction false} RunSizes(s: System, id: Id, moves: seq<Moved>)
    requires AllOk(s, id) && SizesOk(s, id)
    ensures AllOk(RunOf(s, id, moves), id) && SizesOk(RunOf(s, id, moves), id)
  {
    hide AllOk, SizesOk, Move1;
    if moves != [] {
      var last, before := moves[|moves| - 1], RunOf(s, id, moves[..|moves| - 1]);
      RunSizes(s, id, moves[..|moves| - 1]);
      MoveKeeps(before, id, last.move, last.now);
      MoveSizes(before, id, last.move, last.now);
    }
  }

  // Once the batch is over the bound, nothing is acknowledged any more, whatever is retried,
  // captured or answered late, until the client restarts.
  lemma {:induction false} NeverAcknowledged(server: Server, id: Id, minutes: nat, start: int, moves: seq<Moved>,
                                             more: seq<Moved>)
    requires CloseoutRuns.Inv(server) && id !in server.used
    requires Stuck(RunOf(Started(server, id, minutes, start), id, moves))
    requires forall i :: 0 <= i < |more| ==> !more[i].move.Crash?
    ensures var s := RunOf(Started(server, id, minutes, start), id, moves);
      RunOf(s, id, more).acks == s.acks && Stuck(RunOf(s, id, more))
  {
    hide RunOf, Stuck, AllOk, Inv;
    StartedOk(server, id, minutes, start);
    StartedSizes(server, id, minutes, start);
    RunSizes(Started(server, id, minutes, start), id, moves);
    RunStaysStuck(RunOf(Started(server, id, minutes, start), id, moves), id, more);
  }

  lemma StartedSizes(server: Server, id: Id, minutes: nat, start: int)
    requires CloseoutRuns.Inv(server) && id !in server.used
    ensures SizesOk(Started(server, id, minutes, start), id)
  {
    hide EncodedSize;
    Unused(server, id);
  }

  // Two events of nine thousand Greek letters are enough.
  lemma TwoGreekEventsBlock(server: Server, id: Id, minutes: nat, start: int, a: Event, b: Event)
    requires CloseoutRuns.Inv(server) && id !in server.used && a.id != b.id
    requires |a.text| == 9000 && |b.text| == 9000
    requires forall i :: 0 <= i < 9000 ==> a.text[i] == 'α' && b.text[i] == 'α'
    ensures Stuck(RunOf(Started(server, id, minutes, start), id,
                        [Moved(Hear(a, true), start), Moved(Hear(b, true), start)]))
  {
    hide EncodedSize, Batch, Do;
    var s0 := Started(server, id, minutes, start);
    TwoGreekEvents(a, b);
    assert [Moved(Hear(a, true), start), Moved(Hear(b, true), start)][..1] == [Moved(Hear(a, true), start)];
    assert [Moved(Hear(a, true), start)][..0] == [];
    var s1 := DoHear(s0, a, true);
    assert s1.queue.events == [a] && s1.heard == [a];
    assert Ids([a]) == [a.id];
    assert RunOf(s0, id, [Moved(Hear(a, true), start)]) == s1;
    var s2 := DoHear(s1, b, true);
    assert s2.queue.events == [a, b] && s2.waiting.None? && s2.up;
    assert RunOf(s0, id, [Moved(Hear(a, true), start), Moved(Hear(b, true), start)]) == s2;
  }

  // ----- A batch that is refused for its context -----

  // What would be posted now is over the bound, though perhaps only with the recent context, and
  // no shorter request is still being waited for.
  ghost predicate Refused(s: System) {
    && s.up && s.queue.events != [] && EncodedSize(Posted(s.queue)) > ENCODED_LIMIT
    && (s.waiting.Some? && s.waiting.value < |s.requests| && s.requests[s.waiting.value].Check? ==>
          TooLong(s.requests, s.waiting.value))
  }

  lemma StuckIsRefused(s: System, id: Id)
    requires AllOk(s, id) && Stuck(s)
    ensures Refused(s)
  {
    hide EncodedSize, Posted, Batch, Inv;
    PostedHoldsBatch(s.queue);
    NoBatch();
  }

  lemma PostRefused(s: System)
    requires Refused(s)
    ensures Refused(DoPost(s)) && DoPost(s).acks == s.acks
  {
    hide EncodedSize, Posted, Batch;
  }

  lemma ReceiveRefused(s: System, id: Id, saved: bool)
    requires Refused(s) && SizesOk(s, id)
    ensures Refused(DoReceive(s, saved)) && DoReceive(s, saved).acks == s.acks
  {
    hide EncodedSize, Trimmed, Batch, TextLength, Acknowledged;
  }

  lemma RefusedStays(s: System, id: Id, move: Move, now: int)
    requires SizesOk(s, id) && Refused(s) && !move.Crash? && !move.Hear?
    ensures Refused(Move1(s, id, move, now)) && Move1(s, id, move, now).acks == s.acks
  {
    hide EncodedSize, Trimmed, Batch, TextLength, DoPost, DoHear, DoReceive, PrepareCheckpoint, CommitCheckpoint, Do,
      Recovered, Inv;
    match move
    case Post => PostRefused(s);
    case Receive(saved) => ReceiveRefused(s, id, saved);
    case _ =>
  }

  lemma {:induction false} RunStaysRefused(s: System, id: Id, moves: seq<Moved>)
    requires AllOk(s, id) && SizesOk(s, id) && Refused(s)
    requires forall i :: 0 <= i < |moves| ==> !moves[i].move.Crash? && !moves[i].move.Hear?
    ensures var t := RunOf(s, id, moves); AllOk(t, id) && SizesOk(t, id) && Refused(t) && t.acks == s.acks
  {
    hide AllOk, SizesOk, Refused, Move1;
    if moves != [] {
      var last, before := moves[|moves| - 1], RunOf(s, id, moves[..|moves| - 1]);
      RunStaysRefused(s, id, moves[..|moves| - 1]);
      MoveKeeps(before, id, last.move, last.now);
      MoveSizes(before, id, last.move, last.now);
      RefusedStays(before, id, last.move, last.now);
    }
  }

  // Context and batch together over the bound: nothing is acknowledged until the caller or the
  // model says something more, which may take the place of the context, or the client restarts.
  lemma {:induction false} SilentAndRefused(server: Server, id: Id, minutes: nat, start: int, moves: seq<Moved>,
                                            more: seq<Moved>)
    requires CloseoutRuns.Inv(server) && id !in server.used
    requires Refused(RunOf(Started(server, id, minutes, start), id, moves))
    requires forall i :: 0 <= i < |more| ==> !more[i].move.Crash? && !more[i].move.Hear?
    ensures var s := RunOf(Started(server, id, minutes, start), id, moves);
      RunOf(s, id, more).acks == s.acks && Refused(RunOf(s, id, more))
  {
    hide RunOf, Refused, AllOk, Inv;
    StartedOk(server, id, minutes, start);
    StartedSizes(server, id, minutes, start);
    RunSizes(Started(server, id, minutes, start), id, moves);
    RunStaysRefused(RunOf(Started(server, id, minutes, start), id, moves), id, more);
  }
}
