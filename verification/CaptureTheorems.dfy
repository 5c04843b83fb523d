// What a call gets from capture and closeout together, and the one way in which it can fail.
module CaptureTheorems {
  import opened Wrappers
  import opened CallerNotes
  import opened Closeouts
  import opened CloseoutRuns
  import opened CloseoutTheorems
  import opened MemoryCapture
  import opened CaptureRuns
  import opened CaptureSteps

  // A capture starts with its closeout, on a server in any reachable state.
  function Started(server: Server, id: Id, minutes: nat, now: int): System {
    System(Do(server, Begin(id, minutes), now), None, true, Queue(NEW_DATA, [], []), None, NEW_DATA, [], [], {}, [], {})
  }

  lemma StartedOk(server: Server, id: Id, minutes: nat, now: int)
    requires Inv(server) && id !in server.used
    ensures AllOk(Started(server, id, minutes, now), id)
  {
    hide NotesOk, RowsOk, JobsOk, WritesOk, RowOk;
    StepKeeps(server, Begin(id, minutes), now);
    assert id !in server.copies && id !in server.jobs by {
      assert CopiesOk(server.copies, server.rows, server.used);
      Unused(server, id);
    }
  }

  lemma Unused(server: Server, id: Id)
    requires Inv(server) && id !in server.used
    ensures id !in server.jobs && id !in server.copies && id !in server.rows
  {}

  // Whatever is lost, repeated, delayed or restarted: acknowledged events are recorded ones and
  // recorded events were heard, unchanged; only a lost row, or an old copy of it that the
  // recovery worker wrote back as expired, breaks the first half.
  lemma {:induction false} AcknowledgedIsRecordedIsHeard(server: Server, id: Id, minutes: nat, start: int,
                                                         moves: seq<Moved>)
    requires Inv(server) && id !in server.used
    ensures var s := RunOf(Started(server, id, minutes, start), id, moves);
      && (s.up ==> s.queue.data.acknowledged <= s.acks) && s.disk.acknowledged <= s.acks
      && (!Lost(s.server, id) ==> forall a :: a in s.acks ==> a in s.server.rows[id].hashes)
      && (id in s.server.rows ==> forall a :: a in s.server.rows[id].hashes ==>
            s.server.rows[id].hashes[a].id == a && s.server.rows[id].hashes[a] in s.heard)
  {
    hide RunOf, Inv;
    StartedOk(server, id, minutes, start);
    RunOfKeeps(Started(server, id, minutes, start), id, moves);
  }

  // A closeout that is sealed as complete has recorded every event of the call.
  lemma {:induction false} CompleteMeansComplete(server: Server, id: Id, minutes: nat, start: int, moves: seq<Moved>)
    requires Inv(server) && id !in server.used
    ensures var s := RunOf(Started(server, id, minutes, start), id, moves);
      !Lost(s.server, id) && s.server.rows[id].sealed && s.server.rows[id].complete ==>
        forall e :: e in s.heard ==> e.id in s.server.rows[id].hashes
  {
    hide RunOf, Inv;
    StartedOk(server, id, minutes, start);
    RunOfKeeps(Started(server, id, minutes, start), id, moves);
  }

  // ----- The failing case -----

  // A copy of the row is taken, then an event is recorded and acknowledged; at the deadline
  // the copy is written back.
  const SPOKEN := Event("a", Input, "hi", 0)
  const ROW_RECORDED := ROW_BEGUN.(batches := map[[SPOKEN] := ["a"]], hashes := map["a" := SPOKEN])
  const ONE_HEARD := NEW_DATA.(counted := 1)

  const S1 := Started(FRESH, 0, 0, 0).(server := CALL_BEGUN.(copies := map[0 := ROW_BEGUN]))
  const S2 := S1.(queue := Queue(ONE_HEARD, [SPOKEN], []), disk := ONE_HEARD, heard := [SPOKEN])
  const S3 := S2.(requests := [Check([SPOKEN], 1)], waiting := Some(0))
  const S4 := S3.(server := S3.server.(jobs := map[0 := Extracting([SPOKEN], [SPOKEN])]), serving := Some(0))
  const S5 := S3.(server := S3.server.(rows := map[0 := ROW_RECORDED]), answers := {0})
  const ALL_HEARD := ONE_HEARD.(acknowledged := {"a"})
  const S6 := S5.(queue := Queue(ALL_HEARD, [], [SPOKEN]), disk := ALL_HEARD, waiting := None, acks := {"a"})
  const S7 := S6.(server := S6.server.(rows := map[0 := Expired(ROW_BEGUN)]))

  lemma EventIsHeard()
    ensures Move1(S1, 0, Hear(SPOKEN, true), 0) == S2
  {
    hide Do, DoPost, DoReceive, DoServe, DoComplete;
    assert Captured(S1.queue, SPOKEN, true) == S2.queue;
    assert [] + [SPOKEN] == [SPOKEN];
  }

  lemma EventIsPosted()
    ensures Move1(S2, 0, Post, 0) == S3
  {
    hide Do, DoHear, DoReceive, DoServe, DoComplete, Posted, Batch;
    OnePosted(ONE_HEARD);
  }

  lemma OnePosted(data: Data)
    ensures Batch([SPOKEN]) == [SPOKEN] && Posted(Queue(data, [SPOKEN], [])) == [SPOKEN]
  {
    assert BatchLength([SPOKEN], 0, 0) == 1 by { assert BatchLength([SPOKEN], 1, 2) == 1; }
    assert [SPOKEN][..1] == [SPOKEN];
    assert Trimmed([], TextLength([SPOKEN])) == [];
  }

  lemma EventIsAcknowledged()
    ensures Move1(S5, 0, Receive(true), 0) == S6
  {
    hide Do, DoHear, DoPost, DoServe, DoComplete;
    assert [SPOKEN][..1] == [SPOKEN];
    assert (set e | e in [SPOKEN][..1] :: e.id) == {"a"};
    assert [SPOKEN][1..] == [];
    assert Acknowledged(S5.queue, 1) == S6.queue;
  }

  lemma CopyIsTaken()
    ensures Move1(Started(FRESH, 0, 0, 0), 0, Elsewhere(ReadCopies), 0) == S1
  {
    CallEnds();
  }

  lemma EventIsServed()
    ensures Move1(S3, 0, Serve(0, true), 0) == S4
  {
    hide PrepareCheckpoint, DoHear, DoPost, DoReceive, DoComplete;
    SpokenIsNew();
  }

  lemma EventIsRecorded()
    ensures Move1(S4, 0, Complete([], true, true), 0) == S5
  {
    hide CommitCheckpoint, DoHear, DoPost, DoReceive, DoServe;
    SpokenIsRecorded();
    assert S4.server.jobs - {0} == map[];
  }

  lemma CopyIsWrittenBack()
    ensures Move1(S6, 0, Elsewhere(ExpireCopy(0)), RECOVERY_SECONDS) == S7
  {}

  lemma SpokenIsNew()
    ensures PrepareCheckpoint(ROW_BEGUN, [SPOKEN], 0, true, 0) == Ok(Some([SPOKEN]))
  {
    hide EncodedSize, TextLength, HashesOf;
    SpokenIsValid();
    assert Unrecorded([SPOKEN], map[]) == [SPOKEN] by { assert [SPOKEN][..0] == []; }
  }

  lemma SpokenIsValid()
    ensures ValidEvent(ROW_BEGUN, SPOKEN, 0) && EncodedSize([SPOKEN]) <= ENCODED_LIMIT && TextLength([SPOKEN]) == 2
  {
    hide EventSize;
    EventSizeIs(SPOKEN);
    assert [SPOKEN][..0] == [];
    assert !Blank("hi") by { assert !Space("hi"[0] as int); }
    JsonSize.PlainCost(JsonSize.Ascii, SPOKEN.text);
    JsonSize.PlainCost(JsonSize.Ascii, SPOKEN.id);
    assert EventSize(SPOKEN) == 71;
    assert EventsSize([SPOKEN]) == 73;
    assert TextLength([SPOKEN]) == 2;
    assert ValidEvent(ROW_BEGUN, SPOKEN, 0);
  }

  lemma SpokenIsRecorded()
    ensures CommitCheckpoint(ROW_BEGUN, [SPOKEN], [SPOKEN], [], true, 0, true, 0) == Ok(ROW_RECORDED)
  {
    assert [SPOKEN][..0] == [];
    assert Ids([SPOKEN]) == ["a"];
    assert HashesOf([SPOKEN]) == map["a" := SPOKEN];
    assert map[] + HashesOf([SPOKEN]) == map["a" := SPOKEN];
    assert Validated([SPOKEN], []) == Ok([]);
    assert AddUpdates([], []) == [];
    var empty: map<seq<Event>, seq<string>> := map[];
    assert empty[[SPOKEN] := ["a"]] == map[[SPOKEN] := ["a"]];
  }

  lemma AcknowledgedCanBeLost()
    ensures exists moves :: RunOf(Started(FRESH, 0, 0, 0), 0, moves) == S7
    ensures S7.acks == {"a"} && S7.server.rows[0].hashes == map[]
  {
    hide Move1;
    EventIsHeard();
    EventIsPosted();
    EventIsAcknowledged();
    CopyIsTaken();
    EventIsServed();
    EventIsRecorded();
    CopyIsWrittenBack();
    var moves := [Moved(Elsewhere(ReadCopies), 0), Moved(Hear(SPOKEN, true), 0), Moved(Post, 0),
                  Moved(Serve(0, true), 0), Moved(Complete([], true, true), 0), Moved(Receive(true), 0),
                  Moved(Elsewhere(ExpireCopy(0)), RECOVERY_SECONDS)];
    UnrolledMoves(moves, [Started(FRESH, 0, 0, 0), S1, S2, S3, S4, S5, S6, S7]);
  }

  lemma {:induction false} UnrolledMoves(moves: seq<Moved>, states: seq<System>)
    requires |states| == |moves| + 1
    requires forall i :: 0 <= i < |moves| ==> states[i + 1] == Move1(states[i], 0, moves[i].move, moves[i].now)
    ensures RunOf(states[0], 0, moves) == states[|moves|]
  {
    hide Move1;
    if moves != [] {
      UnrolledMoves(moves[..|moves| - 1], states[..|moves|]);
    }
  }
}
