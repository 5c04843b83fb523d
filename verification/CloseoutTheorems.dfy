// What the closeout protocol promises over every run, and where it does not.
module CloseoutTheorems {
  import opened Wrappers
  import opened CallerNotes
  import opened Closeouts
  import opened CloseoutRuns

  // ----- Runs -----

  lemma {:induction false} RunKeeps(s: Server, steps: seq<Timed>)
    requires Inv(s)
    ensures Inv(Run(s, steps)) && Later(s, Run(s, steps))
  {
    hide Inv, Do;
    if steps == [] {
      LaterSelf(s);
    } else {
      var before, last := Run(s, steps[..|steps| - 1]), steps[|steps| - 1];
      RunKeeps(s, steps[..|steps| - 1]);
      StepKeeps(before, last.step, last.now);
      LaterStep(s, before, Run(s, steps));
    }
  }

  lemma InitiallyOk()
    ensures Inv(FRESH)
  {}

  // What holds between any two moments of a run.
  ghost predicate Later(a: Server, b: Server) {
    && a.used <= b.used && a.texts <= b.texts && a.writes <= b.writes
    && |b.writes| - |a.writes| == |b.texts| - |a.texts|
    && (|a.writes| == |b.writes| ==> a.notes == b.notes)
    && (forall id :: id in a.rows && id in b.rows ==> Evolves(a.rows[id], b.rows[id]))
    && a.notes.generation <= b.notes.generation
    && (forall id :: id in b.rows && id !in a.rows ==> id !in a.used)
    && (forall i :: |a.writes| <= i < |b.writes| && b.writes[i].author.Some? ==>
          b.writes[i].author.value in a.rows || b.writes[i].author.value !in a.used)
  }

  lemma LaterSelf(s: Server)
    ensures Later(s, s)
  {}

  lemma EvolvesOn(a: Row, b: Row, c: Row)
    requires Evolves(a, b) && Evolves(b, c)
    requires b.expired ==> b.updates == []
    ensures Evolves(a, c)
  {}

  lemma LaterStep(a: Server, b: Server, c: Server)
    requires Inv(a) && Inv(b) && Inv(c) && Later(a, b) && Changes(b, c)
    ensures Later(a, c)
  {
    hide Evolves, JobOk, BatchesOk, UpdatesOk, JobsOk, CopiesOk;
    forall id | id in a.rows && id in c.rows ensures Evolves(a.rows[id], c.rows[id]) {
      assert id in a.used;
      EvolvesOn(a.rows[id], b.rows[id], c.rows[id]);
    }
    forall i | |a.writes| <= i < |c.writes| && c.writes[i].author.Some?
      ensures c.writes[i].author.value in a.rows || c.writes[i].author.value !in a.used
    {
      if i < |b.writes| {
        assert c.writes[i] == b.writes[i];
      }
    }
  }

  // ----- Notes -----

  // The revision names the notes: it never falls, and equal revisions mean equal notes.
  lemma {:induction false} RevisionNamesNotes(s: Server, steps: seq<Timed>)
    requires Inv(s)
    ensures var t := Run(s, steps);
      && s.notes.revision <= t.notes.revision
      && (s.notes.revision == t.notes.revision ==> s.notes == t.notes)
      && s.notes.generation <= t.notes.generation
      && |t.notes.text| <= NOTES_LIMIT
  {
    hide Run;
    RunKeeps(s, steps);
    var t := Run(s, steps);
    assert t.notes.text in t.texts;
  }

  // A write that names the revision it has read replaces exactly the notes it has read.
  lemma NoLostUpdate(s: Server, steps: seq<Timed>, text: string)
    requires Inv(s)
    ensures var t := Run(s, steps);
      DoWriteNotes(t, text, Some(s.notes.revision)) != t ==> t.notes == s.notes
  {
    hide Run;
    RunKeeps(s, steps);
  }

  // The same for a merge: what it writes was computed from the notes it replaces.
  lemma MergeReplacesWhatItRead(s: Server, id: Id, note: string, applied: nat, now: int, ok: bool)
    requires Inv(s)
    ensures var t := DoFinishMerge(s, id, note, applied, now, ok);
      t.notes != s.notes ==>
        && id in s.jobs && s.jobs[id].Merging? && s.jobs[id].base.text == s.notes.text
        && id in s.rows && s.rows[id].sealed && s.jobs[id].merging == s.rows[id].updates
        && t.notes.text == note && t.rows[id].status.Terminal() && t.rows[id].updates == []
  {}

  // After forgetting, no closeout that had begun before ever changes the notes.
  lemma ForgottenNeverWrites(s: Server, steps: seq<Timed>, id: Id)
    requires Inv(s) && id in s.used
    ensures var f := Do(s, Forget, 0);
      forall i :: |f.writes| <= i < |Run(f, steps).writes| ==> Run(f, steps).writes[i].author != Some(id)
  {
    hide Run, Inv;
    StepKeeps(s, Forget, 0);
    RunKeeps(Do(s, Forget, 0), steps);
  }

  // Every closeout changes the notes at most once in its life.
  lemma OneWriteEach(steps: seq<Timed>, i: nat, j: nat)
    requires i < j < |Run(FRESH, steps).writes|
    requires Run(FRESH, steps).writes[i].author.Some?
    ensures Run(FRESH, steps).writes[i].author != Run(FRESH, steps).writes[j].author
  {
    hide Run;
    InitiallyOk();
    RunKeeps(FRESH, steps);
  }

  // ----- Rows -----

  // From sealing on, the facts to be merged are frozen until they are all disposed of, and
  // a final closeout stays final.
  lemma {:induction false} FrozenOnceSealed(s: Server, steps: seq<Timed>, id: Id)
    requires Inv(s) && id in s.rows && id in Run(s, steps).rows
    ensures var a, b := s.rows[id], Run(s, steps).rows[id];
      && (a.status.Terminal() ==> b.status.Terminal())
      && (a.sealed || a.status.Terminal() ==> b.updates == a.updates || (b.updates == [] && b.status.Terminal()))
  {
    hide Run, RowOk;
    RunKeeps(s, steps);
  }

  // Exactly-once extraction: the lists of recorded events are disjoint, they are together the
  // fingerprinted events, and every fact that is waiting has a recorded source.
  lemma EventsRecordedOnce(steps: seq<Timed>, id: Id)
    requires id in Run(FRESH, steps).rows
    ensures var row := Run(FRESH, steps).rows[id];
      && (forall j, k, e ::
          j in row.batches && k in row.batches && e in row.batches[j] && e in row.batches[k] ==> j == k)
      && (forall e :: e in row.hashes <==> exists k :: k in row.batches && e in row.batches[k])
      && (forall u :: u in row.updates ==> u.source in row.hashes)
      && (forall i, j :: 0 <= i < j < |row.updates| ==> row.updates[i].signature != row.updates[j].signature)
  {
    hide Run;
    InitiallyOk();
    RunKeeps(FRESH, steps);
    var row := Run(FRESH, steps).rows[id];
    assert RowOk(row);
    forall e | e in row.hashes ensures exists k :: k in row.batches && e in row.batches[k] {
      var k :| k in row.batches && e in Ids(k);
      assert row.batches[k] == Ids(k);
    }
  }

  // A recorded event is forgotten while its row exists in exactly one way: the recovery
  // worker writes back, as expired, a copy that it took before the event was recorded.
  lemma RecordLostExactly(s: Server, step: Step, now: int, id: Id, event: string)
    requires Inv(s) && id in s.rows && event in s.rows[id].hashes
    requires id in Do(s, step, now).rows
    ensures event !in Do(s, step, now).rows[id].hashes <==>
      && step == ExpireCopy(id) && id in s.copies && event !in s.copies[id].hashes
      && s.copies[id].status.Pending? && now >= s.copies[id].deadline
  {
    hide RowOk, JobOk, NotesOk, WritesOk;
    StepKeeps(s, step, now);
    assert Evolves(s.rows[id], Do(s, step, now).rows[id]);
    if step != ExpireCopy(id) {
      OnlyExpiryLoses(s, step, now, id);
    }
  }

  lemma OnlyExpiryLoses(s: Server, step: Step, now: int, id: Id)
    requires RowsOk(s.rows, s.notes.generation, s.used)
    requires id in s.rows && id in Do(s, step, now).rows && step != ExpireCopy(id)
    ensures forall e :: e in s.rows[id].hashes ==> e in Do(s, step, now).rows[id].hashes
  {
    hide PrepareCheckpoint, CommitCheckpoint, RowOk, DoFinalize, DoStartMerge, DoFinishMerge, DoAbandonMerge;
    if step.FinishCheckpoint? && step.extracted == id && id in s.jobs && s.jobs[id].Extracting? {
      CheckpointAdds(s.rows[id], s.jobs[id].events, s.jobs[id].news, step.output, step.room, now, step.ok,
                     s.notes.generation);
    }
    if step.Finalize? || step.StartMerge? || step.FinishMerge? || step.AbandonMerge? {
      MergingKeepsRecords(s, step, now, id);
    }
  }

  lemma MergingKeepsRecords(s: Server, step: Step, now: int, id: Id)
    requires id in s.rows && id in Do(s, step, now).rows
    requires step.Finalize? || step.StartMerge? || step.FinishMerge? || step.AbandonMerge?
    ensures Do(s, step, now).rows[id].hashes == s.rows[id].hashes
  {
    hide CommitNotes;
    if step.FinishMerge? && step.merged == id && id in s.jobs && s.jobs[id].Merging? {
      MergeKeepsRecords(s.rows[id], s.notes, s.jobs[id].base, s.jobs[id].merging, step.note, step.applied, now,
                        step.ok);
    }
  }

  lemma MergeKeepsRecords(row: Row, notes: Notes, base: Notes, updates: seq<Update>, note: string, applied: nat,
                          now: int, allowed: bool)
    ensures CommitNotes(row, notes, base, updates, note, applied, now, allowed).row.hashes == row.hashes
  {}

  lemma CheckpointAdds(row: Row, events: seq<Event>, news: seq<Event>, output: seq<Candidate>, room: bool,
                       now: int, allowed: bool, generation: nat)
    ensures var r := CommitCheckpoint(row, events, news, output, room, now, allowed, generation);
      r.Ok? ==> forall e :: e in row.hashes ==> e in r.value.hashes
  {
    hide Validated, HashesOf, AddUpdates, Ids;
  }

  // The same copy can also overrule a closeout that is already final: that is the one way
  // in which a final status changes.
  lemma FinalStatusChangesExactly(s: Server, step: Step, now: int, id: Id)
    requires Inv(s) && id in s.rows && s.rows[id].status.Terminal() && id in Do(s, step, now).rows
    ensures Do(s, step, now).rows[id].status != s.rows[id].status <==>
      && step == ExpireCopy(id) && id in s.copies && s.copies[id].status.Pending? && now >= s.copies[id].deadline
      && !s.rows[id].status.Failed?
  {
    hide RowOk, JobOk, NotesOk, WritesOk, PrepareCheckpoint, Validated, HashesOf;
  }

  const ROW_BEGUN := Row(0, 0, None, RECOVERY_SECONDS, Pending, true, false, [], map[], map[], 0, 0, false)
  const ROW_SEALED := ROW_BEGUN.(endedAt := Some(0), sealed := true)
  const CALL_BEGUN := FRESH.(rows := map[0 := ROW_BEGUN], used := {0})
  const CALL_SEALED := CALL_BEGUN.(rows := map[0 := ROW_SEALED])
  const CALL_COPIED := CALL_SEALED.(copies := map[0 := ROW_SEALED])
  const CALL_MERGING := CALL_COPIED.(jobs := map[0 := Merging(NO_NOTES, [])])
  const CALL_DONE := CALL_COPIED.(rows := map[0 := ROW_SEALED.(status := Skipped)])
  const CALL_OVERRULED := CALL_COPIED.(rows := map[0 := Expired(ROW_SEALED)])

  lemma CallEnds()
    ensures Do(FRESH, Begin(0, 0), 0) == CALL_BEGUN
    ensures Do(CALL_BEGUN, Finalize(0, true, true), 0) == CALL_SEALED
    ensures Do(CALL_SEALED, ReadCopies, 0) == CALL_COPIED
  {
    assert map[0 := ROW_BEGUN][0 := ROW_SEALED] == map[0 := ROW_SEALED];
  }

  lemma CallMerges()
    ensures Do(CALL_COPIED, StartMerge(0, true), 0) == CALL_MERGING
    ensures Do(CALL_MERGING, FinishMerge(0, "", 0, true), 0) == CALL_DONE
    ensures Do(CALL_DONE, ExpireCopy(0), RECOVERY_SECONDS) == CALL_OVERRULED
  {
    assert map[0 := Merging(NO_NOTES, [])] - {0} == map[];
  }

  // It does happen: a call without facts ends well, and is then reported as failed.
  lemma FinishedIsOverruled()
    ensures exists steps :: Run(FRESH, steps) == CALL_OVERRULED && |steps| == 6 && Run(FRESH, steps[..5]) == CALL_DONE
  {
    hide Do;
    var steps := [Timed(Begin(0, 0), 0), Timed(Finalize(0, true, true), 0), Timed(ReadCopies, 0),
                  Timed(StartMerge(0, true), 0), Timed(FinishMerge(0, "", 0, true), 0),
                  Timed(ExpireCopy(0), RECOVERY_SECONDS)];
    CallEnds();
    CallMerges();
    Unrolled(steps, [FRESH, CALL_BEGUN, CALL_SEALED, CALL_COPIED, CALL_MERGING, CALL_DONE, CALL_OVERRULED]);
  }

  // A run, given by all the states it passes through.
  lemma {:induction false} Unrolled(steps: seq<Timed>, states: seq<Server>)
    requires |states| == |steps| + 1 && states[0] == FRESH
    requires forall i :: 0 <= i < |steps| ==> states[i + 1] == Do(states[i], steps[i].step, steps[i].now)
    ensures forall i :: 0 <= i <= |steps| ==> Run(FRESH, steps[..i]) == states[i]
    ensures Run(FRESH, steps) == states[|steps|]
  {
    hide Do;
    forall i | 0 <= i <= |steps| ensures Run(FRESH, steps[..i]) == states[i] {
      UnrolledTo(steps, states, i);
    }
    assert steps[..|steps|] == steps;
  }

  lemma {:induction false} UnrolledTo(steps: seq<Timed>, states: seq<Server>, i: nat)
    requires |states| == |steps| + 1 && states[0] == FRESH && i <= |steps|
    requires forall j :: 0 <= j < |steps| ==> states[j + 1] == Do(states[j], steps[j].step, steps[j].now)
    ensures Run(FRESH, steps[..i]) == states[i]
  {
    hide Do;
    if i > 0 {
      UnrolledTo(steps, states, i - 1);
      assert steps[..i][..i - 1] == steps[..i - 1];
    }
  }
}
