// The code behind the closeout transactions: one caller's closeout rows beside the notes.
// Every method is proved against the transaction it performs.
module CloseoutStore {
  import opened Wrappers
  import opened CallerNotes
  import opened Closeouts
  import opened CloseoutRuns
  import opened NoteMerge
  import opened NoteAppend
  import NoteMergeProofs

  // The model is asked to merge only when there are facts and notes that it may read.
  datatype Question = NotAsked | Asked(answer: Option<Selected>)

  // The notes that a merge proposes, and how many changes they took.
  function MergedNote(rules: Rules, facts: Facts, note: string, savedAt: int, updates: seq<Update>,
                      question: Question): Result<Written> {
    match question
    case NotAsked => Ok(WriteAll(facts, note, updates))
    case Asked(None) => Err(Invalid)
    case Asked(Some(selected)) =>
      match Reconciliation(rules, note, Records(rules, Lines(note), savedAt), updates, selected)
      case Err(x) => Err(x)
      case Ok(r) =>
        var w := WriteAll(facts, r.note, r.additions);
        Ok(Written(w.note, r.applied + w.applied))
  }

  class CallMemory {
    const store: CallerStore
    const caller: Caller
    var rows: map<Id, Row>

    constructor (store: CallerStore, caller: Caller)
      ensures this.store == store && this.caller == caller && rows == map[]
    {
      this.store, this.caller, rows := store, caller, map[];
    }

    // checkpoint, before the model is asked.
    method Prepare(id: Id, events: seq<Event>, now: int, allowed: bool) returns (r: Result<Option<seq<Event>>>)
      ensures id !in rows ==> r == Err(Denied)
      ensures id in rows ==> r == PrepareCheckpoint(rows[id], events, now, allowed, store.View(caller).generation)
    {
      hide ValidBatch, CallerStore.View, Ids, HashesOf, Unrecorded, Row.Authorized;
      if id !in rows {
        return Err(Denied);
      }
      var row := rows[id];
      if !row.Authorized(now, allowed, store.View(caller).generation) {
        return Err(Denied);
      }
      if !ValidBatch(row, events, now) {
        return Err(Invalid);
      }
      var hashes := Fingerprints(events);
      if exists eid :: eid in hashes && eid in row.hashes && hashes[eid] != row.hashes[eid] {
        return Err(Invalid);
      }
      var news := NewOnes(events, row.hashes);
      if news == [] || news in row.batches {
        return Ok(None);
      }
      if row.sealed || !row.status.Pending? {
        return Err(Denied);
      }
      return Ok(Some(news));
    }

    static method Fingerprints(events: seq<Event>) returns (hashes: map<string, Event>)
      ensures hashes == HashesOf(events)
    {
      hashes := map[];
      var i := 0;
      while i < |events|
        invariant i <= |events| && hashes == HashesOf(events[..i])
      {
        hashes := hashes[events[i].id := events[i]];
        i := i + 1;
        assert events[..i][..i - 1] == events[..i - 1];
      }
      assert events[..i] == events;
    }

    static method NewOnes(events: seq<Event>, hashes: map<string, Event>) returns (news: seq<Event>)
      ensures news == Unrecorded(events, hashes)
    {
      news := [];
      var i := 0;
      while i < |events|
        invariant i <= |events| && news == Unrecorded(events[..i], hashes)
      {
        if events[i].id !in hashes {
          news := news + [events[i]];
        }
        i := i + 1;
        assert events[..i][..i - 1] == events[..i - 1];
      }
      assert events[..i] == events;
    }

    // validate_updates: the first unfounded candidate refuses them all.
    static method Validate(news: seq<Event>, output: seq<Candidate>) returns (r: Result<seq<Update>>)
      ensures r == Validated(news, output)
    {
      if |output| > 32 {
        return Err(Invalid);
      }
      var updates: seq<Update> := [];
      var i := 0;
      while i < |output|
        invariant i <= |output| && updates == Clear(output[..i])
        invariant forall j :: 0 <= j < i ==> Grounded(news, output[j])
      {
        var c := output[i];
        if !Grounded(news, c) {
          assert c in output;
          return Err(Invalid);
        }
        if c.clear && c.relevant {
          updates := updates + [c.update];
        }
        i := i + 1;
        assert output[..i][..i - 1] == output[..i - 1];
      }
      assert output[..i] == output;
      return Ok(updates);
    }

    // checkpoint, after the model has answered.
    method Record(id: Id, events: seq<Event>, news: seq<Event>, output: seq<Candidate>, room: bool, now: int,
                  allowed: bool)
      returns (ok: bool)
      requires id in rows
      modifies this`rows
      ensures var r := CommitCheckpoint(old(rows)[id], events, news, output, room, now, allowed,
                                        store.View(caller).generation);
        ok == r.Ok? && rows == if ok then old(rows)[id := r.value] else old(rows)
    {
      hide Validated, HashesOf;
      var valid := Validate(news, output);
      if valid.Err? {
        return false;
      }
      var row := rows[id];
      if !row.Authorized(now, allowed, store.View(caller).generation) || row.sealed || !row.status.Pending? {
        return false;
      }
      if news !in row.batches {
        var left, updates := valid.value, row.updates;
        while left != []
          invariant AddUpdates(updates, left) == AddUpdates(row.updates, valid.value)
          decreases |left|
        {
          if !Seen(updates, left[0]) {
            updates := updates + [left[0]];
          }
          left := left[1..];
        }
        if !room {
          return false;
        }
        row := row.(updates := updates);
        row := row.(batches := row.batches[news := Ids(news)]);
        row := row.(hashes := row.hashes + HashesOf(events));
      }
      rows := rows[id := row];
      return true;
    }

    // finalize, up to the merge.
    method SealRow(id: Id, complete: bool, now: int, allowed: bool) returns (r: Result<bool>)
      requires id in rows
      modifies this`rows
      ensures var want := Seal(old(rows)[id], complete, now, allowed, store.View(caller).generation);
        && (want.Err? ==> r == Err(want.error) && rows == old(rows))
        && (want.Ok? ==> r == Ok(want.value.Some?) && rows == if want.value.Some? then old(rows)[id := want.value.value]
            else old(rows))
    {
      var row := rows[id];
      if row.status.Terminal() {
        return Ok(false);
      }
      if !row.Authorized(now, allowed, store.View(caller).generation) {
        return Err(Denied);
      }
      if row.sealed {
        return Ok(false);
      }
      row := row.(sealed := true);
      if row.endedAt.None? {
        row := row.(endedAt := Some(now));
      }
      if row.endedAt.value + RECOVERY_SECONDS < row.deadline {
        row := row.(deadline := row.endedAt.value + RECOVERY_SECONDS);
      }
      row := row.(complete := row.complete && complete);
      rows := rows[id := row];
      return Ok(true);
    }

    // _commit after the answer, as a whole: the notes are merged, or the attempt counts as failed.
    method Merge(id: Id, base: Notes, savedAt: int, updates: seq<Update>, question: Question, rules: Rules,
                 facts: Facts, now: int, allowed: bool)
      requires id in rows
      modifies this`rows, store
      ensures var r := MergedNote(rules, facts, base.text, savedAt, updates, question);
        && (r.Err? ==>
              rows == old(rows)[id := FailedCommit(old(rows)[id], now, false)]
                && store.View(caller) == old(store.View(caller)))
        && (r.Ok? ==>
              var m := CommitNotes(old(rows)[id], old(store.View(caller)), base, updates, r.value.note, r.value.applied,
                                   now, allowed);
              rows == old(rows)[id := m.row] && store.View(caller) == m.notes)
      ensures forall c :: c != caller ==> store.View(c) == old(store.View(c))
    {
      hide Reconciliation, WriteAll, Records, Lines, CommitNotes, CallerStore.View;
      var note, left, applied := base.text, updates, 0;
      if question.Asked? {
        var records := NoteRecords(rules, note, savedAt);
        var r := NoteMergeProofs.Reconcile(rules, note, records, updates, question.answer);
        if r.Err? {
          rows := rows[id := FailedCommit(rows[id], now, false)];
          return;
        }
        note, left, applied := r.value.note, r.value.additions, r.value.applied;
      }
      var after, more := AppendFacts(facts, note, left);
      Commit(id, base, updates, after, applied + more, now, allowed);
    }

    // forget: the notes and every closeout of the caller go in one transaction.
    method Forget()
      modifies this`rows, store
      ensures rows == map[] && store.View(caller) == Forgotten(old(store.View(caller)))
      ensures forall c :: c != caller ==> store.View(c) == old(store.View(c))
    {
      store.Forget(caller);
      rows := map[];
    }

    // _commit, after the model has answered: notes and row change in one transaction.
    method Commit(id: Id, base: Notes, updates: seq<Update>, note: string, applied: nat, now: int, allowed: bool)
      requires id in rows
      modifies this`rows, store
      ensures var m := CommitNotes(old(rows)[id], old(store.View(caller)), base, updates, note, applied, now, allowed);
        rows == old(rows)[id := m.row] && store.View(caller) == m.notes
      ensures forall c :: c != caller ==> store.View(c) == old(store.View(c))
    {
      var row := rows[id];
      var notes := store.View(caller);
      if row.status.Terminal() {
        assert rows == rows[id := row];
        return;
      }
      var conflict := notes.revision != base.revision;
      var fatal := |note| > NOTES_LIMIT || !row.Authorized(now, allowed, notes.generation);
      if !fatal && !conflict {
        if applied > 0 {
          var written := store.ReplaceNotes(caller, note, Some(base.revision));
          assert written.Ok?;
        }
        if !row.complete {
          row := row.(status := Failed);
        } else if updates != [] {
          row := row.(status := Saved);
        } else {
          row := row.(status := Skipped);
        }
        row := row.(saved := applied, updates := []);
      } else {
        row := row.(attempts := row.attempts + 1);
        if fatal || now >= row.deadline {
          row := row.(status := Failed);
        }
      }
      rows := rows[id := row];
    }
  }
}
