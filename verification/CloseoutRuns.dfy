// Closeouts of one caller as a state machine: checkpoints and merges that are suspended
// while the model answers, owner and caller writes in between, forgetting, the recovery
// worker with its earlier copies of the rows, and restarts at any point.
module CloseoutRuns {
  import opened Wrappers
  import opened CallerNotes
  import opened Closeouts

  type Id = nat

  // The coroutine that holds the lock of a closeout while it waits for the model.
  datatype Job =
    | Extracting(events: seq<Event>, news: seq<Event>)
    | Merging(base: Notes, merging: seq<Update>)

  datatype Write = Write(author: Option<Id>, generation: nat)

  // `used`, `texts` and `writes` are history: identities given out, the notes at every
  // revision, and who changed them.
  datatype Server = Server(
    notes: Notes,
    rows: map<Id, Row>,
    jobs: map<Id, Job>,
    copies: map<Id, Row>,
    used: set<Id>,
    texts: seq<string>,
    writes: seq<Write>)

  const FRESH := Server(NO_NOTES, map[], map[], map[], {}, [""], [])

  datatype Step =
    | Begin(begun: Id, minutes: nat)
    | WriteNotes(text: string, expected: Option<int>)
    | Forget
    | StartCheckpoint(checked: Id, events: seq<Event>, ok: bool)
    | FinishCheckpoint(extracted: Id, output: seq<Candidate>, room: bool, ok: bool)
    | AbandonCheckpoint(dropped: Id)
    | Finalize(finalized: Id, complete: bool, ok: bool)
    | StartMerge(started: Id, ok: bool)
    | FinishMerge(merged: Id, note: string, applied: nat, ok: bool)
    | AbandonMerge(failed: Id, fatal: bool)
    | End(ended: Id)
    | ReadCopies
    | ExpireCopy(copied: Id)
    | DeleteCopy(deleted: Id)
    | Restart

  function Do(s: Server, step: Step, now: int): Server {
    match step
    case Begin(id, minutes) => DoBegin(s, id, minutes, now)
    case WriteNotes(text, expected) => DoWriteNotes(s, text, expected)
    case Forget =>
      s.(notes := Forgotten(s.notes), rows := map[], texts := s.texts + [""],
         writes := s.writes + [Write(None, s.notes.generation + 1)])
    case StartCheckpoint(id, events, ok) => DoStartCheckpoint(s, id, events, now, ok)
    case FinishCheckpoint(id, output, room, ok) => DoFinishCheckpoint(s, id, output, room, now, ok)
    case AbandonCheckpoint(id) => if id in s.jobs && s.jobs[id].Extracting? then s.(jobs := s.jobs - {id}) else s
    case Finalize(id, complete, ok) => DoFinalize(s, id, complete, now, ok)
    case StartMerge(id, ok) => DoStartMerge(s, id, now, ok)
    case FinishMerge(id, note, applied, ok) => DoFinishMerge(s, id, note, applied, now, ok)
    case AbandonMerge(id, fatal) => DoAbandonMerge(s, id, fatal, now)
    case End(id) => if id in s.rows then s.(rows := s.rows[id := EndedAt(s.rows[id], now)]) else s
    case ReadCopies => s.(copies := s.rows)
    case ExpireCopy(id) =>
      if id in s.copies && !s.copies[id].status.Terminal() && now >= s.copies[id].deadline && id in s.rows
      then s.(rows := s.rows[id := Expired(s.copies[id])]) else s
    case DeleteCopy(id) =>
      if id in s.copies && s.copies[id].status.Terminal() && now > s.copies[id].deadline + RECOVERY_SECONDS
      then s.(rows := s.rows - {id}) else s
    case Restart => s.(jobs := map[], copies := map[])
  }

  function DoBegin(s: Server, id: Id, minutes: nat, now: int): Server {
    if id in s.used then s
    else s.(rows := s.rows[id := Begun(s.notes, now, minutes)], used := s.used + {id})
  }

  function DoWriteNotes(s: Server, text: string, expected: Option<int>): Server {
    match Replaced(s.notes, text, expected)
    case Err(_) => s
    case Ok(after) =>
      s.(notes := after, texts := s.texts + [text], writes := s.writes + [Write(None, after.generation)])
  }

  function DoStartCheckpoint(s: Server, id: Id, events: seq<Event>, now: int, ok: bool): Server {
    if id !in s.rows || id in s.jobs then s
    else
      var news := PrepareCheckpoint(s.rows[id], events, now, ok, s.notes.generation);
      if news.Ok? && news.value.Some? then s.(jobs := s.jobs[id := Extracting(events, news.value.value)]) else s
  }

  function DoFinishCheckpoint(s: Server, id: Id, output: seq<Candidate>, room: bool, now: int, ok: bool): Server {
    if id !in s.jobs || !s.jobs[id].Extracting? then s
    else
      var free := s.(jobs := s.jobs - {id});
      if id !in s.rows then free
      else
        match CommitCheckpoint(s.rows[id], s.jobs[id].events, s.jobs[id].news, output, room, now, ok,
                               s.notes.generation)
        case Err(_) => free
        case Ok(row) => free.(rows := s.rows[id := row])
  }

  function DoFinalize(s: Server, id: Id, complete: bool, now: int, ok: bool): Server {
    if id !in s.rows || id in s.jobs then s
    else
      var sealed := Seal(s.rows[id], complete, now, ok, s.notes.generation);
      if sealed.Ok? && sealed.value.Some? then s.(rows := s.rows[id := sealed.value.value]) else s
  }

  // Merging begins after sealing, and again from the recovery worker until it succeeds.
  function DoStartMerge(s: Server, id: Id, now: int, ok: bool): Server {
    if id !in s.rows || id in s.jobs || !s.rows[id].sealed || s.rows[id].status.Terminal() then s
    else
      var row := s.rows[id];
      if row.Authorized(now, ok, s.notes.generation) then s.(jobs := s.jobs[id := Merging(s.notes, row.updates)])
      else s.(rows := s.rows[id := FailedCommit(row, now, true)])
  }

  function DoFinishMerge(s: Server, id: Id, note: string, applied: nat, now: int, ok: bool): Server {
    if id !in s.jobs || !s.jobs[id].Merging? then s
    else
      var free := s.(jobs := s.jobs - {id});
      if id !in s.rows then free
      else
        var m := CommitNotes(s.rows[id], s.notes, s.jobs[id].base, s.jobs[id].merging, note, applied, now, ok);
        var after := free.(rows := s.rows[id := m.row], notes := m.notes);
        if m.notes == s.notes then after
        else after.(texts := s.texts + [m.notes.text], writes := s.writes + [Write(Some(id), s.rows[id].generation)])
  }

  function DoAbandonMerge(s: Server, id: Id, fatal: bool, now: int): Server {
    if id !in s.jobs || !s.jobs[id].Merging? then s
    else
      var free := s.(jobs := s.jobs - {id});
      if id !in s.rows then free else free.(rows := s.rows[id := FailedCommit(s.rows[id], now, fatal)])
  }

  datatype Timed = Timed(step: Step, now: int)

  // Every run: any steps, at any times.
  function Run(s: Server, steps: seq<Timed>): Server {
    if steps == [] then s else var last := steps[|steps| - 1]; Do(Run(s, steps[..|steps| - 1]), last.step, last.now)
  }

  // ----- What holds of every row -----

  // The lists of recorded events are disjoint, and together they are the fingerprinted ones.
  ghost predicate BatchesOk(batches: map<seq<Event>, seq<string>>, hashes: map<string, Event>) {
    && (forall k :: k in batches ==> k != [] && batches[k] == Ids(k))
    && (forall j, k, id :: j in batches && k in batches && id in Ids(j) && id in Ids(k) ==> j == k)
    && (forall k, id :: k in batches && id in Ids(k) ==> id in hashes)
    && (forall id :: id in hashes ==> hashes[id].id == id && exists k :: k in batches && id in Ids(k))
  }

  // Every extracted fact has a recorded event as its source, and none is kept twice.
  ghost predicate UpdatesOk(updates: seq<Update>, hashes: map<string, Event>) {
    && (forall u :: u in updates ==> u.source in hashes)
    && Distinct(updates)
  }

  ghost predicate Distinct(updates: seq<Update>) {
    forall i, j :: 0 <= i < j < |updates| ==> updates[i].signature != updates[j].signature
  }

  ghost predicate RowOk(row: Row) {
    BatchesOk(row.batches, row.hashes) && UpdatesOk(row.updates, row.hashes)
      && (row.expired ==> row.status.Failed? && row.updates == [])
  }

  ghost predicate ExtractOk(events: seq<Event>, news: seq<Event>, hashes: map<string, Event>) {
    && news != []
    && (forall id :: id in Ids(news) ==> id !in hashes)
    && (forall id :: id in Ids(events) ==> id in hashes || id in Ids(news))
    && (forall id :: id in Ids(news) ==> id in Ids(events))
    && SameIdentities(events, hashes)
  }

  ghost predicate JobOk(row: Row, job: Job) {
    match job
    case Extracting(events, news) => row.Open() ==> ExtractOk(events, news, row.hashes)
    case Merging(base, updates) => row.status.Pending? ==> row.sealed && row.updates == updates
  }

  // How a row may change between two moments while it exists.
  ghost predicate Evolves(a: Row, b: Row) {
    && b.generation == a.generation && b.startedAt == a.startedAt
    && (a.status.Terminal() ==> b.status.Terminal())
    && (a.expired ==> b.expired)
    && (b.expired || (forall id :: id in a.hashes ==> id in b.hashes && b.hashes[id] == a.hashes[id]))
    && (a.sealed || a.status.Terminal() ==> b.updates == a.updates || b.updates == [])
    && (a.sealed || a.status.Terminal() ==> b.sealed || b.status.Terminal())
    && (b.updates != a.updates && (a.sealed || a.status.Terminal()) ==> b.status.Terminal())
    && (a.sealed && !b.expired ==> b.sealed && b.hashes == a.hashes)
  }

  lemma NewHashes(hashes: map<string, Event>, events: seq<Event>, news: seq<Event>)
    requires ExtractOk(events, news, hashes)
    ensures var all := hashes + HashesOf(events);
      && (forall id :: id in hashes ==> id in all && all[id] == hashes[id])
      && (forall id :: id in all <==> id in hashes || id in Ids(news))
      && (forall id :: id in all && id !in hashes ==> all[id].id == id)
      && (forall id :: id in Ids(events) ==> id in all)
  {}

  lemma NewBatch(batches: map<seq<Event>, seq<string>>, hashes: map<string, Event>, news: seq<Event>,
                 all: map<string, Event>)
    requires BatchesOk(batches, hashes) && news != [] && news !in batches
    requires forall id :: id in Ids(news) ==> id !in hashes
    requires forall id :: id in hashes ==> id in all && all[id] == hashes[id]
    requires forall id :: id in all <==> id in hashes || id in Ids(news)
    requires forall id :: id in all && id !in hashes ==> all[id].id == id
    ensures BatchesOk(batches[news := Ids(news)], all)
  {
    hide Ids;
    var more := batches[news := Ids(news)];
    forall id | id in all ensures exists k :: k in more && id in Ids(k) {
      if id in hashes {
        var k :| k in batches && id in Ids(k);
        assert k in more;
      } else {
        assert news in more;
      }
    }
  }

  lemma NewsNotRecorded(batches: map<seq<Event>, seq<string>>, hashes: map<string, Event>, news: seq<Event>)
    requires BatchesOk(batches, hashes) && news != []
    requires forall id :: id in Ids(news) ==> id !in hashes
    ensures news !in batches
  {
    assert Ids(news)[0] == news[0].id;
    assert news[0].id in Ids(news);
  }

  lemma GroundedSources(news: seq<Event>, output: seq<Candidate>)
    requires Validated(news, output).Ok?
    ensures forall u :: u in Validated(news, output).value ==> u.source in Ids(news)
  {
    forall u | u in Validated(news, output).value ensures u.source in Ids(news) {
      var c :| c in output && c.update == u && Grounded(news, c);
      var e := Evidence(news, u.source).value;
      var i :| 0 <= i < |news| && news[i] == e;
      assert Ids(news)[i] == u.source;
    }
  }

  lemma CommitCheckpointKeeps(row: Row, events: seq<Event>, news: seq<Event>, output: seq<Candidate>, room: bool,
                              now: int, allowed: bool, generation: nat)
    requires RowOk(row) && JobOk(row, Extracting(events, news))
    requires CommitCheckpoint(row, events, news, output, room, now, allowed, generation).Ok?
    ensures var after := CommitCheckpoint(row, events, news, output, room, now, allowed, generation).value;
      && RowOk(after) && Evolves(row, after) && !after.expired
      && after.Open()
      && (forall id :: id in Ids(events) ==> id in after.hashes)
  {
    hide BatchesOk, Validated, HashesOf, SameIdentities, Ids;
    NewHashes(row.hashes, events, news);
    NewsNotRecorded(row.batches, row.hashes, news);
    NewBatch(row.batches, row.hashes, news, row.hashes + HashesOf(events));
    GroundedSources(news, output);
    AddUpdatesKeeps(row.updates, Validated(news, output).value);
  }

  lemma {:induction false} AddUpdatesKeeps(have: seq<Update>, more: seq<Update>)
    requires Distinct(have)
    ensures var all := AddUpdates(have, more);
      && Distinct(all)
      && have <= all
      && (forall u :: u in all ==> u in have || u in more)
      && (forall u :: u in more ==> Seen(all, u))
    decreases |more|
  {
    if more != [] {
      var next := if Seen(have, more[0]) then have else have + [more[0]];
      AddUpdatesKeeps(next, more[1..]);
      assert Seen(next, more[0]) by {
        if !Seen(have, more[0]) {
          assert next[|have|] == more[0];
        }
      }
      SeenStays(next, AddUpdates(have, more), more[0]);
    }
  }

  lemma SeenStays(have: seq<Update>, all: seq<Update>, u: Update)
    requires have <= all && Seen(have, u)
    ensures Seen(all, u)
  {
    var i :| 0 <= i < |have| && have[i].signature == u.signature;
    assert all[i] in all;
  }

  lemma PreparedJob(row: Row, events: seq<Event>, now: int, allowed: bool, generation: nat)
    requires RowOk(row)
    ensures var r := PrepareCheckpoint(row, events, now, allowed, generation);
      && (r.Ok? && r.value.Some? ==> JobOk(row, Extracting(events, r.value.value)))
      && (r.Ok? && r.value.None? ==> forall id :: id in Ids(events) ==> id in row.hashes)
  {
    var news := Unrecorded(events, row.hashes);
    if news != [] {
      assert Ids(news)[0] == news[0].id;
      assert news[0].id in Ids(news);
    }
  }

  // ----- What holds of every state -----

  ghost predicate NotesOk(notes: Notes, texts: seq<string>) {
    && |texts| == notes.revision + 1 && texts[notes.revision] == notes.text
    && (forall t :: t in texts ==> |t| <= NOTES_LIMIT)
  }

  ghost predicate RowsOk(rows: map<Id, Row>, generation: nat, used: set<Id>) {
    forall id :: id in rows ==> id in used && RowOk(rows[id]) && rows[id].generation == generation
  }

  ghost predicate JobsOk(jobs: map<Id, Job>, rows: map<Id, Row>, used: set<Id>, notes: Notes, texts: seq<string>) {
    forall id :: id in jobs ==>
      && id in used
      && (id in rows ==> JobOk(rows[id], jobs[id]))
      && (jobs[id].Merging? ==>
            && jobs[id].base.revision <= notes.revision && jobs[id].base.revision < |texts|
            && jobs[id].base.text == texts[jobs[id].base.revision])
  }

  ghost predicate CopiesOk(copies: map<Id, Row>, rows: map<Id, Row>, used: set<Id>) {
    forall id :: id in copies ==>
      && id in used && RowOk(copies[id])
      && (id in rows ==>
          copies[id].generation == rows[id].generation && copies[id].startedAt == rows[id].startedAt
            && (copies[id].status.Terminal() ==> rows[id].status.Terminal()))
  }

  // A closeout has changed the notes only if its row is gone or final; then it changed them once.
  ghost predicate WritesOk(writes: seq<Write>, rows: map<Id, Row>, used: set<Id>) {
    && (forall i :: 0 <= i < |writes| && writes[i].author.Some? ==> Wrote(writes[i].author.value, rows, used))
    && (forall i, j :: 0 <= i < j < |writes| && writes[i].author.Some? ==> writes[i].author != writes[j].author)
  }

  ghost predicate Wrote(id: Id, rows: map<Id, Row>, used: set<Id>) {
    id in used && (id in rows ==> rows[id].status.Terminal())
  }

  ghost predicate Inv(s: Server) {
    && NotesOk(s.notes, s.texts)
    && RowsOk(s.rows, s.notes.generation, s.used)
    && JobsOk(s.jobs, s.rows, s.used, s.notes, s.texts)
    && CopiesOk(s.copies, s.rows, s.used)
    && WritesOk(s.writes, s.rows, s.used)
  }

  // What one step may do to the closeouts, the notes and the list of writes.
  ghost predicate Changes(a: Server, b: Server) {
    && a.used <= b.used
    && a.texts <= b.texts && a.writes <= b.writes
    && a.notes.generation <= b.notes.generation
    && (forall id :: id in a.rows && id in b.rows ==> Evolves(a.rows[id], b.rows[id]))
    && (forall id :: id in b.rows && id !in a.rows ==> id !in a.used)
    && (|b.writes| == |a.writes| <==> b.notes == a.notes)
    && (forall i :: |a.writes| <= i < |b.writes| && b.writes[i].author.Some? ==> b.writes[i].author.value in a.rows)
    && |b.writes| - |a.writes| == |b.texts| - |a.texts| <= 1
  }

  // One row is replaced by what it may become.
  lemma RowStep(s: Server, id: Id, row: Row, t: Server)
    requires Inv(s) && id in s.rows && RowOk(row) && Evolves(s.rows[id], row)
    requires t == s.(rows := s.rows[id := row], jobs := t.jobs)
    requires forall j :: j in t.jobs ==> j in s.jobs && t.jobs[j] == s.jobs[j]
    requires id in t.jobs ==> JobOk(row, t.jobs[id])
    ensures Inv(t) && Changes(s, t)
  {
    hide RowOk, JobOk;
  }

  lemma EndKeeps(row: Row, now: int, job: Option<Job>)
    requires RowOk(row) && (job.Some? ==> JobOk(row, job.value))
    ensures RowOk(EndedAt(row, now)) && Evolves(row, EndedAt(row, now))
      && (job.Some? ==> JobOk(EndedAt(row, now), job.value))
  {
    hide BatchesOk, UpdatesOk, ExtractOk;
  }

  lemma SealKeeps(row: Row, complete: bool, now: int, allowed: bool, generation: nat)
    requires RowOk(row)
    ensures var r := Seal(row, complete, now, allowed, generation);
      r.Ok? && r.value.Some? ==> RowOk(r.value.value) && Evolves(row, r.value.value)
  {
    hide BatchesOk, UpdatesOk, ExtractOk;
  }

  lemma FailKeeps(row: Row, now: int, fatal: bool)
    requires RowOk(row)
    ensures RowOk(FailedCommit(row, now, fatal)) && Evolves(row, FailedCommit(row, now, fatal))
  {
    hide BatchesOk, UpdatesOk, ExtractOk;
  }

  // A copy may be older than the row that it replaces; it ends the closeout all the same.
  lemma ExpireKeeps(row: Row, copy: Row, job: Option<Job>)
    requires RowOk(copy) && copy.generation == row.generation && copy.startedAt == row.startedAt
    ensures RowOk(Expired(copy)) && Evolves(row, Expired(copy))
    ensures job.Some? ==> JobOk(Expired(copy), job.value)
  {
    hide BatchesOk, ExtractOk;
  }

  lemma MergeKeeps(row: Row, notes: Notes, base: Notes, updates: seq<Update>, note: string, applied: nat, now: int,
                   allowed: bool)
    requires RowOk(row) && |notes.text| <= NOTES_LIMIT
    ensures var m := CommitNotes(row, notes, base, updates, note, applied, now, allowed);
      && RowOk(m.row) && Evolves(row, m.row)
      && (m.notes != notes ==>
            && m.notes == Notes(note, notes.revision + 1, notes.generation) && |note| <= NOTES_LIMIT
            && base.revision == notes.revision
            && row.status.Pending? && m.row.status.Terminal())
  {
    hide BatchesOk, ExtractOk;
  }

  lemma BegunOk(notes: Notes, now: int, minutes: nat)
    ensures RowOk(Begun(notes, now, minutes)) && Begun(notes, now, minutes).generation == notes.generation
  {}

  lemma BeginKeeps(s: Server, id: Id, minutes: nat, now: int)
    requires Inv(s)
    ensures Inv(DoBegin(s, id, minutes, now)) && Changes(s, DoBegin(s, id, minutes, now))
  {
    hide RowOk, JobOk, NotesOk, Begun;
    BegunOk(s.notes, now, minutes);
  }

  lemma TextsGrow(notes: Notes, texts: seq<string>, after: Notes)
    requires NotesOk(notes, texts) && after.revision == notes.revision + 1 && |after.text| <= NOTES_LIMIT
    ensures NotesOk(after, texts + [after.text])
  {}

  lemma WriteNotesKeeps(s: Server, text: string, expected: Option<int>)
    requires Inv(s)
    ensures Inv(DoWriteNotes(s, text, expected)) && Changes(s, DoWriteNotes(s, text, expected))
  {
    hide RowOk, JobOk, NotesOk;
    var after := Replaced(s.notes, text, expected);
    if after.Ok? {
      TextsGrow(s.notes, s.texts, after.value);
    }
  }

  lemma ForgetKeeps(s: Server)
    requires Inv(s)
    ensures Inv(Do(s, Forget, 0)) && Changes(s, Do(s, Forget, 0))
  {
    hide RowOk, JobOk, NotesOk;
    TextsGrow(s.notes, s.texts, Forgotten(s.notes));
  }

  lemma StartCheckpointKeeps(s: Server, id: Id, events: seq<Event>, now: int, ok: bool)
    requires Inv(s)
    ensures var t := DoStartCheckpoint(s, id, events, now, ok); Inv(t) && Changes(s, t)
  {
    hide RowOk, JobOk, NotesOk, PrepareCheckpoint;
    if id in s.rows && id !in s.jobs {
      PreparedJob(s.rows[id], events, now, ok, s.notes.generation);
    }
  }

  lemma FinishCheckpointKeeps(s: Server, id: Id, output: seq<Candidate>, room: bool, now: int, ok: bool)
    requires Inv(s)
    ensures var t := DoFinishCheckpoint(s, id, output, room, now, ok); Inv(t) && Changes(s, t)
  {
    hide RowOk, JobOk, NotesOk, CommitCheckpoint;
    if id in s.jobs && s.jobs[id].Extracting? && id in s.rows {
      var row := CommitCheckpoint(s.rows[id], s.jobs[id].events, s.jobs[id].news, output, room, now, ok,
                                  s.notes.generation);
      if row.Ok? {
        CommitCheckpointKeeps(s.rows[id], s.jobs[id].events, s.jobs[id].news, output, room, now, ok,
                              s.notes.generation);
        RowStep(s, id, row.value, DoFinishCheckpoint(s, id, output, room, now, ok));
      }
    }
  }

  lemma FinalizeKeeps(s: Server, id: Id, complete: bool, now: int, ok: bool)
    requires Inv(s)
    ensures var t := DoFinalize(s, id, complete, now, ok); Inv(t) && Changes(s, t)
  {
    hide RowOk, JobOk, NotesOk, Seal;
    if id in s.rows && id !in s.jobs {
      SealKeeps(s.rows[id], complete, now, ok, s.notes.generation);
      var r := Seal(s.rows[id], complete, now, ok, s.notes.generation);
      if r.Ok? && r.value.Some? {
        RowStep(s, id, r.value.value, DoFinalize(s, id, complete, now, ok));
      }
    }
  }

  lemma StartMergeKeeps(s: Server, id: Id, now: int, ok: bool)
    requires Inv(s)
    ensures var t := DoStartMerge(s, id, now, ok); Inv(t) && Changes(s, t)
  {
    hide RowOk, FailedCommit;
    if id in s.rows && id !in s.jobs && !s.rows[id].Authorized(now, ok, s.notes.generation) && s.rows[id].sealed
      && s.rows[id].status.Pending? {
      FailKeeps(s.rows[id], now, true);
      RowStep(s, id, FailedCommit(s.rows[id], now, true), DoStartMerge(s, id, now, ok));
    }
  }

  lemma AbandonMergeKeeps(s: Server, id: Id, fatal: bool, now: int)
    requires Inv(s)
    ensures var t := DoAbandonMerge(s, id, fatal, now); Inv(t) && Changes(s, t)
  {
    hide RowOk, JobOk, NotesOk, FailedCommit;
    if id in s.jobs && s.jobs[id].Merging? && id in s.rows {
      FailKeeps(s.rows[id], now, fatal);
      RowStep(s, id, FailedCommit(s.rows[id], now, fatal), DoAbandonMerge(s, id, fatal, now));
    }
  }

  lemma FinishMergeKeeps(s: Server, id: Id, note: string, applied: nat, now: int, ok: bool)
    requires Inv(s)
    ensures var t := DoFinishMerge(s, id, note, applied, now, ok); Inv(t) && Changes(s, t)
  {
    hide RowOk, JobOk, CommitNotes, ExtractOk;
    if id in s.jobs && s.jobs[id].Merging? && id in s.rows {
      assert |s.notes.text| <= NOTES_LIMIT by { assert s.notes.text in s.texts; }
      MergeKeeps(s.rows[id], s.notes, s.jobs[id].base, s.jobs[id].merging, note, applied, now, ok);
      var m := CommitNotes(s.rows[id], s.notes, s.jobs[id].base, s.jobs[id].merging, note, applied, now, ok);
      var row := s.(rows := s.rows[id := m.row], jobs := s.jobs - {id});
      RowStep(s, id, m.row, row);
      if m.notes != s.notes {
        MergeWrites(s, row, id, m.notes, s.rows[id].generation);
      }
    }
  }

  // The write of a merge, after its row has become final in the same transaction.
  lemma MergeWrites(s: Server, row: Server, id: Id, notes: Notes, generation: nat)
    requires Inv(s) && Inv(row) && Changes(s, row) && row == s.(rows := row.rows, jobs := row.jobs)
    requires id in s.rows && !s.rows[id].status.Terminal() && id in row.rows && row.rows[id].status.Terminal()
    requires notes == Notes(notes.text, s.notes.revision + 1, s.notes.generation) && |notes.text| <= NOTES_LIMIT
    ensures var t := row.(notes := notes, texts := s.texts + [notes.text],
                          writes := s.writes + [Write(Some(id), generation)]);
      Inv(t) && Changes(s, t)
  {
    hide RowOk, JobOk, NotesOk;
    TextsGrow(s.notes, s.texts, notes);
    forall i | 0 <= i < |s.writes| ensures s.writes[i].author != Some(id) {
      assert s.writes[i].author.Some? ==> Wrote(s.writes[i].author.value, s.rows, s.used);
    }
  }

  lemma EndStepKeeps(s: Server, id: Id, now: int)
    requires Inv(s)
    ensures var t := Do(s, End(id), now); Inv(t) && Changes(s, t)
  {
    hide RowOk, JobOk, NotesOk, EndedAt;
    if id in s.rows {
      EndKeeps(s.rows[id], now, if id in s.jobs then Some(s.jobs[id]) else None);
      RowStep(s, id, EndedAt(s.rows[id], now), Do(s, End(id), now));
    }
  }

  lemma ExpireCopyKeeps(s: Server, id: Id, now: int)
    requires Inv(s)
    ensures var t := Do(s, ExpireCopy(id), now); Inv(t) && Changes(s, t)
  {
    hide RowOk, JobOk, NotesOk, Expired;
    var t := Do(s, ExpireCopy(id), now);
    if id in s.copies && id in s.rows && t != s {
      ExpireKeeps(s.rows[id], s.copies[id], if id in s.jobs then Some(s.jobs[id]) else None);
      RowStep(s, id, Expired(s.copies[id]), t);
    }
  }

  lemma DeleteCopyKeeps(s: Server, id: Id, now: int)
    requires Inv(s)
    ensures var t := Do(s, DeleteCopy(id), now); Inv(t) && Changes(s, t)
  {
    hide RowOk, JobOk, NotesOk;
  }

  lemma WorkerKeeps(s: Server, step: Step, now: int)
    requires Inv(s)
    requires step.ReadCopies? || step.Restart? || step.AbandonCheckpoint?
    ensures var t := Do(s, step, now); Inv(t) && Changes(s, t)
  {
    hide RowOk, JobOk, NotesOk;
  }

  lemma StepKeeps(s: Server, step: Step, now: int)
    requires Inv(s)
    ensures Inv(Do(s, step, now)) && Changes(s, Do(s, step, now))
  {
    hide Inv, Changes, DoBegin, DoWriteNotes, DoStartCheckpoint, DoFinishCheckpoint, DoFinalize, DoStartMerge,
      DoFinishMerge, DoAbandonMerge;
    match step
    case Begin(id, minutes) => BeginKeeps(s, id, minutes, now);
    case WriteNotes(text, expected) => WriteNotesKeeps(s, text, expected);
    case Forget => ForgetKeeps(s);
    case StartCheckpoint(id, events, ok) => StartCheckpointKeeps(s, id, events, now, ok);
    case FinishCheckpoint(id, output, room, ok) => FinishCheckpointKeeps(s, id, output, room, now, ok);
    case Finalize(id, complete, ok) => FinalizeKeeps(s, id, complete, now, ok);
    case StartMerge(id, ok) => StartMergeKeeps(s, id, now, ok);
    case FinishMerge(id, note, applied, ok) => FinishMergeKeeps(s, id, note, applied, now, ok);
    case AbandonMerge(id, fatal) => AbandonMergeKeeps(s, id, fatal, now);
    case End(id) => EndStepKeeps(s, id, now);
    case ExpireCopy(id) => ExpireCopyKeeps(s, id, now);
    case DeleteCopy(id) => DeleteCopyKeeps(s, id, now);
    case _ => WorkerKeeps(s, step, now);
  }
}
