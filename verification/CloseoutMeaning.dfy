// What the transactions on closeouts and the steps of the capture do, on their fields.
module CloseoutMeaning {
  import opened Wrappers
  import opened CallerNotes
  import opened Closeouts
  import opened CloseoutRuns
  import opened MemoryCapture

  // ----- Notes -----

  // Notes are replaced exactly within 8000 characters and at the revision that the writer saw.
  lemma ReplacementMeans(n: Notes, text: string, expected: Option<int>)
    ensures Replaced(n, text, expected).Ok? <==> |text| <= 8000 && (expected.None? || expected.value == n.revision)
    ensures Replaced(n, text, expected).Ok? ==>
      Replaced(n, text, expected).value == n.(text := text, revision := n.revision + 1)
    ensures Forgotten(n) == n.(text := "", revision := n.revision + 1, generation := n.generation + 1)
  {}

  // ----- Checkpoints -----

  // A closeout begins open and complete, for the notes of its caller, for a day after the call.
  lemma BeginningMeans(notes: Notes, now: int, minutes: nat)
    ensures var row := Begun(notes, now, minutes);
      && row.generation == notes.generation && row.startedAt == now && row.endedAt.None?
      && row.deadline == now + 60 * minutes + 86400
      && row.status == Pending && row.complete && !row.sealed && !row.expired
      && row.updates == [] && row.batches == map[] && row.hashes == map[] && row.saved == 0 && row.attempts == 0
  {}

  // An event counts when it has a short identity, says something, and is neither from before the
  // call nor from the future, nor from half a minute after the end.
  lemma EventCounts(row: Row, e: Event, now: int)
    ensures ValidEvent(row, e, now) <==>
      && 1 <= |e.id| && |e.id| <= 128 && |e.text| <= 24000
      && (exists i :: 0 <= i < |e.text| && !Space(e.text[i] as int))
      && row.startedAt <= e.timestamp + 5 && e.timestamp <= now + 5
      && (row.endedAt.Some? ==> e.timestamp <= row.endedAt.value + 30)
  {}

  // A batch is taken up exactly by a live and permitted closeout, within the bounds and with every
  // event valid and as it was told before; and there is work only for one that is still open.
  lemma CheckpointMeans(row: Row, events: seq<Event>, now: int, allowed: bool, generation: nat)
    requires forall i, j :: 0 <= i < j < |events| ==> events[i].id != events[j].id
    ensures var r := PrepareCheckpoint(row, events, now, allowed, generation);
      var live := now <= row.deadline && allowed && generation == row.generation;
      var good := |events| <= 100 && EncodedSize(events) <= 100000 && TextLength(events) <= 24000
                  && (forall e :: e in events ==> ValidEvent(row, e, now))
                  && (forall e :: e in events && e.id in row.hashes ==> row.hashes[e.id] == e);
      && (r.Err? ==> !live || !good || (row.sealed || row.status != Pending))
      && (r == Ok(None) ==>
            && live && good
            && ((forall e :: e in events ==> e.id in row.hashes)
                || exists b :: b in row.batches && forall e :: e in b <==> e in events && e.id !in row.hashes))
      && ((forall e :: e in events ==> e.id in row.hashes) && live && good ==> r == Ok(None))
      && (r.Ok? && r.value.Some? ==>
            && live && good && !row.sealed && row.status == Pending && r.value.value != []
            && (forall e :: e in r.value.value <==> e in events && e.id !in row.hashes))
  {
    hide EncodedSize, TextLength, ValidEvent, SameIdentities;
    IdentitiesMean(events, row.hashes);
    if forall e :: e in events ==> e.id in row.hashes {
      NothingNew(events, row.hashes);
    }
  }

  lemma {:induction false} NothingNew(events: seq<Event>, hashes: map<string, Event>)
    requires forall e :: e in events ==> e.id in hashes
    ensures Unrecorded(events, hashes) == []
  {
    if events != [] { NothingNew(events[..|events| - 1], hashes); }
  }

  lemma IdentitiesMean(events: seq<Event>, hashes: map<string, Event>)
    requires forall i, j :: 0 <= i < j < |events| ==> events[i].id != events[j].id
    ensures SameIdentities(events, hashes) <==> forall e :: e in events && e.id in hashes ==> hashes[e.id] == e
  {
    HashesAre(events);
    var h := HashesOf(events);
    forall e | e in events ensures e.id in h && h[e.id] == e {}
  }

  lemma {:induction false} HashesAre(events: seq<Event>)
    requires forall i, j :: 0 <= i < j < |events| ==> events[i].id != events[j].id
    ensures forall e :: e in events ==> e.id in HashesOf(events) && HashesOf(events)[e.id] == e
  {
    if events != [] {
      var front, last := events[..|events| - 1], events[|events| - 1];
      HashesAre(front);
      forall e | e in events ensures e.id in HashesOf(events) && HashesOf(events)[e.id] == e {
        if e != last {
          var i :| 0 <= i < |events| && events[i] == e;
          assert e in front && events[i].id != events[|events| - 1].id;
        }
      }
    }
  }

  // The new events are those not told before, in their order.
  lemma {:induction false} NewsAre(events: seq<Event>, hashes: map<string, Event>)
    requires forall e :: e in events ==> e.id !in hashes
    ensures Unrecorded(events, hashes) == events
  {
    if events != [] {
      NewsAre(events[..|events| - 1], hashes);
      assert events == events[..|events| - 1] + [events[|events| - 1]];
    }
  }

  // A fact must name an event of the caller in the new ones and quote it.
  lemma GroundMeans(news: seq<Event>, c: Candidate)
    requires forall i, j :: 0 <= i < j < |news| ==> news[i].id != news[j].id
    ensures Grounded(news, c) <==>
      && (exists i :: 0 <= i < |c.quote| && !Space(c.quote[i] as int))
      && (exists e :: e in news && e.id == c.update.source && e.direction == Input
            && (exists i :: Stands(c.quote, e.text, i)))
  {
    EvidenceIs(news, c.update.source);
    var e := Evidence(news, c.update.source);
    if e.Some? {
      QuotesMeans(e.value.text, c.quote);
    }
  }

  predicate Stands(quote: string, text: string, i: int) {
    0 <= i && i + |quote| <= |text| && text[i..i + |quote|] == quote
  }

  lemma QuotesMeans(text: string, quote: string)
    ensures Quotes(text, quote) <==> exists i :: Stands(quote, text, i)
  {
    if Quotes(text, quote) {
      var i :| 0 <= i <= |text| - |quote| && text[i..][..|quote|] == quote;
      assert text[i..i + |quote|] == text[i..][..|quote|];
      assert Stands(quote, text, i);
    }
    if exists i :: Stands(quote, text, i) {
      var i :| Stands(quote, text, i);
      assert text[i..][..|quote|] == quote;
    }
  }

  lemma {:induction false} EvidenceIs(news: seq<Event>, id: string)
    requires forall i, j :: 0 <= i < j < |news| ==> news[i].id != news[j].id
    ensures forall e :: e in news && e.id == id && e.direction == Input ==> Evidence(news, id) == Some(e)
  {
    if news != [] {
      var front, last := news[..|news| - 1], news[|news| - 1];
      EvidenceIs(front, id);
      forall e | e in news && e.id == id && e.direction == Input ensures Evidence(news, id) == Some(e) {
        if e != last {
          var i :| 0 <= i < |news| && news[i] == e;
          assert e in front && news[i].id != news[|news| - 1].id;
        }
      }
    }
  }

  // ----- Endings -----

  // The end of the call is noted once, and brings the deadline forward to a day after it.
  lemma EndMeans(row: Row, now: int)
    ensures row.endedAt.Some? ==> EndedAt(row, now) == row
    ensures row.endedAt.None? ==>
      var after := EndedAt(row, now);
      && after == row.(endedAt := Some(now), deadline := after.deadline)
      && after.deadline <= row.deadline && after.deadline <= now + 86400
      && (after.deadline == row.deadline || after.deadline == now + 86400)
  {}

  // Exactly a live, permitted and open closeout is sealed, as complete as both sides say.
  lemma SealMeans(row: Row, complete: bool, now: int, allowed: bool, generation: nat)
    ensures var r := Seal(row, complete, now, allowed, generation);
      && (r.Err? <==> row.status == Pending && !(now <= row.deadline && allowed && generation == row.generation))
      && (r == Ok(None) <==>
            row.status != Pending
            || (row.sealed && now <= row.deadline && allowed && generation == row.generation))
      && (r.Ok? && r.value.Some? ==>
            var after := r.value.value;
            && !row.sealed && after.sealed && after.status == Pending
            && (after.complete <==> row.complete && complete)
            && after.endedAt == (if row.endedAt.Some? then row.endedAt else Some(now))
            && after.deadline <= row.deadline && after.deadline <= after.endedAt.value + 86400
            && (after.deadline == row.deadline || after.deadline == after.endedAt.value + 86400)
            && after == row.(sealed := true, complete := after.complete, endedAt := after.endedAt,
                             deadline := after.deadline))
  {}

  // A merge is committed exactly by a live and permitted closeout, to the notes it was made for and
  // within their bound; then the closeout is done, its facts are disposed of, and notes with a
  // change are the merged ones. Otherwise it counts an attempt, and fails for good or by time.
  lemma CommitMeans(row: Row, notes: Notes, base: Notes, updates: seq<Update>, note: string, applied: nat, now: int,
                    allowed: bool)
    requires row.status == Pending
    ensures var m := CommitNotes(row, notes, base, updates, note, applied, now, allowed);
      var live := |note| <= 8000 && now <= row.deadline && allowed && notes.generation == row.generation;
      && (live && notes.revision == base.revision ==>
            && m.row == row.(updates := [], saved := applied, status := m.row.status)
            && (m.row.status == Failed <==> !row.complete)
            && (m.row.status == Saved <==> row.complete && updates != [])
            && (m.row.status == Skipped <==> row.complete && updates == [])
            && m.notes == if applied == 0 then notes
                          else notes.(text := note, revision := notes.revision + 1))
      && (!live || notes.revision != base.revision ==>
            && m.notes == notes && m.row == row.(attempts := row.attempts + 1, status := m.row.status)
            && (m.row.status == Failed <==> !live || row.deadline <= now)
            && (m.row.status != Failed ==> m.row.status == Pending))
  {}

  // ----- Capture -----

  // An event joins the queue while it is short enough and the queue has room, and is counted;
  // what cannot be kept, or not be persisted, ends the claim of completeness.
  lemma CaptureMeans(q: Queue, e: Event, saved: bool)
    ensures var after := Captured(q, e, saved);
      var kept := |q.events| < 512 && |e.text| <= 24000;
      && after.events == (if kept then q.events + [e] else q.events) && after.context == q.context
      && (after.data.complete <==> q.data.complete && kept && saved)
      && after.data == q.data.(complete := after.data.complete,
                               counted := if kept then q.data.counted + 1 else q.data.counted)
  {}

  // A batch is the longest prefix of at most 96 events and, but for the first one, 18000 characters.
  lemma BatchMeans(events: seq<Event>)
    ensures var n := |Batch(events)|;
      && n <= |events| && Batch(events) == events[..n] && n <= 96 && (events != [] ==> 0 < n)
      && (1 < n ==> TextLength(events[..n]) <= 18000)
      && (n < |events| && n < 96 ==> 18000 < TextLength(events[..n + 1]))
  {
    assert events[..0] == [];
    LengthMeans(events, 0, 0);
  }

  lemma Lengthened(events: seq<Event>, n: nat)
    requires n < |events|
    ensures TextLength(events[..n + 1]) == TextLength(events[..n]) + |events[n].text|
  {
    assert events[..n + 1][..n] == events[..n];
  }

  lemma {:induction false} LengthMeans(events: seq<Event>, taken: nat, size: nat)
    requires taken <= |events| && taken <= 96 && size == TextLength(events[..taken])
    requires 1 < taken ==> size <= 18000
    ensures var n := BatchLength(events, taken, size);
      && taken <= n <= |events| && n <= 96
      && (1 < n ==> TextLength(events[..n]) <= 18000)
      && (0 < n < |events| && n < 96 ==> 18000 < TextLength(events[..n + 1]))
    decreases |events| - taken
  {
    hide TextLength;
    if taken < |events| {
      Lengthened(events, taken);
      if !(taken > 0 && size + |events[taken].text| > 18000) && taken != 96 {
        LengthMeans(events, taken + 1, size + |events[taken].text|);
      }
    }
  }

  // Before it go as many of the latest events of the context as leave room for it in 24000.
  lemma {:induction false} ContextMeans(context: seq<Event>, size: nat)
    ensures var kept := Trimmed(context, size);
      && |kept| <= |context| && kept == context[|context| - |kept|..]
      && (kept != [] ==> TextLength(kept) + size <= 24000)
      && (|kept| < |context| ==> 24000 < TextLength(context[|context| - |kept| - 1..]) + size)
  {
    assert context[0..] == context;
    if context != [] && TextLength(context) + size > 24000 {
      ContextMeans(context[1..], size);
      var kept := Trimmed(context, size);
      assert context[1..][|context| - 1 - |kept|..] == context[|context| - |kept|..];
      if |kept| < |context| - 1 {
        assert context[1..][|context| - 1 - |kept| - 1..] == context[|context| - |kept| - 1..];
      }
    }
  }

  lemma PostMeans(q: Queue)
    ensures var context := Trimmed(q.context, TextLength(Batch(q.events)));
      Posted(q) == context + Batch(q.events)
  {}

  // The acknowledged events leave the queue, and the last four of all that is acknowledged
  // are the context from then on.
  lemma AcknowledgementMeans(q: Queue, n: nat)
    requires n <= |q.events|
    ensures var after, told := Acknowledged(q, n), q.context + q.events[..n];
      && after.events == q.events[n..]
      && after.data == q.data.(acknowledged := after.data.acknowledged)
      && (forall id :: id in after.data.acknowledged <==>
            id in q.data.acknowledged || exists e :: e in q.events[..n] && e.id == id)
      && (|told| <= 4 ==> after.context == told)
      && (4 < |told| ==> after.context == told[|told| - 4..])
  {}

  // After a restart everything on record that is not acknowledged and not too long is sent again,
  // and completeness is claimed only if that is all that was counted.
  lemma RecoveryMeans(disk: Data, ledger: seq<Event>, retained: bool)
    ensures var q := Recovered(disk, ledger, retained);
      && q.context == [] && q.data.ended
      && (forall e :: e in q.events <==>
            !disk.finalized && retained && e in ledger && e.id !in disk.acknowledged && |e.text| <= 24000)
      && (q.data.complete <==>
            && disk.ended && disk.complete
            && (disk.finalized || disk.counted <= |disk.acknowledged| + |q.events|)
            && (!disk.finalized && retained ==>
                  forall e :: e in ledger && e.id !in disk.acknowledged ==> |e.text| <= 24000))
      && q.data == disk.(complete := q.data.complete, ended := true)
  {
    ResentAre(ledger, disk.acknowledged);
  }

  lemma {:induction false} ResentAre(ledger: seq<Event>, acknowledged: set<string>)
    ensures forall e :: e in Resent(ledger, acknowledged) <==>
      e in ledger && e.id !in acknowledged && |e.text| <= 24000
  {
    if ledger != [] {
      var front, last := ledger[..|ledger| - 1], ledger[|ledger| - 1];
      ResentAre(front, acknowledged);
      assert forall e :: e in ledger <==> e in front || e == last;
    }
  }

  // ----- What the model found -----

  // An answer is taken exactly when it has at most 32 facts and each of them is grounded; of these
  // the clear and relevant ones count, in their order.
  lemma AnswerMeans(news: seq<Event>, output: seq<Candidate>)
    ensures Validated(news, output).Ok? <==> |output| <= 32 && forall c :: c in output ==> Grounded(news, c)
    ensures Validated(news, output).Ok? ==>
      && (forall u :: u in Validated(news, output).value <==>
            exists c :: c in output && c.update == u && c.clear && c.relevant)
      && ((forall c :: c in output ==> c.clear && c.relevant) ==>
            |Validated(news, output).value| == |output|
            && forall i :: 0 <= i < |output| ==> Validated(news, output).value[i] == output[i].update)
  {
    AllClear(output);
  }

  lemma {:induction false} AllClear(output: seq<Candidate>)
    ensures (forall c :: c in output ==> c.clear && c.relevant) ==>
      && |Clear(output)| == |output|
      && forall i :: 0 <= i < |output| ==> Clear(output)[i] == output[i].update
  {
    if output != [] {
      AllClear(output[..|output| - 1]);
      assert forall c :: c in output <==> c in output[..|output| - 1] || c == output[|output| - 1];
    }
  }

  // Facts are recorded together with their batch and its events exactly by a closeout that is live,
  // permitted and open, while there is room; a batch that is recorded already changes nothing.
  lemma RecordingMeans(row: Row, events: seq<Event>, news: seq<Event>, output: seq<Candidate>, room: bool, now: int,
                       allowed: bool, generation: nat)
    ensures var r := CommitCheckpoint(row, events, news, output, room, now, allowed, generation);
      && (r.Ok? <==>
            && |output| <= 32 && (forall c :: c in output ==> Grounded(news, c))
            && now <= row.deadline && allowed && generation == row.generation && !row.sealed && row.status == Pending
            && (news in row.batches || room))
      && (r.Ok? && news in row.batches ==> r.value == row)
      && (r.Ok? && news !in row.batches ==>
            && r.value == row.(updates := r.value.updates, batches := r.value.batches, hashes := r.value.hashes)
            && r.value.batches.Keys == row.batches.Keys + {news}
            && |r.value.batches[news]| == |news|
            && (forall i :: 0 <= i < |news| ==> r.value.batches[news][i] == news[i].id)
            && (forall id :: id in r.value.hashes <==> id in row.hashes || exists e :: e in events && e.id == id)
            && |row.updates| <= |r.value.updates| && r.value.updates[..|row.updates|] == row.updates)
  {
    hide Grounded, Validated, AddUpdates, HashesOf, Clear;
    AnswerMeans(news, output);
    IdsOf(events);
    if Validated(news, output).Ok? {
      AddedBehind(row.updates, Validated(news, output).value);
    }
  }

  lemma IdsOf(events: seq<Event>)
    ensures forall id :: id in Ids(events) <==> exists e :: e in events && e.id == id
  {
    forall e | e in events ensures e.id in Ids(events) {
      var i :| 0 <= i < |events| && events[i] == e;
      assert Ids(events)[i] == e.id;
    }
  }

  lemma {:induction false} AddedBehind(have: seq<Update>, more: seq<Update>)
    ensures |have| <= |AddUpdates(have, more)| && AddUpdates(have, more)[..|have|] == have
    decreases |more|
  {
    if more != [] {
      var next := if Seen(have, more[0]) then have else have + [more[0]];
      AddedBehind(next, more[1..]);
      assert AddUpdates(next, more[1..])[..|next|][..|have|] == have;
    }
  }

  // ----- The steps of the server -----

  // A closeout begins under an identity that was never used; forgetting empties the notes and
  // drops every closeout; a restart ends what waits for the model and what the worker had read.
  lemma LifeMeans(s: Server, id: Id, minutes: nat, now: int)
    ensures Do(s, Begin(id, minutes), now) ==
      if id in s.used then s
      else s.(rows := s.rows[id := Begun(s.notes, now, minutes)], used := s.used + {id})
    ensures var after := Do(s, Forget, now);
      && after.rows == map[] && after.notes == Notes("", s.notes.revision + 1, s.notes.generation + 1)
      && after.jobs == s.jobs && after.copies == s.copies && after.used == s.used
    ensures Do(s, Restart, now) == s.(jobs := map[], copies := map[])
    ensures Do(s, End(id), now) ==
      if id !in s.rows then s else s.(rows := s.rows[id := EndedAt(s.rows[id], now)])
  {
    hide Begun, EndedAt;
  }

  // A merge begins exactly on a sealed closeout that is not over and not busy, with the notes and
  // the facts of that moment; without permission the closeout has failed for good.
  lemma MergeBeginsExactly(s: Server, id: Id, now: int, ok: bool)
    requires id in s.rows
    ensures var row, after := s.rows[id], DoStartMerge(s, id, now, ok);
      var ready := id !in s.jobs && row.sealed && row.status == Pending;
      var live := now <= row.deadline && ok && s.notes.generation == row.generation;
      && (!ready ==> after == s)
      && (ready && live ==> after == s.(jobs := s.jobs[id := Merging(s.notes, row.updates)]))
      && (ready && !live ==>
            after == s.(rows := s.rows[id := row.(attempts := row.attempts + 1, status := Failed)]))
  {}

  // The recovery worker reads all closeouts; a copy past its deadline that was open is written back
  // as failed and without facts, one that was over is removed a day after its deadline.
  lemma WorkerMeans(s: Server, id: Id, now: int)
    ensures Do(s, ReadCopies, now) == s.(copies := s.rows)
    ensures var due := id in s.rows && id in s.copies && s.copies[id].status == Pending
                       && s.copies[id].deadline <= now;
      Do(s, ExpireCopy(id), now) == if !due then s else
        s.(rows := s.rows[id := s.copies[id].(status := Failed, updates := [], expired := true)])
    ensures var due := id in s.copies && s.copies[id].status != Pending && s.copies[id].deadline + 86400 < now;
      Do(s, DeleteCopy(id), now) == if due then s.(rows := s.rows - {id}) else s
  {
    assert id !in s.rows ==> s.rows - {id} == s.rows;
  }

  // One call of the model at a time for each closeout: a checkpoint waits with the new events, and
  // its answer is recorded or dropped as a whole.
  lemma WaitingMeans(s: Server, id: Id, events: seq<Event>, output: seq<Candidate>, room: bool, now: int, ok: bool)
    ensures var after := DoStartCheckpoint(s, id, events, now, ok);
      var taken := id in s.rows && id !in s.jobs
                   && PrepareCheckpoint(s.rows[id], events, now, ok, s.notes.generation).Ok?
                   && PrepareCheckpoint(s.rows[id], events, now, ok, s.notes.generation).value.Some?;
      && (!taken ==> after == s)
      && (taken ==> after == s.(jobs := s.jobs[id := Extracting(events,
                        PrepareCheckpoint(s.rows[id], events, now, ok, s.notes.generation).value.value)]))
    ensures id in s.jobs && s.jobs[id].Extracting? && id in s.rows ==>
      var r := CommitCheckpoint(s.rows[id], s.jobs[id].events, s.jobs[id].news, output, room, now, ok,
                                s.notes.generation);
      DoFinishCheckpoint(s, id, output, room, now, ok) ==
        s.(jobs := s.jobs - {id}, rows := if r.Ok? then s.rows[id := r.value] else s.rows)
  {
    hide PrepareCheckpoint, CommitCheckpoint;
  }
}
