// What the steps of the capture client do, on its fields.
module CaptureMeaning {
  import opened Wrappers
  import opened Closeouts
  import opened CloseoutRuns
  import opened MemoryCapture
  import opened CaptureRuns

  // The call hears events with identities of their own, until it has ended.
  lemma HearingMeans(s: System, e: Event, saved: bool)
    ensures var after := DoHear(s, e, saved);
      var heard := s.up && !s.queue.data.ended && forall h :: h in s.heard ==> h.id != e.id;
      && (!heard ==> after == s)
      && (heard ==>
            && after.heard == s.heard + [e] && after.queue == Captured(s.queue, e, saved)
            && after.disk == (if saved then after.queue.data else s.disk)
            && after == s.(queue := after.queue, disk := after.disk, heard := after.heard))
  {
    hide Captured;
    forall h | h in s.heard ensures h.id in Ids(s.heard) {
      var i :| 0 <= i < |s.heard| && s.heard[i] == h;
      assert Ids(s.heard)[i] == h.id;
    }
  }

  // One request at a time: the next batch, or, when everything is told and the call is over, the
  // end of the closeout with the claim that is kept, once that is accepted only the question.
  lemma PostingMeans(s: System)
    ensures var after, data := DoPost(s), s.queue.data;
      var posts := s.up && s.waiting == None && (s.queue.events != [] || data.ended);
      && (!posts ==> after == s)
      && (posts ==>
            && |after.requests| == |s.requests| + 1 && after.requests[..|s.requests|] == s.requests
            && after == s.(requests := after.requests, waiting := Some(|s.requests|))
            && var r := after.requests[|s.requests|];
               && (s.queue.events != [] ==> r == Check(Posted(s.queue), |Batch(s.queue.events)|))
               && (s.queue.events == [] && !data.finalized ==> r == Finish(data.complete))
               && (s.queue.events == [] && data.finalized ==> r == Ask))
  {
    hide Posted, Batch;
  }

  // An answer to the awaited request acknowledges its events, or notes that the end is accepted.
  lemma ReceivingMeans(s: System, saved: bool)
    requires s.up && s.waiting.Some? && s.waiting.value in s.answers && s.waiting.value < |s.requests|
    ensures var after, r := DoReceive(s, saved), s.requests[s.waiting.value];
      && (r.Check? && r.batch <= |s.queue.events| ==>
            && after.queue == Acknowledged(s.queue, r.batch) && after.waiting == None
            && (forall id :: id in after.acks <==>
                  id in s.acks || exists e :: e in s.queue.events[..r.batch] && e.id == id)
            && after.disk == if saved then after.queue.data else s.disk)
      && (!r.Check? ==>
            && after.queue == s.queue.(data := s.queue.data.(finalized := true)) && after.waiting == None
            && after.acks == s.acks && after.disk == if saved then after.queue.data else s.disk)
  {
    hide Acknowledged;
  }

  // The server answers a batch that is recorded already; a new one it takes up.
  lemma ServingMeans(s: System, id: Id, n: nat, now: int, ok: bool)
    requires n < |s.requests| && s.requests[n].Check? && id !in s.server.jobs && id in s.server.rows
    ensures var r := PrepareCheckpoint(s.server.rows[id], s.requests[n].events, now, ok, s.server.notes.generation);
      var after := DoServe(s, id, n, now, ok);
      && (r.Err? ==> after == s)
      && (r == Ok(None) ==> after == s.(answers := s.answers + {n}))
      && (r.Ok? && r.value.Some? ==>
            && after == s.(server := after.server, serving := Some(n))
            && after.server == s.server.(jobs := s.server.jobs[id := Extracting(s.requests[n].events, r.value.value)]))
  {
    hide PrepareCheckpoint;
  }

  // What is spoiled is not complete any more; the end of the call stays; a crash forgets what is
  // waited for, and a restart resumes from what is on disk.
  lemma LifeMeans(s: System, id: Id, saved: bool, retained: bool, now: int)
    ensures Move1(s, id, Spoil, now) == s.(queue := s.queue.(data := s.queue.data.(complete := false)))
    ensures var after := Move1(s, id, EndCall(saved), now);
      && (!s.up ==> after == s)
      && (s.up ==>
            && after.queue == s.queue.(data := s.queue.data.(ended := true))
            && after == s.(queue := after.queue, disk := if saved then after.queue.data else s.disk))
    ensures Move1(s, id, Crash, now) == s.(up := false, waiting := None)
    ensures Move1(s, id, GiveUp, now) == s.(waiting := None)
    ensures var q := Recovered(s.disk, s.ledger, retained);
      Move1(s, id, Recover(retained), now) ==
        if s.up then s else s.(queue := q, disk := q.data, up := true, waiting := None)
  {
    hide Recovered, DoHear, DoStore, DoPost, DoReceive, DoServe, DoComplete, Foreign;
  }
}
