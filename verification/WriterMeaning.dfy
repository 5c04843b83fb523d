// What the steps of the playback writer do, on its fields.
module WriterMeaning {
  import opened Wrappers
  import opened Playback
  import opened PlaybackWriter

  // At the top of the loop the pending item comes before the queue; a stopped writer is over, and
  // an item of an older epoch is dropped.
  lemma TakingMeans(w: Writer)
    requires w.place.Idle?
    ensures var after := DoTake(w);
      && (w.stopped ==>
            after == w.(place := Over, pending := None,
                        lost := if w.pending.Some? && w.pending.value.kind == Audio then w.lost + 1 else w.lost))
      && (!w.stopped && w.pending == None && w.core.queue == [] ==> after == w)
      && (!w.stopped && (w.pending.Some? || w.core.queue != []) ==>
            var item := if w.pending.Some? then w.pending.value else w.core.queue[0];
            && after.pending == None
            && after == w.(core := after.core, pending := None, place := after.place)
            && after.core == (if w.pending.Some? then w.core else Dequeue(w.core))
            && after.place == if item.epoch != w.core.epoch then Idle
                              else if item.kind == WindowStart then Starting(item)
                              else if item.kind == WindowEnd then Ending(item) else Pacing(item))
  {}

  predicate Valid(w: Writer, epoch: nat) {
    epoch == w.core.epoch && !w.stopped
  }

  // Under the send lock the epoch is tested once more: a send begins, or nothing is sent and the
  // frames count as interrupted.
  lemma LockingMeans(w: Writer)
    ensures w.place.Starting? || w.place.Ending? ==>
      var item := if w.place.Starting? then w.place.start else w.place.end;
      DoLock(w) ==
        if !Valid(w, item.epoch) then w.(place := Idle)
        else w.(begun := w.begun + [item], sends := w.sends + [item],
                place := if w.place.Starting? then StartSending(item) else EndSending(item))
    ensures w.place.Waiting? ==>
      var frames := w.place.frames;
      DoLock(w) ==
        if !Valid(w, w.place.batch)
        then w.(place := Idle, core := w.core.(interrupted := w.core.interrupted + |frames|))
        else w.(begun := w.begun + frames, sends := w.sends + frames,
                place := Sending(w.place.batch, frames, w.place.mode))
  {}

  // A start marker opens the collection of a window, frames count as sent, and an end marker that
  // came with a batch follows it.
  lemma SendingMeans(w: Writer)
    ensures w.place.StartSending? ==> DoSent(w) == w.(place := Collecting(w.place.start.epoch, [], Prebuffer))
    ensures w.place.EndSending? ==> DoSent(w) == w.(place := Idle)
    ensures w.place.Sending? ==>
      var closes := w.place.mode != Single && w.pending.Some? && w.pending.value.kind == WindowEnd;
      DoSent(w) == w.(core := w.core.(sent := w.core.sent + |w.place.frames|),
                      pending := if closes then None else w.pending,
                      place := if closes then Ending(w.pending.value) else Idle)
  {}

  // A batch is collected until it has eight frames, the time is over, the writer is stopped or the
  // epoch has changed.
  lemma CollectingMeans(w: Writer, timeout: bool)
    requires w.place.Collecting?
    ensures var more := |w.place.frames| < 8 && Valid(w, w.place.batch) && !timeout;
      && (more ==> DoCollect(w, timeout) == w.(place := Reading(w.place.batch, w.place.frames, w.place.mode)))
      && (!more ==> DoCollect(w, timeout) == Collected(w))
  {
    hide Collected;
  }

  // A finished batch waits for the lock; an empty one is followed by the end of its window; the
  // frames of an interrupted one count as such, and only an item of the new epoch is kept.
  lemma ClosingMeans(w: Writer)
    requires w.place.Collecting?
    ensures var after, frames := Collected(w), w.place.frames;
      && (w.place.batch == w.core.epoch && frames != [] ==>
            after == w.(place := Waiting(w.place.batch, frames, w.place.mode)))
      && (w.place.batch == w.core.epoch && frames == [] ==>
            var closes := w.pending.Some? && w.pending.value.kind == WindowEnd;
            after == w.(pending := if closes then None else w.pending,
                        place := if closes then Ending(w.pending.value) else Idle))
      && (w.place.batch != w.core.epoch ==>
            && after.core.interrupted == w.core.interrupted + |frames|
            && after.pending == None
            && (w.pending.Some? && w.pending.value.epoch == w.core.epoch && !w.stopped ==>
                  after.place == if w.pending.value.kind == WindowStart then Starting(w.pending.value)
                                 else if w.pending.value.kind == WindowEnd then Ending(w.pending.value)
                                 else Pacing(w.pending.value))
            && (!w.stopped && (w.pending.None? || w.pending.value.epoch != w.core.epoch) ==> after.place == Idle))
  {}

  // The next item joins the batch if it is a frame of its epoch, and ends it otherwise.
  lemma FetchingMeans(w: Writer, expired: bool)
    requires w.place.Reading?
    ensures var p, after := w.place, DoFetch(w, expired);
      && (expired ==> after == w.(place := Collecting(p.batch, p.frames, p.mode)))
      && (!expired && w.core.queue == [] ==> after == w)
      && (!expired && w.core.queue != [] ==>
            var item := w.core.queue[0];
            var rest := w.(core := Dequeue(w.core), place := Collecting(p.batch, p.frames, p.mode));
            after == if item.epoch == p.batch && item.kind == Audio
                     then rest.(place := Collecting(p.batch, p.frames + [item], p.mode))
                     else Collected(rest.(pending := Some(item))))
  {
    hide Collected;
  }

  // A frame outside of a batch is sent alone at its time, collects a new safety lead when it is
  // late, and counts as interrupted when its epoch is over.
  lemma PacingMeans(w: Writer, late: bool)
    requires w.place.Pacing?
    ensures var frame := w.place.frame;
      DoWake(w, late) ==
        if frame.epoch != w.core.epoch
        then w.(place := Idle, core := w.core.(interrupted := w.core.interrupted + 1))
        else w.(place := if late then Collecting(frame.epoch, [frame], Rebuffer)
                         else Waiting(frame.epoch, [frame], Single))
  {}

  // An interruption forgets what was asked for and not yet sent; a failure ends the writer and
  // loses what it has in hand; the next run begins with nothing.
  lemma EndingMeans(w: Writer, counted: bool)
    ensures var after := DoInterrupt(w, counted);
      && after.core == Discard(w.core, counted) && after.place == w.place && after.pending == w.pending
      && after.log == [] && after.begun == [] && after.input == [] && after.sends == w.sends
      && after.cleared == if counted then w.cleared else w.cleared + w.core.buffered
    ensures var after := Do(w, Fail);
      && after.place == Over && after.pending == None && after.core == w.core && after.sends == w.sends
    ensures w.place.Over? ==>
      var after := DoRestart(w);
      && after.place == Idle && after.pending == None && !after.stopped && after.core == Discard(w.core, false)
    ensures !w.place.Over? ==> DoRestart(w) == w
  {}
}
