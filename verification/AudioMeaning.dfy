// What the functions on the playback queue and on the caller's audio do, on their fields.
module AudioMeaning {
  import Playback
  import opened InputPipeline

  // ----- Playback -----

  function Frame320(epoch: nat, window: string, pcm: Playback.Pcm): Playback.Item {
    Playback.Item(epoch, Playback.Audio, window, pcm)
  }

  // Speech is enqueued in whole frames exactly while the backlog has room for all of them; what is
  // refused is counted by the frames that it would have filled.
  lemma SpeechMeans(c: Playback.Core, pcm: Playback.Pcm, window: string)
    requires Playback.CoreOk(c)
    ensures var after, all := Playback.EnqueuePcm(c, pcm, window), c.partial + pcm;
      var n := |all| / 320;
      && (pcm == [] ==> after == c)
      && (pcm != [] && c.buffered + n <= 3000 && |c.queue| + n <= 9000 ==>
            && |after.queue| == |c.queue| + n && after.queue[..|c.queue|] == c.queue
            && (forall k :: 0 <= k < n ==>
                  after.queue[|c.queue| + k] == Frame320(c.epoch, window, all[320 * k..320 * k + 320]))
            && after.partial == all[320 * n..]
            && after.buffered == c.buffered + n && after.enqueued == c.enqueued + n
            && after.peak >= c.peak && after.peak >= after.buffered
            && (after.peak == c.peak || after.peak == after.buffered)
            && after == c.(queue := after.queue, partial := after.partial, buffered := after.buffered,
                           enqueued := after.enqueued, peak := after.peak))
      && (pcm != [] && (3000 < c.buffered + n || 9000 < |c.queue| + n) ==>
            after == c.(dropped := c.dropped + (|pcm| + 319) / 320, overflows := c.overflows + 1))
  {
    hide Playback.Framed, Playback.AudioCount;
    var all := c.partial + pcm;
    Playback.FramedShape(all, c.epoch, window);
    forall k | 0 <= k < |all| / 320
      ensures Playback.Framed(all, c.epoch, window)[k]
        == Playback.Item(c.epoch, Playback.Audio, window, all[320 * k..320 * k + 320])
    {
      Playback.FramedAt(all, c.epoch, window, k);
    }
  }

  predicate FilledUp(frame: Playback.Item, epoch: nat, window: string, partial: Playback.Pcm) {
    && frame.epoch == epoch && frame.kind == Playback.Audio && frame.window == window
    && |frame.pcm| == 320 && |partial| <= 320 && frame.pcm[..|partial|] == partial
    && (forall i :: |partial| <= i < 320 ==> frame.pcm[i] == 0)
  }

  // The last bytes are enqueued as one frame that ends in silence, if there are any and there is room.
  lemma FlushMeans(c: Playback.Core, window: string)
    requires Playback.CoreOk(c)
    ensures var after := Playback.FlushPartial(c, window);
      && (c.partial == [] ==> after == c)
      && (c.partial != [] && c.buffered < 3000 && |c.queue| < 9000 ==>
            && |after.queue| == |c.queue| + 1 && after.queue[..|c.queue|] == c.queue
            && FilledUp(after.queue[|c.queue|], c.epoch, window, c.partial)
            && after.partial == [] && after.buffered == c.buffered + 1 && after.enqueued == c.enqueued + 1)
      && (c.partial != [] && (3000 <= c.buffered || 9000 <= |c.queue|) ==>
            after == c.(dropped := c.dropped + 1, overflows := c.overflows + 1))
  {
    hide Playback.AudioCount;
  }

  // An interruption empties everything under a new epoch and counts what was buffered if asked.
  lemma DiscardMeans(c: Playback.Core, asInterrupted: bool)
    ensures Playback.Discard(c, asInterrupted) ==
      c.(queue := [], partial := [], buffered := 0, epoch := c.epoch + 1,
         interrupted := if asInterrupted then c.interrupted + c.buffered else c.interrupted)
  {}

  // Taking an item takes the first one, and one from the count for a frame.
  lemma TakeMeans(c: Playback.Core)
    requires Playback.CoreOk(c) && c.queue != []
    ensures var after, item := Playback.Dequeue(c), c.queue[0];
      && [item] + after.queue == c.queue
      && after.buffered == (if item.kind == Playback.Audio then c.buffered - 1 else c.buffered)
      && after == c.(queue := after.queue, buffered := after.buffered)
  {
    Playback.DequeueKeeps(c);
  }

  // ----- The caller's audio -----

  // Before the first connection a frame joins the startup buffer of 250 frames, afterwards the
  // live queue of ten; of a full one the oldest frame goes, and is counted where it went.
  lemma QueueMeans(b: Buffers, frame: Frame)
    ensures var after, c := QueueInput(b, frame), b.counts;
      && after.pending == b.pending
      && (b.pending ==>
            && after.live == b.live
            && (|b.startup| < 250 ==>
                  && after.startup == b.startup + [frame]
                  && after.counts == c.(received := c.received + 1, captured := c.captured + 1))
            && (250 <= |b.startup| ==>
                  && after.startup == b.startup[1..] + [frame]
                  && after.counts == c.(received := c.received + 1, captured := c.captured + 1,
                                        overflow := c.overflow + 1, dropped := c.dropped + 1)))
      && (!b.pending ==>
            && after.startup == b.startup
            && (|b.live| < 10 ==>
                  after.live == b.live + [frame] && after.counts == c.(received := c.received + 1))
            && (10 <= |b.live| ==>
                  && after.live == b.live[1..] + [frame]
                  && after.counts == c.(received := c.received + 1, queueOverflow := c.queueOverflow + 1,
                                        dropped := c.dropped + 1)))
  {}

  // A connection leaves the startup buffer and the latest five live frames; the older ones are
  // counted for its reason.
  lemma ConnectionMeans(b: Buffers, first: bool)
    ensures var after, c := HandOff(b, first), b.counts;
      var gone := if |b.live| <= 5 then 0 else |b.live| - 5;
      && !after.pending && after.startup == b.startup && after.live == b.live[gone..]
      && after.counts ==
         if first then c.(dropped := c.dropped + gone, startupTrimmed := c.startupTrimmed + gone)
         else c.(dropped := c.dropped + gone, reconnectTrimmed := c.reconnectTrimmed + gone)
  {}

  // Giving up on the startup buffer drops and counts all of it, and nothing else.
  lemma GivingUpMeans(b: Buffers)
    ensures var after, c := DiscardStartup(b), b.counts;
      && after.startup == [] && !after.pending && after.live == b.live
      && after.counts == c.(dropped := c.dropped + |b.startup|, discarded := c.discarded + |b.startup|)
  {}

  // The sender takes the oldest frames, two at most, those of the startup buffer before the live ones.
  lemma TurnMeans(b: Buffers)
    ensures var taken, after := Batch(b, BATCH_FRAMES), AfterBatch(b, BATCH_FRAMES);
      && taken + (after.startup + after.live) == b.startup + b.live
      && |taken| == (if |b.startup| + |b.live| <= 2 then |b.startup| + |b.live| else 2)
      && |after.startup| == (if |b.startup| <= 2 then 0 else |b.startup| - 2)
      && after.pending == b.pending
      && after.counts == b.counts.(released := b.counts.released + (|b.startup| - |after.startup|))
  {
    assert b.startup + b.live == (b.startup + b.live)[..|Batch(b, BATCH_FRAMES)|]
                                 + (b.startup + b.live)[|Batch(b, BATCH_FRAMES)|..];
  }
}
