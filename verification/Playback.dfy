// The bounded playback queue: whole audio frames and window markers of one epoch, a partial
// frame that is still being filled, and the counters about them.
module Playback {
  const FRAME_BYTES: nat := 320
  const QUEUE_FRAMES: nat := 3000
  const QUEUE_ITEMS: nat := 9000
  const PREBUFFER_FRAMES: nat := 8

  type Byte = b: int | 0 <= b < 256
  type Pcm = seq<Byte>

  datatype Kind = WindowStart | WindowEnd | Audio

  datatype Item = Item(epoch: nat, kind: Kind, window: string, pcm: Pcm)

  datatype Core = Core(
    queue: seq<Item>,
    partial: Pcm,
    epoch: nat,
    buffered: nat,
    enqueued: nat,
    sent: nat,
    interrupted: nat,
    dropped: nat,
    overflows: nat,
    peak: nat)

  function Max(a: nat, b: nat): nat {
    if a >= b then a else b
  }

  // Only the frames; a marker has none.
  function AudioCount(items: seq<Item>): nat {
    if items == [] then 0 else AudioCount(items[..|items| - 1]) + if items[|items| - 1].kind.Audio? then 1 else 0
  }

  // ----- What the enqueue functions do -----

  function Framed(pcm: Pcm, epoch: nat, window: string): seq<Item> {
    if |pcm| < FRAME_BYTES then []
    else [Item(epoch, Audio, window, pcm[..FRAME_BYTES])] + Framed(pcm[FRAME_BYTES..], epoch, window)
  }

  function Remainder(pcm: Pcm): Pcm {
    pcm[|pcm| - |pcm| % FRAME_BYTES..]
  }

  predicate Room(c: Core, frames: nat) {
    c.buffered + frames <= QUEUE_FRAMES && |c.queue| + frames <= QUEUE_ITEMS
  }

  function Pushed(c: Core, frames: seq<Item>, partial: Pcm): Core {
    c.(queue := c.queue + frames, partial := partial, enqueued := c.enqueued + |frames|,
       buffered := c.buffered + |frames|, peak := Max(c.peak, c.buffered + |frames|))
  }

  function Refused(c: Core, frames: nat): Core {
    c.(dropped := c.dropped + frames, overflows := c.overflows + 1)
  }

  function EnqueuePcm(c: Core, pcm: Pcm, window: string): Core {
    var all := c.partial + pcm;
    if pcm == [] then c
    else if !Room(c, |all| / FRAME_BYTES) then Refused(c, (|pcm| + FRAME_BYTES - 1) / FRAME_BYTES)
    else Pushed(c, Framed(all, c.epoch, window), Remainder(all))
  }

  function Silence(n: nat): Pcm {
    seq(n, _ => 0)
  }

  function Padded(partial: Pcm): Pcm {
    if |partial| < FRAME_BYTES then partial + Silence(FRAME_BYTES - |partial|) else partial
  }

  function FlushPartial(c: Core, window: string): Core {
    if c.partial == [] then c
    else if !Room(c, 1) then Refused(c, 1)
    else Pushed(c, [Item(c.epoch, Audio, window, Padded(c.partial))], [])
  }

  function EnqueueControl(c: Core, kind: Kind, window: string): Core {
    if |c.queue| >= QUEUE_ITEMS then c.(overflows := c.overflows + 1)
    else c.(queue := c.queue + [Item(c.epoch, kind, window, [])])
  }

  function Discard(c: Core, interrupted: bool): Core {
    c.(interrupted := if interrupted then c.interrupted + c.buffered else c.interrupted,
       epoch := c.epoch + 1, queue := [], buffered := 0, partial := [])
  }

  function Dequeue(c: Core): Core
    requires c.queue != []
  {
    c.(queue := c.queue[1..],
       buffered := if c.queue[0].kind.Audio? && c.buffered > 0 then c.buffered - 1 else c.buffered)
  }

  // The count of buffered frames is exact, and the queue holds whole frames of this epoch.
  predicate CoreOk(c: Core) {
    && c.buffered == AudioCount(c.queue)
    && c.buffered <= QUEUE_FRAMES && |c.queue| <= QUEUE_ITEMS
    && |c.partial| < FRAME_BYTES
    && (forall i :: 0 <= i < |c.queue| ==> c.queue[i].epoch == c.epoch && |c.queue[i].pcm| == if c.queue[i].kind.Audio?
        then FRAME_BYTES else 0)
  }

  class PlaybackQueue {
    var queue: seq<Item>
    var partial: Pcm
    var epoch: nat
    var buffered: nat
    var enqueued: nat
    var sent: nat
    var interrupted: nat
    var dropped: nat
    var overflows: nat
    var peak: nat

    constructor ()
      ensures View() == Core([], [], 0, 0, 0, 0, 0, 0, 0, 0) && CoreOk(View())
    {
      queue, partial := [], [];
      epoch, buffered, enqueued, sent, interrupted, dropped, overflows, peak := 0, 0, 0, 0, 0, 0, 0, 0;
    }

    function View(): Core
      reads this
    {
      Core(queue, partial, epoch, buffered, enqueued, sent, interrupted, dropped, overflows, peak)
    }

    // False: the backlog is exceeded, and nothing has been enqueued.
    method Pcm(pcm: Pcm, window: string) returns (ok: bool)
      requires CoreOk(View())
      modifies this
      ensures CoreOk(View()) && View() == EnqueuePcm(old(View()), pcm, window)
      ensures !ok ==> queue == old(queue) && partial == old(partial) && enqueued == old(enqueued)
    {
      hide CoreOk;
      EnqueueKeeps(View(), pcm, window);
      if pcm == [] {
        return true;
      }
      var combined := partial + pcm;
      var count := |combined| / FRAME_BYTES;
      var items := QUEUE_ITEMS - |queue|;
      var available := if QUEUE_FRAMES - buffered <= items then QUEUE_FRAMES - buffered else items;
      if count > available {
        dropped := dropped + Max(1, (|pcm| + FRAME_BYTES - 1) / FRAME_BYTES);
        overflows := overflows + 1;
        return false;
      }
      ghost var before := queue;
      var k := 0;
      while k < count
        invariant View() == old(View()).(queue := queue)
        invariant k <= count == |Framed(combined, epoch, window)|
          && queue == before + Framed(combined, epoch, window)[..k]
      {
        FramedAt(combined, epoch, window, k);
        assert (k + 1) * FRAME_BYTES <= count * FRAME_BYTES <= |combined|;
        queue := queue + [Item(epoch, Audio, window, combined[k * FRAME_BYTES..(k + 1) * FRAME_BYTES])];
        k := k + 1;
      }
      assert count * FRAME_BYTES == |combined| - |combined| % FRAME_BYTES;
      assert Framed(combined, epoch, window)[..count] == Framed(combined, epoch, window);
      partial := combined[count * FRAME_BYTES..];
      enqueued := enqueued + count;
      buffered := buffered + count;
      peak := Max(peak, buffered);
      return true;
    }

    method Flush(window: string) returns (ok: bool)
      requires CoreOk(View())
      modifies this
      ensures CoreOk(View()) && View() == FlushPartial(old(View()), window)
    {
      FlushKeeps(View(), window);
      if partial == [] {
        return true;
      }
      if buffered >= QUEUE_FRAMES || |queue| >= QUEUE_ITEMS {
        dropped := dropped + 1;
        overflows := overflows + 1;
        return false;
      }
      var frame := partial;
      while |frame| < FRAME_BYTES
        invariant |partial| <= |frame| <= FRAME_BYTES && frame == partial + Silence(|frame| - |partial|)
      {
        frame := frame + [0];
        assert Silence(|frame| - |partial|) == Silence(|frame| - 1 - |partial|) + [0];
      }
      partial := [];
      queue := queue + [Item(epoch, Audio, window, frame)];
      enqueued := enqueued + 1;
      buffered := buffered + 1;
      peak := Max(peak, buffered);
      return true;
    }

    method Control(kind: Kind, window: string) returns (ok: bool)
      requires CoreOk(View()) && !kind.Audio?
      modifies this
      ensures CoreOk(View()) && View() == EnqueueControl(old(View()), kind, window)
      ensures ok <==> |old(queue)| < 9000
      ensures queue == if ok then old(queue) + [Item(old(epoch), kind, window, [])] else old(queue)
      ensures overflows == if ok then old(overflows) else old(overflows) + 1
      ensures partial == old(partial) && epoch == old(epoch) && buffered == old(buffered)
    {
      ControlKeeps(View(), kind, window);
      if |queue| >= QUEUE_ITEMS {
        overflows := overflows + 1;
        return false;
      }
      queue := queue + [Item(epoch, kind, window, [])];
      return true;
    }

    method Clear(asInterrupted: bool)
      requires CoreOk(View())
      modifies this
      ensures CoreOk(View()) && View() == Discard(old(View()), asInterrupted)
    {
      if asInterrupted {
        interrupted := interrupted + buffered;
      }
      epoch := epoch + 1;
      queue := [];
      buffered := 0;
      partial := [];
    }

    method Take() returns (item: Item)
      requires CoreOk(View()) && queue != []
      modifies this
      ensures CoreOk(View()) && View() == Dequeue(old(View())) && item == old(queue)[0]
    {
      DequeueKeeps(View());
      item := queue[0];
      queue := queue[1..];
      if item.kind.Audio? && buffered > 0 {
        buffered := buffered - 1;
      }
    }
  }

  // ----- Frames -----

  lemma {:induction false} FramedAt(pcm: Pcm, epoch: nat, window: string, k: nat)
    requires k < |pcm| / FRAME_BYTES
    ensures |Framed(pcm, epoch, window)| == |pcm| / FRAME_BYTES
    ensures Framed(pcm, epoch, window)[k] == Item(epoch, Audio, window, pcm[k * FRAME_BYTES..(k + 1) * FRAME_BYTES])
  {
    FramedShape(pcm, epoch, window);
    if k > 0 {
      var rest := pcm[FRAME_BYTES..];
      assert |rest| / FRAME_BYTES == |pcm| / FRAME_BYTES - 1;
      FramedAt(rest, epoch, window, k - 1);
      assert rest[(k - 1) * FRAME_BYTES..k * FRAME_BYTES] == pcm[k * FRAME_BYTES..(k + 1) * FRAME_BYTES];
    }
  }

  function Bytes(items: seq<Item>): Pcm {
    if items == [] then [] else items[0].pcm + Bytes(items[1..])
  }

  // Cutting into frames loses nothing: the frames and the remainder are the input.
  lemma {:induction false} FramedShape(pcm: Pcm, epoch: nat, window: string)
    ensures var f := Framed(pcm, epoch, window);
      && |f| == |pcm| / FRAME_BYTES && AudioCount(f) == |f|
      && |Remainder(pcm)| < FRAME_BYTES
      && Bytes(f) + Remainder(pcm) == pcm
      && (forall i :: 0 <= i < |f| ==> f[i].kind.Audio? && f[i].epoch == epoch && |f[i].pcm| == FRAME_BYTES)
  {
    hide Remainder, AudioCount, Bytes;
    NoFrames();
    if |pcm| >= FRAME_BYTES {
      var first, rest := Item(epoch, Audio, window, pcm[..FRAME_BYTES]), pcm[FRAME_BYTES..];
      FramedShape(rest, epoch, window);
      FirstFrame(pcm, first, Framed(rest, epoch, window));
    } else {
      assert Remainder(pcm) == pcm by { NoRemainder(pcm); }
      assert [] + pcm == pcm;
    }
  }

  lemma NoFrames()
    ensures AudioCount([]) == 0 && Bytes([]) == []
  {}

  lemma NoRemainder(pcm: Pcm)
    requires |pcm| < FRAME_BYTES
    ensures Remainder(pcm) == pcm
  {}

  lemma FirstFrame(pcm: Pcm, first: Item, rest: seq<Item>)
    requires |pcm| >= FRAME_BYTES && first.kind.Audio? && first.pcm == pcm[..FRAME_BYTES]
    requires Bytes(rest) + Remainder(pcm[FRAME_BYTES..]) == pcm[FRAME_BYTES..]
    ensures AudioCount([first] + rest) == 1 + AudioCount(rest)
    ensures Bytes([first] + rest) + Remainder(pcm) == pcm
    ensures Remainder(pcm) == Remainder(pcm[FRAME_BYTES..])
    ensures |pcm[FRAME_BYTES..]| / FRAME_BYTES == |pcm| / FRAME_BYTES - 1
  {
    AudioOf([first], rest);
    assert [first][..0] == [];
    assert ([first] + rest)[1..] == rest;
    assert |pcm[FRAME_BYTES..]| % FRAME_BYTES == |pcm| % FRAME_BYTES;
    assert Remainder(pcm) == Remainder(pcm[FRAME_BYTES..]);
    assert pcm[..FRAME_BYTES] + (Bytes(rest) + Remainder(pcm)) == pcm;
  }

  lemma {:induction false} AudioOf(a: seq<Item>, b: seq<Item>)
    ensures AudioCount(a + b) == AudioCount(a) + AudioCount(b)
  {
    if b == [] {
      assert a + b == a;
    } else {
      assert (a + b)[..|a + b| - 1] == a + b[..|b| - 1];
      AudioOf(a, b[..|b| - 1]);
    }
  }

  lemma {:induction false} BytesOf(a: seq<Item>, b: seq<Item>)
    ensures Bytes(a + b) == Bytes(a) + Bytes(b)
  {
    if a == [] {
      assert a + b == b;
    } else {
      assert (a + b)[1..] == a[1..] + b;
      BytesOf(a[1..], b);
    }
  }

  // ----- Every operation keeps the queue exact -----

  lemma PushKeeps(c: Core, frames: seq<Item>, partial: Pcm)
    requires CoreOk(c) && Room(c, |frames|) && |partial| < FRAME_BYTES && AudioCount(frames) == |frames|
    requires forall i :: 0 <= i < |frames| ==>
      frames[i].kind.Audio? && frames[i].epoch == c.epoch && |frames[i].pcm| == FRAME_BYTES
    ensures CoreOk(Pushed(c, frames, partial))
  {
    AudioOf(c.queue, frames);
  }

  lemma EnqueueKeeps(c: Core, pcm: Pcm, window: string)
    requires CoreOk(c)
    ensures CoreOk(EnqueuePcm(c, pcm, window))
    ensures var all := c.partial + pcm; |Framed(all, c.epoch, window)| == |all| / FRAME_BYTES
    ensures c.buffered <= QUEUE_FRAMES && |c.queue| <= QUEUE_ITEMS
  {
    hide AudioCount, Framed, Remainder;
    var all := c.partial + pcm;
    FramedShape(all, c.epoch, window);
    if pcm != [] && Room(c, |all| / FRAME_BYTES) {
      PushKeeps(c, Framed(all, c.epoch, window), Remainder(all));
    }
  }

  lemma FlushKeeps(c: Core, window: string)
    requires CoreOk(c)
    ensures CoreOk(FlushPartial(c, window))
  {
    if c.partial != [] && Room(c, 1) {
      var frames := [Item(c.epoch, Audio, window, Padded(c.partial))];
      assert frames[..0] == [];
      assert AudioCount(frames) == 1;
      PushKeeps(c, frames, []);
    }
  }

  lemma ControlKeeps(c: Core, kind: Kind, window: string)
    requires CoreOk(c) && !kind.Audio?
    ensures CoreOk(EnqueueControl(c, kind, window))
  {
    var marker := [Item(c.epoch, kind, window, [])];
    AudioOf(c.queue, marker);
    assert marker[..0] == [];
  }

  lemma DequeueKeeps(c: Core)
    requires CoreOk(c) && c.queue != []
    ensures CoreOk(Dequeue(c))
    ensures c.queue[0].kind.Audio? ==> c.buffered == Dequeue(c).buffered + 1
    ensures !c.queue[0].kind.Audio? ==> c.buffered == Dequeue(c).buffered
  {
    AudioOf(c.queue[..1], c.queue[1..]);
    assert c.queue[..1] + c.queue[1..] == c.queue;
    assert c.queue[..1][..0] == [];
  }
}
