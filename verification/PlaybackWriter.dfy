// The writer that moves items from the playback queue to the socket, as a state machine:
// one state per await, with enqueueing, interruption and resets in between.
module PlaybackWriter {
  import opened Wrappers
  import opened Playback

  datatype Mode = Prebuffer | Rebuffer | Single

  // Where the writer is suspended; in the collecting loop before its epoch test, or after it at
  // the read of the queue.
  datatype Place =
    | Idle
    | Starting(start: Item)
    | StartSending(start: Item)
    | Collecting(batch: nat, frames: seq<Item>, mode: Mode)
    | Reading(batch: nat, frames: seq<Item>, mode: Mode)
    | Waiting(batch: nat, frames: seq<Item>, mode: Mode)
    | Sending(batch: nat, frames: seq<Item>, mode: Mode)
    | Ending(end: Item)
    | EndSending(end: Item)
    | Pacing(frame: Item)
    | Over

  // `log` and `begun` are the items of the current epoch that were enqueued and whose send has
  // begun, `sends` the items of all sends so far, `input` the bytes of the current epoch with
  // their padding; `cleared` and `lost` count frames that no counter of the source mentions.
  datatype Writer = Writer(
    core: Core,
    place: Place,
    pending: Option<Item>,
    stopped: bool,
    log: seq<Item>,
    begun: seq<Item>,
    sends: seq<Item>,
    input: Pcm,
    cleared: nat,
    lost: nat)

  const READY := Writer(Core([], [], 0, 0, 0, 0, 0, 0, 0, 0), Idle, None, false, [], [], [], [], 0, 0)

  datatype Step =
    | Speak(pcm: Pcm, window: string)
    | Flush(window: string)
    | Mark(kind: Kind, window: string)
    | Interrupt(counted: bool)
    | Stop
    | Take
    | Lock
    | Sent
    | Collect(timeout: bool)
    | Fetch(expired: bool)
    | Wake(late: bool)
    | Fail
    | Restart

  // ----- The producer -----

  // What a step asks to be played, by itself: whole frames of 320 bytes, the last bytes filled up
  // with silence, or a marker. It is accepted while the backlog stays within its two bounds.
  function FramesOf(bytes: Pcm, epoch: nat, window: string): seq<Item> {
    seq(|bytes| / 320, i requires 0 <= i < |bytes| / 320 =>
      Item(epoch, Audio, window, bytes[320 * i..320 * i + 320]))
  }

  function FilledUp(bytes: Pcm): Pcm
    requires |bytes| <= 320
  {
    bytes + seq(320 - |bytes|, _ => 0)
  }

  predicate Accepted(c: Core, frames: nat) {
    c.buffered + frames <= 3000 && |c.queue| + frames <= 9000
  }

  function Produced(w: Writer, after: Core, asked: seq<Item>, input: Pcm): Writer {
    w.(core := after, log := w.log + asked, input := input)
  }

  function DoSpeak(w: Writer, pcm: Pcm, window: string): Writer {
    var after, all := EnqueuePcm(w.core, pcm, window), w.core.partial + pcm;
    if pcm == [] || !Accepted(w.core, |all| / 320) then Produced(w, after, [], w.input)
    else Produced(w, after, FramesOf(all, w.core.epoch, window), w.input + pcm)
  }

  function DoFlush(w: Writer, window: string): Writer {
    var after, rest := FlushPartial(w.core, window), w.core.partial;
    if rest == [] || |rest| > 320 || !Accepted(w.core, 1) then Produced(w, after, [], w.input)
    else
      var frame := FilledUp(rest);
      Produced(w, after, [Item(w.core.epoch, Audio, window, frame)], w.input + frame[|rest|..])
  }

  function DoMark(w: Writer, kind: Kind, window: string): Writer {
    var after := EnqueueControl(w.core, kind, window);
    if kind.Audio? then w
    else Produced(w, after, if |w.core.queue| < 9000 then [Item(w.core.epoch, kind, window, [])] else [], w.input)
  }

  // Interruption, the end of a call and a new session: a new epoch, nothing of the old one left.
  function DoInterrupt(w: Writer, counted: bool): Writer {
    w.(core := Discard(w.core, counted), log := [], begun := [], input := [],
       cleared := if counted then w.cleared else w.cleared + w.core.buffered)
  }

  // The next run of the provider clears what is left and starts a writer of its own.
  function DoRestart(w: Writer): Writer {
    if w.place.Over? then DoInterrupt(w, false).(place := Idle, pending := None, stopped := false) else w
  }

  // ----- The writer -----

  function Begin(w: Writer, items: seq<Item>, place: Place): Writer {
    w.(place := place, begun := w.begun + items, sends := w.sends + items)
  }

  function Dropped(w: Writer, frames: nat): Writer {
    w.(core := w.core.(interrupted := w.core.interrupted + frames), place := Idle)
  }

  // The item at the top of the loop.
  function DoTake(w: Writer): Writer {
    if !w.place.Idle? then w
    else if w.stopped then w.(place := Over, pending := None, lost := w.lost + PendingFrames(w.pending))
    else if w.pending.Some? then Started(w.(pending := None), w.pending.value)
    else if w.core.queue != [] then Started(w.(core := Dequeue(w.core)), w.core.queue[0])
    else w
  }

  function PendingFrames(pending: Option<Item>): nat {
    if pending.Some? && pending.value.kind.Audio? then 1 else 0
  }

  function Started(w: Writer, item: Item): Writer {
    if item.epoch != w.core.epoch then w
    else
      match item.kind
      case WindowStart => w.(place := Starting(item))
      case WindowEnd => w.(place := Ending(item))
      case Audio => w.(place := Pacing(item))
  }

  // A marker that came with a batch is sent after it when it closes the window.
  function AfterBatch(w: Writer): Writer {
    if w.pending.Some? && w.pending.value.kind.WindowEnd? then w.(pending := None, place := Ending(w.pending.value))
    else w.(place := Idle)
  }

  // The send lock is free: the epoch is checked and the send begins, or the item is dropped.
  function DoLock(w: Writer): Writer {
    match w.place
    case Starting(item) =>
      if item.epoch != w.core.epoch || w.stopped then w.(place := Idle) else Begin(w, [item], StartSending(item))
    case Ending(item) =>
      if item.epoch != w.core.epoch || w.stopped then w.(place := Idle) else Begin(w, [item], EndSending(item))
    case Waiting(epoch, frames, mode) =>
      if epoch != w.core.epoch || w.stopped then Dropped(w, |frames|)
        else Begin(w, frames, Sending(epoch, frames, mode))
    case _ => w
  }

  function DoSent(w: Writer): Writer {
    match w.place
    case StartSending(item) => w.(place := Collecting(item.epoch, [], Prebuffer))
    case EndSending(_) => w.(place := Idle)
    case Sending(_, frames, mode) =>
      var counted := w.(core := w.core.(sent := w.core.sent + |frames|));
      if mode.Single? then counted.(place := Idle) else AfterBatch(counted)
    case _ => w
  }

  // One turn of the collecting loop; `timeout`: the time for the safety lead is over.
  function DoCollect(w: Writer, timeout: bool): Writer {
    match w.place
    case Collecting(epoch, frames, mode) =>
      if |frames| >= PREBUFFER_FRAMES || epoch != w.core.epoch || w.stopped || timeout then Collected(w)
      else w.(place := Reading(epoch, frames, mode))
    case _ => w
  }

  // The read of the queue; `expired`: it was given up for another turn. An interruption may have
  // come since the epoch test, and then the item is of a newer epoch than the batch.
  function DoFetch(w: Writer, expired: bool): Writer {
    match w.place
    case Reading(epoch, frames, mode) =>
      if expired then w.(place := Collecting(epoch, frames, mode))
      else if w.core.queue == [] then w
      else
        var item, taken := w.core.queue[0], w.(core := Dequeue(w.core), place := Collecting(epoch, frames, mode));
        if item.epoch != epoch || !item.kind.Audio? then Collected(taken.(pending := Some(item)))
        else taken.(place := Collecting(epoch, frames + [item], mode))
    case _ => w
  }

  // A batch that was interrupted is dropped; the item that came with it is the next at the top of
  // the loop, unless it is of the old epoch, too.
  function Collected(w: Writer): Writer
    requires w.place.Collecting?
  {
    var frames, epoch := w.place.frames, w.place.batch;
    if epoch != w.core.epoch then
      var dropped := Dropped(w, |frames|);
      if w.pending.Some? && w.pending.value.epoch == w.core.epoch then DoTake(dropped)
      else dropped.(pending := None)
    else if frames != [] then w.(place := Waiting(epoch, frames, w.place.mode))
    else AfterBatch(w)
  }

  function DoWake(w: Writer, late: bool): Writer {
    if !w.place.Pacing? then w
    else
      var frame := w.place.frame;
      if frame.epoch != w.core.epoch then Dropped(w, 1)
      else if late then w.(place := Collecting(frame.epoch, [frame], Rebuffer))
      else w.(place := Waiting(frame.epoch, [frame], Single))
  }

  // The items in the hands of the writer whose send has not begun.
  function Held(place: Place): seq<Item> {
    match place
    case Starting(item) => [item]
    case Ending(item) => [item]
    case Collecting(_, frames, _) => frames
    case Reading(_, frames, _) => frames
    case Waiting(_, frames, _) => frames
    case Pacing(frame) => [frame]
    case _ => []
  }

  // The frames in its hands, those of a send that is under way included.
  function InHand(place: Place): nat {
    match place
    case Collecting(_, frames, _) => |frames|
    case Reading(_, frames, _) => |frames|
    case Waiting(_, frames, _) => |frames|
    case Sending(_, frames, _) => |frames|
    case Pacing(_) => 1
    case _ => 0
  }

  function Do(w: Writer, step: Step): Writer {
    match step
    case Speak(pcm, window) => DoSpeak(w, pcm, window)
    case Flush(window) => DoFlush(w, window)
    case Mark(kind, window) => DoMark(w, kind, window)
    case Interrupt(counted) => DoInterrupt(w, counted)
    case Stop => w.(stopped := true)
    case Take => DoTake(w)
    case Lock => DoLock(w)
    case Sent => DoSent(w)
    case Collect(timeout) => DoCollect(w, timeout)
    case Fetch(expired) => DoFetch(w, expired)
    case Wake(late) => DoWake(w, late)
    case Fail => w.(place := Over, pending := None, lost := w.lost + InHand(w.place))
    case Restart => DoRestart(w)
  }

  function Run(w: Writer, steps: seq<Step>): Writer {
    if steps == [] then w else Do(Run(w, steps[..|steps| - 1]), steps[|steps| - 1])
  }

  // ----- Invariant -----

  function PendingItems(pending: Option<Item>): seq<Item> {
    if pending.Some? then [pending.value] else []
  }

  // All items of one batch and all in hand belong to one epoch, not later than the current.
  ghost predicate PlaceOk(place: Place, epoch: nat) {
    && (forall i :: 0 <= i < |Held(place)| ==> Held(place)[i].epoch <= epoch)
    && match place
       case Starting(item) => item.kind.WindowStart?
       case StartSending(item) => item.epoch <= epoch
       case Ending(item) => item.kind.WindowEnd?
       case Pacing(item) => item.kind.Audio?
       case Collecting(batch, frames, mode) =>
         batch <= epoch && |frames| <= PREBUFFER_FRAMES && !mode.Single? && OfBatch(frames, batch)
       case Reading(batch, frames, mode) =>
         batch <= epoch && |frames| < PREBUFFER_FRAMES && !mode.Single? && OfBatch(frames, batch)
       case Waiting(batch, frames, mode) => OfBatch(frames, batch) && |frames| <= PREBUFFER_FRAMES
       case Sending(batch, frames, mode) => |frames| <= PREBUFFER_FRAMES
       case _ => true
  }

  ghost predicate OfBatch(frames: seq<Item>, batch: nat) {
    forall i :: 0 <= i < |frames| ==> frames[i].epoch == batch && frames[i].kind.Audio?
  }

  // A pending item goes with a batch, or waits for the top of the loop; it is a marker.
  ghost predicate PendingOk(pending: Option<Item>, place: Place, epoch: nat) {
    pending.Some? ==>
      && pending.value.epoch <= epoch && !pending.value.kind.Audio?
      && (place.Idle? || place.Over? || ((place.Waiting? || place.Sending?) && place.batch == pending.value.epoch
                                         && !place.mode.Single?))
  }

  // The first in, first out law of the current epoch.
  ghost predicate InOrder(w: Writer) {
    !w.stopped && !w.place.Over? ==>
      w.log == w.begun + Current(Held(w.place) + PendingItems(w.pending), w.core.epoch) + w.core.queue
  }

  function Current(items: seq<Item>, epoch: nat): seq<Item> {
    if items == [] then [] else
      (if items[0].epoch == epoch then [items[0]] else []) + Current(items[1..], epoch)
  }

  ghost predicate Balanced(w: Writer) {
    w.core.enqueued == w.core.sent + w.core.interrupted + w.core.buffered + InHand(w.place) + w.cleared + w.lost
  }

  // Sends follow the epochs.
  ghost predicate SendsOk(sends: seq<Item>, epoch: nat) {
    && (forall i :: 0 <= i < |sends| ==> sends[i].epoch <= epoch)
    && (forall i, j :: 0 <= i < j < |sends| ==> sends[i].epoch <= sends[j].epoch)
  }

  ghost predicate BytesOk(log: seq<Item>, partial: Pcm, input: Pcm) {
    Bytes(log) + partial == input
  }

  ghost predicate Inv(w: Writer) {
    && CoreOk(w.core) && PlaceOk(w.place, w.core.epoch) && PendingOk(w.pending, w.place, w.core.epoch)
    && InOrder(w) && Balanced(w) && SendsOk(w.sends, w.core.epoch) && BytesOk(w.log, w.core.partial, w.input)
  }

  lemma {:induction false} CurrentOf(a: seq<Item>, b: seq<Item>, epoch: nat)
    ensures Current(a + b, epoch) == Current(a, epoch) + Current(b, epoch)
  {
    hide Current;
    CurrentEmpty(epoch);
    if a == [] {
      assert a + b == b;
    } else {
      CurrentFirst(a, epoch);
      CurrentFirst(a + b, epoch);
      assert (a + b)[1..] == a[1..] + b;
      CurrentOf(a[1..], b, epoch);
    }
  }

  lemma CurrentEmpty(epoch: nat)
    ensures Current([], epoch) == []
  {}

  lemma CurrentFirst(items: seq<Item>, epoch: nat)
    requires items != []
    ensures Current(items, epoch) == (if items[0].epoch == epoch then [items[0]] else []) + Current(items[1..], epoch)
  {}

  lemma {:induction false} CurrentAll(items: seq<Item>, epoch: nat)
    requires forall i :: 0 <= i < |items| ==> items[i].epoch == epoch
    ensures Current(items, epoch) == items
  {
    if items != [] {
      CurrentAll(items[1..], epoch);
    }
  }

  lemma {:induction false} CurrentNone(items: seq<Item>, epoch: nat)
    requires forall i :: 0 <= i < |items| ==> items[i].epoch != epoch
    ensures Current(items, epoch) == []
  {
    if items != [] {
      CurrentNone(items[1..], epoch);
    }
  }

  // ----- The producer -----

  lemma ProducedKeeps(w: Writer, after: Core, asked: seq<Item>, input: Pcm)
    requires Inv(w) && CoreOk(after) && after.queue == w.core.queue + asked
    requires after.epoch == w.core.epoch && after.sent == w.core.sent && after.interrupted == w.core.interrupted
    requires after.enqueued - w.core.enqueued == after.buffered - w.core.buffered
    requires BytesOk(w.log + asked, after.partial, input)
    ensures Inv(Produced(w, after, asked, input))
  {
    hide CoreOk, PlaceOk, PendingOk, SendsOk, BytesOk, Current;
    var held := Current(Held(w.place) + PendingItems(w.pending), w.core.epoch);
    assert w.begun + held + w.core.queue + asked == w.begun + held + after.queue;
  }

  // What is enqueued is what was asked for.
  lemma FramedAsAsked(bytes: Pcm, epoch: nat, window: string)
    ensures Framed(bytes, epoch, window) == FramesOf(bytes, epoch, window)
  {
    hide Framed;
    FramedShape(bytes, epoch, window);
    forall k | 0 <= k < |bytes| / 320 ensures Framed(bytes, epoch, window)[k] == FramesOf(bytes, epoch, window)[k] {
      FramedAt(bytes, epoch, window, k);
    }
  }

  lemma SpeakKeeps(w: Writer, pcm: Pcm, window: string)
    requires Inv(w)
    ensures Inv(DoSpeak(w, pcm, window))
  {
    hide CoreOk, PlaceOk, PendingOk, SendsOk, InOrder, Framed, FramesOf, Remainder, Bytes;
    var after, all, t := EnqueuePcm(w.core, pcm, window), w.core.partial + pcm, DoSpeak(w, pcm, window);
    EnqueueKeeps(w.core, pcm, window);
    FramedShape(all, w.core.epoch, window);
    FramedAsAsked(all, w.core.epoch, window);
    assert w.log + [] == w.log && w.core.queue + [] == w.core.queue;
    if pcm == [] || !Accepted(w.core, |all| / 320) {
      ProducedKeeps(w, after, [], w.input);
    } else {
      var frames := FramesOf(all, w.core.epoch, window);
      BytesOf(w.log, frames);
      assert Bytes(w.log) + w.core.partial + pcm == Bytes(w.log) + all;
      assert Bytes(w.log) + (Bytes(frames) + Remainder(all)) == Bytes(w.log) + Bytes(frames) + Remainder(all);
      ProducedKeeps(w, after, frames, w.input + pcm);
    }
  }

  lemma FlushStepKeeps(w: Writer, window: string)
    requires Inv(w)
    ensures Inv(DoFlush(w, window))
  {
    hide CoreOk, PlaceOk, PendingOk, SendsOk, InOrder, Bytes, Padded, FilledUp;
    var after, rest := FlushPartial(w.core, window), w.core.partial;
    FlushKeeps(w.core, window);
    ShortRest(w);
    assert w.log + [] == w.log && w.core.queue + [] == w.core.queue;
    if rest == [] || !Accepted(w.core, 1) {
      ProducedKeeps(w, after, [], w.input);
    } else {
      PaddedAsAsked(rest);
      var frame := Item(w.core.epoch, Audio, window, FilledUp(rest));
      FrameBytes(w.log, frame);
      assert Bytes(w.log) + rest + FilledUp(rest)[|rest|..] == Bytes(w.log) + FilledUp(rest) + [];
      ProducedKeeps(w, after, [frame], w.input + FilledUp(rest)[|rest|..]);
    }
  }

  lemma ShortRest(w: Writer)
    requires CoreOk(w.core)
    ensures |w.core.partial| < 320
  {}

  lemma PaddedAsAsked(rest: Pcm)
    requires |rest| < 320
    ensures Padded(rest) == FilledUp(rest) && |FilledUp(rest)| == 320
    ensures rest + FilledUp(rest)[|rest|..] == FilledUp(rest)
  {}

  lemma FrameBytes(log: seq<Item>, frame: Item)
    ensures Bytes(log + [frame]) == Bytes(log) + frame.pcm
  {
    BytesOf(log, [frame]);
    assert [frame][1..] == [];
    assert frame.pcm + [] == frame.pcm;
  }

  lemma MarkKeeps(w: Writer, kind: Kind, window: string)
    requires Inv(w)
    ensures Inv(DoMark(w, kind, window))
  {
    hide CoreOk, PlaceOk, PendingOk, SendsOk, InOrder, Balanced, Bytes;
    if kind.Audio? {
      return;
    }
    var after, marker := EnqueueControl(w.core, kind, window), Item(w.core.epoch, kind, window, []);
    ControlKeeps(w.core, kind, window);
    assert w.log + [] == w.log && w.core.queue + [] == w.core.queue;
    if |w.core.queue| < 9000 {
      FrameBytes(w.log, marker);
      assert Bytes(w.log) + [] == Bytes(w.log);
      ProducedKeeps(w, after, [marker], w.input);
    } else {
      ProducedKeeps(w, after, [], w.input);
    }
  }

  lemma InterruptKeeps(w: Writer, counted: bool)
    requires Inv(w)
    ensures Inv(DoInterrupt(w, counted))
  {
    var t := DoInterrupt(w, counted);
    var held := Held(w.place) + PendingItems(w.pending);
    CurrentNone(held, t.core.epoch);
    assert Bytes([]) + [] == [];
  }

  lemma RestartKeeps(w: Writer)
    requires Inv(w)
    ensures Inv(DoRestart(w))
  {
    hide CoreOk, BytesOk, SendsOk, DoInterrupt;
    if w.place.Over? {
      InterruptKeeps(w, false);
      InterruptClears(w);
    }
  }

  lemma InterruptClears(w: Writer)
    ensures var t := DoInterrupt(w, false);
      t.log == [] && t.begun == [] && t.core.queue == [] && t.place == w.place && t.pending == w.pending
  {}

  // ----- The writer -----

  // Items change hands inside the writer, or come from the queue, without changing their order.
  lemma HandedOn(w: Writer, t: Writer)
    requires InOrder(w)
    requires t.log == w.log && t.core.epoch == w.core.epoch && t.stopped == w.stopped
    requires !w.stopped && !t.place.Over? ==> !w.place.Over?
    requires var e := w.core.epoch;
      t.begun + Current(Held(t.place) + PendingItems(t.pending), e) + t.core.queue
      == w.begun + Current(Held(w.place) + PendingItems(w.pending), e) + w.core.queue
    ensures InOrder(t)
  {}

  lemma StartedHolds(w: Writer, item: Item)
    requires w.place.Idle? && w.pending.None?
    ensures var t := Started(w, item);
      && Current(Held(t.place) + PendingItems(t.pending), w.core.epoch) == Current([item], w.core.epoch)
      && t.core == w.core && t.log == w.log && t.begun == w.begun && t.stopped == w.stopped && t.pending.None?
  {
    assert [item] + [] == [item];
    assert [item][1..] == [];
    if item.epoch != w.core.epoch {
      assert Held(w.place) + PendingItems(w.pending) == [];
      CurrentNone([item], w.core.epoch);
      CurrentNone([], w.core.epoch);
    } else {
      assert Held(Started(w, item).place) + PendingItems(w.pending) == [item];
    }
  }

  lemma TakeKeeps(w: Writer)
    requires Inv(w)
    ensures Inv(DoTake(w))
  {
    hide CoreOk, SendsOk, BytesOk, InOrder, Current;
    var t := DoTake(w);
    if w.place.Idle? && w.stopped {
      Finished(t);
    } else if w.place.Idle? && w.pending.Some? {
      var item := w.pending.value;
      StartedHolds(w.(pending := None), item);
      assert [] + [item] == [item];
      HandedOn(w, t);
    } else if w.place.Idle? && w.core.queue != [] {
      TakenFromQueue(w);
    }
  }

  lemma TakenFromQueue(w: Writer)
    requires Inv(w) && w.place.Idle? && !w.stopped && w.pending.None? && w.core.queue != []
    ensures Inv(DoTake(w))
  {
    hide CoreOk, SendsOk, BytesOk, InOrder, Current;
    var t, item := DoTake(w), w.core.queue[0];
    DequeueKeeps(w.core);
    HeadIsCurrent(w.core);
    StartedHolds(w.(core := Dequeue(w.core)), item);
    CurrentAll([item], w.core.epoch);
    assert [] + PendingItems(w.pending) == [];
    CurrentAll([], w.core.epoch);
    assert w.begun + [] + w.core.queue == w.begun + [item] + w.core.queue[1..];
    HandedOn(w, t);
  }

  lemma Finished(w: Writer)
    requires w.stopped || w.place.Over?
    ensures InOrder(w)
  {}

  lemma HeadIsCurrent(c: Core)
    requires CoreOk(c) && c.queue != []
    ensures c.queue[0].epoch == c.epoch
  {}

  // A send begins with everything that the writer holds for the current epoch before its pending item.
  lemma BeginKeeps(w: Writer, items: seq<Item>, place: Place)
    requires Inv(w) && items == Held(w.place) && Held(place) == [] && InHand(place) == InHand(w.place) && !place.Over?
      && !w.place.Over?
    requires forall i :: 0 <= i < |items| ==> items[i].epoch == w.core.epoch
    requires PlaceOk(place, w.core.epoch) && PendingOk(w.pending, place, w.core.epoch)
    ensures Inv(Begin(w, items, place))
  {
    hide CoreOk, BytesOk, PlaceOk, PendingOk, Current, InOrder, SendsOk, Held;
    BeginOrder(w, items, place);
    SendsGrow(w.sends, items, w.core.epoch);
  }

  lemma SendsGrow(sends: seq<Item>, items: seq<Item>, epoch: nat)
    requires SendsOk(sends, epoch) && forall i :: 0 <= i < |items| ==> items[i].epoch == epoch
    ensures SendsOk(sends + items, epoch)
  {}

  lemma BeginOrder(w: Writer, items: seq<Item>, place: Place)
    requires InOrder(w) && items == Held(w.place) && Held(place) == [] && !w.place.Over?
    requires forall i :: 0 <= i < |items| ==> items[i].epoch == w.core.epoch
    ensures InOrder(Begin(w, items, place))
  {
    hide Current, Held;
    var e := w.core.epoch;
    CurrentOf(items, PendingItems(w.pending), e);
    CurrentAll(items, e);
    assert [] + PendingItems(w.pending) == PendingItems(w.pending);
    var rest := Current(PendingItems(w.pending), e);
    assert w.begun + (items + rest) + w.core.queue == w.begun + items + rest + w.core.queue;
  }

  // What is dropped is of an older epoch, unless the writer is being stopped.
  lemma DroppedKeeps(w: Writer)
    requires Inv(w) && !w.place.Over?
    requires w.stopped || (forall i :: 0 <= i < |Held(w.place)| ==> Held(w.place)[i].epoch != w.core.epoch)
    requires w.place.Starting? || w.place.Ending? || w.place.Waiting? || w.place.Pacing? || w.place.Collecting?
    ensures Inv(Dropped(w, InHand(w.place)))
  {
    hide AudioCount, BytesOk;
    var e := w.core.epoch;
    if !w.stopped {
      CurrentOf(Held(w.place), PendingItems(w.pending), e);
      CurrentNone(Held(w.place), e);
      assert [] + PendingItems(w.pending) == PendingItems(w.pending);
      assert [] + Current(PendingItems(w.pending), e) == Current(PendingItems(w.pending), e);
    }
  }

  lemma LockKeeps(w: Writer)
    requires Inv(w)
    ensures Inv(DoLock(w))
  {
    hide CoreOk, InOrder, SendsOk, BytesOk, Balanced;
    match w.place
    case Starting(item) =>
      if item.epoch != w.core.epoch || w.stopped {
        DroppedKeeps(w);
        NoneDropped(w);
      } else {
        BeginKeeps(w, [item], StartSending(item));
      }
    case Ending(item) =>
      if item.epoch != w.core.epoch || w.stopped {
        DroppedKeeps(w);
        NoneDropped(w);
      } else {
        BeginKeeps(w, [item], EndSending(item));
      }
    case Waiting(batch, frames, mode) =>
      if batch != w.core.epoch || w.stopped {
        DroppedKeeps(w);
      } else {
        BeginKeeps(w, frames, Sending(batch, frames, mode));
      }
    case _ =>
  }

  lemma NoneDropped(w: Writer)
    ensures Dropped(w, 0) == w.(place := Idle)
  {}

  lemma AfterBatchKeeps(w: Writer)
    requires Inv(w) && Held(w.place) == [] && InHand(w.place) == 0 && !w.place.Over?
    ensures Inv(AfterBatch(w))
  {
    hide CoreOk, SendsOk, BytesOk, InOrder;
    var t := AfterBatch(w);
    assert Held(t.place) + PendingItems(t.pending) == Held(w.place) + PendingItems(w.pending);
    HandedOn(w, t);
  }

  lemma SentKeeps(w: Writer)
    requires Inv(w)
    ensures Inv(DoSent(w))
  {
    hide SendsOk, BytesOk, InOrder, CoreOk, Balanced;
    match w.place
    case StartSending(item) =>
      PlaceOnly(w, Collecting(item.epoch, [], Prebuffer));
    case EndSending(_) =>
      PlaceOnly(w, Idle);
    case Sending(batch, frames, mode) =>
      var t := w.(core := w.core.(sent := w.core.sent + |frames|), place := Idle);
      CountedKeeps(w);
      if !mode.Single? {
        AfterBatchKeeps(t);
      }
    case _ =>
  }

  lemma PlaceOnly(w: Writer, place: Place)
    requires Inv(w) && Held(w.place) == [] && Held(place) == [] && InHand(place) == InHand(w.place) && !w.place.Over?
    requires PlaceOk(place, w.core.epoch) && PendingOk(w.pending, place, w.core.epoch)
    ensures Inv(w.(place := place))
  {
    hide SendsOk, BytesOk, InOrder, CoreOk, PlaceOk, PendingOk, Held;
    HandedOn(w, w.(place := place));
  }

  lemma CountedKeeps(w: Writer)
    requires Inv(w) && w.place.Sending?
    ensures Inv(w.(core := w.core.(sent := w.core.sent + |w.place.frames|), place := Idle))
  {
    hide SendsOk, BytesOk, InOrder, AudioCount;
    HandedOn(w, w.(core := w.core.(sent := w.core.sent + |w.place.frames|), place := Idle));
  }

  // A batch of the current epoch, with the marker that came with it.
  lemma CollectedKeeps(w: Writer)
    requires w.place.Collecting? && w.place.batch == w.core.epoch && Healthy(w) && InOrder(w)
    requires w.pending.Some? ==> w.pending.value.epoch == w.core.epoch && !w.pending.value.kind.Audio?
    ensures Inv(Collected(w))
  {
    hide AudioCount, SendsOk, BytesOk, Current;
    if w.place.frames == [] {
      var t := AfterBatch(w);
      assert Held(t.place) + PendingItems(t.pending) == Held(w.place) + PendingItems(w.pending);
    }
  }

  // The invariant but for the order and the pending item.
  ghost predicate Healthy(w: Writer) {
    && CoreOk(w.core) && PlaceOk(w.place, w.core.epoch)
    && Balanced(w) && SendsOk(w.sends, w.core.epoch) && BytesOk(w.log, w.core.partial, w.input)
  }

  lemma CollectKeeps(w: Writer, timeout: bool)
    requires Inv(w)
    ensures Inv(DoCollect(w, timeout))
  {
    hide CoreOk, SendsOk, BytesOk, InOrder, Current;
    if w.place.Collecting? {
      assert w.pending.None?;
      if w.place.batch != w.core.epoch {
        DroppedKeeps(w);
        assert Dropped(w, InHand(w.place)).(pending := None) == Dropped(w, InHand(w.place));
      } else if |w.place.frames| >= PREBUFFER_FRAMES || w.stopped || timeout {
        CollectedKeeps(w);
      } else {
        HandedOn(w, DoCollect(w, timeout));
      }
    }
  }

  lemma FetchKeeps(w: Writer, expired: bool)
    requires Inv(w)
    ensures Inv(DoFetch(w, expired))
  {
    hide CoreOk, SendsOk, BytesOk, InOrder, Current;
    if w.place.Reading? {
      if expired {
        HandedOn(w, DoFetch(w, expired));
      } else if w.core.queue != [] {
        if w.place.batch == w.core.epoch {
          FetchCurrent(w);
        } else {
          FetchNewer(w);
        }
      }
    }
  }

  lemma FetchCurrent(w: Writer)
    requires Inv(w) && w.place.Reading? && w.core.queue != [] && w.place.batch == w.core.epoch
    ensures Inv(DoFetch(w, false))
  {
    hide CoreOk, SendsOk, BytesOk, InOrder, Current;
    var frames, batch, mode := w.place.frames, w.place.batch, w.place.mode;
    var item, taken := w.core.queue[0], w.(core := Dequeue(w.core), place := Collecting(batch, frames, mode));
    DequeueKeeps(w.core);
    HeadIsCurrent(w.core);
    CurrentAll(frames, batch);
    CurrentAll(frames + [item], batch);
    assert frames + [] == frames;
    assert w.begun + frames + w.core.queue == w.begun + (frames + [item]) + w.core.queue[1..];
    if item.kind.Audio? {
      assert frames + [item] + [] == frames + [item];
      HandedOn(w, taken.(place := Collecting(batch, frames + [item], mode)));
    } else {
      HandedOn(w, taken.(pending := Some(item)));
      CollectedKeeps(taken.(pending := Some(item)));
    }
  }

  // The batch was interrupted meanwhile: it is dropped, and the new item goes on by itself.
  lemma FetchNewer(w: Writer)
    requires Inv(w) && w.place.Reading? && w.core.queue != [] && w.place.batch != w.core.epoch
    ensures Inv(DoFetch(w, false))
  {
    hide CoreOk, SendsOk, BytesOk, InOrder, Current;
    var frames, t, item := w.place.frames, DoFetch(w, false), w.core.queue[0];
    DequeueKeeps(w.core);
    HeadIsCurrent(w.core);
    var alone := Dropped(w.(core := Dequeue(w.core)), |frames|);
    DroppedCore(Dequeue(w.core), |frames|);
    StartedHolds(alone, item);
    if w.stopped {
      Finished(t);
    } else {
      CurrentNone(frames, w.core.epoch);
      CurrentAll([item], w.core.epoch);
      assert frames + [] == frames;
      assert w.begun + [] + w.core.queue == w.begun + [item] + w.core.queue[1..];
      HandedOn(w, t);
    }
  }

  lemma DroppedCore(c: Core, frames: nat)
    requires CoreOk(c)
    ensures CoreOk(c.(interrupted := c.interrupted + frames))
  {}

  lemma WakeKeeps(w: Writer, late: bool)
    requires Inv(w)
    ensures Inv(DoWake(w, late))
  {
    hide CoreOk, SendsOk, BytesOk, InOrder;
    if w.place.Pacing? {
      if w.place.frame.epoch != w.core.epoch {
        DroppedKeeps(w);
      } else {
        HandedOn(w, DoWake(w, late));
      }
    }
  }

  lemma EndKeeps(w: Writer, step: Step)
    requires Inv(w) && (step.Stop? || step.Fail?)
    ensures Inv(Do(w, step))
  {
    hide CoreOk, SendsOk, BytesOk, InOrder;
    Finished(Do(w, step));
  }

  lemma StepKeeps(w: Writer, step: Step)
    requires Inv(w)
    ensures Inv(Do(w, step))
  {
    hide Inv, DoSpeak, DoFlush, DoMark, DoInterrupt, DoTake, DoLock, DoSent, DoCollect, DoFetch, DoWake, DoRestart;
    match step
    case Speak(pcm, window) => SpeakKeeps(w, pcm, window);
    case Flush(window) => FlushStepKeeps(w, window);
    case Mark(kind, window) => MarkKeeps(w, kind, window);
    case Interrupt(counted) => InterruptKeeps(w, counted);
    case Take => TakeKeeps(w);
    case Lock => LockKeeps(w);
    case Sent => SentKeeps(w);
    case Collect(timeout) => CollectKeeps(w, timeout);
    case Fetch(expired) => FetchKeeps(w, expired);
    case Wake(late) => WakeKeeps(w, late);
    case Restart => RestartKeeps(w);
    case _ => EndKeeps(w, step);
  }

  // ----- What playback promises -----

  lemma {:induction false} RunKeeps(steps: seq<Step>)
    ensures Inv(Run(READY, steps))
  {
    hide Do, Inv;
    if steps == [] {
      ReadyOk();
    } else {
      RunKeeps(steps[..|steps| - 1]);
      StepKeeps(Run(READY, steps[..|steps| - 1]), steps[|steps| - 1]);
    }
  }

  lemma ReadyOk()
    ensures Inv(READY)
  {
    assert Held(Idle) + PendingItems(None) == [];
  }

  // A plain queue, as long as nobody interrupts: what has been sent, what the writer holds and
  // what is queued are together exactly what was enqueued in this epoch, in order, and as
  // bytes exactly what was spoken; and no frame is ever unaccounted for.
  lemma {:induction false} PlaysInOrder(steps: seq<Step>)
    ensures var w := Run(READY, steps);
      && (!w.stopped && !w.place.Over? ==>
            w.log == w.begun + Current(Held(w.place) + PendingItems(w.pending), w.core.epoch) + w.core.queue)
      && Bytes(w.log) + w.core.partial == w.input && |w.core.partial| < FRAME_BYTES
      && w.core.enqueued == w.core.sent + w.core.interrupted + w.core.buffered + InHand(w.place) + w.cleared + w.lost
      && w.core.buffered == AudioCount(w.core.queue) <= QUEUE_FRAMES
      && InHand(w.place) <= PREBUFFER_FRAMES
  {
    hide Run, Current, Bytes, AudioCount;
    RunKeeps(steps);
  }

  // After an interruption nothing of an older epoch is ever sent again.
  lemma {:induction false} NothingOldIsSent(steps: seq<Step>, counted: bool, more: seq<Step>)
    ensures var w := DoInterrupt(Run(READY, steps), counted);
      && w.sends <= Run(w, more).sends && w.core.epoch <= Run(w, more).core.epoch
      && forall i :: |w.sends| <= i < |Run(w, more).sends| ==> Run(w, more).sends[i].epoch >= w.core.epoch
  {
    hide Inv, Run, DoInterrupt;
    RunKeeps(steps);
    InterruptKeeps(Run(READY, steps), counted);
    SendsAreCurrent(DoInterrupt(Run(READY, steps), counted), more);
  }

  lemma {:induction false} SendsAreCurrent(w: Writer, more: seq<Step>)
    requires Inv(w)
    ensures Inv(Run(w, more)) && w.sends <= Run(w, more).sends && w.core.epoch <= Run(w, more).core.epoch
    ensures forall i :: |w.sends| <= i < |Run(w, more).sends| ==> Run(w, more).sends[i].epoch >= w.core.epoch
  {
    hide Inv, Do;
    if more != [] {
      var before := Run(w, more[..|more| - 1]);
      SendsAreCurrent(w, more[..|more| - 1]);
      StepKeeps(before, more[|more| - 1]);
      StepSends(before, more[|more| - 1]);
    }
  }

  lemma StepSends(w: Writer, step: Step)
    requires Inv(w)
    ensures var t := Do(w, step);
      && w.core.epoch <= t.core.epoch && w.sends <= t.sends
      && forall i :: |w.sends| <= i < |t.sends| ==> t.sends[i].epoch == w.core.epoch
  {
    hide Inv, DoSpeak, DoFlush, DoMark, DoTake, DoCollect, DoFetch;
    match step
    case Speak(_, _) => ProducerSends(w, step);
    case Flush(_) => ProducerSends(w, step);
    case Mark(_, _) => ProducerSends(w, step);
    case Take => CollectorSends(w, step);
    case Collect(_) => CollectorSends(w, step);
    case Fetch(_) => CollectorSends(w, step);
    case _ => WriterSends(w, step);
  }

  lemma ProducerSends(w: Writer, step: Step)
    requires step.Speak? || step.Flush? || step.Mark?
    ensures Do(w, step).core.epoch == w.core.epoch && Do(w, step).sends == w.sends
  {
    hide Framed, Room, FramesOf, FilledUp;
  }

  lemma CollectorSends(w: Writer, step: Step)
    requires step.Take? || step.Collect? || step.Fetch?
    ensures Do(w, step).core.epoch == w.core.epoch && Do(w, step).sends == w.sends
  {}

  lemma WriterSends(w: Writer, step: Step)
    requires Inv(w) && !step.Speak? && !step.Flush? && !step.Mark? && !step.Take? && !step.Collect? && !step.Fetch?
    ensures var t := Do(w, step);
      && w.core.epoch <= t.core.epoch && w.sends <= t.sends
      && forall i :: |w.sends| <= i < |t.sends| ==> t.sends[i].epoch == w.core.epoch
  {
    hide CoreOk, InOrder, Balanced, SendsOk, BytesOk, PendingOk, Current;
  }
}
