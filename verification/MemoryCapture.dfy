// The daemon's side of a closeout: what is captured while the call runs, and the batches in
// which it is sent.
module MemoryCapture {
  import opened Wrappers
  import opened Closeouts
  import JsonSize

  const QUEUE_LIMIT: nat := 512
  const BATCH_EVENTS: nat := 96
  const BATCH_TEXT: nat := BATCH_CHARS - 6000
  const CONTEXT_EVENTS: nat := 4

  // What persist writes: the acknowledged events, how many were captured, and the flags.
  datatype Data = Data(acknowledged: set<string>, counted: nat, complete: bool, ended: bool, finalized: bool)

  const NEW_DATA := Data({}, 0, true, false, false)

  datatype Queue = Queue(data: Data, events: seq<Event>, context: seq<Event>)

  // One transcript event; `saved` tells whether persist succeeded.
  function Captured(q: Queue, e: Event, saved: bool): Queue {
    var complete := q.data.complete && saved;
    if |q.events| >= QUEUE_LIMIT || |e.text| > BATCH_CHARS then q.(data := q.data.(complete := false))
    else q.(events := q.events + [e], data := q.data.(counted := q.data.counted + 1, complete := complete))
  }

  // How many queued events go into the next batch, of which `taken` already do.
  function BatchLength(events: seq<Event>, taken: nat, size: nat): (n: nat)
    requires taken <= |events|
    ensures taken <= n <= |events|
    ensures taken <= BATCH_EVENTS ==> n <= BATCH_EVENTS
    ensures taken == 0 && events != [] ==> n > 0
    decreases |events| - taken
  {
    if taken == |events| || (taken > 0 && size + |events[taken].text| > BATCH_TEXT) || taken == BATCH_EVENTS then taken
    else BatchLength(events, taken + 1, size + |events[taken].text|)
  }

  function Batch(events: seq<Event>): seq<Event> {
    events[..BatchLength(events, 0, 0)]
  }

  function Trimmed(context: seq<Event>, size: nat): seq<Event> {
    if context != [] && TextLength(context) + size > BATCH_CHARS then Trimmed(context[1..], size) else context
  }

  function LastOf(events: seq<Event>, n: nat): seq<Event> {
    if |events| <= n then events else events[|events| - n..]
  }

  function Posted(q: Queue): seq<Event> {
    Trimmed(q.context, TextLength(Batch(q.events))) + Batch(q.events)
  }

  // The reply to a batch of n events.
  function Acknowledged(q: Queue, n: nat): Queue
    requires n <= |q.events|
  {
    var batch := q.events[..n];
    Queue(q.data.(acknowledged := q.data.acknowledged + set e | e in batch :: e.id), q.events[n..],
          LastOf(q.context + batch, CONTEXT_EVENTS))
  }

  // The transcript rows that a restart sends again.
  function Resent(ledger: seq<Event>, acknowledged: set<string>): seq<Event> {
    if ledger == [] then [] else
      var last := ledger[|ledger| - 1];
      Resent(ledger[..|ledger| - 1], acknowledged)
      + if last.id !in acknowledged && |last.text| <= BATCH_CHARS then [last] else []
  }

  predicate Oversized(ledger: seq<Event>, acknowledged: set<string>) {
    exists e :: e in ledger && e.id !in acknowledged && |e.text| > BATCH_CHARS
  }

  // A restart keeps the claim of completeness only when the call had ended, and the events at
  // hand are as many as were captured. `retained` tells whether transcripts may be read.
  function Recovered(disk: Data, ledger: seq<Event>, retained: bool): Queue {
    var resend := !disk.finalized && retained;
    var events := if resend then Resent(ledger, disk.acknowledged) else [];
    var complete := disk.ended && disk.complete && !(resend && Oversized(ledger, disk.acknowledged))
                    && (disk.finalized || |disk.acknowledged| + |events| >= disk.counted);
    Queue(disk.(complete := complete, ended := true), events, [])
  }

  class Capture {
    var data: Data
    var events: seq<Event>
    var context: seq<Event>

    constructor (data: Data)
      ensures View() == Queue(data, [], [])
    {
      this.data, events, context := data, [], [];
    }

    function View(): Queue
      reads this
    {
      Queue(data, events, context)
    }

    method Add(e: Event, saved: bool)
      modifies this
      ensures View() == Captured(old(View()), e, saved)
    {
      if |events| >= QUEUE_LIMIT || |e.text| > BATCH_CHARS {
        data := data.(complete := false);
        return;
      }
      events := events + [e];
      data := data.(counted := data.counted + 1);
      if !saved {
        data := data.(complete := false);
      }
    }

    method NextBatch() returns (batch: seq<Event>, posted: seq<Event>)
      ensures batch == Batch(events) && posted == Posted(View())
    {
      batch := [];
      var size, i := 0, 0;
      while i < |events|
        invariant i <= |events| && i <= BATCH_EVENTS && batch == events[..i] && size == TextLength(batch)
        invariant BatchLength(events, 0, 0) == BatchLength(events, i, size)
      {
        if (batch != [] && size + |events[i].text| > BATCH_TEXT) || |batch| == BATCH_EVENTS {
          break;
        }
        batch := batch + [events[i]];
        size := size + |events[i].text|;
        assert batch[..|batch| - 1] == events[..i];
        i := i + 1;
      }
      var recent := context;
      while recent != [] && TextLength(recent) + size > BATCH_CHARS
        invariant Trimmed(recent, size) == Trimmed(context, size)
        decreases |recent|
      {
        recent := recent[1..];
      }
      posted := recent + batch;
    }

    // The context is a deque of bounded length.
    method Acknowledge(n: nat)
      requires n <= |events| && |context| <= CONTEXT_EVENTS
      modifies this
      ensures View() == Acknowledged(old(View()), n) && |context| <= CONTEXT_EVENTS
    {
      hide LastOf;
      ghost var was, seen, recent := events, data.acknowledged, context;
      var i := 0;
      LastOfShort(recent);
      assert recent + was[..0] == recent;
      while i < n
        invariant i <= n && events == was[i..]
        invariant data == old(data).(acknowledged := seen + set e | e in was[..i] :: e.id)
        invariant context == LastOf(recent + was[..i], CONTEXT_EVENTS)
      {
        var e := events[0];
        IdsStep(was[..i], e);
        LastOfStep(recent + was[..i], e);
        assert was[..i + 1] == was[..i] + [e];
        assert recent + was[..i + 1] == recent + was[..i] + [e];
        events := events[1..];
        data := data.(acknowledged := data.acknowledged + {e.id});
        context := LastOf(context + [e], CONTEXT_EVENTS);
        i := i + 1;
      }
      LastOfShort(recent + was[..n]);
    }
  }

  lemma IdsStep(rest: seq<Event>, last: Event)
    ensures (set e | e in rest + [last] :: e.id) == (set e | e in rest :: e.id) + {last.id}
  {
    assert forall e :: e in rest + [last] <==> e in rest || e == last;
  }

  lemma LastOfShort(events: seq<Event>)
    ensures |LastOf(events, CONTEXT_EVENTS)| <= CONTEXT_EVENTS
    ensures |events| <= CONTEXT_EVENTS ==> LastOf(events, CONTEXT_EVENTS) == events
  {}

  lemma LastOfStep(all: seq<Event>, e: Event)
    ensures LastOf(LastOf(all, CONTEXT_EVENTS) + [e], CONTEXT_EVENTS) == LastOf(all + [e], CONTEXT_EVENTS)
  {}

  // ----- The batches that are posted -----

  lemma {:induction false} TextLengthOf(a: seq<Event>, b: seq<Event>)
    ensures TextLength(a + b) == TextLength(a) + TextLength(b)
  {
    if b == [] {
      assert a + b == a;
    } else {
      assert (a + b)[..|a + b| - 1] == a + b[..|b| - 1];
      TextLengthOf(a, b[..|b| - 1]);
    }
  }

  lemma {:induction false} BatchBound(events: seq<Event>, taken: nat, size: nat)
    requires taken <= |events| && size == TextLength(events[..taken])
    requires forall e :: e in events ==> |e.text| <= BATCH_CHARS
    requires taken > 1 ==> size <= BATCH_TEXT
    requires taken <= 1 ==> size <= BATCH_CHARS
    ensures TextLength(events[..BatchLength(events, taken, size)]) <= BATCH_CHARS
    decreases |events| - taken
  {
    if taken < |events| && !(taken > 0 && size + |events[taken].text| > BATCH_TEXT) && taken != BATCH_EVENTS {
      assert events[..taken + 1][..taken] == events[..taken];
      BatchBound(events, taken + 1, size + |events[taken].text|);
    }
  }

  lemma {:induction false} TrimmedBound(context: seq<Event>, size: nat)
    requires size <= BATCH_CHARS
    ensures var t := Trimmed(context, size);
      && |t| <= |context| && t == context[|context| - |t|..] && TextLength(t) + size <= BATCH_CHARS
  {
    if context != [] && TextLength(context) + size > BATCH_CHARS {
      TrimmedBound(context[1..], size);
    }
  }

  // A posted batch never exceeds what the server accepts in events or in characters.
  lemma PostedFits(q: Queue)
    requires |q.context| <= CONTEXT_EVENTS && q.events != []
    requires forall e :: e in q.events ==> |e.text| <= BATCH_CHARS
    ensures |Posted(q)| <= 100 && TextLength(Posted(q)) <= BATCH_CHARS
    ensures 0 < |Batch(q.events)| <= |q.events|
  {
    BatchBound(q.events, 0, 0);
    var size := TextLength(Batch(q.events));
    TrimmedBound(q.context, size);
    TextLengthOf(Trimmed(q.context, size), Batch(q.events));
  }

  // ----- The size that the server measures -----

  lemma EventSizeIs(e: Event)
    ensures EventSize(e) == 60 + JsonSize.TextCost(JsonSize.Ascii, e.id) + JsonSize.TextCost(JsonSize.Ascii, e.text)
                            + (if e.direction.Input? then 5 else 6) + StampWidth(e.timestamp)
  {
    hide JsonSize.FieldsSize, JsonSize.TextCost, JsonSize.CharCost, JsonSize.Digits, StampWidth;
    var m, f := JsonSize.Ascii, EventFields(e);
    assert f == [] + [f[0]] + [f[1]] + [f[2]] + [f[3]];
    JsonSize.AppendedField(m, [], f[0]);
    JsonSize.AppendedField(m, [] + [f[0]], f[1]);
    JsonSize.AppendedField(m, [] + [f[0]] + [f[1]], f[2]);
    JsonSize.AppendedField(m, [] + [f[0]] + [f[1]] + [f[2]], f[3]);
    NoFields(m);
    JsonSize.PlainCost(m, "event_id");
    JsonSize.PlainCost(m, "direction");
    JsonSize.PlainCost(m, "text");
    JsonSize.PlainCost(m, "timestamp");
    JsonSize.PlainCost(m, if e.direction.Input? then "input" else "output");
  }

  lemma NoFields(m: JsonSize.Measure)
    ensures JsonSize.FieldsSize(m, []) == 0
  {}

  lemma {:induction false} EventsSizeOf(a: seq<Event>, b: seq<Event>)
    ensures EventsSize(a + b) == EventsSize(a) + EventsSize(b)
  {
    hide EventSize;
    if b == [] {
      assert a + b == a;
    } else {
      assert (a + b)[..|a + b| - 1] == a + b[..|b| - 1];
      EventsSizeOf(a, b[..|b| - 1]);
    }
  }

  lemma PartSize(a: seq<Event>, part: seq<Event>, b: seq<Event>)
    ensures EncodedSize(part) <= EncodedSize(a + part + b)
  {
    hide EventSize;
    EventsSizeOf(a, part);
    EventsSizeOf(a + part, b);
    SomeSize(a + part + b);
  }

  lemma SomeSize(events: seq<Event>)
    ensures events != [] ==> EventsSize(events) >= 2
  {}

  // The queue counts characters, the server counts escaped JSON. Given valid events, the second
  // count alone decides whether a posted batch is accepted.
  lemma PostedAcceptedExactly(q: Queue, row: Row, now: int)
    requires |q.context| <= CONTEXT_EVENTS && q.events != []
    requires forall e :: e in q.events ==> |e.text| <= BATCH_CHARS
    requires forall e :: e in Posted(q) ==> ValidEvent(row, e, now)
    requires row.Authorized(now, true, row.generation) && SameIdentities(Posted(q), row.hashes) && row.Open()
    ensures PrepareCheckpoint(row, Posted(q), now, true, row.generation).Ok? <==>
      EncodedSize(Posted(q)) <= ENCODED_LIMIT
    ensures ValidBatch(row, Posted(q), now) <==> EncodedSize(Posted(q)) <= ENCODED_LIMIT
  {
    hide EncodedSize, Posted, TextLength;
    PostedFits(q);
  }

  // The batch is a part of what is posted, and it only grows while nothing is acknowledged.
  lemma PostedHoldsBatch(q: Queue)
    requires |q.context| <= CONTEXT_EVENTS
    ensures EncodedSize(Batch(q.events)) <= EncodedSize(Posted(q))
  {
    hide EncodedSize;
    var batch := Batch(q.events);
    PartSize(Trimmed(q.context, TextLength(batch)), batch, []);
    assert Posted(q) == Trimmed(q.context, TextLength(batch)) + batch + [];
  }

  lemma {:induction false} LengthGrows(events: seq<Event>, e: Event, taken: nat, size: nat)
    requires taken <= |events|
    ensures BatchLength(events, taken, size) <= BatchLength(events + [e], taken, size)
    decreases |events| - taken
  {
    if taken < |events| && !(taken > 0 && size + |events[taken].text| > BATCH_TEXT) && taken != BATCH_EVENTS {
      LengthGrows(events, e, taken + 1, size + |events[taken].text|);
    }
  }

  lemma BatchGrows(events: seq<Event>, e: Event)
    ensures EncodedSize(Batch(events)) <= EncodedSize(Batch(events + [e]))
  {
    hide EncodedSize, BatchLength;
    LengthGrows(events, e, 0, 0);
    var small, all := Batch(events), Batch(events + [e]);
    assert all == [] + small + all[|small|..];
    PartSize([], small, all[|small|..]);
  }

  lemma {:induction false} SixEach(s: string)
    requires forall i :: 0 <= i < |s| ==> s[i] == 'α'
    ensures JsonSize.TextCost(JsonSize.Ascii, s) == 6 * |s|
  {
    if s != [] {
      SixEach(s[..|s| - 1]);
    }
  }

  // Two events of nine thousand Greek letters: each is accepted alone, but they go together.
  lemma TwoGreekEvents(a: Event, b: Event)
    requires |a.text| == 9000 && |b.text| == 9000
    requires forall i :: 0 <= i < 9000 ==> a.text[i] == 'α' && b.text[i] == 'α'
    ensures Batch([a, b]) == [a, b] && EncodedSize([a, b]) > ENCODED_LIMIT
    ensures JsonSize.TextCost(JsonSize.Ascii, a.id) + StampWidth(a.timestamp) <= 1000 ==>
      EncodedSize([a]) <= ENCODED_LIMIT
  {
    hide EventSize, JsonSize.TextCost, StampWidth;
    SixEach(a.text);
    SixEach(b.text);
    EventSizeIs(a);
    EventSizeIs(b);
    assert [a, b][..1] == [a] && [a][..0] == [];
    assert EventsSize([a, b]) == EventsSize([a]) + EventSize(b) + 2;
    assert BatchLength([a, b], 1, 9000) == 2 by { assert BatchLength([a, b], 2, 18000) == 2; }
    assert [a, b][..2] == [a, b];
  }
}
