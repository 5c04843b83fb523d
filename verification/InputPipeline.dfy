// Caller audio on its way to the model: a startup buffer while the first connection is made,
// then a short live queue, and a sender that takes small batches.
module InputPipeline {
  const QUEUE_FRAMES: nat := 10
  const STARTUP_FRAMES: nat := 250
  const BATCH_FRAMES: nat := 2
  const RECONNECT_FRAMES: nat := 5

  // A captured frame, with its position in the order of capture.
  datatype Frame = Frame(index: nat, pcm: seq<int>)

  datatype Counters = Counters(
    received: nat,
    submitted: nat,
    dropped: nat,
    captured: nat,
    released: nat,
    overflow: nat,
    discarded: nat,
    startupTrimmed: nat,
    reconnectTrimmed: nat,
    queueOverflow: nat,
    sendFailure: nat)

  const ZERO := Counters(0, 0, 0, 0, 0, 0, 0, 0, 0, 0, 0)

  datatype Buffers = Buffers(startup: seq<Frame>, pending: bool, live: seq<Frame>, counts: Counters)

  // ----- The functions on the buffers -----

  function QueueInput(b: Buffers, frame: Frame): Buffers {
    var counts := b.counts.(received := b.counts.received + 1);
    if b.pending then
      if |b.startup| >= STARTUP_FRAMES
      then b.(startup := b.startup[1..] + [frame],
              counts := counts.(captured := counts.captured + 1, overflow := counts.overflow + 1,
                                dropped := counts.dropped + 1))
      else b.(startup := b.startup + [frame], counts := counts.(captured := counts.captured + 1))
    else if |b.live| >= QUEUE_FRAMES
    then b.(live := b.live[1..] + [frame],
            counts := counts.(queueOverflow := counts.queueOverflow + 1, dropped := counts.dropped + 1))
    else b.(live := b.live + [frame], counts := counts)
  }

  function DiscardStartup(b: Buffers): Buffers {
    Buffers([], false, b.live, b.counts.(discarded := b.counts.discarded + |b.startup|,
                                         dropped := b.counts.dropped + |b.startup|))
  }

  function LastOf(frames: seq<Frame>, n: nat): seq<Frame> {
    if |frames| <= n then frames else frames[|frames| - n..]
  }

  // The handoff of a new connection: the startup buffer stays, the live queue is trimmed.
  function HandOff(b: Buffers, first: bool): Buffers {
    var trimmed := |b.live| - |LastOf(b.live, RECONNECT_FRAMES)|;
    var counts := b.counts.(dropped := b.counts.dropped + trimmed);
    Buffers(b.startup, false, LastOf(b.live, RECONNECT_FRAMES),
            if first then counts.(startupTrimmed := counts.startupTrimmed + trimmed)
            else counts.(reconnectTrimmed := counts.reconnectTrimmed + trimmed))
  }

  // Up to n frames, from the startup buffer first.
  function Batch(b: Buffers, n: nat): seq<Frame> {
    var startup := if |b.startup| <= n then b.startup else b.startup[..n];
    var rest := n - |startup|;
    startup + if |b.live| <= rest then b.live else b.live[..rest]
  }

  function AfterBatch(b: Buffers, n: nat): Buffers {
    var startup := if |b.startup| <= n then |b.startup| else n;
    var live := |Batch(b, n)| - startup;
    b.(startup := b.startup[startup..], live := b.live[live..],
       counts := b.counts.(released := b.counts.released + startup))
  }

  class Pipeline {
    var startup: seq<Frame>
    var pending: bool
    var live: seq<Frame>
    var counts: Counters

    constructor ()
      ensures View() == Buffers([], false, [], ZERO)
    {
      startup, pending, live, counts := [], false, [], ZERO;
    }

    function View(): Buffers
      reads this
    {
      Buffers(startup, pending, live, counts)
    }

    method Queue(frame: Frame)
      modifies this
      ensures View() == QueueInput(old(View()), frame)
    {
      counts := counts.(received := counts.received + 1);
      if pending {
        counts := counts.(captured := counts.captured + 1);
        if |startup| >= STARTUP_FRAMES {
          startup := startup[1..];
          counts := counts.(overflow := counts.overflow + 1, dropped := counts.dropped + 1);
        }
        startup := startup + [frame];
        return;
      }
      if |live| >= QUEUE_FRAMES {
        live := live[1..];
        counts := counts.(queueOverflow := counts.queueOverflow + 1, dropped := counts.dropped + 1);
      }
      live := live + [frame];
    }

    method Discard()
      modifies this
      ensures View() == DiscardStartup(old(View()))
    {
      var discarded := |startup|;
      counts := counts.(discarded := counts.discarded + discarded, dropped := counts.dropped + discarded);
      startup := [];
      pending := false;
    }

    method Connect(first: bool)
      modifies this
      ensures View() == HandOff(old(View()), first)
    {
      pending := false;
      ghost var was := live;
      var trimmed := 0;
      while |live| > RECONNECT_FRAMES
        invariant View() == old(View()).(pending := false, live := live)
        invariant trimmed <= |was| && live == was[trimmed..]
        invariant |was| > RECONNECT_FRAMES ==> |live| >= RECONNECT_FRAMES
        invariant |was| <= RECONNECT_FRAMES ==> trimmed == 0
      {
        live := live[1..];
        trimmed := trimmed + 1;
      }
      if first {
        counts := counts.(startupTrimmed := counts.startupTrimmed + trimmed);
      } else {
        counts := counts.(reconnectTrimmed := counts.reconnectTrimmed + trimmed);
      }
      counts := counts.(dropped := counts.dropped + trimmed);
    }

    // What the sender takes in one turn.
    method TakeBatch() returns (frames: seq<Frame>)
      modifies this
      ensures frames == Batch(old(View()), BATCH_FRAMES) && View() == AfterBatch(old(View()), BATCH_FRAMES)
    {
      hide Batch, AfterBatch;
      frames := [];
      ghost var was := View();
      NoneTaken(was);
      while |frames| < BATCH_FRAMES && (startup != [] || live != [])
        invariant |frames| <= BATCH_FRAMES
        invariant View() == AfterBatch(was, |frames|) && frames == Batch(was, |frames|)
        decreases BATCH_FRAMES - |frames|
      {
        OneMore(was, |frames|);
        if startup != [] {
          counts := counts.(released := counts.released + 1);
          frames := frames + [startup[0]];
          startup := startup[1..];
        } else {
          frames := frames + [live[0]];
          live := live[1..];
        }
      }
      if |frames| < BATCH_FRAMES {
        NoMore(was, |frames|);
      }
    }
  }

  lemma NoneTaken(b: Buffers)
    ensures Batch(b, 0) == [] && AfterBatch(b, 0) == b
  {
    assert b.startup[0..] == b.startup && b.live[0..] == b.live;
  }

  lemma OneMore(b: Buffers, n: nat)
    requires |Batch(b, n)| == n
    ensures var after := AfterBatch(b, n);
      && (after.startup != [] ==>
            && Batch(b, n + 1) == Batch(b, n) + [after.startup[0]]
            && AfterBatch(b, n + 1) == after.(startup := after.startup[1..],
                                              counts := after.counts.(released := after.counts.released + 1)))
      && (after.startup == [] && after.live != [] ==>
            && Batch(b, n + 1) == Batch(b, n) + [after.live[0]]
            && AfterBatch(b, n + 1) == after.(live := after.live[1..]))
  {
    if |b.startup| > n {
      assert b.startup[..n + 1] == b.startup[..n] + [b.startup[n]];
    } else if |b.live| > n - |b.startup| {
      var k := n - |b.startup|;
      assert b.live[..k + 1] == b.live[..k] + [b.live[k]];
      assert b.startup + (b.live[..k] + [b.live[k]]) == b.startup + b.live[..k] + [b.live[k]];
    }
  }

  lemma NoMore(b: Buffers, n: nat)
    requires n < BATCH_FRAMES && |Batch(b, n)| == n && AfterBatch(b, n).startup == [] && AfterBatch(b, n).live == []
    ensures Batch(b, BATCH_FRAMES) == Batch(b, n) && AfterBatch(b, BATCH_FRAMES) == AfterBatch(b, n)
  {}

  // ----- The pipeline as a state machine -----

  // `hand` are the frames in the resampler or in a send; `sent` the submitted ones in order;
  // `cleared` and `lost` count frames that no counter of the source mentions.
  datatype State = State(
    buffers: Buffers,
    sender: bool,
    sending: bool,
    hand: seq<Frame>,
    sent: seq<Frame>,
    history: seq<Frame>,
    cleared: nat,
    lost: nat)

  const NEW_CALL := State(Buffers([], true, [], ZERO), false, false, [], [], [], 0, 0)

  datatype Step =
    | Capture(pcm: seq<int>)
    | Connect(first: bool)
    | Take(audible: bool)
    | Idle
    | Sent
    | SendFails
    | Cancel
    | Discard
    | Close

  function Do(s: State, step: Step): State {
    match step
    case Capture(pcm) =>
      var frame := Frame(|s.history|, pcm);
      s.(buffers := QueueInput(s.buffers, frame), history := s.history + [frame])
    // A connection begins with a new sender; the one before has been cancelled.
    case Connect(first) =>
      if s.sender then s else s.(buffers := HandOff(s.buffers, first), sender := true, sending := false)
    // The resampler may hold everything back; then nothing is sent yet.
    case Take(audible) =>
      if !s.sender || s.sending || (s.buffers.startup == [] && s.buffers.live == []) then s
      else s.(buffers := AfterBatch(s.buffers, BATCH_FRAMES), hand := s.hand + Batch(s.buffers, BATCH_FRAMES),
              sending := audible)
    case Idle =>
      if !s.sender || s.sending || s.buffers.startup != [] || s.buffers.live != [] then s else s.(sending := true)
    case Sent =>
      if !s.sending then s
      else s.(sending := false, sent := s.sent + s.hand, hand := [],
              buffers := s.buffers.(counts := s.buffers.counts.(submitted := s.buffers.counts.submitted + |s.hand|)))
    case SendFails =>
      if !s.sending then s
      else
        var counts := s.buffers.counts;
        s.(sender := false, sending := false, hand := [],
           buffers := s.buffers.(counts := counts.(sendFailure := counts.sendFailure + |s.hand|,
                                                   dropped := counts.dropped + |s.hand|)))
    case Cancel => s.(sender := false, sending := false, hand := [], lost := s.lost + |s.hand|)
    case Discard => s.(buffers := DiscardStartup(s.buffers))
    case Close =>
      s.(buffers := DiscardStartup(s.buffers).(live := []), cleared := s.cleared + |s.buffers.live|)
  }

  function Run(s: State, steps: seq<Step>): State {
    if steps == [] then s else Do(Run(s, steps[..|steps| - 1]), steps[|steps| - 1])
  }

  // ----- Invariant -----

  ghost predicate Increasing(frames: seq<Frame>) {
    forall i, j :: 0 <= i < j < |frames| ==> frames[i].index < frames[j].index
  }

  ghost predicate FromHistory(frames: seq<Frame>, history: seq<Frame>) {
    forall i :: 0 <= i < |frames| ==> frames[i].index < |history| && history[frames[i].index] == frames[i]
  }

  // Everything sent, held and buffered is, in this order, a subsequence of what was captured.
  function Line(s: State): seq<Frame> {
    s.sent + s.hand + s.buffers.startup + s.buffers.live
  }

  ghost predicate Balanced(s: State) {
    var c := s.buffers.counts;
    && c.received == |s.history| && c.submitted == |s.sent|
    && c.received == c.submitted + c.dropped + |s.buffers.startup| + |s.buffers.live| + |s.hand| + s.cleared + s.lost
    && c.dropped == c.overflow + c.discarded + c.startupTrimmed + c.reconnectTrimmed + c.queueOverflow + c.sendFailure
    && c.captured == c.released + c.overflow + c.discarded + |s.buffers.startup|
  }

  ghost predicate Inv(s: State) {
    && Balanced(s)
    && Increasing(Line(s)) && FromHistory(Line(s), s.history)
    && |s.buffers.startup| <= STARTUP_FRAMES && |s.buffers.live| <= QUEUE_FRAMES
    && (s.buffers.pending ==> s.buffers.live == [] && !s.sender)
    && (s.sending ==> s.sender)
  }

  // Leaving frames out of a line keeps its order; so does a newer frame at its end.
  lemma Without(a: seq<Frame>, gone: seq<Frame>, b: seq<Frame>, history: seq<Frame>)
    requires Increasing(a + gone + b) && FromHistory(a + gone + b, history)
    ensures Increasing(a + b) && FromHistory(a + b, history)
  {
    var all := a + gone + b;
    forall i | 0 <= i < |a + b| ensures (a + b)[i] == all[if i < |a| then i else i + |gone|] {}
  }

  lemma WithNext(line: seq<Frame>, history: seq<Frame>, frame: Frame)
    requires Increasing(line) && FromHistory(line, history) && frame.index == |history|
    ensures Increasing(line + [frame]) && FromHistory(line + [frame], history + [frame])
  {}

  lemma QueueLine(b: Buffers, frame: Frame, front: seq<Frame>, history: seq<Frame>)
    requires Increasing(front + b.startup + b.live) && FromHistory(front + b.startup + b.live, history)
      && frame.index == |history|
    requires b.pending ==> b.live == []
    ensures var after := QueueInput(b, frame);
      Increasing(front + after.startup + after.live)
        && FromHistory(front + after.startup + after.live, history + [frame])
  {
    hide Increasing, FromHistory;
    var line := front + b.startup + b.live;
    var after := QueueInput(b, frame);
    WithNext(line, history, frame);
    if b.pending {
      assert line == front + b.startup + [];
      assert line + [frame] == front + (b.startup + [frame]) + [];
      if |b.startup| >= STARTUP_FRAMES {
        assert line + [frame] == front + b.startup[..1] + (b.startup[1..] + [frame]);
        Without(front, b.startup[..1], b.startup[1..] + [frame], history + [frame]);
        assert front + after.startup + after.live == front + (b.startup[1..] + [frame]);
      } else {
        assert front + after.startup + after.live == line + [frame];
      }
    } else if |b.live| >= QUEUE_FRAMES {
      assert line + [frame] == (front + b.startup) + b.live[..1] + (b.live[1..] + [frame]);
      Without(front + b.startup, b.live[..1], b.live[1..] + [frame], history + [frame]);
    } else {
      assert line + [frame] == front + after.startup + after.live;
    }
  }

  lemma CaptureKeeps(s: State, pcm: seq<int>)
    requires Inv(s)
    ensures Inv(Do(s, Capture(pcm)))
  {
    hide Increasing, FromHistory;
    QueueLine(s.buffers, Frame(|s.history|, pcm), s.sent + s.hand, s.history);
  }

  lemma ConnectKeeps(s: State, first: bool)
    requires Inv(s)
    ensures Inv(Do(s, Connect(first)))
  {
    hide Increasing, FromHistory;
    var live, kept := s.buffers.live, LastOf(s.buffers.live, RECONNECT_FRAMES);
    var gone := live[..|live| - |kept|];
    assert live == gone + kept;
    assert Line(s) == (s.sent + s.hand + s.buffers.startup) + gone + kept;
    Without(s.sent + s.hand + s.buffers.startup, gone, kept, s.history);
  }

  lemma BatchSplits(b: Buffers, n: nat)
    ensures var after := AfterBatch(b, n); Batch(b, n) + after.startup + after.live == b.startup + b.live
    ensures |Batch(b, n)| + |AfterBatch(b, n).startup| + |AfterBatch(b, n).live| == |b.startup| + |b.live|
    ensures |AfterBatch(b, n).startup| <= |b.startup| && |AfterBatch(b, n).live| <= |b.live|
  {
    if |b.startup| > n {
      var taken, rest := b.startup[..n], b.startup[n..];
      assert Batch(b, n) == taken + [] by { assert b.live[..0] == []; }
      assert AfterBatch(b, n).live == b.live by { assert b.live[0..] == b.live; }
      assert taken + [] + rest + b.live == b.startup + b.live by { assert taken + [] + rest == b.startup; }
    } else {
      var k := |Batch(b, n)| - |b.startup|;
      var taken, rest := b.live[..k], b.live[k..];
      assert Batch(b, n) == b.startup + taken by { assert b.live[..|b.live|] == b.live; }
      assert AfterBatch(b, n).startup == [];
      assert b.startup + taken + [] + rest == b.startup + b.live by { assert taken + rest == b.live; }
    }
  }

  lemma TakeKeeps(s: State, audible: bool)
    requires Inv(s)
    ensures Inv(Do(s, Take(audible)))
  {
    hide Increasing, FromHistory, Batch;
    var t := Do(s, Take(audible));
    BatchSplits(s.buffers, BATCH_FRAMES);
    if s.sender && !s.sending && (s.buffers.startup != [] || s.buffers.live != []) {
      assert Line(t) == s.sent + s.hand + (Batch(s.buffers, BATCH_FRAMES) + t.buffers.startup + t.buffers.live);
      assert Line(s) == s.sent + s.hand + (s.buffers.startup + s.buffers.live);
      assert Balanced(t);
      assert Line(t) == Line(s);
    }
  }

  lemma SentKeeps(s: State)
    requires Inv(s)
    ensures Inv(Do(s, Sent))
  {
    hide Increasing, FromHistory;
    assert s.sending ==> Line(Do(s, Sent)) == Line(s);
  }

  lemma HandLost(s: State)
    requires Inv(s)
    ensures Increasing(Line(s.(hand := []))) && FromHistory(Line(s.(hand := [])), s.history)
  {
    hide Increasing, FromHistory;
    assert Line(s) == s.sent + s.hand + (s.buffers.startup + s.buffers.live);
    Without(s.sent, s.hand, s.buffers.startup + s.buffers.live, s.history);
    assert Line(s.(hand := [])) == s.sent + (s.buffers.startup + s.buffers.live);
  }

  lemma DiscardKeeps(s: State)
    requires Inv(s)
    ensures Inv(Do(s, Discard))
  {
    hide Increasing, FromHistory;
    Without(s.sent + s.hand, s.buffers.startup, s.buffers.live, s.history);
    assert Line(Do(s, Discard)) == s.sent + s.hand + s.buffers.live;
  }

  lemma CloseKeeps(s: State)
    requires Inv(s)
    ensures Inv(Do(s, Close))
  {
    hide Increasing, FromHistory;
    assert Line(s) == s.sent + s.hand + (s.buffers.startup + s.buffers.live) + [];
    Without(s.sent + s.hand, s.buffers.startup + s.buffers.live, [], s.history);
    assert Line(Do(s, Close)) == s.sent + s.hand + [];
  }

  lemma StepKeeps(s: State, step: Step)
    requires Inv(s)
    ensures Inv(Do(s, step))
  {
    match step
    case Capture(pcm) => CaptureKeeps(s, pcm);
    case Connect(first) => ConnectKeeps(s, first);
    case Take(audible) => TakeKeeps(s, audible);
    case Sent => SentKeeps(s);
    case Discard => DiscardKeeps(s);
    case Close => CloseKeeps(s);
    case SendFails => FailKeeps(s);
    case Cancel => CancelKeeps(s);
    case Idle =>
  }

  lemma FailKeeps(s: State)
    requires Inv(s)
    ensures Inv(Do(s, SendFails))
  {
    hide Increasing, FromHistory;
    HandLost(s);
  }

  lemma CancelKeeps(s: State)
    requires Inv(s)
    ensures Inv(Do(s, Cancel))
  {
    hide Increasing, FromHistory;
    HandLost(s);
  }

  lemma {:induction false} RunKeeps(s: State, steps: seq<Step>)
    requires Inv(s)
    ensures Inv(Run(s, steps))
  {
    hide Inv, Do;
    if steps != [] {
      RunKeeps(s, steps[..|steps| - 1]);
      StepKeeps(Run(s, steps[..|steps| - 1]), steps[|steps| - 1]);
    }
  }

  // Every captured frame is submitted, dropped for one of six counted reasons, still here, or
  // lost with a cancelled sender or a closed session.
  lemma {:induction false} FramesBalance(steps: seq<Step>)
    ensures var s := Run(NEW_CALL, steps);
      var c := s.buffers.counts;
      && c.received == |s.history| && c.submitted == |s.sent|
      && c.received == c.submitted + c.dropped + |s.buffers.startup| + |s.buffers.live| + |s.hand| + s.cleared + s.lost
      && c.dropped == c.overflow + c.discarded + c.startupTrimmed + c.reconnectTrimmed + c.queueOverflow + c.sendFailure
      && c.captured == c.released + c.overflow + c.discarded + |s.buffers.startup|
      && |s.buffers.startup| <= STARTUP_FRAMES && |s.buffers.live| <= QUEUE_FRAMES
  {
    hide Run, Do, Inv;
    NewCallOk();
    RunKeeps(NEW_CALL, steps);
    InvBalances(Run(NEW_CALL, steps));
  }

  lemma InvBalances(s: State)
    requires Inv(s)
    ensures Balanced(s) && |s.buffers.startup| <= STARTUP_FRAMES && |s.buffers.live| <= QUEUE_FRAMES
  {
    hide Balanced, Increasing, FromHistory;
  }

  lemma NewCallOk()
    ensures Inv(NEW_CALL)
  {
    assert Line(NEW_CALL) == [];
    assert Increasing([]) && FromHistory([], []);
    assert Balanced(NEW_CALL);
  }

  // What is submitted is in the order of capture and unaltered; what is still buffered is newer
  // than all of it.
  lemma SubmittedInOrder(steps: seq<Step>)
    ensures var s := Run(NEW_CALL, steps);
      && Increasing(s.sent) && FromHistory(s.sent, s.history)
      && (forall i, j :: 0 <= i < |s.sent| && 0 <= j < |s.buffers.live| ==> s.sent[i].index < s.buffers.live[j].index)
      && (forall i, j ::
          0 <= i < |s.sent| && 0 <= j < |s.buffers.startup| ==> s.sent[i].index < s.buffers.startup[j].index)
      && (forall i, j ::
          0 <= i < |s.buffers.startup| && 0 <= j < |s.buffers.live| ==>
            s.buffers.startup[i].index < s.buffers.live[j].index)
  {
    hide Run, Balanced;
    NewCallOk();
    RunKeeps(NEW_CALL, steps);
    var s := Run(NEW_CALL, steps);
    var line, k, m := Line(s), |s.sent| + |s.hand|, |s.sent| + |s.hand| + |s.buffers.startup|;
    assert forall i :: 0 <= i < |s.sent| ==> line[i] == s.sent[i];
    assert forall i :: 0 <= i < |s.buffers.startup| ==> line[k + i] == s.buffers.startup[i];
    assert forall i :: 0 <= i < |s.buffers.live| ==> line[m + i] == s.buffers.live[i];
  }
}
