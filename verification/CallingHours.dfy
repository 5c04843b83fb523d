// The calling-hours rule applied to automatic retries.
// Instants are whole seconds; a row's time zone is a fixed offset from UTC.
module CallingHours {
  import opened Wrappers

  const DAY: int := 86400
  const OPENING: int := 8 * 3600
  const CLOSING: int := 22 * 3600

  // Seconds since local midnight.
  function LocalClock(instant: int, offset: int): int {
    (instant + offset) % DAY
  }

  predicate WithinHours(instant: int, offset: int) {
    OPENING <= LocalClock(instant, offset) < CLOSING
  }

  datatype Timing = Timing(
    now: int,
    offset: int,
    deadline: int,
    attempts: nat,
    schema2: bool,
    recipientTime: bool,
    ownerTime: bool)
  {
    predicate Explicit() {
      recipientTime || ownerTime
    }

    function Minimum(): int {
      if Explicit() || schema2 then 0 else 120
    }

    // The time that is used when the caller names none.
    function Requested(requested: Option<int>): int {
      match requested
      case Some(t) => t
      case None => now + if attempts == 1 then 600 else 1800
    }
  }

  // The specification: the first instant at or after `requested` inside calling hours.
  function NextAllowed(requested: int, offset: int): (t: int)
    ensures requested <= t
    ensures WithinHours(t, offset)
    ensures forall u :: requested <= u < t ==> !WithinHours(u, offset)
  {
    var clock := LocalClock(requested, offset);
    if clock < OPENING then
      DayPart(requested, offset, OPENING - clock);
      requested + OPENING - clock
    else if clock >= CLOSING then
      DayPart(requested, offset, DAY + OPENING - clock);
      requested + DAY + OPENING - clock
    else
      requested
  }

  // Up to one day after `start`, the local clock runs on and wraps at most once.
  lemma DayPart(start: int, offset: int, span: int)
    requires 0 <= span <= DAY
    ensures forall u :: start <= u <= start + span ==>
      LocalClock(u, offset) ==
      var clock := LocalClock(start, offset) + (u - start);
      if clock < DAY then clock else clock - DAY
  {
    forall u | start <= u <= start + span
      ensures LocalClock(u, offset) ==
        var clock := LocalClock(start, offset) + (u - start);
        if clock < DAY then clock else clock - DAY
    {
      var day, clock := (start + offset) / DAY, LocalClock(start, offset);
      assert start + offset == day * DAY + clock;
      var later := clock + (u - start);
      assert u + offset == day * DAY + later;
      if later < DAY {
        assert (u + offset) % DAY == later;
      } else if later < 2 * DAY {
        assert u + offset == (day + 1) * DAY + (later - DAY);
        assert (u + offset) % DAY == later - DAY;
      }
    }
  }

  // The retry instant that the row accepts, or the refusal.
  function RetryAt(timing: Timing, requested: Option<int>): (r: Result<int>) {
    var asked := timing.Requested(requested);
    if asked < timing.now + timing.Minimum() then Err(Invalid)
    else
      var t := if timing.Explicit() then asked else NextAllowed(asked, timing.offset);
      if t >= timing.deadline then Err(Invalid) else Ok(t)
  }

  method RetryTime(timing: Timing, wanted: Option<int>) returns (r: Result<int>)
    ensures r == RetryAt(timing, wanted)
  {
    var requested;
    if wanted.None? {
      requested := timing.now + if timing.attempts == 1 then 600 else 1800;
    } else {
      requested := wanted.value;
    }
    var minimum := if timing.ownerTime || timing.recipientTime || timing.schema2 then 0 else 120;
    if requested < timing.now + minimum {
      return Err(Invalid);
    }
    if !timing.recipientTime && !timing.ownerTime {
      var clock := LocalClock(requested, timing.offset);
      if clock < OPENING {
        requested := requested - clock + OPENING;
      } else if clock >= CLOSING {
        requested := requested - clock + DAY + OPENING;
      }
    }
    if requested >= timing.deadline {
      return Err(Invalid);
    }
    return Ok(requested);
  }

  // What the source asks for when the caller names no time, and how long it waits at least: ten
  // minutes after a first call and half an hour later on, not before two minutes from now; but an
  // explicit time, or one of a row with its own delays, is taken as early as now.
  lemma AskedIs(timing: Timing, requested: Option<int>)
    ensures timing.Requested(requested) ==
      if requested.Some? then requested.value else if timing.attempts == 1 then timing.now + 600 else timing.now + 1800
    ensures timing.now + timing.Minimum() ==
      if timing.recipientTime || timing.ownerTime || timing.schema2 then timing.now else timing.now + 120
  {}

  // By day: from eight in the morning on, and before ten in the evening.
  predicate ByDay(t: int, offset: int) {
    28800 <= (t + offset) % 86400 < 79200
  }

  // A refusal means exactly one of two things: the request came too early, or calling
  // hours leave no instant for it before the deadline.
  lemma RefusedExactlyWhen(timing: Timing, requested: Option<int>)
    ensures RetryAt(timing, requested).Err? <==>
      var explicit := timing.recipientTime || timing.ownerTime;
      var asked := if requested.Some? then requested.value
                   else if timing.attempts == 1 then timing.now + 600 else timing.now + 1800;
      || asked < (if explicit || timing.schema2 then timing.now else timing.now + 120)
      || (if explicit then timing.deadline <= asked
          else forall u :: asked <= u < timing.deadline ==> !ByDay(u, timing.offset))
  {
    AskedIs(timing, requested);
    var asked := timing.Requested(requested);
    var t := NextAllowed(asked, timing.offset);
    if !timing.Explicit() && t < timing.deadline {
      assert asked <= t < timing.deadline && ByDay(t, timing.offset);
    }
    assert forall u :: ByDay(u, timing.offset) <==> WithinHours(u, timing.offset);
  }

  // An accepted automatic retry is the earliest callable instant, and asking again for
  // the accepted instant changes nothing.
  lemma AcceptedIsEarliestAndStable(timing: Timing, requested: Option<int>)
    requires RetryAt(timing, requested).Ok?
    ensures var t, explicit := RetryAt(timing, requested).value, timing.recipientTime || timing.ownerTime;
      var asked := if requested.Some? then requested.value
                   else if timing.attempts == 1 then timing.now + 600 else timing.now + 1800;
      && asked <= t < timing.deadline
      && (explicit ==> t == asked)
      && (!explicit ==>
            && ByDay(t, timing.offset)
            && (forall u :: asked <= u && ByDay(u, timing.offset) ==> t <= u))
      && RetryAt(timing, Some(t)) == Ok(t)
  {
    AskedIs(timing, requested);
    var t := RetryAt(timing, requested).value;
    var again := NextAllowed(t, timing.offset);
    assert forall u :: ByDay(u, timing.offset) <==> WithinHours(u, timing.offset);
    assert !timing.Explicit() ==> !(t < again);
  }
}
