// What the two kinds of follow-up decision mean: when a missed call is retried at all, and
// what a decision of the model must rest on.
module WorkflowDecisions {
  import opened Wrappers
  import opened CallingHours
  import opened WorkflowRows

  // ----- When a call may start -----

  // Local clocks from eight in the morning on, and before ten in the evening.
  lemma HoursAre(t: int, offset: int)
    ensures WithinHours(t, offset) <==> 28800 <= (t + offset) % 86400 < 79200
  {}

  // `t` is the first instant by day, before the deadline, that is `minutes` after the call has
  // ended, or after now when its end is not known, and not before five seconds from now.
  ghost predicate FirstAfter(row: Row, outcome: CallOutcome, minutes: nat, now: int, t: int) {
    && Late(outcome, minutes, now, t) && ByDay(row, t) && t < row.deadline
    && forall u :: Late(outcome, minutes, now, u) && ByDay(row, u) ==> t <= u
  }

  predicate Late(outcome: CallOutcome, minutes: nat, now: int, t: int) {
    && (outcome.endedAt.Some? ==> outcome.endedAt.value + 60 * minutes <= t)
    && (outcome.endedAt.None? ==> now + 60 * minutes <= t)
    && now + 5 <= t
  }

  predicate ByDay(row: Row, t: int) {
    28800 <= (t + row.offset) % 86400 < 79200
  }

  lemma FirstExactly(row: Row, outcome: CallOutcome, minutes: nat, now: int)
    ensures var t := NextAllowed(DelayedStart(outcome, minutes, now), row.offset);
      && (t < row.deadline <==> exists u :: Late(outcome, minutes, now, u) && ByDay(row, u) && u < row.deadline)
      && (t < row.deadline ==> FirstAfter(row, outcome, minutes, now, t))
  {
    var from := DelayedStart(outcome, minutes, now);
    var t := NextAllowed(from, row.offset);
    assert forall u :: Late(outcome, minutes, now, u) <==> from <= u;
    assert forall u :: ByDay(row, u) <==> WithinHours(u, row.offset);
    assert Late(outcome, minutes, now, t) && ByDay(row, t);
  }

  // ----- The programmed policy -----

  // It retries a call exactly when it was plainly missed, nobody has asked for a callback or
  // cancelled, the budget of the chain is not used up, and the row still has a callable instant.
  ghost predicate Retryable(rows: Rows, key: Key, ordinal: nat, now: int)
    requires key in rows && rows[key].Has(ordinal)
  {
    var row, a := rows[key], rows[key].Nth(ordinal);
    && a.decision.None? && a.outcome.Some? && a.callback.None?
    && PlainlyMissed(a.outcome.value)
    && row.root in rows && rows[row.root].status != Cancelled
    && rows[row.root].used < |rows[row.root].terms.delays|
    && var minutes := rows[row.root].terms.delays[rows[row.root].used];
       exists t :: Late(a.outcome.value, minutes, now, t) && ByDay(row, t) && t < row.deadline
  }

  predicate PlainlyMissed(o: CallOutcome) {
    o.connection == NotConnected && o.reason != OtherReason && !o.uncertain && !o.stillActive
  }

  lemma AutomaticRetryExactly(rows: Rows, key: Key, ordinal: nat, now: int)
    requires key in rows && rows[key].Has(ordinal)
    ensures var r := Routine(rows, key, ordinal, now);
      (r.Ok? && r.value.Some? && r.value.value.charge.AutomaticRetry?) <==> Retryable(rows, key, ordinal, now)
  {
    hide NextAllowed, Late, ByDay, FirstAfter, DelayedStart;
    var row, a := rows[key], rows[key].Nth(ordinal);
    if a.outcome.Some? && row.root in rows && rows[row.root].used < |rows[row.root].terms.delays| {
      FirstExactly(row, a.outcome.value, rows[row.root].terms.delays[rows[row.root].used], now);
      StartsLater(a.outcome.value, rows[row.root].terms.delays[rows[row.root].used], now);
    }
  }

  lemma StartsLater(outcome: CallOutcome, minutes: nat, now: int)
    ensures now <= DelayedStart(outcome, minutes, now)
  {}

  // The retry waits for the first instant by day after the configured delay, the root pays for
  // it, and no other row changes.
  lemma AutomaticRetryMeans(rows: Rows, key: Key, ordinal: nat, now: int)
    requires key in rows && rows[key].Has(ordinal) && Retryable(rows, key, ordinal, now)
    ensures var r, row, root := Routine(rows, key, ordinal, now), rows[key], rows[key].root;
      && r.Ok? && r.value.Some?
      && var after := r.value.value.rows;
        && after.Keys == rows.Keys
        && FirstAfter(row, row.Nth(ordinal).outcome.value, rows[root].terms.delays[rows[root].used], now,
                      after[key].runAt)
        && after[key].status == Holding && after[key].automaticHours && after[key].revision == row.revision + 1
        && after[key].Has(ordinal) && after[key].Nth(ordinal).status == Decided
        && after[key].Nth(ordinal).decision == Some(Decision(Retry, DIncomplete, {}, true))
        && after[root].used == rows[root].used + 1
        && (forall k :: k in rows && k != key && k != root ==> after[k] == rows[k])
  {
    hide NextAllowed, Late, ByDay, FirstAfter, DelayedStart;
    AutomaticRetryExactly(rows, key, ordinal, now);
    var row := rows[key];
    FirstExactly(row, row.Nth(ordinal).outcome.value, rows[row.root].terms.delays[rows[row.root].used], now);
  }

  // What each status of a routine verdict tells about the call.
  lemma RoutineStatusMeans(rows: Rows, key: Key, ordinal: nat, now: int)
    requires key in rows && rows[key].Has(ordinal) && rows[key].Nth(ordinal).decision.None?
    requires Routine(rows, key, ordinal, now).Ok? && Routine(rows, key, ordinal, now).value.Some?
    ensures var a, after := rows[key].Nth(ordinal), Routine(rows, key, ordinal, now).value.value.rows[key];
      && a.outcome.Some? && rows[key].root in rows && after.Has(ordinal) && after.Nth(ordinal).decision.Some?
      && after.Nth(ordinal).status == Decided
      && var o, root := a.outcome.value, rows[rows[key].root];
         var missed := o.connection == NotConnected && o.reason != OtherReason;
        && (a.callback.Some? ==>
              && a.callback.value in rows
              && after.status == if rows[a.callback.value].status == Scheduled then Completed else NeedsGuidance)
        && (a.callback.None? ==>
              && (after.status == Cancelled <==> root.status == Cancelled)
              && (after.status == UncertainCall <==> root.status != Cancelled && (o.uncertain || o.stillActive))
              && (after.status == Exhausted <==>
                    root.status != Cancelled && PlainlyMissed(o) && root.used >= |root.terms.delays|)
              && (after.status == Holding || after.status == Expired <==>
                    root.status != Cancelled && PlainlyMissed(o) && root.used < |root.terms.delays|)
              && (after.status == Holding <==> Retryable(rows, key, ordinal, now))
              && (after.status == Completed <==>
                    root.status != Cancelled && !o.uncertain && !o.stillActive && !missed && o.connection == Connected)
              && (after.status == NeedsGuidance <==>
                    root.status != Cancelled && !o.uncertain && !o.stillActive && !missed && o.connection != Connected))
  {
    hide NextAllowed, Late, ByDay, FirstAfter, DelayedStart;
    var row, a := rows[key], rows[key].Nth(ordinal);
    if a.outcome.Some? && row.root in rows && rows[row.root].used < |rows[row.root].terms.delays| {
      FirstExactly(row, a.outcome.value, rows[row.root].terms.delays[rows[row.root].used], now);
      StartsLater(a.outcome.value, rows[row.root].terms.delays[rows[row.root].used], now);
    }
  }

  // A verdict is left to the model exactly when the call was connected, or ended for another
  // reason, without a reminder, a callback or a doubt about it.
  lemma LeftToTheModel(rows: Rows, key: Key, ordinal: nat, now: int)
    requires key in rows && rows[key].Has(ordinal)
    ensures Routine(rows, key, ordinal, now) == Ok(None) <==>
      var a := rows[key].Nth(ordinal);
      && a.decision.None? && a.outcome.Some? && a.callback.None? && !rows[key].terms.reminder
      && !a.outcome.value.uncertain && !a.outcome.value.stillActive
      && (a.outcome.value.connection != NotConnected || a.outcome.value.reason == OtherReason)
  {
    hide NextAllowed, DelayedStart;
  }

  // A decision of the model is accepted only from its own run, in time, and for the row it has
  // seen; and each outcome needs its evidence: completion a connected call and a cited event
  // that is not speech of the agent, refusal the caller's own words, a retry a call that is over.
  lemma DecisionIsGrounded(rows: Rows, key: Key, ordinal: nat, run: string, args: DecisionArgs, now: int, live: bool)
    requires ApplyDecision(rows, key, ordinal, run, args, now, live).Ok?
    ensures key in rows && rows[key].Has(ordinal) && rows[key].Nth(ordinal).outcome.Some?
    ensures var row, a := rows[key], rows[key].Nth(ordinal);
      var o, v := a.outcome.value, ApplyDecision(rows, key, ordinal, run, args, now, live).value;
      && live && a.run == Some(run) && a.status.Deciding? && row.revision == args.expected
      && a.decideBy.Some? && now < a.decideBy.value && now < row.deadline && !row.status.Final()
      && args.evidence <= o.Available()
      && key in v.rows && v.rows[key].revision == row.revision + 1 && v.rows[key].Has(ordinal)
        && v.rows[key].Nth(ordinal).decision.Some?
      && (v.rows[key].status.Completed? ==> o.connection.Connected? && exists e ::
          e in o.Objective() && e in args.evidence)
      && (v.rows[key].status.Declined? ==> exists e :: e in o.FromCaller() && e in args.evidence)
      && (v.rows[key].status.Holding? ==>
            && !o.uncertain && !o.stillActive && v.rows[key].runAt < row.deadline
            && (args.disposition.DDeferred? ==> args.runAt == Some(v.rows[key].runAt) && exists e ::
                e in o.FromCaller() && e in args.evidence))
      && (v.rows[key].status.Completed? || v.rows[key].status.Declined? || v.rows[key].status.Holding?
          || v.rows[key].status.NeedsGuidance? || v.rows[key].status.UncertainCall?)
      && (forall k :: k in rows && k != key && k != row.root ==> k in v.rows && v.rows[k] == rows[k])
  {
    hide NextAllowed, DelayedStart;
    var o := rows[key].Nth(ordinal).outcome.value;
    if o.Objective() * args.evidence != {} {
      var e :| e in o.Objective() * args.evidence;
    }
    if o.FromCaller() * args.evidence != {} {
      var e :| e in o.FromCaller() * args.evidence;
    }
  }

  // ----- Exactly which decisions of the model are accepted -----

  predicate Cites(o: CallOutcome, evidence: set<string>, kinds: set<EvidenceKind>) {
    exists e :: e in o.evidence && e.id in evidence && e.kind in kinds
  }

  // What the outcome must have seen for the decision.
  predicate Founded(o: CallOutcome, args: DecisionArgs) {
    && (forall id :: id in args.evidence ==> exists e :: e in o.evidence && e.id == id)
    && match args.action
       case Close =>
         || (args.disposition == DCompleted && o.connection == Connected
             && Cites(o, args.evidence, {CallerSpeech, VerifiedAction, VerifiedSchedule}))
         || (args.disposition == DDeclined && Cites(o, args.evidence, {CallerSpeech}))
       case AskOwner => args.disposition in {DCompleted, DDeferred, DIncomplete, DUncertain}
       case Retry =>
         && !o.uncertain && !o.stillActive
         && (args.quoteInPurpose.Some? ==> args.quoteInPurpose == Some(true) && args.runAt.Some?)
         && (args.disposition == DIncomplete
             || (args.disposition == DDeferred && args.runAt.Some? && Cites(o, args.evidence, {CallerSpeech})))
  }

  // Named by the recipient, or by the owner in the purpose.
  predicate Explicit(args: DecisionArgs) {
    args.disposition == DDeferred || args.quoteInPurpose.Some?
  }

  // The time of a retry: an explicit one as it is, otherwise the first by day from the asked time
  // on, or after the delay of the policy.
  ghost predicate RetryTimeIs(row: Row, root: Row, o: CallOutcome, args: DecisionArgs, now: int, t: int) {
    if Explicit(args) then args.runAt == Some(t) && now <= t && t < row.deadline
    else
      && root.used < |root.terms.delays|
      && match args.runAt
         case Some(asked) =>
           && now <= asked && asked <= t && ByDay(row, t) && t < row.deadline
           && forall u :: asked <= u && ByDay(row, u) ==> t <= u
         case None => FirstAfter(row, o, root.terms.delays[root.used], now, t)
  }

  // The attempt waits for this very decision: of its own run, in time, on the row it saw.
  predicate Awaited(row: Row, ordinal: nat, run: string, expected: nat, now: int, live: bool)
    requires row.Has(ordinal)
  {
    var a := row.Nth(ordinal);
    && live && now < row.deadline && row.status !in {Completed, Declined, Cancelled, Expired, Exhausted}
    && a.status == Deciding && a.run == Some(run) && a.outcome.Some?
    && a.decideBy.Some? && now < a.decideBy.value
    && row.revision == expected
  }

  lemma AwaitedExactly(row: Row, ordinal: nat, run: string, expected: nat, now: int, live: bool)
    requires row.Has(ordinal)
    ensures var a := row.Nth(ordinal);
      Awaited(row, ordinal, run, expected, now, live) <==>
        && Authorized(row, now, live, a.status.Decided?) && a.decideBy.Some? && now < a.decideBy.value
        && a.run == Some(run) && row.revision == expected && a.status.Deciding? && a.outcome.Some?
  {}

  lemma FoundedExactly(o: CallOutcome, args: DecisionArgs)
    ensures Founded(o, args) <==> args.Supported(o)
  {
    CitesExactly(o, args.evidence);
    assert args.evidence <= o.Available() <==>
      forall id :: id in args.evidence ==> exists e :: e in o.evidence && e.id == id;
  }

  lemma CitesExactly(o: CallOutcome, evidence: set<string>)
    ensures Cites(o, evidence, {CallerSpeech}) <==> o.FromCaller() * evidence != {}
    ensures Cites(o, evidence, {CallerSpeech, VerifiedAction, VerifiedSchedule}) <==> o.Objective() * evidence != {}
  {
    if o.FromCaller() * evidence != {} {
      var id :| id in o.FromCaller() * evidence;
    }
    if o.Objective() * evidence != {} {
      var id :| id in o.Objective() * evidence;
    }
    if Cites(o, evidence, {CallerSpeech}) {
      var e :| e in o.evidence && e.id in evidence && e.kind == CallerSpeech;
      assert e.id in o.FromCaller() * evidence;
    }
    if Cites(o, evidence, {CallerSpeech, VerifiedAction, VerifiedSchedule}) {
      var e :| e in o.evidence && e.id in evidence && e.kind in {CallerSpeech, VerifiedAction, VerifiedSchedule};
      assert e.id in o.Objective() * evidence;
    }
  }

  function AskedTime(root: Row, o: CallOutcome, args: DecisionArgs, now: int): Option<int>
    requires args.Automatic() ==> root.used < |root.terms.delays|
  {
    if args.runAt.None? && args.Automatic() then Some(DelayedStart(o, root.terms.delays[root.used], now))
      else args.runAt
  }

  lemma RetryTimeExactly(row: Row, root: Row, o: CallOutcome, args: DecisionArgs, now: int)
    requires Founded(o, args) && args.action.Retry?
    ensures args.Automatic() <==> !Explicit(args)
    ensures args.Automatic() && root.used >= |root.terms.delays| ==>
      forall t :: !RetryTimeIs(row, root, o, args, now, t)
    ensures !args.Automatic() || root.used < |root.terms.delays| ==> RetryTimeFits(row, root, o, args, now)
  {
    hide NextAllowed, FirstAfter, Late, DelayedStart;
    if args.Automatic() && root.used < |root.terms.delays| {
      AutomaticFits(row, root, o, args, now);
    } else if !args.Automatic() {
      ExplicitFits(row, root, o, args, now);
    }
  }

  // The programmed time is a time of this kind, if there is one, and refused if there is none.
  ghost predicate RetryTimeFits(row: Row, root: Row, o: CallOutcome, args: DecisionArgs, now: int)
    requires args.Automatic() ==> root.used < |root.terms.delays|
  {
    var r := RetryAt(RetryTiming(row, now, args.disposition.DDeferred? && args.evidence != {},
                                 args.quoteInPurpose.Some?), AskedTime(root, o, args, now));
    && (r.Ok? <==> exists t :: RetryTimeIs(row, root, o, args, now, t))
    && (r.Ok? ==> RetryTimeIs(row, root, o, args, now, r.value))
  }

  lemma ExplicitFits(row: Row, root: Row, o: CallOutcome, args: DecisionArgs, now: int)
    requires Founded(o, args) && args.action.Retry? && !args.Automatic()
    ensures RetryTimeFits(row, root, o, args, now)
  {
    hide NextAllowed, FirstAfter, Late, DelayedStart;
    if Cites(o, args.evidence, {CallerSpeech}) {
      assert args.evidence != {};
    }
    if args.runAt.Some? {
      assert RetryTimeIs(row, root, o, args, now, args.runAt.value) <==> now <= args.runAt.value < row.deadline;
    }
  }

  lemma AutomaticFits(row: Row, root: Row, o: CallOutcome, args: DecisionArgs, now: int)
    requires args.Automatic() && args.action.Retry? && root.used < |root.terms.delays|
    ensures RetryTimeFits(row, root, o, args, now)
  {
    hide NextAllowed, Late, ByDay, FirstAfter, DelayedStart;
    if args.runAt.Some? {
      var asked := args.runAt.value;
      var t := NextAllowed(asked, row.offset);
      NextIsFirst(row, asked);
      assert RetryTimeIs(row, root, o, args, now, t) <==> now <= asked && t < row.deadline;
    } else {
      var minutes := root.terms.delays[root.used];
      var t := NextAllowed(DelayedStart(o, minutes, now), row.offset);
      FirstExactly(row, o, minutes, now);
      StartsLater(o, minutes, now);
      FirstIsCallable(row, o, minutes, now);
      assert RetryTimeIs(row, root, o, args, now, t) <==> t < row.deadline;
    }
  }

  lemma NextIsFirst(row: Row, asked: int)
    ensures var t := NextAllowed(asked, row.offset);
      && asked <= t && ByDay(row, t) && forall u :: asked <= u && ByDay(row, u) ==> t <= u
  {
    hide NextAllowed;
    assert forall u :: ByDay(row, u) <==> WithinHours(u, row.offset);
  }

  lemma FirstIsCallable(row: Row, o: CallOutcome, minutes: nat, now: int)
    ensures forall t :: FirstAfter(row, o, minutes, now, t) ==>
      Late(o, minutes, now, t) && ByDay(row, t) && t < row.deadline
  {
    hide Late, ByDay;
  }

  // The model's decision is accepted exactly when the attempt waits for it, the outcome bears it
  // out, and for a retry the budget and the calling hours leave a time.
  lemma ModelDecisionExactly(rows: Rows, key: Key, ordinal: nat, run: string, args: DecisionArgs, now: int, live: bool)
    ensures ApplyDecision(rows, key, ordinal, run, args, now, live).Ok? <==>
      && key in rows && rows[key].Has(ordinal)
      && Awaited(rows[key], ordinal, run, args.expected, now, live)
      && Founded(rows[key].Nth(ordinal).outcome.value, args)
      && (args.action == Retry ==>
            && rows[key].root in rows
            && exists t ::
              RetryTimeIs(rows[key], rows[rows[key].root], rows[key].Nth(ordinal).outcome.value, args, now, t))
  {
    hide RetryAt, RetryTiming, Awaited, Authorized, DecisionArgs.Supported, Founded, RetryTimeIs, RetryTimeFits,
      DelayedStart, DecisionArgs.Automatic, Decide, ChargeRoot;
    if key in rows && rows[key].Has(ordinal) {
      AwaitedExactly(rows[key], ordinal, run, args.expected, now, live);
      Known(rows, key, ordinal, run, args, now, live);
    }
  }

  lemma Known(rows: Rows, key: Key, ordinal: nat, run: string, args: DecisionArgs, now: int, live: bool)
    requires key in rows && rows[key].Has(ordinal)
    ensures var row := rows[key];
      ApplyDecision(rows, key, ordinal, run, args, now, live).Ok? <==>
      && Awaited(row, ordinal, run, args.expected, now, live)
      && Founded(row.Nth(ordinal).outcome.value, args)
      && (args.action == Retry ==>
            && row.root in rows
            && exists t :: RetryTimeIs(row, rows[row.root], row.Nth(ordinal).outcome.value, args, now, t))
  {
    hide RetryAt, RetryTiming, Awaited, Authorized, DecisionArgs.Supported, Founded, RetryTimeIs, DelayedStart, Decide,
      ChargeRoot, DecisionArgs.Automatic, Explicit;
    var row := rows[key];
    AwaitedExactly(row, ordinal, run, args.expected, now, live);
    if row.Nth(ordinal).outcome.Some? {
      var o := row.Nth(ordinal).outcome.value;
      FoundedExactly(o, args);
      if Founded(o, args) && args.action.Retry? && row.root in rows {
        RetryTimeExactly(row, rows[row.root], o, args, now);
      }
    }
  }

  // What an accepted decision does: the attempt is decided, the row closes or waits for the time
  // of the retry, and only an automatic retry is charged.
  lemma ModelDecisionMeans(rows: Rows, key: Key, ordinal: nat, run: string, args: DecisionArgs, now: int, live: bool)
    requires ApplyDecision(rows, key, ordinal, run, args, now, live).Ok?
    ensures key in rows && rows[key].Has(ordinal) && rows[key].Nth(ordinal).outcome.Some?
    ensures var v, row := ApplyDecision(rows, key, ordinal, run, args, now, live).value, rows[key];
      && v.rows.Keys == rows.Keys && v.rows[key].Has(ordinal)
      && v.rows[key].revision == row.revision + 1
      && v.rows[key].Nth(ordinal) == row.Nth(ordinal).(
           status := Decided, decision := Some(Decision(args.action, args.disposition, args.evidence, false)))
      && (args.action == Close ==> v.rows[key].status == if args.disposition == DCompleted then Completed else Declined)
      && (args.action == AskOwner ==>
            v.rows[key].status == if args.disposition == DUncertain then UncertainCall else NeedsGuidance)
      && (args.action != Retry ==> v.charge == NoRetry && v.rows[key].runAt == row.runAt)
      && (args.action == Retry ==>
            && row.root in rows && v.rows[key].status == Holding
            && RetryTimeIs(row, rows[row.root], row.Nth(ordinal).outcome.value, args, now, v.rows[key].runAt)
            && v.rows[key].automaticHours == !Explicit(args)
            && v.charge == (if Explicit(args) then TimedRetry else AutomaticRetry)
            && v.rows[row.root].used == rows[row.root].used + if Explicit(args) then 0 else 1)
      && (forall k :: k in rows && k != key && (k != row.root || args.action != Retry || Explicit(args)) ==>
            v.rows[k] == rows[k])
  {
    hide RetryAt, RetryTiming, Authorized, DecisionArgs.Supported, Founded, RetryTimeIs, DelayedStart,
      DecisionArgs.Automatic, Explicit;
    var row := rows[key];
    var o := row.Nth(ordinal).outcome.value;
    FoundedExactly(o, args);
    if args.action.Retry? {
      RetryTimeExactly(row, rows[row.root], o, args, now);
    }
  }

  // Automatic retries that the model asks for obey the same budget and the same hours.
  lemma ModelRetryObeysPolicy(rows: Rows, key: Key, ordinal: nat, run: string, args: DecisionArgs, now: int, live: bool)
    requires ApplyDecision(rows, key, ordinal, run, args, now, live).Ok? && args.action.Retry? && args.Automatic()
    ensures key in rows && rows[key].Has(ordinal) && rows[key].root in rows
    ensures var v, row, root := ApplyDecision(rows, key, ordinal, run, args, now, live).value, rows[key],
    rows[rows[key].root];
      && v.charge.AutomaticRetry? && root.used < |root.terms.delays| && v.rows[row.root].used == root.used + 1
      && WithinHours(v.rows[key].runAt, row.offset) && v.rows[key].automaticHours && v.rows[key].status.Holding?
      && now <= v.rows[key].runAt
  {
    hide DelayedStart;
  }
}
