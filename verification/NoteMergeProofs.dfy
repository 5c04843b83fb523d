// The merge of notes as the code performs it, and what it promises.
module NoteMergeProofs {
  import opened Wrappers
  import opened Closeouts
  import opened NoteMerge

  // None: the answer of the model has not the required form.
  method Reconcile(rules: Rules, note: string, records: seq<Record>, updates: seq<Update>, selected: Option<Selected>)
    returns (r: Result<Reconciled>)
    ensures selected.None? ==> r == Err(Invalid)
    ensures selected.Some? ==> r == Reconciliation(rules, note, records, updates, selected.value)
  {
    hide Revise, Lines, Piece;
    if selected.None? || |selected.value.revisions| > 32 || !KeepOk(updates, selected.value.keep) {
      return Err(Invalid);
    }
    var revisions := selected.value.revisions;
    var e := Edited(updates, selected.value);
    var i := 0;
    while i < |revisions|
      invariant i <= |revisions|
      invariant ReviseAll(rules, records, updates, Edited(updates, selected.value), revisions[..i]) == Ok(e)
    {
      assert revisions[..i + 1][..i] == revisions[..i];
      var step := ApplyRevision(rules, records, updates, e, revisions[i]);
      if step.Err? {
        FailureStays(rules, records, updates, Edited(updates, selected.value), revisions, i + 1);
        return Err(Invalid);
      }
      e := step.value;
      i := i + 1;
    }
    assert revisions[..i] == revisions;
    var lines, text := Lines(note), "";
    i := 0;
    while i < |lines|
      invariant i <= |lines| && text == Joined(Pieces(lines, e.lines)[..i])
    {
      text := text + Piece(lines, e.lines, i);
      i := i + 1;
      assert Pieces(lines, e.lines)[..i][..i - 1] == Pieces(lines, e.lines)[..i - 1];
    }
    assert Pieces(lines, e.lines)[..i] == Pieces(lines, e.lines);
    return Ok(Reconciled(text, Returned(updates, e.additions), e.applied));
  }

  method ApplyRevision(rules: Rules, records: seq<Record>, updates: seq<Update>, was: Edits, r: Revision)
      returns (next: Result<Edits>)
    ensures next == Revise(rules, records, updates, was, r)
  {
    hide Lines, Replacement;
    if !WellFormed(rules, records, updates, r) || !(Members(r.notes) !! was.touched)
      || !(Members(r.updates) !! was.consumed) {
      return Err(Invalid);
    }
    var e := was.(touched := was.touched + Members(r.notes));
    e := e.(consumed := e.consumed + Members(r.updates));
    var prior, supporting := Prior(records, r.notes), Supporting(updates, r.updates);
    var latest, i := supporting[0].reportedAt, 1;
    while i < |supporting|
      invariant 1 <= i <= |supporting|
      invariant forall j :: 0 <= j < i ==> supporting[j].reportedAt <= latest
      invariant exists j :: 0 <= j < i && supporting[j].reportedAt == latest
    {
      if supporting[i].reportedAt > latest {
        latest := supporting[i].reportedAt;
      }
      i := i + 1;
    }
    assert forall p: Record :: (forall u :: u in supporting ==> u.reportedAt < p.Since()) <==> latest < p.Since();
    if exists p :: p in prior && latest < p.Since() {
      e := e.(additions := e.additions + Members(r.updates));
      return Ok(e);
    }
    var text := rules.clean(r.text);
    if text == "" {
      return Err(Invalid);
    }
    e := e.(lines := e.lines + EditsOf(r.notes, Replacement(rules, supporting, prior, text)));
    e := e.(applied := e.applied + |supporting|);
    return Ok(e);
  }

  lemma {:induction false} FailureStays(rules: Rules, records: seq<Record>, updates: seq<Update>, e: Edits,
                                        revisions: seq<Revision>, i: nat)
    requires i <= |revisions| && ReviseAll(rules, records, updates, e, revisions[..i]).Err?
    ensures ReviseAll(rules, records, updates, e, revisions) == Err(Invalid)
    decreases |revisions|
  {
    hide Revise;
    ErrorsAreInvalid(rules, records, updates, e, revisions);
    if i < |revisions| {
      assert revisions[..|revisions| - 1][..i] == revisions[..i];
      FailureStays(rules, records, updates, e, revisions[..|revisions| - 1], i);
    } else {
      assert revisions[..i] == revisions;
    }
  }

  lemma {:induction false} ErrorsAreInvalid(rules: Rules, records: seq<Record>, updates: seq<Update>, e: Edits,
                                            revisions: seq<Revision>)
    ensures var r := ReviseAll(rules, records, updates, e, revisions); r.Err? ==> r == Err(Invalid)
  {
    hide WellFormed, Stale, Replacement, EditsOf;
    if revisions != [] {
      ErrorsAreInvalid(rules, records, updates, e, revisions[..|revisions| - 1]);
    }
  }

  // ----- Lines and pieces -----

  lemma {:induction false} JoinedFront(first: string, rest: seq<string>)
    ensures Joined([first] + rest) == first + Joined(rest)
  {
    if rest == [] {
      assert [first] + rest == [first];
      assert Joined([first]) == Joined([]) + first;
    } else {
      assert ([first] + rest)[..|rest|] == [first] + rest[..|rest| - 1];
      JoinedFront(first, rest[..|rest| - 1]);
      assert first + (Joined(rest[..|rest| - 1]) + rest[|rest| - 1]) == first + Joined(rest[..|rest| - 1])
        + rest[|rest| - 1];
    }
  }

  lemma JoinedLines(line: Line, rest: seq<Line>)
    ensures Joined(Wholes([line] + rest)) == line.Whole() + Joined(Wholes(rest))
  {
    JoinedFront(line.Whole(), Wholes(rest));
    assert Wholes([line] + rest) == [line.Whole()] + Wholes(rest);
  }

  lemma FirstLine(s: string) returns (line: Line, rest: string)
    requires s != ""
    ensures Lines(s) == [line] + Lines(rest) && line.Whole() + rest == s && |rest| < |s|
  {
    hide BreakAt, Lines;
    var n := BreakAt(s);
    LinesOnce(s);
    if n == |s| {
      line, rest := Line(s, ""), "";
      NoPieces();
      assert [line] + [] == [line];
    } else {
      var width := if s[n] == '\r' && n + 1 < |s| && s[n + 1] == '\n' then 2 else 1;
      line, rest := Line(s[..n], s[n..n + width]), s[n + width..];
      assert line.Whole() == s[..n + width];
    }
  }

  lemma LinesOnce(s: string)
    requires s != ""
    ensures var n := BreakAt(s);
      Lines(s) == if n == |s| then [Line(s, "")] else
        var width := if s[n] == '\r' && n + 1 < |s| && s[n + 1] == '\n' then 2 else 1;
        [Line(s[..n], s[n..n + width])] + Lines(s[n + width..])
  {
    hide BreakAt;
  }

  // Splitting into lines loses nothing.
  lemma {:induction false} LinesRoundTrip(s: string)
    ensures Joined(Wholes(Lines(s))) == s
    decreases |s|
  {
    hide Joined, Wholes, Lines;
    NoPieces();
    if s != "" {
      var line, rest := FirstLine(s);
      LinesRoundTrip(rest);
      JoinedLines(line, Lines(rest));
    }
  }

  lemma NoPieces()
    ensures Joined(Wholes([])) == "" && Lines("") == []
  {}

  // ----- The revisions -----

  // Revisions and kept facts never share a line or a fact.
  ghost predicate Disjoint(selected: Selected) {
    && (forall i, j :: 0 <= i < j < |selected.revisions| ==>
          && Members(selected.revisions[i].notes) !! Members(selected.revisions[j].notes)
          && Members(selected.revisions[i].updates) !! Members(selected.revisions[j].updates))
    && (forall i :: 0 <= i < |selected.revisions| ==> Members(selected.revisions[i].updates) !! Members(selected.keep))
  }

  ghost predicate RevisionOk(rules: Rules, records: seq<Record>, updates: seq<Update>, r: Revision) {
    WellFormed(rules, records, updates, r) && (Stale(records, updates, r) || rules.clean(r.text) != "")
  }

  // What the edits are, in terms of the revisions so far.
  ghost predicate ReferencesOk(keep: seq<string>, revisions: seq<Revision>, touched: set<RecordId>,
                               consumed: set<string>) {
    && (forall id :: id in touched <==> exists r :: r in revisions && id in r.notes)
    && (forall id :: id in consumed <==> id in keep || exists r :: r in revisions && id in r.updates)
  }

  ghost predicate OutcomesOk(records: seq<Record>, updates: seq<Update>, keep: seq<string>, revisions: seq<Revision>,
                             additions: set<string>, lines: map<nat, Option<string>>)
    requires forall r :: r in revisions ==> Known(records, updates, r)
  {
    && (forall id :: id in additions <==> id in keep || exists r ::
        r in revisions && Stale(records, updates, r) && id in r.updates)
    && (forall i :: i in lines <==> exists r :: r in revisions && !Stale(records, updates, r) && i in Indices(r.notes))
  }

  ghost predicate EditsOk(rules: Rules, records: seq<Record>, updates: seq<Update>, keep: seq<string>,
                          revisions: seq<Revision>, e: Edits) {
    && (forall r :: r in revisions ==> RevisionOk(rules, records, updates, r) && Known(records, updates, r))
    && ReferencesOk(keep, revisions, e.touched, e.consumed)
    && OutcomesOk(records, updates, keep, revisions, e.additions, e.lines)
    && e.additions <= e.consumed && |e.additions| + e.applied == |e.consumed|
  }

  lemma {:induction false} ReviseAllOk(rules: Rules, records: seq<Record>, updates: seq<Update>,
                                       selected: Selected, n: nat)
    requires n <= |selected.revisions| && Distinct(selected.keep)
    ensures var r := ReviseAll(rules, records, updates, Edited(updates, selected), selected.revisions[..n]);
      r.Ok? ==> EditsOk(rules, records, updates, selected.keep, selected.revisions[..n], r.value)
  {
    hide Revise, EditsOk;
    var so := selected.revisions[..n];
    if n == 0 {
      NothingYet(rules, records, updates, selected);
    } else {
      assert so[..n - 1] == selected.revisions[..n - 1];
      ReviseAllOk(rules, records, updates, selected, n - 1);
      var before := ReviseAll(rules, records, updates, Edited(updates, selected), so[..n - 1]);
      if before.Ok? && Revise(rules, records, updates, before.value, so[n - 1]).Ok? {
        OneRevision(rules, records, updates, selected.keep, so[..n - 1], before.value, so[n - 1]);
        assert so[..n - 1] + [so[n - 1]] == so;
      }
    }
  }

  lemma MembersCount<T>(s: seq<T>)
    requires Distinct(s)
    ensures |Members(s)| == |s|
  {
    if s != [] {
      var rest := s[..|s| - 1];
      MembersCount(rest);
      assert Members(s) == Members(rest) + {s[|s| - 1]};
    }
  }

  lemma NothingYet(rules: Rules, records: seq<Record>, updates: seq<Update>, selected: Selected)
    requires Distinct(selected.keep)
    ensures EditsOk(rules, records, updates, selected.keep, [], Edited(updates, selected))
  {}

  lemma OneRevision(rules: Rules, records: seq<Record>, updates: seq<Update>, keep: seq<string>, so: seq<Revision>,
                    e: Edits, r: Revision)
    requires EditsOk(rules, records, updates, keep, so, e)
    requires Revise(rules, records, updates, e, r).Ok?
    ensures EditsOk(rules, records, updates, keep, so + [r], Revise(rules, records, updates, e, r).value)
  {
    hide WellFormed, Stale, Replacement, ReferencesOk, OutcomesOk, Known, EditsOf, RevisionOk;
    var next := Revise(rules, records, updates, e, r).value;
    FormedUpdates(rules, records, updates, r);
    assert RevisionOk(rules, records, updates, r) by { RevisedOk(rules, records, updates, e, r); }
    MembersCount(r.updates);
    assert forall q :: q in so + [r] <==> q in so || q == r;
    MoreReferences(keep, so, e.touched, e.consumed, r);
    if Stale(records, updates, r) {
      StaleOutcome(records, updates, keep, so, e.additions, e.lines, r);
      assert |e.additions + Members(r.updates)| == |e.additions| + |r.updates|;
    } else {
      AppliedOutcome(records, updates, keep, so, e.additions, e.lines, r,
                     Replacement(rules, Supporting(updates, r.updates), Prior(records, r.notes), rules.clean(r.text)));
    }
    assert |e.consumed + Members(r.updates)| == |e.consumed| + |r.updates|;
  }

  lemma RevisedOk(rules: Rules, records: seq<Record>, updates: seq<Update>, e: Edits, r: Revision)
    requires Revise(rules, records, updates, e, r).Ok?
    ensures RevisionOk(rules, records, updates, r)
  {
    hide Replacement, EditsOf;
  }

  lemma MoreReferences(keep: seq<string>, so: seq<Revision>, touched: set<RecordId>, consumed: set<string>, r: Revision)
    requires ReferencesOk(keep, so, touched, consumed)
    ensures ReferencesOk(keep, so + [r], touched + Members(r.notes), consumed + Members(r.updates))
  {
    assert forall q :: q in so + [r] <==> q in so || q == r;
  }

  lemma StaleOutcome(records: seq<Record>, updates: seq<Update>, keep: seq<string>, so: seq<Revision>,
                     additions: set<string>, lines: map<nat, Option<string>>, r: Revision)
    requires forall q :: q in so ==> Known(records, updates, q)
    requires Known(records, updates, r) && Stale(records, updates, r)
    requires OutcomesOk(records, updates, keep, so, additions, lines)
    ensures forall q :: q in so + [r] ==> Known(records, updates, q)
    ensures OutcomesOk(records, updates, keep, so + [r], additions + Members(r.updates), lines)
  {
    hide Stale, Known;
    assert forall q :: q in so + [r] <==> q in so || q == r;
  }

  lemma AppliedOutcome(records: seq<Record>, updates: seq<Update>, keep: seq<string>, so: seq<Revision>,
                       additions: set<string>, lines: map<nat, Option<string>>, r: Revision, replacement: string)
    requires forall q :: q in so ==> Known(records, updates, q)
    requires Known(records, updates, r) && !Stale(records, updates, r) && r.notes != []
    requires OutcomesOk(records, updates, keep, so, additions, lines)
    ensures forall q :: q in so + [r] ==> Known(records, updates, q)
    ensures OutcomesOk(records, updates, keep, so + [r], additions, lines + EditsOf(r.notes, replacement))
  {
    hide Stale, Known;
    assert forall q :: q in so + [r] <==> q in so || q == r;
  }

  lemma FormedUpdates(rules: Rules, records: seq<Record>, updates: seq<Update>, r: Revision)
    requires WellFormed(rules, records, updates, r)
    ensures Distinct(r.updates) && Known(records, updates, r) && r.notes != []
  {}

  // ----- What a merge promises -----

  // A merge is accepted exactly when its references are valid and never overlap.
  ghost predicate Acceptable(rules: Rules, records: seq<Record>, updates: seq<Update>, selected: Selected) {
    && |selected.revisions| <= 32 && KeepOk(updates, selected.keep)
    && (forall r :: r in selected.revisions ==> RevisionOk(rules, records, updates, r))
    && Disjoint(selected)
  }

  lemma AcceptedExactly(rules: Rules, note: string, records: seq<Record>, updates: seq<Update>, selected: Selected)
    ensures Reconciliation(rules, note, records, updates, selected).Ok? <==>
      Acceptable(rules, records, updates, selected)
  {
    hide Disjoint, RevisionOk, ReviseAll, Joined, Lines;
    if |selected.revisions| <= 32 && KeepOk(updates, selected.keep) {
      PrefixAccepted(rules, records, updates, selected.keep, selected.revisions);
    }
  }

  lemma {:induction false} PrefixAccepted(rules: Rules, records: seq<Record>, updates: seq<Update>, keep: seq<string>,
                                          so: seq<Revision>)
    requires Distinct(keep)
    ensures ReviseAll(rules, records, updates, Edited(updates, Selected(keep, so)), so).Ok? <==>
       (Disjoint(Selected(keep, so)) && forall r :: r in so ==> RevisionOk(rules, records, updates, r))
  {
    hide RevisionOk, Revise, ReferencesOk, OutcomesOk, Disjoint;
    if so == [] {
      EmptyDisjoint(keep);
    } else {
      var last, front := so[|so| - 1], so[..|so| - 1];
      PrefixAccepted(rules, records, updates, keep, front);
      ReviseAllOk(rules, records, updates, Selected(keep, so), |so| - 1);
      var before := ReviseAll(rules, records, updates, Edited(updates, Selected(keep, so)), front);
      assert so == front + [last];
      assert forall r :: r in so <==> r in front || r == last;
      if before.Ok? {
        DisjointStep(keep, front, last, before.value.touched, before.value.consumed);
        RevisedExactly(rules, records, updates, before.value, last);
      } else {
        FrontDisjoint(keep, front, last);
      }
    }
  }

  lemma EmptyDisjoint(keep: seq<string>)
    ensures Disjoint(Selected(keep, []))
  {}

  lemma FrontDisjoint(keep: seq<string>, front: seq<Revision>, last: Revision)
    ensures Disjoint(Selected(keep, front + [last])) ==> Disjoint(Selected(keep, front))
  {
    assert forall i :: 0 <= i < |front| ==> (front + [last])[i] == front[i];
  }

  lemma DisjointStep(keep: seq<string>, front: seq<Revision>, last: Revision, touched: set<RecordId>,
                     consumed: set<string>)
    requires ReferencesOk(keep, front, touched, consumed)
    ensures Disjoint(Selected(keep, front + [last])) <==>
      Disjoint(Selected(keep, front)) && Members(last.notes) !! touched && Members(last.updates) !! consumed
  {
    var all := front + [last];
    if Disjoint(Selected(keep, front)) && Members(last.notes) !! touched && Members(last.updates) !! consumed {
      forall i | 0 <= i < |front| ensures Members(front[i].notes) !! Members(last.notes)
        && Members(front[i].updates) !! Members(last.updates) {
        assert front[i] in front;
      }
    }
    if Disjoint(Selected(keep, all)) {
      FrontDisjoint(keep, front, last);
      assert all[|front|] == last;
      forall id | id in touched ensures id !in last.notes {
        var r :| r in front && id in r.notes;
        var i :| 0 <= i < |front| && front[i] == r;
        assert all[i] == r && id in Members(all[i].notes);
      }
      forall id | id in consumed ensures id !in last.updates {
        if id !in keep {
          var r :| r in front && id in r.updates;
          var i :| 0 <= i < |front| && front[i] == r;
          assert all[i] == r && id in Members(all[i].updates);
        } else {
          assert id in Members(keep);
        }
      }
    }
  }

  lemma RevisedExactly(rules: Rules, records: seq<Record>, updates: seq<Update>, e: Edits, r: Revision)
    ensures Revise(rules, records, updates, e, r).Ok? <==>
      RevisionOk(rules, records, updates, r) && Members(r.notes) !! e.touched && Members(r.updates) !! e.consumed
  {
    hide Replacement, EditsOf;
  }

  // No fact is used twice, and none appears from nowhere: what is returned for appending and
  // what was applied are together at most what was given.
  lemma NothingUsedTwice(rules: Rules, note: string, records: seq<Record>, updates: seq<Update>, selected: Selected)
    requires Reconciliation(rules, note, records, updates, selected).Ok?
    ensures var r := Reconciliation(rules, note, records, updates, selected).value;
      && |r.additions| + r.applied <= |updates|
      && (forall u :: u in r.additions <==>
          u in updates && (u.id in selected.keep || GivenBack(records, updates, selected, u.id)))
  {
    hide ReviseAll, Joined, Lines, RevisionOk, Known, Stale, ReferencesOk;
    var revisions := selected.revisions;
    ReviseAllOk(rules, records, updates, selected, |revisions|);
    assert revisions[..|revisions|] == revisions;
    var e := AllEdits(rules, records, updates, selected).value;
    AllKnown(rules, records, updates, selected, e);
    assert |e.consumed - e.additions| == |e.consumed| - |e.additions|;
    ReturnedCount(updates, e.additions, e.consumed - e.additions);
  }

  // A stale revision rests on this fact.
  ghost predicate GivenBack(records: seq<Record>, updates: seq<Update>, selected: Selected, id: string) {
    exists v :: v in selected.revisions && Known(records, updates, v) && Stale(records, updates, v) && id in v.updates
  }

  lemma AllKnown(rules: Rules, records: seq<Record>, updates: seq<Update>, selected: Selected, e: Edits)
    requires KeepOk(updates, selected.keep) && EditsOk(rules, records, updates, selected.keep, selected.revisions, e)
    ensures forall id :: id in e.consumed ==> KnownUpdate(updates, id)
  {
    hide KnownUpdate, KnownRecord, OutcomesOk, RevisionOk;
  }

  lemma {:induction false} ReturnedCount(updates: seq<Update>, additions: set<string>, used: set<string>)
    requires additions !! used && forall id :: id in used ==> KnownUpdate(updates, id)
    ensures |Returned(updates, additions)| + |used| <= |updates|
  {
    if updates == [] {
      assert used == {};
    } else {
      var last, front := updates[|updates| - 1], updates[..|updates| - 1];
      var rest := used - {last.id};
      forall id | id in rest ensures KnownUpdate(front, id) {
        var u :| u in updates && u.id == id;
        assert u in front;
      }
      ReturnedCount(front, additions, rest);
      assert last.id in used ==> used == rest + {last.id};
      assert last.id !in used ==> used == rest;
    }
  }

  // Every line that no accepted, up-to-date revision names is in the result, byte for byte and
  // in its place; without such a revision the notes are exactly as they were.
  lemma {:induction false} UntouchedLinesStay(rules: Rules, note: string, records: seq<Record>, updates: seq<Update>,
                                              selected: Selected)
    requires Reconciliation(rules, note, records, updates, selected).Ok?
    ensures var r, lines := Reconciliation(rules, note, records, updates, selected).value, Lines(note);
      var pieces := Pieces(lines, AllEdits(rules, records, updates, selected).value.lines);
      && r.note == Joined(pieces) && |pieces| == |lines|
      && (forall i :: 0 <= i < |lines| && pieces[i] != lines[i].Whole() ==>
            exists v :: v in selected.revisions && Known(records, updates, v) && !Stale(records, updates, v)
              && i in Indices(v.notes))
      && ((forall v :: v in selected.revisions ==> Known(records, updates, v) && Stale(records, updates, v)) ==>
          r.note == note)
  {
    hide ReviseAll, Joined, Lines, RevisionOk, Known, Stale, ReferencesOk;
    var revisions := selected.revisions;
    ReviseAllOk(rules, records, updates, selected, |revisions|);
    assert revisions[..|revisions|] == revisions;
    var e, lines := AllEdits(rules, records, updates, selected).value, Lines(note);
    if forall v :: v in revisions ==> Known(records, updates, v) && Stale(records, updates, v) {
      assert Pieces(lines, e.lines) == Wholes(lines);
      LinesRoundTrip(note);
    }
  }

  // ----- Lines are named by one revision -----

  lemma {:induction false} RecordsAreLines(rules: Rules, lines: seq<Line>, savedAt: int, id: RecordId)
    requires KnownRecord(Records(rules, lines, savedAt), id)
    ensures id.index < |lines| && id.text == lines[id.index].text && !Blank(id.text)
  {
    if lines != [] {
      var last := |lines| - 1;
      var front := Records(rules, lines[..last], savedAt);
      var r :| r in Records(rules, lines, savedAt) && r.id == id;
      if r in front {
        RecordsAreLines(rules, lines[..last], savedAt, id);
      }
    }
  }

  // Different names mean different lines.
  ghost predicate NamesLines(revisions: seq<Revision>) {
    forall v, w, a, b :: v in revisions && w in revisions && a in v.notes && b in w.notes && a.index == b.index ==>
      a == b
  }

  ghost predicate Effective(rules: Rules, records: seq<Record>, updates: seq<Update>, v: Revision, e: Edits) {
    && WellFormed(rules, records, updates, v)
    && (Stale(records, updates, v) ==> Indices(v.notes) !! e.lines.Keys && Members(v.updates) <= e.additions)
    && (!Stale(records, updates, v) ==>
          && Members(v.updates) !! e.additions
          && Rewritten(v.notes, e.lines,
                       Replacement(rules, Supporting(updates, v.updates), Prior(records, v.notes),
                                   rules.clean(v.text))))
  }

  // The first of these lines becomes the replacement, the others are removed.
  ghost predicate Rewritten(notes: seq<RecordId>, lines: map<nat, Option<string>>, replacement: string)
    requires notes != []
  {
    forall i :: i in Indices(notes) ==> i in lines && lines[i] == if i == First(notes) then Some(replacement) else None
  }

  // An up-to-date revision rewrites its first line and removes its others; a stale one
  // leaves all of its lines alone and gives its facts back.
  lemma {:induction false} RevisionTakesEffect(rules: Rules, note: string, savedAt: int, updates: seq<Update>,
                                               selected: Selected, v: Revision)
    requires v in selected.revisions
    requires Reconciliation(rules, note, Records(rules, Lines(note), savedAt), updates, selected).Ok?
    ensures var records := Records(rules, Lines(note), savedAt);
      Effective(rules, records, updates, v, AllEdits(rules, records, updates, selected).value)
  {
    hide Lines, Records, Effective, Disjoint, ReviseAll, RevisionOk, Joined;
    var lines, records := Lines(note), Records(rules, Lines(note), savedAt);
    AcceptedExactly(rules, note, records, updates, selected);
    forall r, a | r in selected.revisions && a in r.notes ensures KnownRecord(records, a) {
      OkIsKnown(rules, records, updates, r);
    }
    assert NamesLines(selected.revisions) by {
      forall r, a | r in selected.revisions && a in r.notes ensures a.index < |lines| && a.text == lines[a.index].text {
        RecordsAreLines(rules, lines, savedAt, a);
      }
    }
    assert selected.revisions[..|selected.revisions|] == selected.revisions;
    Effects(rules, records, updates, selected, |selected.revisions|, v);
  }

  lemma OkIsKnown(rules: Rules, records: seq<Record>, updates: seq<Update>, r: Revision)
    requires RevisionOk(rules, records, updates, r)
    ensures Known(records, updates, r) && (forall a :: a in r.notes ==> KnownRecord(records, a))
  {}

  lemma {:induction false} Effects(rules: Rules, records: seq<Record>, updates: seq<Update>, selected: Selected, n: nat,
                                   v: Revision)
    requires n <= |selected.revisions| && v in selected.revisions[..n]
    requires NamesLines(selected.revisions) && Distinct(selected.keep)
    requires ReviseAll(rules, records, updates, Edited(updates, selected), selected.revisions[..n]).Ok?
    ensures Effective(rules, records, updates, v,
                      ReviseAll(rules, records, updates, Edited(updates, selected), selected.revisions[..n]).value)
  {
    hide Effective, EditsOk, Revise, NamesLines;
    var so := selected.revisions[..n];
    var last := so[n - 1];
    assert so[..n - 1] == selected.revisions[..n - 1];
    assert so == so[..n - 1] + [last];
    var before := ReviseAll(rules, records, updates, Edited(updates, selected), so[..n - 1]).value;
    ReviseAllOk(rules, records, updates, selected, n - 1);
    assert NamesLines(so) by { FewerNames(selected.revisions, n); }
    if v in so[..n - 1] {
      Effects(rules, records, updates, selected, n - 1, v);
      EffectStays(rules, records, updates, selected.keep, so[..n - 1], before, v, last);
    } else {
      EffectComes(rules, records, updates, selected.keep, so[..n - 1], before, last);
    }
  }

  lemma FewerNames(revisions: seq<Revision>, n: nat)
    requires n <= |revisions| && NamesLines(revisions)
    ensures NamesLines(revisions[..n])
  {
    assert forall v :: v in revisions[..n] ==> v in revisions;
  }

  lemma EffectStays(rules: Rules, records: seq<Record>, updates: seq<Update>, keep: seq<string>, so: seq<Revision>,
                    e: Edits, v: Revision, last: Revision)
    requires EditsOk(rules, records, updates, keep, so, e) && v in so && Effective(rules, records, updates, v, e)
    requires NamesLines(so + [last]) && Revise(rules, records, updates, e, last).Ok?
    ensures Effective(rules, records, updates, v, Revise(rules, records, updates, e, last).value)
  {
    hide Effective, OutcomesOk, RevisionOk, Revise, NamesLines;
    RevisedExactly(rules, records, updates, e, last);
    assert Members(v.notes) <= e.touched && Members(v.updates) <= e.consumed;
    assert v in so + [last] && last in so + [last] by { assert (so + [last])[|so|] == last; }
    IndicesApart(so + [last], v, last);
    Unaffected(rules, records, updates, e, v, last);
  }

  lemma IndicesApart(revisions: seq<Revision>, v: Revision, w: Revision)
    requires NamesLines(revisions) && v in revisions && w in revisions && Members(v.notes) !! Members(w.notes)
    ensures Indices(v.notes) !! Indices(w.notes)
  {
    forall i | i in Indices(v.notes) ensures i !in Indices(w.notes) {
      var a :| a in v.notes && a.index == i;
      assert a in Members(v.notes);
    }
  }

  lemma Unaffected(rules: Rules, records: seq<Record>, updates: seq<Update>, e: Edits, v: Revision, last: Revision)
    requires Effective(rules, records, updates, v, e) && Revise(rules, records, updates, e, last).Ok?
    requires Indices(v.notes) !! Indices(last.notes) && Members(v.updates) !! Members(last.updates)
    ensures Effective(rules, records, updates, v, Revise(rules, records, updates, e, last).value)
  {
    hide WellFormed, Stale, Replacement, Indices;
    FormedUpdates(rules, records, updates, v);
  }

  lemma EffectComes(rules: Rules, records: seq<Record>, updates: seq<Update>, keep: seq<string>, so: seq<Revision>,
                    e: Edits, v: Revision)
    requires EditsOk(rules, records, updates, keep, so, e)
    requires NamesLines(so + [v]) && Revise(rules, records, updates, e, v).Ok?
    ensures Effective(rules, records, updates, v, Revise(rules, records, updates, e, v).value)
  {
    hide Stale, RevisionOk, Known, Revise, NamesLines, Effective, Indices;
    RevisedExactly(rules, records, updates, e, v);
    assert v in so + [v] by { assert (so + [v])[|so|] == v; }
    forall i | i in e.lines ensures i !in Indices(v.notes) {
      var r :| r in so && i in Indices(r.notes);
      assert r in so + [v] && Members(r.notes) <= e.touched;
      IndicesApart(so + [v], r, v);
    }
    Affected(rules, records, updates, e, v);
  }

  lemma Affected(rules: Rules, records: seq<Record>, updates: seq<Update>, e: Edits, v: Revision)
    requires Revise(rules, records, updates, e, v).Ok?
    requires Indices(v.notes) !! e.lines.Keys && Members(v.updates) !! e.additions
    ensures Effective(rules, records, updates, v, Revise(rules, records, updates, e, v).value)
  {
    hide WellFormed, Stale, Replacement, Indices;
    FormedUpdates(rules, records, updates, v);
  }

  // ----- Provenance -----

  // Every annotation of a rewritten line, and one for every supporting fact, is in the new line.
  lemma ProvenanceIsKept(rules: Rules, supporting: seq<Update>, prior: seq<Record>, text: string)
    ensures forall u :: u in supporting ==> Quotes(Replacement(rules, supporting, prior, text),
                                                   rules.mark(u.reportedAt))
    ensures forall p, q ::
      p in prior && q in rules.sources(p.id.text) ==> Quotes(Replacement(rules, supporting, prior, text), q.mark)
  {
    var own, theirs := OwnLabels(rules, NewestFirst(supporting)), PriorLabels(rules, prior);
    var all := own + theirs;
    var rest := " Caller note update: " + WithDues(text, supporting);
    forall mark | mark in all ensures Quotes(Replacement(rules, supporting, prior, text), mark) {
      UniqueKeeps(all);
      SpacedQuotes(Unique(all), mark);
      QuotesInside("- ", Spaced(Unique(all)), rest, mark);
      assert "- " + Spaced(Unique(all)) + rest == Replacement(rules, supporting, prior, text);
    }
    forall u | u in supporting ensures rules.mark(u.reportedAt) in all {
      SortedKeeps(supporting);
      var i :| 0 <= i < |NewestFirst(supporting)| && NewestFirst(supporting)[i] == u;
      assert own[i] == rules.mark(u.reportedAt);
    }
    forall p, q | p in prior && q in rules.sources(p.id.text) ensures q.mark in all {
      PriorKeeps(rules, prior, p, q);
    }
  }

  lemma {:induction false} UniqueKeeps(labels: seq<string>)
    ensures forall x :: x in labels <==> x in Unique(labels)
    ensures Distinct(Unique(labels))
  {
    if labels != [] {
      UniqueKeeps(labels[..|labels| - 1]);
      assert forall x :: x in labels <==> x in labels[..|labels| - 1] || x == labels[|labels| - 1];
    }
  }

  lemma {:induction false} SortedKeeps(us: seq<Update>)
    ensures forall u :: u in us <==> u in NewestFirst(us)
    ensures forall i, j ::
      0 <= i < j < |NewestFirst(us)| ==> NewestFirst(us)[i].reportedAt >= NewestFirst(us)[j].reportedAt
  {
    if us != [] {
      SortedKeeps(us[..|us| - 1]);
      assert forall u :: u in us <==> u in us[..|us| - 1] || u == us[|us| - 1];
      InsertKeeps(us[|us| - 1], NewestFirst(us[..|us| - 1]));
    }
  }

  lemma {:induction false} InsertKeeps(u: Update, sorted: seq<Update>)
    requires forall i, j :: 0 <= i < j < |sorted| ==> sorted[i].reportedAt >= sorted[j].reportedAt
    ensures var r := Insert(u, sorted);
      && (forall v :: v in r <==> v in sorted || v == u)
      && (forall i, j :: 0 <= i < j < |r| ==> r[i].reportedAt >= r[j].reportedAt)
  {
    if sorted != [] && u.reportedAt <= sorted[0].reportedAt {
      InsertKeeps(u, sorted[1..]);
      var rest := Insert(u, sorted[1..]);
      assert forall v :: v in sorted <==> v in sorted[1..] || v == sorted[0];
      forall k | 0 <= k < |rest| ensures rest[k].reportedAt <= sorted[0].reportedAt {
        assert rest[k] in rest;
      }
    }
  }

  lemma {:induction false} PriorKeeps(rules: Rules, prior: seq<Record>, p: Record, q: Source)
    requires p in prior && q in rules.sources(p.id.text)
    ensures q.mark in PriorLabels(rules, prior)
  {
    if p == prior[|prior| - 1] {
      var sources := rules.sources(p.id.text);
      var i :| 0 <= i < |sources| && sources[i] == q;
      assert SourceLabels(sources)[i] == q.mark;
    } else {
      PriorKeeps(rules, prior[..|prior| - 1], p, q);
    }
  }

  lemma QuotesInside(before: string, inner: string, after: string, quote: string)
    requires Quotes(inner, quote)
    ensures Quotes(before + inner + after, quote)
  {
    var i :| 0 <= i <= |inner| - |quote| && inner[i..][..|quote|] == quote;
    var all := before + inner + after;
    assert all[|before| + i..][..|quote|] == quote;
  }

  lemma {:induction false} SpacedQuotes(labels: seq<string>, x: string)
    requires x in labels
    ensures Quotes(Spaced(labels), x)
  {
    var last, front := labels[|labels| - 1], labels[..|labels| - 1];
    if |labels| == 1 {
      assert x[0..][..|x|] == x;
    } else if x == last {
      assert last[0..][..|x|] == x;
      QuotesInside(Spaced(front) + " ", last, "", x);
      assert Spaced(front) + " " + last + "" == Spaced(labels);
    } else {
      SpacedQuotes(front, x);
      QuotesInside("", Spaced(front), " " + last, x);
      assert "" + Spaced(front) + (" " + last) == Spaced(labels);
    }
  }
}
