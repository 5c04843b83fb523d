// What a merge does to the notes, on the lines, their annotations and the facts themselves.
module NoteMergeMeaning {
  import opened Wrappers
  import opened Closeouts
  import opened NoteMerge
  import opened NoteMergeProofs

  // A line was reported after this time; without a readable annotation the save counts.
  predicate Later(rules: Rules, line: string, savedAt: int, time: int) {
    || (exists s :: s in rules.sources(line) && s.reported.Some? && time < s.reported.value)
    || ((forall s :: s in rules.sources(line) ==> s.reported.None?) && time < savedAt)
  }

  // Some line that the revision names is later than all facts that support it.
  predicate Overtaken(rules: Rules, lines: seq<Line>, savedAt: int, supporting: seq<Update>, notes: seq<RecordId>) {
    exists id :: id in notes && id.index < |lines|
      && forall u :: u in supporting ==> Later(rules, lines[id.index].text, savedAt, u.reportedAt)
  }

  lemma {:induction false} LatestIs(sources: seq<Source>)
    ensures Latest(sources).None? <==> forall s :: s in sources ==> s.reported.None?
    ensures Latest(sources).Some? ==>
      && (exists s :: s in sources && s.reported == Latest(sources))
      && (forall s :: s in sources && s.reported.Some? ==> s.reported.value <= Latest(sources).value)
  {
    if sources != [] {
      var front, last := sources[..|sources| - 1], sources[|sources| - 1];
      LatestIs(front);
      assert forall s :: s in sources <==> s in front || s == last;
    }
  }

  lemma {:induction false} RecordsSay(rules: Rules, lines: seq<Line>, savedAt: int, r: Record)
    ensures r in Records(rules, lines, savedAt) <==>
      && r.id.index < |lines| && r.id.text == lines[r.id.index].text && !Blank(r.id.text)
      && r.latest == Latest(rules.sources(r.id.text)) && r.savedAt == savedAt
  {
    if lines != [] {
      var last := |lines| - 1;
      RecordsSay(rules, lines[..last], savedAt, r);
    }
  }

  lemma SinceIs(rules: Rules, lines: seq<Line>, savedAt: int, r: Record, time: int)
    requires r in Records(rules, lines, savedAt)
    ensures r.id.index < |lines| && (time < r.Since() <==> Later(rules, lines[r.id.index].text, savedAt, time))
  {
    RecordsSay(rules, lines, savedAt, r);
    LatestIs(rules.sources(r.id.text));
  }

  lemma OlderIs(rules: Rules, lines: seq<Line>, savedAt: int, updates: seq<Update>, v: Revision, i: nat, time: int)
    requires Known(Records(rules, lines, savedAt), updates, v) && i < |v.notes|
    ensures v.notes[i].index < |lines|
    ensures time < Prior(Records(rules, lines, savedAt), v.notes)[i].Since() <==>
      Later(rules, lines[v.notes[i].index].text, savedAt, time)
  {
    hide Records, Later, Record.Since;
    SinceIs(rules, lines, savedAt, Prior(Records(rules, lines, savedAt), v.notes)[i], time);
  }

  lemma StaleIs(rules: Rules, lines: seq<Line>, savedAt: int, updates: seq<Update>, v: Revision)
    requires Known(Records(rules, lines, savedAt), updates, v)
    ensures Stale(Records(rules, lines, savedAt), updates, v) <==>
      Overtaken(rules, lines, savedAt, Supporting(updates, v.updates), v.notes)
  {
    hide Records, Later, Latest;
    var records, supporting := Records(rules, lines, savedAt), Supporting(updates, v.updates);
    var prior := Prior(records, v.notes);
    if Stale(records, updates, v) {
      var p :| p in prior && forall u :: u in supporting ==> u.reportedAt < p.Since();
      var i :| 0 <= i < |prior| && prior[i] == p;
      OlderIs(rules, lines, savedAt, updates, v, i, 0);
      forall u | u in supporting ensures Later(rules, lines[v.notes[i].index].text, savedAt, u.reportedAt) {
        OlderIs(rules, lines, savedAt, updates, v, i, u.reportedAt);
      }
      assert v.notes[i] in v.notes;
    }
    if Overtaken(rules, lines, savedAt, supporting, v.notes) {
      var id :| id in v.notes && id.index < |lines|
        && forall u :: u in supporting ==> Later(rules, lines[id.index].text, savedAt, u.reportedAt);
      var i :| 0 <= i < |v.notes| && v.notes[i] == id;
      forall u | u in supporting ensures u.reportedAt < prior[i].Since() {
        OlderIs(rules, lines, savedAt, updates, v, i, u.reportedAt);
      }
      assert prior[i] in prior;
    }
  }

  // What takes the place of the first line: the new text with its label, every annotation of the
  // old lines and of the facts, and every due date.
  predicate Renewed(rules: Rules, text: string, supporting: seq<Update>, notes: seq<RecordId>, piece: string) {
    && Quotes(piece, " Caller note update: " + rules.clean(text))
    && |piece| >= 2 && piece[..2] == "- "
    && (forall u :: u in supporting ==> Quotes(piece, rules.mark(u.reportedAt)))
    && (forall u :: u in supporting && u.due.Some? && u.due.value != "" ==> Quotes(piece, u.due.value))
    && (forall id, s :: id in notes && s in rules.sources(id.text) ==> Quotes(piece, s.mark))
  }

  predicate Names(v: Revision, i: nat) {
    exists id :: id in v.notes && id.index == i
  }

  // What becomes of one line under one revision that names it.
  ghost predicate Treated(rules: Rules, lines: seq<Line>, savedAt: int, updates: seq<Update>, v: Revision, i: nat,
                          piece: string)
    requires i < |lines| && forall id :: id in v.updates ==> KnownUpdate(updates, id)
  {
    var supporting := Supporting(updates, v.updates);
    if Overtaken(rules, lines, savedAt, supporting, v.notes) then piece == lines[i].text + lines[i].ending
    else if exists j: nat :: j < i && Names(v, j) then piece == ""
    else
      var newline := if lines[i].ending != "" && lines[i].ending[|lines[i].ending| - 1] == '\n' then "\n" else "";
      exists text :: Renewed(rules, v.text, supporting, v.notes, text) && piece == text + newline
  }

  // A revision never touches a line that is later than all its facts, nor any other line it
  // names then, and gives its facts back; otherwise its first line is renewed and its others go.
  // No other line changes.
  lemma {:induction false} LinesAreTreated(rules: Rules, note: string, savedAt: int, updates: seq<Update>,
                                           selected: Selected)
    requires Reconciliation(rules, note, Records(rules, Lines(note), savedAt), updates, selected).Ok?
    ensures forall v, id :: v in selected.revisions && id in v.updates ==> KnownUpdate(updates, id)
    ensures var r := Reconciliation(rules, note, Records(rules, Lines(note), savedAt), updates, selected).value;
      var lines := Lines(note);
      && (exists pieces: seq<string> :: |pieces| == |lines| && r.note == Joined(pieces)
            && (forall v, i :: v in selected.revisions && 0 <= i < |lines| && Names(v, i) ==>
                  Treated(rules, lines, savedAt, updates, v, i, pieces[i]))
            && (forall i :: 0 <= i < |lines| && (forall v :: v in selected.revisions ==> !Names(v, i)) ==>
                  pieces[i] == lines[i].text + lines[i].ending))
      && (forall u :: u in r.additions <==>
            u in updates
            && (u.id in selected.keep
                || exists v :: v in selected.revisions && u.id in v.updates
                     && Overtaken(rules, lines, savedAt, Supporting(updates, v.updates), v.notes)))
  {
    hide Lines, Records, Joined, ReviseAll, Stale, RevisionOk, Effective, Overtaken, Treated, Disjoint;
    var lines, records := Lines(note), Records(rules, Lines(note), savedAt);
    var e := AllEdits(rules, records, updates, selected).value;
    AcceptedExactly(rules, note, records, updates, selected);
    NothingUsedTwice(rules, note, records, updates, selected);
    UntouchedLinesStay(rules, note, records, updates, selected);
    forall v | v in selected.revisions
      ensures Known(records, updates, v)
      ensures Stale(records, updates, v) <==>
        Overtaken(rules, lines, savedAt, Supporting(updates, v.updates), v.notes)
    {
      OkIsKnown(rules, records, updates, v);
      StaleIs(rules, lines, savedAt, updates, v);
    }
    var pieces := Pieces(lines, e.lines);
    forall v, i | v in selected.revisions && 0 <= i < |lines| && Names(v, i)
      ensures Treated(rules, lines, savedAt, updates, v, i, pieces[i])
    {
      RevisionTakesEffect(rules, note, savedAt, updates, selected, v);
      OneTreated(rules, lines, savedAt, updates, v, i, e);
    }
    forall i | 0 <= i < |lines| && (forall v :: v in selected.revisions ==> !Names(v, i))
      ensures pieces[i] == lines[i].text + lines[i].ending
    {
      forall v | v in selected.revisions ensures i !in Indices(v.notes) {
        assert !Names(v, i);
      }
    }
  }

  lemma OneTreated(rules: Rules, lines: seq<Line>, savedAt: int, updates: seq<Update>, v: Revision, i: nat, e: Edits)
    requires i < |lines| && Names(v, i) && Known(Records(rules, lines, savedAt), updates, v)
    requires Effective(rules, Records(rules, lines, savedAt), updates, v, e)
    requires Stale(Records(rules, lines, savedAt), updates, v) <==>
      Overtaken(rules, lines, savedAt, Supporting(updates, v.updates), v.notes)
    ensures Treated(rules, lines, savedAt, updates, v, i, Piece(lines, e.lines, i))
  {
    hide Records, Stale, Overtaken, WellFormed, Replacement, Renewed, Known;
    var records, supporting := Records(rules, lines, savedAt), Supporting(updates, v.updates);
    assert i in Indices(v.notes);
    if !Stale(records, updates, v) {
      var prior := Prior(records, v.notes);
      var text := Replacement(rules, supporting, prior, rules.clean(v.text));
      FirstNamed(v, i);
      ReplacementIs(rules, supporting, prior, v);
    }
  }

  lemma FirstNamed(v: Revision, i: nat)
    requires v.notes != [] && Names(v, i)
    ensures i == First(v.notes) <==> !exists j: nat :: j < i && Names(v, j)
  {
    assert Names(v, First(v.notes));
  }

  lemma ReplacementIs(rules: Rules, supporting: seq<Update>, prior: seq<Record>, v: Revision)
    requires |prior| == |v.notes| && forall i :: 0 <= i < |prior| ==> prior[i].id == v.notes[i]
    ensures Renewed(rules, v.text, supporting, v.notes, Replacement(rules, supporting, prior, rules.clean(v.text)))
  {
    hide Quotes, WithDues, NewestFirst, PriorLabels, Unique, Spaced;
    var piece, clean := Replacement(rules, supporting, prior, rules.clean(v.text)), rules.clean(v.text);
    var labels := Spaced(Unique(OwnLabels(rules, NewestFirst(supporting)) + PriorLabels(rules, prior)));
    ProvenanceIsKept(rules, supporting, prior, clean);
    forall id, s | id in v.notes && s in rules.sources(id.text) ensures Quotes(piece, s.mark) {
      var i :| 0 <= i < |v.notes| && v.notes[i] == id;
      assert prior[i].id == id;
    }
    DuesQuoted(clean, supporting);
    QuotesAtStart(" Caller note update: ", WithDues(clean, supporting), clean);
    assert piece == "- " + labels + (" Caller note update: " + WithDues(clean, supporting)) + "";
    QuotesInside("- " + labels, " Caller note update: " + WithDues(clean, supporting), "",
                 " Caller note update: " + clean);
    forall u | u in supporting && u.due.Some? && u.due.value != "" ensures Quotes(piece, u.due.value) {
      QuotesInside("- " + labels + " Caller note update: ", WithDues(clean, supporting), "", u.due.value);
      assert piece == "- " + labels + " Caller note update: " + WithDues(clean, supporting) + "";
    }
    assert piece[..2] == "- ";
  }

  lemma QuotesAtStart(lead: string, long: string, short: string)
    requires |short| <= |long| && long[..|short|] == short
    ensures Quotes(lead + long, lead + short)
  {
    assert (lead + long)[0..][..|lead + short|] == lead + short;
  }

  lemma {:induction false} DuesQuoted(text: string, supporting: seq<Update>)
    ensures |text| <= |WithDues(text, supporting)| && WithDues(text, supporting)[..|text|] == text
    ensures forall u :: u in supporting && u.due.Some? && u.due.value != "" ==>
      Quotes(WithDues(text, supporting), u.due.value)
  {
    hide Quotes;
    if supporting != [] {
      var front, last := supporting[..|supporting| - 1], supporting[|supporting| - 1];
      DuesQuoted(text, front);
      var before, after := WithDues(text, front), WithDues(text, supporting);
      forall u | u in supporting && u.due.Some? && u.due.value != "" ensures Quotes(after, u.due.value) {
        if u in front && after != before {
          QuotesInside("", before, " Due: " + last.due.value + ".", u.due.value);
          assert "" + before + (" Due: " + last.due.value + ".") == after;
        } else if u == last && after != before {
          assert u.due.value[0..][..|u.due.value|] == u.due.value;
          QuotesWhole(u.due.value);
          QuotesInside(before + " Due: ", u.due.value, ".", u.due.value);
        }
      }
    }
  }

  lemma QuotesWhole(s: string)
    ensures Quotes(s, s)
  {
    assert s[0..][..|s|] == s;
  }

  // ----- When a merge is accepted -----

  // One revision names lines of the note that say something and given facts, each once, and has a
  // text of one line, of at most 8000 characters, without an annotation; unless it is set aside,
  // something of the text is left when its metadata is stripped.
  ghost predicate Usable(rules: Rules, lines: seq<Line>, savedAt: int, updates: seq<Update>, v: Revision) {
    && v.notes != [] && (forall i, j :: 0 <= i < j < |v.notes| ==> v.notes[i] != v.notes[j])
    && (forall id :: id in v.notes ==> id.index < |lines| && id.text == lines[id.index].text && Speaks(id.text))
    && v.updates != [] && (forall i, j :: 0 <= i < j < |v.updates| ==> v.updates[i] != v.updates[j])
    && (forall id :: id in v.updates ==> KnownUpdate(updates, id))
    && Speaks(v.text) && |v.text| <= 8000 && |Lines(v.text)| == 1 && rules.sources(v.text) == []
    && (Overtaken(rules, lines, savedAt, Supporting(updates, v.updates), v.notes) || rules.clean(v.text) != "")
  }

  predicate Speaks(text: string) {
    exists i :: 0 <= i < |text| && !Space(text[i] as int)
  }

  lemma KnownLine(rules: Rules, lines: seq<Line>, savedAt: int, id: RecordId)
    ensures KnownRecord(Records(rules, lines, savedAt), id) <==>
      id.index < |lines| && id.text == lines[id.index].text && Speaks(id.text)
  {
    hide Records;
    var r := Record(id, Latest(rules.sources(id.text)), savedAt);
    RecordsSay(rules, lines, savedAt, r);
    if KnownRecord(Records(rules, lines, savedAt), id) {
      var q :| q in Records(rules, lines, savedAt) && q.id == id;
      RecordsSay(rules, lines, savedAt, q);
    }
  }

  lemma UsableExactly(rules: Rules, note: string, savedAt: int, updates: seq<Update>, v: Revision)
    ensures Usable(rules, Lines(note), savedAt, updates, v) <==>
      RevisionOk(rules, Records(rules, Lines(note), savedAt), updates, v)
  {
    hide Records, Lines, Stale, Overtaken, KnownRecord, KnownUpdate, Speaks;
    var lines, records := Lines(note), Records(rules, Lines(note), savedAt);
    forall id ensures KnownRecord(records, id) <==>
      id.index < |lines| && id.text == lines[id.index].text && Speaks(id.text)
    {
      KnownLine(rules, lines, savedAt, id);
    }
    SpeaksIs(v.text);
    if Known(records, updates, v) {
      StaleIs(rules, lines, savedAt, updates, v);
    }
  }

  lemma SpeaksIs(text: string)
    ensures Speaks(text) <==> !Blank(text)
  {}

  // A merge is accepted exactly with at most 32 usable revisions and given facts to keep, if no
  // line and no fact is named twice.
  lemma MergeIsAccepted(rules: Rules, note: string, savedAt: int, updates: seq<Update>, selected: Selected)
    ensures Reconciliation(rules, note, Records(rules, Lines(note), savedAt), updates, selected).Ok? <==>
      && |selected.revisions| <= 32
      && (forall v :: v in selected.revisions ==> Usable(rules, Lines(note), savedAt, updates, v))
      && (forall id :: id in selected.keep ==> exists u :: u in updates && u.id == id)
      && (forall i, j :: 0 <= i < j < |selected.keep| ==> selected.keep[i] != selected.keep[j])
      && (forall i, j, id :: 0 <= i < j < |selected.revisions| && id in selected.revisions[i].notes ==>
            id !in selected.revisions[j].notes)
      && (forall i, j, id :: 0 <= i < j < |selected.revisions| && id in selected.revisions[i].updates ==>
            id !in selected.revisions[j].updates)
      && (forall v, id :: v in selected.revisions && id in v.updates ==> id !in selected.keep)
  {
    hide Records, Lines, RevisionOk, Usable;
    AcceptedExactly(rules, note, Records(rules, Lines(note), savedAt), updates, selected);
    forall v | v in selected.revisions
      ensures Usable(rules, Lines(note), savedAt, updates, v) <==>
        RevisionOk(rules, Records(rules, Lines(note), savedAt), updates, v)
    {
      UsableExactly(rules, note, savedAt, updates, v);
    }
    ApartExactly(selected);
  }

  lemma ApartExactly(selected: Selected)
    ensures Disjoint(selected) <==>
      && (forall i, j, id :: 0 <= i < j < |selected.revisions| && id in selected.revisions[i].notes ==>
            id !in selected.revisions[j].notes)
      && (forall i, j, id :: 0 <= i < j < |selected.revisions| && id in selected.revisions[i].updates ==>
            id !in selected.revisions[j].updates)
      && (forall v, id :: v in selected.revisions && id in v.updates ==> id !in selected.keep)
  {
    if Disjoint(selected) {
      forall i, j, id | 0 <= i < j < |selected.revisions| && id in selected.revisions[i].notes
        ensures id !in selected.revisions[j].notes
      {
        assert id in Members(selected.revisions[i].notes) && id !in Members(selected.revisions[j].notes);
      }
      forall i, j, id | 0 <= i < j < |selected.revisions| && id in selected.revisions[i].updates
        ensures id !in selected.revisions[j].updates
      {
        assert id in Members(selected.revisions[i].updates) && id !in Members(selected.revisions[j].updates);
      }
      forall v, id | v in selected.revisions && id in v.updates ensures id !in selected.keep {
        var i :| 0 <= i < |selected.revisions| && selected.revisions[i] == v;
        assert id in Members(selected.revisions[i].updates) && id !in Members(selected.keep);
      }
    }
  }
}
