// Merging new facts into existing notes by bounded edits: the model names lines to revise and
// facts to add, and the code decides what may be changed.
module NoteMerge {
  import opened Wrappers
  import opened CallerNotes
  import opened Closeouts

  // ----- Lines -----

  datatype Line = Line(text: string, ending: string)
  {
    function Whole(): string {
      text + ending
    }
  }

  predicate Breaks(c: char) {
    10 <= c as int <= 13 || 28 <= c as int <= 30 || c as int in {0x85, 0x2028, 0x2029}
  }

  function BreakAt(s: string): (n: nat)
    ensures n <= |s|
    ensures forall i :: 0 <= i < n ==> !Breaks(s[i])
    ensures n < |s| ==> Breaks(s[n])
  {
    if s == "" || Breaks(s[0]) then 0 else 1 + BreakAt(s[1..])
  }

  function Lines(s: string): seq<Line> {
    if s == "" then []
    else
      var n := BreakAt(s);
      if n == |s| then [Line(s, "")]
      else
        var width := if s[n] == '\r' && n + 1 < |s| && s[n + 1] == '\n' then 2 else 1;
        [Line(s[..n], s[n..n + width])] + Lines(s[n + width..])
  }

  function Joined(pieces: seq<string>): string {
    if pieces == [] then "" else Joined(pieces[..|pieces| - 1]) + pieces[|pieces| - 1]
  }

  function Wholes(lines: seq<Line>): seq<string> {
    seq(|lines|, i requires 0 <= i < |lines| => lines[i].Whole())
  }

  // ----- note_records -----

  // A source annotation with its time, when that can be read.
  datatype Source = Source(mark: string, reported: Option<int>)

  // What the model leaves to text rules: the annotations of a text, a text without metadata,
  // and the annotation for a fact of this call that was reported at a given time.
  datatype Rules = Rules(sources: string -> seq<Source>, clean: string -> string, mark: int -> string)

  // The position and the text of a line stand for the digest that names it.
  datatype RecordId = RecordId(index: nat, text: string)

  datatype Record = Record(id: RecordId, latest: Option<int>, savedAt: int)
  {
    // Lines without a readable annotation count as of the last save.
    function Since(): int {
      if latest.Some? then latest.value else savedAt
    }
  }

  function Latest(sources: seq<Source>): Option<int> {
    if sources == [] then None
    else
      var before, last := Latest(sources[..|sources| - 1]), sources[|sources| - 1].reported;
      if before.None? then last else if last.None? || last.value <= before.value then before else last
  }

  function RecordOf(rules: Rules, lines: seq<Line>, i: nat, savedAt: int): Record
    requires i < |lines|
  {
    Record(RecordId(i, lines[i].text), Latest(rules.sources(lines[i].text)), savedAt)
  }

  function Records(rules: Rules, lines: seq<Line>, savedAt: int): seq<Record> {
    if lines == [] then [] else
      var last := |lines| - 1;
      Records(rules, lines[..last], savedAt) + if Blank(lines[last].text) then []
        else [RecordOf(rules, lines, last, savedAt)]
  }

  method NoteRecords(rules: Rules, note: string, savedAt: int) returns (records: seq<Record>)
    ensures records == Records(rules, Lines(note), savedAt)
  {
    var lines := Lines(note);
    records := [];
    var i := 0;
    while i < |lines|
      invariant i <= |lines| && records == Records(rules, lines[..i], savedAt)
    {
      if !Blank(lines[i].text) {
        var sources, latest, j := rules.sources(lines[i].text), None, 0;
        while j < |sources|
          invariant j <= |sources| && latest == Latest(sources[..j])
        {
          var reported := sources[j].reported;
          if reported.Some? && (latest.None? || reported.value > latest.value) {
            latest := reported;
          }
          j := j + 1;
          assert sources[..j][..j - 1] == sources[..j - 1];
        }
        assert sources[..j] == sources;
        records := records + [Record(RecordId(i, lines[i].text), latest, savedAt)];
      }
      i := i + 1;
      assert lines[..i][..i - 1] == lines[..i - 1];
    }
    assert lines[..i] == lines;
  }

  // ----- reconcile -----

  datatype Revision = Revision(notes: seq<RecordId>, updates: seq<string>, text: string)

  datatype Selected = Selected(keep: seq<string>, revisions: seq<Revision>)

  datatype Reconciled = Reconciled(note: string, additions: seq<Update>, applied: nat)

  datatype Edits = Edits(additions: set<string>, consumed: set<string>, touched: set<RecordId>,
                         lines: map<nat, Option<string>>, applied: nat)

  function Members<T>(s: seq<T>): set<T> {
    set x | x in s
  }

  predicate Distinct<T(==)>(s: seq<T>) {
    forall i, j :: 0 <= i < j < |s| ==> s[i] != s[j]
  }

  predicate KnownUpdate(updates: seq<Update>, id: string) {
    exists u :: u in updates && u.id == id
  }

  predicate KnownRecord(records: seq<Record>, id: RecordId) {
    exists r :: r in records && r.id == id
  }

  // The last entry under an identity is the one that counts.
  function UpdateById(updates: seq<Update>, id: string): (u: Update)
    requires KnownUpdate(updates, id)
    ensures u in updates && u.id == id
  {
    var last := updates[|updates| - 1];
    if last.id == id then last
    else
      assert KnownUpdate(updates[..|updates| - 1], id) by {
        var u :| u in updates && u.id == id;
        assert u in updates[..|updates| - 1];
      }
      UpdateById(updates[..|updates| - 1], id)
  }

  function RecordById(records: seq<Record>, id: RecordId): (r: Record)
    requires KnownRecord(records, id)
    ensures r in records && r.id == id
  {
    var last := records[|records| - 1];
    if last.id == id then last
    else
      assert KnownRecord(records[..|records| - 1], id) by {
        var r :| r in records && r.id == id;
        assert r in records[..|records| - 1];
      }
      RecordById(records[..|records| - 1], id)
  }

  function Supporting(updates: seq<Update>, ids: seq<string>): (us: seq<Update>)
    requires forall id :: id in ids ==> KnownUpdate(updates, id)
    ensures |us| == |ids| && forall i :: 0 <= i < |ids| ==> us[i] in updates && us[i].id == ids[i]
  {
    seq(|ids|, i requires 0 <= i < |ids| => UpdateById(updates, ids[i]))
  }

  function Prior(records: seq<Record>, ids: seq<RecordId>): (rs: seq<Record>)
    requires forall id :: id in ids ==> KnownRecord(records, id)
    ensures |rs| == |ids| && forall i :: 0 <= i < |ids| ==> rs[i] in records && rs[i].id == ids[i]
  {
    seq(|ids|, i requires 0 <= i < |ids| => RecordById(records, ids[i]))
  }

  // What one revision must satisfy by itself.
  predicate WellFormed(rules: Rules, records: seq<Record>, updates: seq<Update>, r: Revision) {
    && Known(records, updates, r)
    && r.notes != [] && Distinct(r.notes)
    && r.updates != [] && Distinct(r.updates)
    && !Blank(r.text) && |r.text| <= NOTES_LIMIT && |Lines(r.text)| == 1 && rules.sources(r.text) == []
  }

  predicate Known(records: seq<Record>, updates: seq<Update>, r: Revision) {
    (forall id :: id in r.notes ==> KnownRecord(records, id))
      && (forall id :: id in r.updates ==> KnownUpdate(updates, id))
  }

  // Some line that it names is newer than everything that supports it.
  predicate Stale(records: seq<Record>, updates: seq<Update>, r: Revision)
    requires Known(records, updates, r)
  {
    exists p :: p in Prior(records, r.notes) && forall u ::
      u in Supporting(updates, r.updates) ==> u.reportedAt < p.Since()
  }

  function Insert(u: Update, sorted: seq<Update>): seq<Update> {
    if sorted == [] || u.reportedAt > sorted[0].reportedAt then [u] + sorted else [sorted[0]] + Insert(u, sorted[1..])
  }

  function NewestFirst(us: seq<Update>): seq<Update> {
    if us == [] then [] else Insert(us[|us| - 1], NewestFirst(us[..|us| - 1]))
  }

  function OwnLabels(rules: Rules, us: seq<Update>): seq<string> {
    seq(|us|, i requires 0 <= i < |us| => rules.mark(us[i].reportedAt))
  }

  function SourceLabels(sources: seq<Source>): seq<string> {
    seq(|sources|, i requires 0 <= i < |sources| => sources[i].mark)
  }

  function PriorLabels(rules: Rules, prior: seq<Record>): seq<string> {
    if prior == [] then []
    else PriorLabels(rules, prior[..|prior| - 1]) + SourceLabels(rules.sources(prior[|prior| - 1].id.text))
  }

  function Unique(labels: seq<string>): seq<string> {
    if labels == [] then [] else
      var before := Unique(labels[..|labels| - 1]);
      if labels[|labels| - 1] in before then before else before + [labels[|labels| - 1]]
  }

  function Spaced(labels: seq<string>): string {
    if labels == [] then "" else if |labels| == 1 then labels[0]
      else Spaced(labels[..|labels| - 1]) + " " + labels[|labels| - 1]
  }

  function WithDues(text: string, supporting: seq<Update>): string {
    if supporting == [] then text else
      var before, due := WithDues(text, supporting[..|supporting| - 1]), supporting[|supporting| - 1].due;
      if due.Some? && due.value != "" && !Quotes(before, due.value) then before + " Due: " + due.value + "." else before
  }

  function Replacement(rules: Rules, supporting: seq<Update>, prior: seq<Record>, text: string): string {
    "- " + Spaced(Unique(OwnLabels(rules, NewestFirst(supporting)) + PriorLabels(rules, prior)))
      + " Caller note update: " + WithDues(text, supporting)
  }

  function First(ids: seq<RecordId>): (n: nat)
    requires ids != []
    ensures exists id :: id in ids && id.index == n
    ensures forall id :: id in ids ==> n <= id.index
  {
    if |ids| == 1 then ids[0].index
    else
      var before, last := First(ids[..|ids| - 1]), ids[|ids| - 1].index;
      assert forall id :: id in ids ==> id in ids[..|ids| - 1] || id == ids[|ids| - 1];
      if last < before then last else before
  }

  function Indices(ids: seq<RecordId>): set<nat> {
    set id | id in ids :: id.index
  }

  // The first of the lines becomes the replacement, the others go.
  function EditsOf(ids: seq<RecordId>, replacement: string): map<nat, Option<string>>
    requires ids != []
  {
    map i | i in Indices(ids) :: if i == First(ids) then Some(replacement) else None
  }

  function Revise(rules: Rules, records: seq<Record>, updates: seq<Update>, e: Edits, r: Revision): Result<Edits> {
    if !WellFormed(rules, records, updates, r) || !(Members(r.notes) !! e.touched)
      || !(Members(r.updates) !! e.consumed)
    then Err(Invalid)
    else
      var next := e.(touched := e.touched + Members(r.notes), consumed := e.consumed + Members(r.updates));
      if Stale(records, updates, r) then Ok(next.(additions := e.additions + Members(r.updates)))
      else if rules.clean(r.text) == "" then Err(Invalid)
      else
        var replacement := Replacement(rules, Supporting(updates, r.updates), Prior(records, r.notes),
                                       rules.clean(r.text));
        Ok(next.(lines := e.lines + EditsOf(r.notes, replacement), applied := e.applied + |r.updates|))
  }

  function ReviseAll(rules: Rules, records: seq<Record>, updates: seq<Update>, e: Edits,
                     revisions: seq<Revision>): Result<Edits> {
    if revisions == [] then Ok(e)
    else
      match ReviseAll(rules, records, updates, e, revisions[..|revisions| - 1])
      case Err(x) => Err(x)
      case Ok(before) => Revise(rules, records, updates, before, revisions[|revisions| - 1])
  }

  predicate KeepOk(updates: seq<Update>, keep: seq<string>) {
    (forall id :: id in keep ==> KnownUpdate(updates, id)) && Distinct(keep)
  }

  function Edited(updates: seq<Update>, selected: Selected): Edits {
    Edits(Members(selected.keep), Members(selected.keep), {}, map[], 0)
  }

  function AllEdits(rules: Rules, records: seq<Record>, updates: seq<Update>, selected: Selected): Result<Edits> {
    if |selected.revisions| > 32 || !KeepOk(updates, selected.keep) then Err(Invalid)
    else ReviseAll(rules, records, updates, Edited(updates, selected), selected.revisions)
  }

  function Piece(lines: seq<Line>, edits: map<nat, Option<string>>, i: nat): string
    requires i < |lines|
  {
    if i !in edits then lines[i].Whole()
    else if edits[i].None? then ""
    else edits[i].value + if lines[i].ending != "" && lines[i].ending[|lines[i].ending| - 1] == '\n' then "\n" else ""
  }

  function Pieces(lines: seq<Line>, edits: map<nat, Option<string>>): seq<string> {
    seq(|lines|, i requires 0 <= i < |lines| => Piece(lines, edits, i))
  }

  function Returned(updates: seq<Update>, additions: set<string>): (us: seq<Update>)
    ensures forall u :: u in us <==> u in updates && u.id in additions
  {
    if updates == [] then [] else
      var last := updates[|updates| - 1];
      assert forall u :: u in updates <==> u in updates[..|updates| - 1] || u == last;
      Returned(updates[..|updates| - 1], additions) + if last.id in additions then [last] else []
  }

  function Reconciliation(rules: Rules, note: string, records: seq<Record>, updates: seq<Update>,
                          selected: Selected): Result<Reconciled> {
    match AllEdits(rules, records, updates, selected)
    case Err(x) => Err(x)
    case Ok(e) => Ok(Reconciled(Joined(Pieces(Lines(note), e.lines)), Returned(updates, e.additions), e.applied))
  }
}
