// What paging promises over a whole enumeration: it ends, nothing is lost or repeated, and
// a record that changed in between is noticed.
module OwnerPages {
  import opened Wrappers
  import opened JsonSize
  import opened OwnerLookup

  // ----- One page -----

  // A page takes whole records in order, or else cuts the first one; it never takes nothing.
  lemma {:induction false} FillShape(rows: seq<Record>, limit: nat, start: nat, taken: seq<Entry>)
    requires Fill(rows, limit, start, taken).Ok?
    ensures var f := Fill(rows, limit, start, taken).value;
      && |taken| <= f.consumed + f.next && f.consumed <= |taken| + limit && f.consumed <= |taken| + |rows|
      && (f.next == 0 ==> |taken| <= f.consumed && f.cut.None?)
      && (rows != [] && limit > 0 ==> f.consumed + f.next > 0)
      && (f.next > 0 ==>
          taken == [] && f.consumed == 0 && rows != [] && start < f.next < |rows[0].Full()|
            && f.cut == Some(rows[0]))
  {
    hide Fits, Part, Entry.Marked;
    if rows != [] && limit > 0 {
      var row := rows[0];
      var whole := Part(row, start, |row.Full()| - start);
      if Fits(taken, whole) {
        FillShape(rows[1..], limit - 1, 0, taken + [whole.Marked(true)]);
      }
    }
  }

  // A fresh page fails exactly when its first record cannot give even one character.
  lemma PageFailsExactly(rows: seq<Record>, query: Query, scope: string, at: Position)
    requires rows != [] && at.textOffset <= |rows[0].Full()|
    requires at.record.Some? ==> at.record.value == rows[0]
    ensures PageFrom(rows, query, scope, at).Err? <==>
      var row, left := rows[0], |rows[0].Full()| - at.textOffset;
      && !Fits([], Part(row, at.textOffset, left))
      && (left == 0 || !Fits([], Part(row, at.textOffset, 1)))
  {
    hide PageSize;
    var row, start := rows[0], at.textOffset;
    var left := |row.Full()| - start;
    var whole := Part(row, start, left);
    if Fits([], whole) {
      LaterRowsFit(rows[1..], query.limit - 1, [] + [whole.Marked(true)]);
    } else if row.body.Some? && left > 0 {
      var n := Longest(row, start, left);
      if n > 0 {
        ShorterFits(row, start, 1, n);
      }
    }
  }

  lemma {:induction false} LaterRowsFit(rows: seq<Record>, limit: nat, taken: seq<Entry>)
    requires taken != []
    ensures Fill(rows, limit, 0, taken).Ok?
  {
    hide Fits, Part, Entry.Marked;
    if rows != [] && limit > 0 {
      var whole := Part(rows[0], 0, |rows[0].Full()|);
      if Fits(taken, whole) {
        LaterRowsFit(rows[1..], limit - 1, taken + [whole.Marked(true)]);
      }
    }
  }

  // What the size test never measures: the completion mark of the last entry, and a cursor in
  // place of null (with `true` for `false`).
  function Unmeasured(page: Page): int
    requires page.cursor.Some? ==> page.cursor.value.offset >= 0 && page.cursor.value.textOffset >= 0
  {
    (if page.entries == [] then 0 else MarkCost(page.entries[|page.entries| - 1]))
    + if page.cursor.Some? then TokenLength(page.cursor.value) - 3 else 0
  }

  function MarkCost(e: Entry): nat {
    if e.slice.None? || e.slice.value.complete.None? then 0 else if e.slice.value.complete.value then 18 else 19
  }

  // The size of the page that is returned.
  function ReturnedSize(m: Measure, page: Page): int
    requires page.cursor.Some? ==> page.cursor.value.offset >= 0 && page.cursor.value.textOffset >= 0
  {
    PageSize(m, page.entries) + if page.cursor.Some? then TokenLength(page.cursor.value) - 3 else 0
  }

  // The size that the test has last accepted: without the mark of the last entry.
  function TestedSize(m: Measure, page: Page): int {
    PageSize(m, page.entries) - if page.entries == [] then 0 else MarkCost(page.entries[|page.entries| - 1])
  }

  lemma {:induction false} FillTested(m: Measure, rows: seq<Record>, limit: nat, start: nat, taken: seq<Entry>)
    requires TestedSize(m, Page(taken, None)) <= BUDGET
    requires Fill(rows, limit, start, taken).Ok?
    ensures TestedSize(m, Page(Fill(rows, limit, start, taken).value.entries, None)) <= BUDGET
  {
    hide Longest, Part, TestedSize, Fits, Entry.Marked;
    if rows != [] && limit > 0 {
      var row := rows[0];
      var whole := Part(row, start, |row.Full()| - start);
      if Fits(taken, whole) {
        MarkedSize(m, taken, row, start, |row.Full()| - start, true);
        FillTested(m, rows[1..], limit - 1, 0, taken + [whole.Marked(true)]);
      } else if taken == [] {
        var n := Longest(row, start, |row.Full()| - start);
        MarkedSize(m, [], row, start, n, false);
        assert [] + [Part(row, start, n).Marked(false)] == [Part(row, start, n).Marked(false)];
      }
    }
  }

  lemma MarkedSize(m: Measure, taken: seq<Entry>, row: Record, start: nat, n: nat, complete: bool)
    requires start + n <= |row.Full()|
    requires Fits(taken, Part(row, start, n))
    ensures TestedSize(m, Page(taken + [Part(row, start, n).Marked(complete)], None)) ==
      PageSize(m, taken + [Part(row, start, n)])
    ensures TestedSize(m, Page(taken + [Part(row, start, n).Marked(complete)], None)) <= BUDGET
  {
    hide PageSize, EntrySize;
    var e := Part(row, start, n);
    AppendedSize(m, taken, e);
    AppendedSize(m, taken, e.Marked(complete));
    if row.body.Some? {
      SlicedSize(m, e);
      SlicedSize(m, e.Marked(complete));
      PlainCost(m, "complete");
    }
  }

  // A returned page exceeds the budget exactly when the room that the test left is less than
  // what it did not measure; in ASCII escapes if it does at all.
  lemma PageExceedsExactly(records: seq<Record>, query: Query, scope: string, presented: Presented)
    requires PageOf(records, query, scope, presented).Ok?
    ensures var page := PageOf(records, query, scope, presented).value;
      && (page.cursor.Some? ==> page.cursor.value.offset >= 0 && page.cursor.value.textOffset >= 0)
      && TestedSize(Ascii, page) <= BUDGET
      && ReturnedSize(Ascii, page) == TestedSize(Ascii, page) + Unmeasured(page)
      && (ReturnedSize(Ascii, page) > BUDGET <==> BUDGET - TestedSize(Ascii, page) < Unmeasured(page))
      && ((exists m :: ReturnedSize(m, page) > BUDGET) <==> ReturnedSize(Ascii, page) > BUDGET)
  {
    hide Fill, PageSize;
    var at := QueryPosition(query, scope, presented).value;
    var page := PageOf(records, query, scope, presented).value;
    EmptyPage(Ascii);
    FillTested(Ascii, From(records, at.offset), query.limit, at.textOffset, []);
    forall m ensures PageSize(m, page.entries) <= PageSize(Ascii, page.entries) {
      AsciiDominatesEntries(m, page.entries);
      EmptyPage(m);
      PageSizes(m, page.entries);
    }
  }

  lemma EmptyPage(m: Measure)
    ensures PageSize(m, []) == 66
  {}

  lemma PageSizes(m: Measure, es: seq<Entry>)
    requires EntriesSize(m, es) <= EntriesSize(Ascii, es)
    ensures PageSize(m, es) <= PageSize(Ascii, es)
  {}

  // A page that cuts a record always exceeds the budget: the test leaves less room than one
  // more character takes, and the cursor of a cut takes more than that.
  lemma CutPageExceeds(records: seq<Record>, query: Query, scope: string, presented: Presented)
    requires PageOf(records, query, scope, presented).Ok?
    requires var page := PageOf(records, query, scope, presented).value;
      page.cursor.Some? && page.cursor.value.textOffset > 0
    ensures ReturnedSize(Ascii, PageOf(records, query, scope, presented).value) > BUDGET
  {
    hide Fits, Part, PageSize, TextCost, CharCost;
    var at := QueryPosition(query, scope, presented).value;
    var rows := From(records, at.offset);
    var page := PageOf(records, query, scope, presented).value;
    PageExceedsExactly(records, query, scope, presented);
    CutOnlyWhenTooLong(rows, query, scope, at);
    var n := page.cursor.value.textOffset - at.textOffset;
    OneCharMore(rows[0], at.textOffset, n);
    FitsExactlyInAscii([], Part(rows[0], at.textOffset, n + 1));
    CutTested(rows[0], at.textOffset, n, page);
    FillShape(rows, query.limit, at.textOffset, []);
  }

  lemma OneCharMore(row: Record, start: nat, n: nat)
    requires row.body.Some? && start + n + 1 <= |row.Full()|
    ensures PageSize(Ascii, [] + [Part(row, start, n + 1)]) <= PageSize(Ascii, [] + [Part(row, start, n)]) + 12
  {
    hide PageSize, EntrySize;
    var text := row.body.value.text;
    var more := text[start..start + (n + 1)];
    assert more[..|more| - 1] == text[start..start + n];
    SlicedSize(Ascii, Part(row, start, n));
    SlicedSize(Ascii, Part(row, start, n + 1));
    AppendedSize(Ascii, [], Part(row, start, n));
    AppendedSize(Ascii, [], Part(row, start, n + 1));
  }

  lemma CutTested(row: Record, start: nat, n: nat, page: Page)
    requires row.body.Some? && start + n <= |row.Full()|
    requires page.entries == [Part(row, start, n).Marked(false)]
    ensures TestedSize(Ascii, page) == PageSize(Ascii, [] + [Part(row, start, n)]) && MarkCost(page.entries[0]) == 19
  {
    hide PageSize, EntrySize;
    var e := Part(row, start, n);
    assert page.entries == [] + [e.Marked(false)];
    AppendedSize(Ascii, [], e);
    AppendedSize(Ascii, [], e.Marked(false));
    SlicedSize(Ascii, e);
    SlicedSize(Ascii, e.Marked(false));
    PlainCost(Ascii, "complete");
  }

  // One note of twelve thousand letters gives such a page.
  lemma LongNoteExceeds(scope: string, s: string)
    requires |s| == 12000 && forall i :: 0 <= i < |s| ==> 'a' <= s[i] <= 'z'
    ensures var r := PageOf([Record([], Some(Body("text", s)))], Query("", 20), scope, NoCursor);
      r.Ok? && r.value.cursor.Some? && r.value.cursor.value.offset >= 0 && r.value.cursor.value.textOffset > 0
      && ReturnedSize(Ascii, r.value) > BUDGET
  {
    hide Fill, Longest, Part, PageSize, Fits;
    var row := Record([], Some(Body("text", s)));
    var at := Position(0, 0, None);
    assert From([row], 0) == [row];
    LongNote(s, 1);
    LongNote(s, 12000);
    PageFailsExactly([row], Query("", 20), scope, at);
    LongNoteIsCut(row, scope);
    CutPageExceeds([row], Query("", 20), scope, NoCursor);
  }

  lemma LongNote(s: string, n: nat)
    requires n <= |s| && forall i :: 0 <= i < |s| ==> 'a' <= s[i] <= 'z'
    ensures Fits([], Part(Record([], Some(Body("text", s))), 0, n)) <==> 96 + n <= BUDGET
  {
    hide PageSize, EntrySize, TextCost;
    var e := Part(Record([], Some(Body("text", s))), 0, n);
    FitsExactlyInAscii([], e);
    AppendedSize(Ascii, [], e);
    SlicedSize(Ascii, e);
    PlainCost(Ascii, "text");
    PlainCost(Ascii, "text_offset");
    PlainCost(Ascii, s[0..0 + n]);
  }

  lemma LongNoteIsCut(row: Record, scope: string)
    requires row.body.Some? && PageFrom([row], Query("", 20), scope, Position(0, 0, None)).Ok?
    requires !Fits([], Part(row, 0, |row.Full()|))
    ensures var page := PageFrom([row], Query("", 20), scope, Position(0, 0, None)).value;
      page.cursor.Some? && page.cursor.value.offset >= 0 && page.cursor.value.textOffset > 0
  {
    hide Fits;
  }

  // Reading only limit + 1 rows from the database gives the same page as the whole list.
  lemma WindowGivesTheSamePage(records: seq<Record>, query: Query, scope: string, at: Position)
    ensures var rows := From(records, at.offset);
      var window := if |rows| <= query.limit + 1 then rows else rows[..query.limit + 1];
      PageFrom(window, query, scope, at) == PageFrom(rows, query, scope, at)
  {
    hide Fill;
    var rows := From(records, at.offset);
    if |rows| > query.limit + 1 {
      FillWindow(rows, query.limit + 1, query.limit, at.textOffset, []);
      if Fill(rows, query.limit, at.textOffset, []).Ok? {
        FillShape(rows, query.limit, at.textOffset, []);
      }
    }
  }

  lemma {:induction false} FillWindow(rows: seq<Record>, width: nat, limit: nat, start: nat, taken: seq<Entry>)
    requires limit <= width <= |rows|
    ensures Fill(rows[..width], limit, start, taken) == Fill(rows, limit, start, taken)
  {
    hide Fits, Part, Longest, Entry.Marked;
    if limit > 0 && start <= |rows[0].Full()| {
      var whole := Part(rows[0], start, |rows[0].Full()| - start);
      assert rows[..width][1..] == rows[1..][..width - 1];
      FillWindow(rows[1..], width - 1, limit - 1, 0, taken + [whole.Marked(true)]);
    }
  }

  // ----- Following the cursors -----

  function RecordsLeft(records: seq<Record>, at: Position): nat {
    if at.offset <= |records| then |records| - at.offset else 0
  }

  function CharsLeft(records: seq<Record>, at: Position): nat {
    if at.offset < |records| && at.textOffset <= |records[at.offset].Full()|
    then |records[at.offset].Full()| - at.textOffset else 0
  }

  // Every page with a cursor moves on: fewer records left, or fewer characters of this one.
  lemma PageProgress(records: seq<Record>, query: Query, scope: string, at: Position)
    ensures var page := PageFrom(From(records, at.offset), query, scope, at);
      page.Ok? && page.value.cursor.Some? ==>
        var c := page.value.cursor.value;
        && at.offset <= c.offset <= |records| && c.textOffset >= 0
        && (c.offset == at.offset ==>
              && at.offset < |records| && at.textOffset < c.textOffset < |records[at.offset].Full()|
              && c.record == Some(records[at.offset]))
        && (c.offset > at.offset ==> c.textOffset == 0 && c.record.None?)
  {
    hide Fill;
    var rows := From(records, at.offset);
    if PageFrom(rows, query, scope, at).Ok? {
      FillShape(rows, query.limit, at.textOffset, []);
    }
  }

  // All the entries of all the pages, over a list that does not change.
  ghost function Follow(records: seq<Record>, query: Query, scope: string, at: Position): Result<seq<Entry>>
    decreases RecordsLeft(records, at), CharsLeft(records, at)
  {
    hide PageFrom;
    match PageFrom(From(records, at.offset), query, scope, at)
    case Err(e) => Err(e)
    case Ok(page) =>
      if page.cursor.None? then Ok(page.entries)
      else
        match QueryPosition(query, scope, Token(page.cursor.value))
        case Err(e) => Err(e)
        case Ok(next) =>
          PageProgress(records, query, scope, at);
          match Follow(records, query, scope, next)
          case Err(e) => Err(e)
          case Ok(rest) => Ok(page.entries + rest)
  }

  // A reader that knows only the entries: it joins slices while their offsets continue the
  // text so far, emits a record at each completion mark, and must not end inside a record.
  function Reassemble(entries: seq<Entry>, partial: string): Option<seq<Record>> {
    if entries == [] then if partial == "" then Some([]) else None
    else
      var e := entries[0];
      if e.slice.None? then
        if partial == "" then Emit(Record(e.fields, None), Reassemble(entries[1..], "")) else None
      else
        var s := e.slice.value;
        if s.offset != |partial| || s.complete.None? then None
        else if s.complete.value then Emit(Record(e.fields, Some(Body(s.key, partial + s.text))),
                                           Reassemble(entries[1..], ""))
        else Reassemble(entries[1..], partial + s.text)
  }

  function Emit(r: Record, rest: Option<seq<Record>>): Option<seq<Record>> {
    match rest case None => None case Some(rs) => Some([r] + rs)
  }

  function EmitAll(rs: seq<Record>, rest: Option<seq<Record>>): Option<seq<Record>> {
    match rest case None => None case Some(more) => Some(rs + more)
  }

  lemma EmitFirst(r: Record, rs: seq<Record>, rest: Option<seq<Record>>)
    ensures Emit(r, EmitAll(rs, rest)) == EmitAll([r] + rs, rest)
    ensures EmitAll([], rest) == rest
  {
    if rest.Some? {
      assert [r] + (rs + rest.value) == [r] + rs + rest.value;
      assert [] + rest.value == rest.value;
    }
  }

  function TextSoFar(rows: seq<Record>, n: nat): string
    requires rows != [] ==> n <= |rows[0].Full()|
  {
    if rows == [] then "" else rows[0].Full()[..n]
  }

  lemma WholeReassembles(row: Record, start: nat, rest: seq<Entry>)
    requires start <= |row.Full()|
    ensures Reassemble([Part(row, start, |row.Full()| - start).Marked(true)] + rest, row.Full()[..start])
         == Emit(row, Reassemble(rest, ""))
  {
    var e := Part(row, start, |row.Full()| - start).Marked(true);
    assert ([e] + rest)[1..] == rest;
    if row.body.Some? {
      var text := row.body.value.text;
      assert text[..start] + text[start..start + (|text| - start)] == text;
    }
  }

  lemma CutReassembles(row: Record, start: nat, n: nat, rest: seq<Entry>)
    requires row.body.Some? && start + n <= |row.Full()|
    ensures Reassemble([Part(row, start, n).Marked(false)] + rest, row.Full()[..start])
         == Reassemble(rest, row.Full()[..start + n])
  {
    var e, text := Part(row, start, n).Marked(false), row.body.value.text;
    assert ([e] + rest)[1..] == rest;
    assert text[..start] + text[start..start + n] == text[..start + n];
  }

  lemma {:induction false} FillReassembles(rows: seq<Record>, limit: nat, start: nat, taken: seq<Entry>,
                                           rest: seq<Entry>)
    requires rows != [] ==> start <= |rows[0].Full()|
    requires limit == 0 ==> start == 0
    requires Fill(rows, limit, start, taken).Ok?
    ensures var f := Fill(rows, limit, start, taken).value;
      && |taken| <= |f.entries| && f.entries[..|taken|] == taken
      && (f.next == 0 ==>
            && |taken| <= f.consumed <= |taken| + |rows|
            && Reassemble(f.entries[|taken|..] + rest, TextSoFar(rows, start))
            == if f.consumed == |taken| then Reassemble(rest, TextSoFar(rows, start))
               else EmitAll(rows[..f.consumed - |taken|], Reassemble(rest, "")))
      && (f.next > 0 ==>
            && rows != [] && taken == [] && f.next <= |rows[0].Full()|
            && Reassemble(f.entries + rest, TextSoFar(rows, start)) == Reassemble(rest, rows[0].Full()[..f.next]))
  {
    hide Fits, Part, Longest, Reassemble, Entry.Marked;
    var f := Fill(rows, limit, start, taken).value;
    if rows == [] || limit == 0 {
      assert f.entries[|taken|..] + rest == rest;
    } else {
      var row := rows[0];
      var whole := Part(row, start, |row.Full()| - start);
      if Fits(taken, whole) {
        var more := taken + [whole.Marked(true)];
        FillReassembles(rows[1..], limit - 1, 0, more, rest);
        FillShape(rows[1..], limit - 1, 0, more);
        WholeReassembles(row, start, f.entries[|more|..] + rest);
        OneMore(f.entries, taken, whole.Marked(true), rest);
        var c := f.consumed - |more|;
        assert TextSoFar(rows[1..], 0) == "";
        assert rows[..c + 1] == [row] + rows[1..][..c];
        EmitFirst(row, rows[1..][..c], Reassemble(rest, ""));
      } else if taken != [] {
        assert f.entries[|taken|..] + rest == rest;
      } else {
        CutReassembles(row, start, Longest(row, start, |row.Full()| - start), rest);
      }
    }
  }

  lemma OneMore(entries: seq<Entry>, taken: seq<Entry>, e: Entry, rest: seq<Entry>)
    requires |taken| < |entries| && entries[..|taken| + 1] == taken + [e]
    ensures entries[..|taken|] == taken
    ensures entries[|taken|..] + rest == [e] + (entries[|taken| + 1..] + rest)
  {
    assert entries[|taken|] == entries[..|taken| + 1][|taken|];
    assert entries[..|taken|] == entries[..|taken| + 1][..|taken|];
  }

  // A position that some cursor of this list can name.
  ghost predicate Consistent(records: seq<Record>, at: Position) {
    && at.offset <= |records|
    && (at.offset == |records| ==> at.textOffset == 0)
    && (at.offset < |records| ==> at.textOffset <= |records[at.offset].Full()|)
    && (at.offset < |records| && at.record.Some? ==> at.record.value == records[at.offset])
  }

  // The central promise: whoever follows the cursors gets the rest of the list, every record
  // once, in order and with its full text.
  lemma {:induction false} CursorsReassemble(records: seq<Record>, query: Query, scope: string, at: Position)
    requires Consistent(records, at)
    requires Follow(records, query, scope, at).Ok?
    ensures Reassemble(Follow(records, query, scope, at).value, TextSoFar(records[at.offset..], at.textOffset))
         == Some(records[at.offset..])
    decreases RecordsLeft(records, at), CharsLeft(records, at)
  {
    hide Fill, Reassemble;
    var rows := records[at.offset..];
    var page := PageFrom(rows, query, scope, at).value;
    PageProgress(records, query, scope, at);
    FillShape(rows, query.limit, at.textOffset, []);
    var f := Fill(rows, query.limit, at.textOffset, []).value;
    if page.cursor.None? {
      FillReassembles(rows, query.limit, at.textOffset, [], []);
      assert page.entries + [] == page.entries;
      assert Reassemble([], "") == Some([]) by { NothingLeft(); }
      assert f.consumed == |rows|;
      assert rows[..f.consumed] + [] == rows;
    } else {
      var next := QueryPosition(query, scope, Token(page.cursor.value)).value;
      CursorsReassemble(records, query, scope, next);
      var rest := Follow(records, query, scope, next).value;
      FillReassembles(rows, query.limit, at.textOffset, [], rest);
      if f.next > 0 {
        assert TextSoFar(records[next.offset..], next.textOffset) == rows[0].Full()[..f.next];
      } else {
        assert TextSoFar(records[next.offset..], next.textOffset) == "";
        assert rows == rows[..f.consumed] + records[next.offset..];
      }
    }
  }

  lemma NothingLeft()
    ensures Reassemble([], "") == Some([])
  {}

  // ----- When the enumeration completes -----

  // The record fits at once, or each of its characters fits on a page of its own.
  ghost predicate Splittable(row: Record) {
    || Fits([], Part(row, 0, |row.Full()|))
    || (row.Full() != "" && forall start {:trigger Part(row, start, 1)} ::
        0 <= start < |row.Full()| ==> Fits([], Part(row, start, 1)))
  }

  lemma {:induction false} EnumerationCompletes(records: seq<Record>, query: Query, scope: string, at: Position)
    requires Consistent(records, at) && |records| <= MAX_OFFSET
    requires forall r :: r in records ==> Splittable(r) && |r.Full()| <= MAX_OFFSET
    requires at.textOffset > 0 ==>
      at.textOffset < |records[at.offset].Full()|
        && !Fits([], Part(records[at.offset], 0, |records[at.offset].Full()|))
    ensures Follow(records, query, scope, at).Ok?
    decreases RecordsLeft(records, at), CharsLeft(records, at)
  {
    hide Fits, Part, Fill;
    var rows := records[at.offset..];
    if rows == [] {
      EmptyListPages(query, scope, at);
    } else {
      assert Splittable(rows[0]);
      PageFailsExactly(rows, query, scope, at);
      PageProgress(records, query, scope, at);
      var page := PageFrom(rows, query, scope, at).value;
      if page.cursor.Some? {
        var next := QueryPosition(query, scope, Token(page.cursor.value)).value;
        if next.offset == at.offset {
          assert next.textOffset > 0;
          CutOnlyWhenTooLong(rows, query, scope, at);
        }
        EnumerationCompletes(records, query, scope, next);
      }
    }
  }

  lemma EmptyListPages(query: Query, scope: string, at: Position)
    ensures PageFrom([], query, scope, at) == Ok(Page([], None))
  {}

  // A record is cut only when all that is left of it does not fit.
  lemma CutOnlyWhenTooLong(rows: seq<Record>, query: Query, scope: string, at: Position)
    requires rows != [] && PageFrom(rows, query, scope, at).Ok?
    ensures var page := PageFrom(rows, query, scope, at).value;
      page.cursor.Some? && page.cursor.value.textOffset > 0 ==>
        && at.textOffset < |rows[0].Full()|
        && !Fits([], Part(rows[0], at.textOffset, |rows[0].Full()| - at.textOffset))
        && page.entries == [Part(rows[0], at.textOffset, page.cursor.value.textOffset - at.textOffset).Marked(false)]
        && (forall n :: page.cursor.value.textOffset - at.textOffset < n <= |rows[0].Full()| - at.textOffset ==>
              !Fits([], Part(rows[0], at.textOffset, n)))
  {
    hide Fits;
    FillShape(rows, query.limit, at.textOffset, []);
    var whole := Part(rows[0], at.textOffset, |rows[0].Full()| - at.textOffset);
    if Fits([], whole) {
      FillShape(rows[1..], query.limit - 1, 0, [] + [whole.Marked(true)]);
    }
  }

  // Together: the pages of a list of splittable records end, and hold exactly that list.
  lemma EveryRecordOnce(records: seq<Record>, query: Query, scope: string)
    requires |records| <= MAX_OFFSET
    requires forall r :: r in records ==> Splittable(r) && |r.Full()| <= MAX_OFFSET
    ensures Follow(records, query, scope, Position(0, 0, None)).Ok?
    ensures Reassemble(Follow(records, query, scope, Position(0, 0, None)).value, "") == Some(records)
  {
    hide Fits, Part, Follow, Reassemble;
    var at := Position(0, 0, None);
    EnumerationCompletes(records, query, scope, at);
    CursorsReassemble(records, query, scope, at);
    assert records[0..] == records;
  }

  // ----- A list that changes between two pages -----

  // A record cut on one page is continued only from the same record at the same place. The next
  // page is empty exactly when the list has become too short, and refused exactly when another
  // record stands there, or the rest of this one cannot give a character.
  lemma ChangedRecordIsNoticed(before: seq<Record>, after: seq<Record>, query: Query, scope: string,
                               presented: Presented)
    requires PageOf(before, query, scope, presented).Ok?
    requires var page := PageOf(before, query, scope, presented).value;
      page.cursor.Some? && 0 < page.cursor.value.textOffset <= MAX_OFFSET && page.cursor.value.offset <= MAX_OFFSET
    ensures var c := PageOf(before, query, scope, presented).value.cursor.value;
      var next := PageOf(after, query, scope, Token(c));
      && 0 <= c.offset < |before| && c.textOffset < |before[c.offset].Full()|
      && ((next.Ok? && next.value.entries == []) <==> |after| <= c.offset)
      && (next.Err? <==>
            && c.offset < |after|
            && (after[c.offset] != before[c.offset]
                || (!Fits([], Part(before[c.offset], c.textOffset, |before[c.offset].Full()| - c.textOffset))
                    && !Fits([], Part(before[c.offset], c.textOffset, 1)))))
      && (next.Ok? && next.value.entries != [] ==>
            && c.offset < |after| && after[c.offset] == before[c.offset]
            && next.value.entries[0].slice.Some?
            && next.value.entries[0].slice.value.offset == c.textOffset)
  {
    hide Fits, Longest, Fill, Part;
    var at := QueryPosition(query, scope, presented).value;
    PageProgress(before, query, scope, at);
    var c := PageOf(before, query, scope, presented).value.cursor.value;
    CutCursorNamesItsRecord(before, query, scope, at);
    var there := QueryPosition(query, scope, Token(c)).value;
    var rows, next := From(after, c.offset), PageOf(after, query, scope, Token(c));
    if rows == [] {
      EmptyListPages(query, scope, there);
    } else if rows[0] == before[c.offset] {
      PageFailsExactly(rows, query, scope, there);
    }
    if next.Ok? {
      FirstEntry(rows, query, scope, there);
    }
  }

  lemma CutCursorNamesItsRecord(records: seq<Record>, query: Query, scope: string, at: Position)
    requires PageFrom(From(records, at.offset), query, scope, at).Ok?
    ensures var page := PageFrom(From(records, at.offset), query, scope, at).value;
      page.cursor.Some? && page.cursor.value.textOffset > 0 ==>
        var c := page.cursor.value;
        && 0 <= c.offset < |records| && c.textOffset < |records[c.offset].Full()| && c.record == Some(records[c.offset])
        && c.query == query && c.scope == scope
  {
    hide Fill;
    PageProgress(records, query, scope, at);
  }

  // It happens: the rest of a long note is never read when the list is emptied in between.
  lemma CutRecordCanVanish(scope: string, s: string)
    requires |s| == 12000 && forall i :: 0 <= i < |s| ==> 'a' <= s[i] <= 'z'
    ensures var r := PageOf([Record([], Some(Body("text", s)))], Query("", 20), scope, NoCursor);
      && r.Ok? && r.value.cursor.Some? && 0 < r.value.cursor.value.textOffset < 12000
      && PageOf([], Query("", 20), scope, Token(r.value.cursor.value)) == Ok(Page([], None))
  {
    hide Fill, Longest, Part, PageSize, Fits, ReturnedSize;
    LongNoteExceeds(scope, s);
    PageProgress([Record([], Some(Body("text", s)))], Query("", 20), scope, Position(0, 0, None));
    assert From([Record([], Some(Body("text", s)))], 0) == [Record([], Some(Body("text", s)))];
    EmptyListPages(Query("", 20), scope, Position(0, 0, None));
    NothingToPage(scope, PageOf([Record([], Some(Body("text", s)))], Query("", 20), scope,
                                NoCursor).value.cursor.value);
  }

  lemma NothingToPage(scope: string, c: Cursor)
    requires c.query == Query("", 20) && c.scope == scope && 0 <= c.offset <= MAX_OFFSET
      && 0 <= c.textOffset <= MAX_OFFSET
    ensures PageOf([], Query("", 20), scope, Token(c)) == Ok(Page([], None))
  {}

  lemma FirstEntry(rows: seq<Record>, query: Query, scope: string, at: Position)
    requires PageFrom(rows, query, scope, at).Ok?
    ensures var page := PageFrom(rows, query, scope, at).value;
      && (rows == [] <==> page.entries == [])
      && (rows == [] ==> page.cursor.None?)
      && (rows != [] && rows[0].body.Some? ==>
          page.entries[0].slice.Some? && page.entries[0].slice.value.offset == at.textOffset)
      && (rows != [] && at.textOffset > 0 ==> rows[0].body.Some? && (at.record.Some? ==> at.record.value == rows[0]))
  {
    hide Fits, Longest;
    if rows != [] {
      var whole := Part(rows[0], at.textOffset, |rows[0].Full()| - at.textOffset);
      if Fits([], whole) {
        TakenStays(rows[1..], query.limit - 1, [] + [whole.Marked(true)]);
      }
    }
  }

  lemma {:induction false} TakenStays(rows: seq<Record>, limit: nat, taken: seq<Entry>)
    requires taken != [] && Fill(rows, limit, 0, taken).Ok?
    ensures Fill(rows, limit, 0, taken).value.entries != []
    ensures Fill(rows, limit, 0, taken).value.entries[0] == taken[0]
  {
    hide Fits, Part, Longest, Entry.Marked;
    if rows != [] && limit > 0 {
      var whole := Part(rows[0], 0, |rows[0].Full()|);
      if Fits(taken, whole) {
        TakenStays(rows[1..], limit - 1, taken + [whole.Marked(true)]);
      }
    }
  }
}
