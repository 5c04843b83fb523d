// Paging of owner lookups: whole records while they fit the response budget, one record
// split over several pages when it does not, and a cursor that resumes between the two.
module OwnerLookup {
  import opened Wrappers
  import opened JsonSize

  const BUDGET: nat := 11000
  const MAX_OFFSET: int := 0x7FFF_FFFF_FFFF_FFFF

  // ----- Records, and the JSON size of what is returned -----

  datatype Body = Body(key: string, text: string)

  // The field named `text`, or else `notes`, is the one that may be split.
  datatype Record = Record(fields: seq<Field>, body: Option<Body>)
  {
    function Full(): string {
      if body.Some? then body.value.text else ""
    }
  }

  datatype Slice = Slice(key: string, text: string, offset: nat, complete: Option<bool>)

  datatype Entry = Entry(fields: seq<Field>, slice: Option<Slice>)
  {
    function Marked(complete: bool): Entry {
      if slice.Some? then this.(slice := Some(slice.value.(complete := Some(complete)))) else this
    }

    function AllFields(): seq<Field> {
      fields + if slice.None? then [] else
        [Field(slice.value.key, Text(slice.value.text)), Field("text_offset", Literal(Digits(slice.value.offset)))]
        + match slice.value.complete
          case None => []
          case Some(done) => [Field("complete", Literal(if done then 4 else 5))]
    }
  }

  function EntrySize(m: Measure, e: Entry): nat {
    ObjectSize(m, e.AllFields())
  }

  function EntriesSize(m: Measure, es: seq<Entry>): nat {
    if es == [] then 0 else EntriesSize(m, es[..|es| - 1]) + EntrySize(m, es[|es| - 1]) + 2
  }

  // The envelope with an empty record list takes 66 characters, its brackets among them, as
  // long as there is no cursor.
  function PageSize(m: Measure, es: seq<Entry>): nat {
    if es == [] then 66 else 64 + EntriesSize(m, es)
  }

  predicate Fits(taken: seq<Entry>, e: Entry) {
    PageSize(Chars, taken + [e]) <= BUDGET && PageSize(Utf8, taken + [e]) <= BUDGET
      && PageSize(Ascii, taken + [e]) <= BUDGET
  }

  // ----- query_position -----

  type Limit = n: nat | 1 <= n <= 100 witness 20

  datatype Query = Query(terms: string, limit: Limit)

  // Fingerprints and record hashes are the values they are computed from.
  datatype Cursor = Cursor(query: Query, scope: string, offset: int, textOffset: int, record: Option<Record>)

  datatype Presented = NoCursor | Garbled | Token(cursor: Cursor)

  datatype Position = Position(offset: nat, textOffset: nat, record: Option<Record>)

  function QueryPosition(query: Query, scope: string, presented: Presented): Result<Position> {
    match presented
    case NoCursor => Ok(Position(0, 0, None))
    case Garbled => Err(Invalid)
    case Token(c) =>
      if c.query != query || c.scope != scope || !(0 <= c.offset <= MAX_OFFSET) || !(0 <= c.textOffset <= MAX_OFFSET)
        then Err(Invalid)
      else Ok(Position(c.offset, c.textOffset, c.record))
  }

  // ----- page_records -----

  function Part(row: Record, start: nat, length: nat): Entry
    requires start + length <= |row.Full()|
  {
    Entry(row.fields, match row.body
      case None => None
      case Some(b) => Some(Slice(b.key, b.text[start..start + length], start, None)))
  }

  // The longest prefix of at most `length` characters that fits on an empty page; 0 is not tried.
  function Longest(row: Record, start: nat, length: nat): (n: nat)
    requires start + length <= |row.Full()|
    ensures n <= length
    ensures n > 0 ==> Fits([], Part(row, start, n))
    ensures forall k :: n < k <= length ==> !Fits([], Part(row, start, k))
  {
    if length == 0 || Fits([], Part(row, start, length)) then length else Longest(row, start, length - 1)
  }

  // `consumed` counts whole records; `next` is positive when a last record was cut.
  datatype Filled = Filled(entries: seq<Entry>, consumed: nat, next: nat, cut: Option<Record>)

  function Fill(rows: seq<Record>, limit: nat, start: nat, taken: seq<Entry>): Result<Filled> {
    if rows == [] || limit == 0 then Ok(Filled(taken, |taken|, 0, None))
    else
      var row := rows[0];
      if start > |row.Full()| then Err(Invalid)
      else
        var whole := Part(row, start, |row.Full()| - start);
        if Fits(taken, whole) then Fill(rows[1..], limit - 1, 0, taken + [whole.Marked(true)])
        else if taken != [] then Ok(Filled(taken, |taken|, 0, None))
        else if row.body.None? then Err(Invalid)
        else
          var n := Longest(row, start, |row.Full()| - start);
          if n == 0 then Err(Invalid)
          else Ok(Filled([Part(row, start, n).Marked(false)], 0, start + n, Some(row)))
  }

  datatype Page = Page(entries: seq<Entry>, cursor: Option<Cursor>)

  // The base64 text of a cursor: 129 characters of JSON around a fingerprint of 64 digits, the two
  // offsets, and a quoted record hash of 64 digits or null.
  function TokenLength(c: Cursor): nat
    requires c.offset >= 0 && c.textOffset >= 0
  {
    (129 + Digits(c.offset) + Digits(c.textOffset) + (if c.record.Some? then 66 else 4) + 2) / 3 * 4
  }

  function PageFrom(rows: seq<Record>, query: Query, scope: string, at: Position): Result<Page> {
    if rows != [] && at.record.Some? && rows[0] != at.record.value then Err(Invalid)
    else
      match Fill(rows, query.limit, at.textOffset, [])
      case Err(e) => Err(e)
      case Ok(f) =>
        if f.next > 0 || f.consumed < |rows|
        then Ok(Page(f.entries, Some(Cursor(query, scope, at.offset + f.consumed, f.next, f.cut))))
        else Ok(Page(f.entries, None))
  }

  function From(records: seq<Record>, offset: nat): seq<Record> {
    if offset <= |records| then records[offset..] else []
  }

  function PageOf(records: seq<Record>, query: Query, scope: string, presented: Presented): Result<Page> {
    match QueryPosition(query, scope, presented)
    case Err(e) => Err(e)
    case Ok(at) => PageFrom(From(records, at.offset), query, scope, at)
  }

  // One row of Fill, by its index in the whole list.
  lemma FillAt(rows: seq<Record>, i: nat, limit: nat, start: nat, taken: seq<Entry>)
    requires i <= |rows|
    ensures i == |rows| || limit == 0 ==> Fill(rows[i..], limit, start, taken) == Ok(Filled(taken, |taken|, 0, None))
    ensures i < |rows| && limit > 0 ==>
      var length := |rows[i].Full()| - start;
      Fill(rows[i..], limit, start, taken) ==
        if length < 0 then Err(Invalid)
        else if Fits(taken, Part(rows[i], start, length))
        then Fill(rows[i + 1..], limit - 1, 0, taken + [Part(rows[i], start, length).Marked(true)])
        else if taken != [] then Ok(Filled(taken, |taken|, 0, None))
        else if rows[i].body.None? || Longest(rows[i], start, length) == 0 then Err(Invalid)
        else var n := Longest(rows[i], start, length);
          Ok(Filled([Part(rows[i], start, n).Marked(false)], 0, start + n, Some(rows[i])))
  {
    hide Fits, Longest, Part;
    if i < |rows| {
      assert rows[i..][1..] == rows[i + 1..];
    }
  }

  method PageRecords(records: seq<Record>, query: Query, scope: string, presented: Presented, offsetApplied: bool)
    returns (r: Result<Page>)
    ensures !offsetApplied ==> r == PageOf(records, query, scope, presented)
    ensures offsetApplied ==>
      match QueryPosition(query, scope, presented)
      case Err(e) => r == Err(e)
      case Ok(at) => r == PageFrom(records, query, scope, at)
  {
    hide Fits, Longest, Part, Fill;
    var decoded := QueryPosition(query, scope, presented);
    if decoded.Err? {
      return Err(decoded.error);
    }
    var at := decoded.value;
    var rows := if offsetApplied then records else From(records, at.offset);
    var entries: seq<Entry>, consumed, next, cut := [], 0, 0, None;
    var i := 0;
    assert rows[0..] == rows;
    while i < |rows| && i < query.limit
      invariant i <= |rows| && i <= query.limit && consumed == i == |entries| && next == 0 && cut == None
      invariant i > 0 && at.record.Some? ==> rows[0] == at.record.value
      invariant Fill(rows, query.limit, at.textOffset, [])
             == Fill(rows[i..], query.limit - i, if i == 0 then at.textOffset else 0, entries)
    {
      FillAt(rows, i, query.limit - i, if i == 0 then at.textOffset else 0, entries);
      var row := rows[i];
      if consumed == 0 && at.record.Some? && row != at.record.value {
        return Err(Invalid);
      }
      var start := if consumed == 0 then at.textOffset else 0;
      var full := row.Full();
      if start > |full| {
        return Err(Invalid);
      }
      var entry := Part(row, start, |full| - start);
      if !Fits(entries, entry) {
        if entries != [] {
          break;
        }
        if row.body.None? {
          return Err(Invalid);
        }
        var lo := LongestPrefix(row, start);
        if lo == 0 {
          return Err(Invalid);
        }
        next := start + lo;
        cut := Some(row);
        entries := [Part(row, start, lo).Marked(false)];
        break;
      }
      entries := entries + [entry.Marked(true)];
      consumed := consumed + 1;
      i := i + 1;
    }
    FillAt(rows, i, query.limit - i, if i == 0 then at.textOffset else 0, entries);
    assert Fill(rows, query.limit, at.textOffset, []) == Ok(Filled(entries, consumed, next, cut));
    if next > 0 || consumed < |rows| {
      return Ok(Page(entries, Some(Cursor(query, scope, at.offset + consumed, next, cut))));
    }
    return Ok(Page(entries, None));
  }

  // The binary search: right because a longer prefix is never smaller.
  method LongestPrefix(row: Record, start: nat) returns (lo: nat)
    requires start <= |row.Full()| && row.body.Some?
    ensures lo == Longest(row, start, |row.Full()| - start)
  {
    lo := 0;
    var hi := |row.Full()| - start;
    while lo < hi
      invariant lo <= hi <= |row.Full()| - start
      invariant lo > 0 ==> Fits([], Part(row, start, lo))
      invariant forall k :: hi < k <= |row.Full()| - start ==> !Fits([], Part(row, start, k))
    {
      var mid := (lo + hi + 1) / 2;
      if Fits([], Part(row, start, mid)) {
        lo := mid;
      } else {
        forall k | mid <= k <= |row.Full()| - start ensures !Fits([], Part(row, start, k)) {
          ShorterFits(row, start, mid, k);
        }
        hi := mid - 1;
      }
    }
  }

  // ----- Sizes -----

  // The size of an entry with a body, taken apart.
  lemma SlicedSize(m: Measure, e: Entry)
    requires e.slice.Some?
    ensures var s := e.slice.value;
      EntrySize(m, e) == FieldsSize(m, e.fields) + TextCost(m, s.key) + TextCost(m, s.text)
                       + TextCost(m, "text_offset") + Digits(s.offset) + 14
                       + match s.complete
                         case None => 0
                         case Some(done) => TextCost(m, "complete") + if done then 10 else 11
  {
    hide Digits, TextCost, CharCost, FieldsSize;
    var s := e.slice.value;
    var body, at := Field(s.key, Text(s.text)), Field("text_offset", Literal(Digits(s.offset)));
    AppendedField(m, e.fields, body);
    AppendedField(m, e.fields + [body], at);
    if s.complete.Some? {
      var mark := Field("complete", Literal(if s.complete.value then 4 else 5));
      AppendedField(m, e.fields + [body] + [at], mark);
      assert e.AllFields() == e.fields + [body] + [at] + [mark];
    } else {
      assert e.AllFields() == e.fields + [body] + [at];
    }
  }

  lemma AppendedSize(m: Measure, taken: seq<Entry>, e: Entry)
    ensures PageSize(m, taken + [e]) == 66 + EntriesSize(m, taken) + EntrySize(m, e)
  {
    assert (taken + [e])[..|taken + [e]| - 1] == taken;
  }

  lemma ShorterFits(row: Record, start: nat, n: nat, k: nat)
    requires row.body.Some? && n <= k && start + k <= |row.Full()|
    ensures Fits([], Part(row, start, k)) ==> Fits([], Part(row, start, n))
  {
    forall m ensures PageSize(m, [] + [Part(row, start, n)]) <= PageSize(m, [] + [Part(row, start, k)]) {
      ShorterSize(m, row, start, n, k);
    }
  }

  lemma ShorterSize(m: Measure, row: Record, start: nat, n: nat, k: nat)
    requires row.body.Some? && n <= k && start + k <= |row.Full()|
    ensures PageSize(m, [] + [Part(row, start, n)]) <= PageSize(m, [] + [Part(row, start, k)])
  {
    hide PageSize, EntrySize, TextCost, FieldsSize, Digits;
    var text := row.body.value.text;
    PrefixOfSlice(text, start, n, k);
    PrefixCost(m, text[start..start + k], n);
    SlicedSize(m, Part(row, start, n));
    SlicedSize(m, Part(row, start, k));
    AppendedSize(m, [], Part(row, start, n));
    AppendedSize(m, [], Part(row, start, k));
  }

  lemma PrefixOfSlice(text: string, start: nat, n: nat, k: nat)
    requires n <= k && start + k <= |text|
    ensures text[start..start + k][..n] == text[start..start + n]
  {}

  lemma {:induction false} AsciiDominatesEntries(m: Measure, es: seq<Entry>)
    ensures EntriesSize(m, es) <= EntriesSize(Ascii, es)
  {
    if es != [] {
      AsciiDominatesEntries(m, es[..|es| - 1]);
      AsciiDominatesFields(m, es[|es| - 1].AllFields());
    }
  }

  lemma FitsExactlyInAscii(taken: seq<Entry>, e: Entry)
    ensures Fits(taken, e) <==> PageSize(Ascii, taken + [e]) <= BUDGET
  {
    AsciiDominatesEntries(Chars, taken + [e]);
    AsciiDominatesEntries(Utf8, taken + [e]);
  }
}
