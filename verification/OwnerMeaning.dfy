// What a cursor stands for, and what is measured for the budget, on the fields and characters.
module OwnerMeaning {
  import opened Wrappers
  import opened JsonSize
  import opened OwnerLookup
  import opened OwnerPages

  // A presented cursor is accepted exactly for the query and the scope it was made for, with
  // offsets that are numbers of 63 bits; without one the lookup begins at the start.
  lemma CursorMeans(query: Query, scope: string, presented: Presented)
    ensures QueryPosition(query, scope, presented).Ok? <==>
      || presented == NoCursor
      || (presented.Token? && presented.cursor.query == query && presented.cursor.scope == scope
          && 0 <= presented.cursor.offset && presented.cursor.offset <= 9223372036854775807
          && 0 <= presented.cursor.textOffset && presented.cursor.textOffset <= 9223372036854775807)
    ensures QueryPosition(query, scope, presented).Ok? ==>
      var at := QueryPosition(query, scope, presented).value;
      && (presented == NoCursor ==> at.offset == 0 && at.textOffset == 0 && at.record.None?)
      && (presented.Token? ==>
            && at.offset == presented.cursor.offset && at.textOffset == presented.cursor.textOffset
            && at.record == presented.cursor.record)
  {}

  // An entry shows the fields of its record and the asked part of its text, with its offset.
  lemma PartMeans(row: Record, start: nat, length: nat)
    requires start + length <= |row.Full()|
    ensures var e := Part(row, start, length);
      && e.fields == row.fields && (e.slice.Some? <==> row.body.Some?)
      && (row.body.Some? ==>
            && e.slice.value.key == row.body.value.key && e.slice.value.offset == start
            && e.slice.value.text == row.body.value.text[start..start + length] && e.slice.value.complete.None?)
      && forall done :: row.body.Some? ==>
        e.Marked(done) == e.(slice := Some(e.slice.value.(complete := Some(done))))
  {}

  // The cursor of a page names its query and scope and the first record that is not all told.
  lemma NextCursorMeans(records: seq<Record>, query: Query, scope: string, at: Position)
    requires PageFrom(From(records, at.offset), query, scope, at).Ok?
    ensures var page := PageFrom(From(records, at.offset), query, scope, at).value;
      page.cursor.Some? ==>
        var c := page.cursor.value;
        && c.query == query && c.scope == scope && at.offset <= c.offset < |records| && 0 <= c.textOffset
        && (c.textOffset > 0 <==> c.record.Some?)
        && (c.record.Some? ==>
              && c.record.value == records[c.offset] && c.textOffset < |records[c.offset].Full()|
              && c.offset == at.offset && |page.entries| == 1)
        && (c.record.None? ==> c.offset == at.offset + |page.entries|)
  {
    hide Fits, Longest, Part;
    var rows := From(records, at.offset);
    if Fill(rows, query.limit, at.textOffset, []).Ok? {
      FillShape(rows, query.limit, at.textOffset, []);
      FillCursor(rows, query.limit, at.textOffset, []);
    }
  }

  lemma {:induction false} FillCursor(rows: seq<Record>, limit: nat, start: nat, taken: seq<Entry>)
    requires Fill(rows, limit, start, taken).Ok?
    ensures var f := Fill(rows, limit, start, taken).value;
      && (f.next > 0 ==> rows != [] && f.cut == Some(rows[0]) && |f.entries| == 1)
      && (f.next == 0 ==> f.cut.None? && f.consumed == |f.entries|)
  {
    hide Fits, Longest, Part, Entry.Marked;
    if rows != [] && limit > 0 {
      var whole := Part(rows[0], start, |rows[0].Full()| - start);
      if Fits(taken, whole) {
        FillCursor(rows[1..], limit - 1, 0, taken + [whole.Marked(true)]);
        FillShape(rows[1..], limit - 1, 0, taken + [whole.Marked(true)]);
      }
    }
  }

  // A page is measured as the JSON text of its envelope with the entries in it, each with its
  // fields, the part of the text, and the offset; and it fits within 11000 by all three measures.
  lemma BudgetMeans(taken: seq<Entry>, e: Entry)
    ensures Fits(taken, e) ==> forall m: Measure :: PageSize(m, taken + [e]) <= 11000
    ensures !Fits(taken, e) ==> exists m: Measure :: 11000 < PageSize(m, taken + [e])
    ensures forall m :: PageSize(m, [e]) == 66 + EntrySize(m, e)
    ensures forall m :: taken != [] ==> PageSize(m, taken + [e]) == PageSize(m, taken) + EntrySize(m, e) + 2
  {
    forall m
      ensures Fits(taken, e) ==> PageSize(m, taken + [e]) <= 11000
      ensures PageSize(m, [e]) == 66 + EntrySize(m, e)
      ensures taken != [] ==> PageSize(m, taken + [e]) == PageSize(m, taken) + EntrySize(m, e) + 2
    {
      assert m == Chars || m == Utf8 || m == Ascii;
      AppendedSize(m, taken, e);
      AppendedSize(m, [], e);
      assert [] + [e] == [e];
    }
  }

  // A lookup may ask for one to a hundred records.
  lemma LimitsAre(n: int)
    ensures (exists q: Query :: q.limit == n) <==> 1 <= n <= 100
  {
    if 1 <= n <= 100 {
      var q := Query("", n);
      assert q.limit == n;
    }
  }

  // A cursor is the base64 text of a JSON object: a fingerprint of 64 digits, the two offsets, and
  // the hash of the record that was cut, or null.
  lemma TokenMeans(c: Cursor)
    requires 0 <= c.offset && 0 <= c.textOffset
    ensures TokenLength(c) == (ObjectSize(Ascii, [
      Field("fingerprint", Literal(66)),
      Field("offset", Literal(Digits(c.offset))),
      Field("text_offset", Literal(Digits(c.textOffset))),
      Field("record_hash", Literal(if c.record.Some? then 66 else 4))]) + 2) / 3 * 4
  {
    hide TextCost, Digits;
    var f, o := Field("fingerprint", Literal(66)), Field("offset", Literal(Digits(c.offset)));
    var t := Field("text_offset", Literal(Digits(c.textOffset)));
    var r := Field("record_hash", Literal(if c.record.Some? then 66 else 4));
    AppendedField(Ascii, [], f);
    AppendedField(Ascii, [f], o);
    AppendedField(Ascii, [f, o], t);
    AppendedField(Ascii, [f, o, t], r);
    assert [] + [f] == [f] && [f] + [o] == [f, o] && [f, o] + [t] == [f, o, t] && [f, o, t] + [r] == [f, o, t, r];
    NamesCost();
  }

  lemma NamesCost()
    ensures TextCost(Ascii, "fingerprint") == 11 && TextCost(Ascii, "offset") == 6
    ensures TextCost(Ascii, "text_offset") == 11 && TextCost(Ascii, "record_hash") == 11
  {
    hide TextCost;
    PlainCost(Ascii, "fingerprint");
    PlainCost(Ascii, "offset");
    PlainCost(Ascii, "text_offset");
    PlainCost(Ascii, "record_hash");
  }
}
