// What the facts that are written do to the notes, line by line.
module NoteAppendProofs {
  import opened Wrappers
  import opened Closeouts
  import opened NoteMerge
  import opened NoteAppend
  import NoteMergeProofs

  // ----- Splitting and joining -----

  lemma NoLines()
    ensures Lines("") == [] && Texts("") == []
  {}

  lemma TextsFollow(s: string, line: Line, rest: string)
    requires Lines(s) == [line] + Lines(rest)
    ensures Texts(s) == [line.text] + Texts(rest)
  {
    hide Lines;
  }

  function Width(s: string, n: nat): nat
    requires n < |s|
  {
    if s[n] == '\r' && n + 1 < |s| && s[n + 1] == '\n' then 2 else 1
  }

  lemma BreakWidth(s: string, n: nat)
    requires n < |s| && Breaks(s[n])
    ensures n + Width(s, n) <= |s| && forall i :: n <= i < n + Width(s, n) ==> Breaks(s[i])
  {
    forall i | n <= i < n + Width(s, n) ensures Breaks(s[i]) {
      assert i == n || s[i] == '\n';
    }
  }

  lemma SplitAt(s: string)
    requires s != "" && BreakAt(s) < |s|
    ensures var n := BreakAt(s);
      && n + Width(s, n) <= |s| && (forall i :: n <= i < n + Width(s, n) ==> Breaks(s[i]))
      && Lines(s) == [Line(s[..n], s[n..n + Width(s, n)])] + Lines(s[n + Width(s, n)..])
  {
    hide Lines, BreakAt, Breaks;
    BreakWidth(s, BreakAt(s));
    NoteMergeProofs.LinesOnce(s);
  }

  lemma SplitMore(s: string, more: string)
    requires s != "" && BreakAt(s) < |s| && BreakAt(s) + Width(s, BreakAt(s)) < |s|
    ensures var n := BreakAt(s);
      var rest := s[n + Width(s, n)..];
      Lines(s + more) == [Line(s[..n], s[n..n + Width(s, n)])] + Lines(rest + more)
  {
    hide Lines, BreakAt;
    var n := BreakAt(s);
    var width := Width(s, n);
    SameBreak(s, more);
    SplitAt(s + more);
    assert Width(s + more, n) == width;
    assert (s + more)[..n] == s[..n] && (s + more)[n..n + width] == s[n..n + width];
    assert (s + more)[n + width..] == s[n + width..] + more;
  }

  // The first line of a text, which stays the first line when more is added behind a second one.
  lemma Split(s: string, more: string) returns (line: Line, rest: string)
    requires s != ""
    ensures line.Whole() + rest == s && |rest| < |s| && Unbroken(line.text)
    ensures Lines(s) == [line] + Lines(rest) && Texts(s) == [line.text] + Texts(rest)
    ensures rest != "" ==> Texts(s + more) == [line.text] + Texts(rest + more)
    ensures line.text == s[..BreakAt(s)] && forall c :: c in line.ending ==> Breaks(c)
    ensures line.ending == "" ==> rest == ""
  {
    hide Lines, BreakAt, Texts, Width;
    var n := BreakAt(s);
    if n == |s| {
      line, rest := Line(s, ""), "";
      NoteMergeProofs.LinesOnce(s);
      NoLines();
      assert s[..n] == s;
      assert [line] + [] == [line];
    } else {
      SplitAt(s);
      var width := Width(s, n);
      line, rest := Line(s[..n], s[n..n + width]), s[n + width..];
      WidthOk(s, n);
      if rest != "" {
        SplitMore(s, more);
        TextsFollow(s + more, line, rest + more);
      }
    }
    TextsFollow(s, line, rest);
  }

  lemma WidthOk(s: string, n: nat)
    requires n < |s|
    ensures 1 <= Width(s, n) && n + Width(s, n) <= |s|
  {}

  lemma SameBreak(s: string, more: string)
    requires BreakAt(s) < |s|
    ensures BreakAt(s + more) == BreakAt(s)
  {
    hide BreakAt;
    var n := BreakAt(s);
    assert (s + more)[n] == s[n];
  }

  lemma {:induction false} LinesUnbroken(note: string)
    ensures forall t :: t in Texts(note) ==> Unbroken(t)
    decreases |note|
  {
    hide Lines, Unbroken, BreakAt;
    NoLines();
    if note != "" {
      var line, rest := Split(note, "");
      LinesUnbroken(rest);
    }
  }

  // A blank line at the very end is lost when the lines are joined again.
  function Trimmed(texts: seq<string>): seq<string> {
    if texts != [] && texts[|texts| - 1] == "" then texts[..|texts| - 1] else texts
  }

  lemma {:induction false} JoinedAgain(texts: seq<string>)
    requires forall t :: t in texts ==> Unbroken(t)
    ensures Texts(JoinTexts(texts)) == Trimmed(texts)
  {
    hide Lines, BreakAt;
    NoLines();
    if |texts| == 1 {
      OneLine(texts[0]);
    } else if |texts| > 1 {
      JoinedAgain(texts[1..]);
      BrokenAfter(texts[0], JoinTexts(texts[1..]));
      assert texts == [texts[0]] + texts[1..];
    }
  }

  lemma OneLine(t: string)
    requires Unbroken(t)
    ensures Texts(t) == if t == "" then [] else [t]
  {
    hide Lines;
    NoLines();
    if t != "" { NoteMergeProofs.LinesOnce(t); }
  }

  lemma BrokenAfter(t: string, rest: string)
    requires Unbroken(t)
    ensures Texts(t + "\n" + rest) == [t] + Texts(rest)
  {
    hide Lines;
    var s := t + "\n" + rest;
    NoteMergeProofs.LinesOnce(s);
    assert s[|t|] == '\n';
    assert BreakAt(s) == |t|;
    assert s[..|t|] == t && s[|t| + 1..] == rest;
  }

  // A line that is added follows all others, perhaps after a blank one.
  lemma {:induction false} LineAdded(note: string, t: string)
    requires Unbroken(t) && t != ""
    ensures var after := Texts(note + Separator(note) + t);
      after == Texts(note) + [t] || after == Texts(note) + ["", t]
    decreases |note|
  {
    hide Lines, BreakAt;
    NoLines();
    OneLine(t);
    if note == "" {
      assert note + Separator(note) + t == t;
    } else {
      var more := Separator(note) + t;
      var line, rest := Split(note, more);
      assert note + Separator(note) + t == note + more;
      if rest == "" {
        LastLine(note, line, t);
      } else {
        LineAdded(rest, t);
        assert note[|note| - 1] == rest[|rest| - 1];
        assert rest + Separator(rest) + t == rest + more;
        assert [line.text] + (Texts(rest) + [t]) == Texts(note) + [t];
        assert [line.text] + (Texts(rest) + ["", t]) == Texts(note) + ["", t];
      }
    }
  }

  lemma LastLine(note: string, line: Line, t: string)
    requires note != "" && Lines(note) == [line] && Unbroken(t) && t != ""
    requires line.text == note[..BreakAt(note)]
    ensures Followed(Texts(note + Separator(note) + t), line.text, t)
  {
    hide Lines, BreakAt, Texts;
    var n := BreakAt(note);
    OneLine(t);
    if n == |note| {
      BrokenAfter(note, t);
      assert note[..n] == note;
      assert note + Separator(note) + t == note + "\n" + t;
      assert [note] + [t] == [note, t];
    } else {
      LastRest(note, n, Width(note, n));
      LastEnded(note, t);
    }
  }

  // The only line has an ending already: it is used, completed, or followed by a blank line.
  lemma LastEnded(note: string, t: string)
    requires BreakAt(note) < |note| && BreakAt(note) + Width(note, BreakAt(note)) == |note| && Texts(t) == [t]
    ensures Followed(Texts(note + Separator(note) + t), note[..BreakAt(note)], t)
  {
    hide Lines, BreakAt, Texts, Width, Followed;
    if note[|note| - 1] == '\n' {
      EndsLine(note, t);
      assert note + Separator(note) + t == note + t;
    } else {
      EndsOtherwise(note, t);
      assert note + Separator(note) + t == note + ("\n" + t);
    }
  }

  predicate Followed(texts: seq<string>, first: string, t: string) {
    texts == [first, t] || texts == [first, "", t]
  }

  lemma EndsLine(note: string, t: string)
    requires BreakAt(note) < |note| && BreakAt(note) + Width(note, BreakAt(note)) == |note| && Texts(t) == [t]
    requires note[|note| - 1] == '\n'
    ensures Followed(Texts(note + t), note[..BreakAt(note)], t)
  {
    hide Lines, BreakAt, Texts;
    var n := BreakAt(note);
    FirstEnded(note, t, Width(note, n));
    assert t[0..] == t;
  }

  lemma EndsOtherwise(note: string, t: string)
    requires BreakAt(note) < |note| && BreakAt(note) + Width(note, BreakAt(note)) == |note| && Texts(t) == [t]
    requires note[|note| - 1] != '\n'
    ensures Followed(Texts(note + ("\n" + t)), note[..BreakAt(note)], t)
  {
    hide Lines, BreakAt, Texts;
    var n, more := BreakAt(note), "\n" + t;
    if note[n] == '\r' {
      FirstEnded(note, more, 2);
      assert more[1..] == t;
    } else {
      FirstEnded(note, more, 1);
      BrokenAfter("", t);
      assert more[0..] == "" + "\n" + t;
      assert [note[..n]] + ([""] + [t]) == [note[..n], "", t];
    }
  }

  lemma FirstEnded(note: string, more: string, width: nat)
    requires BreakAt(note) < |note| && BreakAt(note) + Width(note, BreakAt(note)) == |note|
    requires width == Width(note + more, BreakAt(note)) && |note| <= BreakAt(note) + width
    ensures BreakAt(note) + width - |note| <= |more|
    ensures Texts(note + more) == [note[..BreakAt(note)]] + Texts(more[BreakAt(note) + width - |note|..])
  {
    hide Lines, BreakAt, Texts;
    var n, s := BreakAt(note), note + more;
    SameBreak(note, more);
    SplitAt(s);
    var line, rest := Line(s[..n], s[n..n + width]), s[n + width..];
    assert s[..n] == note[..n];
    assert rest == more[n + width - |note|..];
    TextsFollow(s, line, rest);
  }

  // Nothing follows the ending of the only line.
  lemma LastRest(note: string, n: nat, width: nat)
    requires n == BreakAt(note) < |note| && |Lines(note)| == 1
    requires width == Width(note, n)
    ensures n + width == |note|
  {
    hide Lines, BreakAt;
    NoteMergeProofs.LinesOnce(note);
    if n + width < |note| {
      NoteMergeProofs.LinesOnce(note[n + width..]);
    }
  }

  // ----- Quoting -----

  predicate Starts(t: string, front: string) {
    |front| <= |t| && t[..|front|] == front
  }

  lemma StartQuotes(t: string, front: string, quote: string)
    requires Starts(t, front) && Quotes(front, quote)
    ensures Quotes(t, quote)
  {
    NoteMergeProofs.QuotesInside("", front, t[|front|..], quote);
    assert "" + front + t[|front|..] == t;
  }

  lemma QuotesItself(t: string)
    ensures Quotes(t, t)
  {
    assert t[0..][..|t|] == t;
  }

  lemma QuotesOn(t: string, middle: string, quote: string)
    requires Quotes(t, middle) && Quotes(middle, quote)
    ensures Quotes(t, quote)
  {
    var i :| 0 <= i <= |t| - |middle| && t[i..][..|middle|] == middle;
    NoteMergeProofs.QuotesInside(t[..i], middle, t[i + |middle|..], quote);
    assert t[..i] + middle + t[i + |middle|..] == t;
  }

  // A text without a line break that the note quotes is quoted by one of its lines.
  lemma {:induction false} QuotedByLine(note: string, quote: string)
    requires Unbroken(quote) && quote != "" && Quotes(note, quote)
    ensures exists t :: t in Texts(note) && Quotes(t, quote)
    decreases |note|
  {
    hide Lines, BreakAt, Texts, Breaks;
    var line, rest := Split(note, "");
    var i :| 0 <= i <= |note| - |quote| && note[i..][..|quote|] == quote;
    if i + |quote| <= |line.text| {
      assert line.text[i..][..|quote|] == quote;
      assert line.text in Texts(note);
    } else if i >= |line.Whole()| {
      var j := i - |line.Whole()|;
      assert rest[j..][..|quote|] == quote;
      QuotedByLine(rest, quote);
    } else {
      Straddles(line, rest, i, quote);
      assert false;
    }
  }

  // A quotation that reaches into the end of a line has its break in it.
  lemma Straddles(line: Line, rest: string, i: nat, quote: string)
    requires quote != "" && i + |quote| <= |line.Whole() + rest|
    requires (line.Whole() + rest)[i..][..|quote|] == quote && forall c :: c in line.ending ==> Breaks(c)
    requires i < |line.Whole()| && i + |quote| > |line.text| && (line.ending == "" ==> rest == "")
    ensures exists c :: c in quote && Breaks(c)
  {
    hide Breaks;
    var p := if i < |line.text| then |line.text| else i;
    assert (line.Whole() + rest)[i..][..|quote|][p - i] == (line.Whole() + rest)[p];
    assert (line.Whole() + rest)[p] == line.ending[p - |line.text|];
    assert quote[p - i] in quote;
  }

  // ----- What the loop does to the lines -----

  // A line that is touched says what some fact says: if it is of this call a due date is added
  // to it, and without a source it gives way to the fact.
  predicate Touched(f: Facts, us: seq<Update>, was: string, now: string) {
    exists u :: u in us && f.matches(was, u)
      && if f.OfThisCall(was) then Starts(now, was) else !f.sourced(was) && Starts(now, f.Rendered(u))
  }

  predicate Kept(f: Facts, us: seq<Update>, was: string, now: string) {
    now == was || Touched(f, us, was, now)
  }

  predicate Added(f: Facts, us: seq<Update>, t: string) {
    t == "" || exists u :: u in us && Starts(t, f.Rendered(u))
  }

  // Every line stays in its place, but for blank ones; what is new are the facts.
  ghost predicate LinesKept(f: Facts, us: seq<Update>, was: seq<string>, now: seq<string>) {
    && (forall i :: 0 <= i < |was| && was[i] != "" ==> i < |now| && Kept(f, us, was[i], now[i]))
    && (forall i :: 0 <= i < |now| && (i < |was| ==> was[i] == "") ==> Added(f, us, now[i]))
  }

  // The line says the fact with its annotation, or says it as something noted in this call.
  predicate Noted(f: Facts, u: Update, t: string) {
    || Quotes(t, f.Rendered(u))
    || exists n :: 0 <= n <= |t| && f.matches(t[..n], u) && f.OfThisCall(t[..n])
  }

  ghost predicate NotedIn(f: Facts, u: Update, texts: seq<string>) {
    exists t :: t in texts && Noted(f, u, t)
  }

  lemma RenderedOfCall(f: Facts, u: Update)
    requires f.Plain(u)
    ensures f.OfThisCall(f.Rendered(u)) && f.Rendered(u) != ""
  {
    assert Starts(f.Rendered(u), f.head(u));
    StartQuotes(f.Rendered(u), f.head(u), f.tag);
  }

  lemma NotedOfCall(f: Facts, u: Update, t: string)
    requires f.Plain(u) && Noted(f, u, t)
    ensures f.OfThisCall(t) && t != ""
  {
    hide Quotes;
    RenderedOfCall(f, u);
    if Quotes(t, f.Rendered(u)) {
      QuotesOn(t, f.Rendered(u), f.tag);
    } else {
      var n :| 0 <= n <= |t| && f.matches(t[..n], u) && f.OfThisCall(t[..n]);
      StartQuotes(t, t[..n], f.tag);
    }
    NotEmpty(t, f.tag);
  }

  lemma NotEmpty(t: string, quote: string)
    requires Quotes(t, quote) && quote != ""
    ensures t != ""
  {}

  lemma NotedOn(f: Facts, u: Update, was: string, now: string)
    requires Noted(f, u, was) && Starts(now, was)
    ensures Noted(f, u, now)
  {
    hide Quotes;
    if Quotes(was, f.Rendered(u)) {
      StartQuotes(now, was, f.Rendered(u));
    } else {
      var n :| 0 <= n <= |was| && f.matches(was[..n], u) && f.OfThisCall(was[..n]);
      assert now[..n] == was[..n];
    }
  }

  lemma NotedStays(f: Facts, us: seq<Update>, u: Update, was: seq<string>, now: seq<string>)
    requires f.Plain(u) && LinesKept(f, us, was, now) && NotedIn(f, u, was)
    ensures NotedIn(f, u, now)
  {
    hide Noted, Quotes;
    var t :| t in was && Noted(f, u, t);
    var i :| 0 <= i < |was| && was[i] == t;
    NotedOfCall(f, u, t);
    assert Kept(f, us, was[i], now[i]);
    assert Starts(now[i], t);
    NotedOn(f, u, t, now[i]);
  }

  lemma KeptOn(f: Facts, us: seq<Update>, more: seq<Update>, was: string, mid: string, now: string)
    requires forall u :: u in us ==> f.Plain(u)
    requires Kept(f, us, was, mid) && Kept(f, more, mid, now)
    ensures Kept(f, us + more, was, now)
  {
    hide Quotes;
    if mid == was {
      if now != mid {
        var u :| u in more && f.matches(mid, u)
          && if f.OfThisCall(mid) then Starts(now, mid) else !f.sourced(mid) && Starts(now, f.Rendered(u));
        assert u in us + more;
      }
    } else {
      var u :| u in us && f.matches(was, u)
        && if f.OfThisCall(was) then Starts(mid, was) else !f.sourced(was) && Starts(mid, f.Rendered(u));
      assert u in us + more;
      RenderedOfCall(f, u);
      var front := if f.OfThisCall(was) then was else f.Rendered(u);
      StartQuotes(mid, front, f.tag);
      assert Starts(now, mid);
      assert now[..|front|] == mid[..|front|];
    }
  }

  lemma AddedOn(f: Facts, us: seq<Update>, more: seq<Update>, mid: string, now: string)
    requires forall u :: u in us ==> f.Plain(u)
    requires mid != "" && Added(f, us, mid) && Kept(f, more, mid, now)
    ensures Added(f, us + more, now)
  {
    hide Quotes;
    var u :| u in us && Starts(mid, f.Rendered(u));
    assert u in us + more;
    RenderedOfCall(f, u);
    StartQuotes(mid, f.Rendered(u), f.tag);
    assert Starts(now, mid);
    assert now[..|f.Rendered(u)|] == mid[..|f.Rendered(u)|];
  }

  lemma LinesKeptOn(f: Facts, us: seq<Update>, more: seq<Update>, was: seq<string>, mid: seq<string>, now: seq<string>)
    requires forall u :: u in us + more ==> f.Plain(u)
    requires LinesKept(f, us, was, mid) && LinesKept(f, more, mid, now)
    ensures LinesKept(f, us + more, was, now)
  {
    hide Kept, Added, Quotes;
    forall u | u in us ensures f.Plain(u) { assert u in us + more; }
    forall i | 0 <= i < |was| && was[i] != "" ensures i < |now| && Kept(f, us + more, was[i], now[i]) {
      KeptNotBlank(f, us, was[i], mid[i]);
      KeptOn(f, us, more, was[i], mid[i], now[i]);
    }
    forall i | 0 <= i < |now| && (i < |was| ==> was[i] == "") ensures Added(f, us + more, now[i]) {
      if i < |mid| && mid[i] != "" {
        AddedOn(f, us, more, mid[i], now[i]);
      } else {
        AddedMore(f, us, more, now[i]);
      }
    }
  }

  lemma KeptNotBlank(f: Facts, us: seq<Update>, was: string, now: string)
    requires was != "" && Kept(f, us, was, now) && forall u :: u in us ==> f.Plain(u)
    ensures now != ""
  {
    hide Quotes;
    if now != was {
      var u :| u in us && f.matches(was, u)
        && if f.OfThisCall(was) then Starts(now, was) else !f.sourced(was) && Starts(now, f.Rendered(u));
      RenderedOfCall(f, u);
    }
  }

  lemma AddedMore(f: Facts, us: seq<Update>, more: seq<Update>, t: string)
    requires Added(f, more, t)
    ensures Added(f, us + more, t)
  {
    if t != "" {
      var u :| u in more && Starts(t, f.Rendered(u));
      assert u in us + more;
    }
  }

  // ----- One fact -----

  lemma SameLines(f: Facts, us: seq<Update>, texts: seq<string>)
    ensures LinesKept(f, us, texts, texts)
  {}

  // A line is exchanged wherever it stands, and the lines are split again.
  lemma Exchanged(f: Facts, u: Update, texts: seq<string>, at: string, put: string)
    requires f.Plain(u) && f.matches(at, u) && put != ""
    requires if f.OfThisCall(at) then Starts(put, at) else !f.sourced(at) && put == f.Rendered(u)
    requires at == "" ==> put == f.Rendered(u)
    ensures LinesKept(f, [u], texts, Trimmed(Put(texts, at, put)))
  {
    hide Quotes;
    var now := Trimmed(Put(texts, at, put));
    assert u in [u];
    forall i | 0 <= i < |texts| && texts[i] != "" ensures i < |now| && Kept(f, [u], texts[i], now[i]) {
      assert now[i] == Put(texts, at, put)[i];
    }
    forall i | 0 <= i < |now| && (i < |texts| ==> texts[i] == "") ensures Added(f, [u], now[i]) {
      assert now[i] == Put(texts, at, put)[i];
      assert now[i] != "" ==> Starts(now[i], f.Rendered(u));
    }
  }

  lemma PutThere(texts: seq<string>, at: string, put: string)
    requires at in texts && put != ""
    ensures put in Trimmed(Put(texts, at, put))
  {
    var i :| 0 <= i < |texts| && texts[i] == at;
    assert Put(texts, at, put)[i] == put;
    assert Trimmed(Put(texts, at, put))[i] == put;
  }

  lemma PutUnbroken(texts: seq<string>, at: string, put: string)
    requires Unbroken(put) && forall t :: t in texts ==> Unbroken(t)
    ensures forall t :: t in Put(texts, at, put) ==> Unbroken(t)
  {}

  lemma WriteKeeps(f: Facts, note: string, u: Update)
    requires f.Plain(u)
    ensures var w := Write(f, note, u);
      && LinesKept(f, [u], Texts(note), Texts(w.note)) && NotedIn(f, u, Texts(w.note))
      && (w.applied == 0 ==> w.note == note)
  {
    hide LinesKept, Quotes, Texts, Lines, Unbroken, Noted;
    var texts, line := Texts(note), f.Rendered(u);
    var same, undated := SameCall(f, texts, u), Undated(f, texts, u);
    LinesUnbroken(note);
    RenderedOfCall(f, u);
    SameLines(f, [u], texts);
    if same.Some? {
      var put := same.value + Due(u);
      NotEmpty(same.value, f.tag);
      assert Starts(put, same.value);
      SaidThen(f, u, same.value, same.value);
      if Due(u) != "" && !f.dated(same.value) {
        SaidThen(f, u, same.value, put);
        LongerUnbroken(same.value, Due(u));
        PutUnbroken(texts, same.value, put);
        JoinedAgain(Put(texts, same.value, put));
        Exchanged(f, u, texts, same.value, put);
        PutThere(texts, same.value, put);
      }
    } else if undated.Some? {
      SaidNow(f, u, line);
      PutUnbroken(texts, undated.value, line);
      JoinedAgain(Put(texts, undated.value, line));
      Exchanged(f, u, texts, undated.value, line);
      PutThere(texts, undated.value, line);
    } else if Quotes(note, line) {
      QuotedByLine(note, line);
      var t :| t in texts && Quotes(t, line);
      SaidNow(f, u, t);
    } else {
      SaidNow(f, u, line);
      LineAdded(note, line);
      LastAdded(f, u, texts, Texts(note + Separator(note) + line));
    }
  }

  lemma SaidThen(f: Facts, u: Update, line: string, now: string)
    requires f.matches(line, u) && f.OfThisCall(line) && Starts(now, line)
    ensures Noted(f, u, now)
  {
    hide Quotes;
    assert now[..|line|] == line;
  }

  lemma SaidNow(f: Facts, u: Update, t: string)
    requires t == f.Rendered(u) || Quotes(t, f.Rendered(u))
    ensures Noted(f, u, t)
  {
    QuotesItself(f.Rendered(u));
  }

  lemma LongerUnbroken(a: string, b: string)
    requires Unbroken(a) && Unbroken(b)
    ensures Unbroken(a + b)
  {}

  lemma LastAdded(f: Facts, u: Update, texts: seq<string>, now: seq<string>)
    requires now == texts + [f.Rendered(u)] || now == texts + ["", f.Rendered(u)]
    ensures LinesKept(f, [u], texts, now) && f.Rendered(u) in now
  {
    assert u in [u];
    assert now[|now| - 1] == f.Rendered(u);
  }

  // ----- All facts -----

  // Afterwards every fact is noted, every line that says none of them stands where it stood, and
  // nothing else has come to the notes; without a change they are the same text.
  lemma {:induction false} FactsAreNoted(f: Facts, note: string, us: seq<Update>)
    requires forall u :: u in us ==> f.Plain(u)
    ensures var w := WriteAll(f, note, us);
      && (forall u :: u in us ==> NotedIn(f, u, Texts(w.note)))
      && LinesKept(f, us, Texts(note), Texts(w.note))
      && (w.applied == 0 ==> w.note == note)
  {
    hide LinesKept, NotedIn, Texts, Write;
    if us == [] {
      SameLines(f, us, Texts(note));
    } else {
      var front, last := us[..|us| - 1], us[|us| - 1];
      FactsAreNoted(f, note, front);
      var before := WriteAll(f, note, front);
      var after := Write(f, before.note, last);
      WriteKeeps(f, before.note, last);
      assert front + [last] == us;
      LinesKeptOn(f, front, [last], Texts(note), Texts(before.note), Texts(after.note));
      forall u | u in us ensures NotedIn(f, u, Texts(after.note)) {
        if u in front { NotedStays(f, [last], u, Texts(before.note), Texts(after.note)); }
      }
    }
  }

  // ----- Repeating -----

  // What the text rules promise about what is written here: a fact is recognised in its own line
  // and in one that got its due date, and the date is seen there.
  ghost predicate Recognised(f: Facts, u: Update) {
    && f.matches(f.Rendered(u), u) && (Due(u) != "" ==> f.dated(f.Rendered(u)))
    && (Due(u) != "" ==> forall t: string :: f.matches(t, u) ==> f.matches(t + Due(u), u) && f.dated(t + Due(u)))
  }

  lemma {:induction false} PutFirst(f: Facts, texts: seq<string>, u: Update, put: string)
    requires SameCall(f, texts, u).Some? && f.matches(put, u) && f.OfThisCall(put)
    ensures SameCall(f, Put(texts, SameCall(f, texts, u).value, put), u) == Some(put)
  {
    hide Quotes;
    var at := SameCall(f, texts, u).value;
    var now := Put(texts, at, put);
    if !(f.matches(texts[0], u) && f.OfThisCall(texts[0])) {
      PutFirst(f, texts[1..], u, put);
      assert now[1..] == Put(texts[1..], at, put);
    }
  }

  lemma {:induction false} OnlyThis(f: Facts, texts: seq<string>, u: Update, line: string)
    requires line in texts && f.matches(line, u) && f.OfThisCall(line)
    requires forall t :: t in texts && f.matches(t, u) && f.OfThisCall(t) ==> t == line
    ensures SameCall(f, texts, u) == Some(line)
  {
    hide Quotes;
    if texts[0] != line {
      OnlyThis(f, texts[1..], u, line);
    }
  }

  lemma {:induction false} TrimmedCall(f: Facts, texts: seq<string>, u: Update)
    requires !f.OfThisCall("")
    ensures SameCall(f, Trimmed(texts), u) == SameCall(f, texts, u)
  {
    hide Quotes;
    if |texts| == 1 {
      assert texts[1..] == [];
    } else if |texts| > 1 {
      TrimmedCall(f, texts[1..], u);
      assert Trimmed(texts) == [texts[0]] + Trimmed(texts[1..]);
    }
  }

  lemma BlankIsNoCall(f: Facts)
    requires f.tag != ""
    ensures !f.OfThisCall("")
  {}

  // A fact that was written is not written again.
  lemma WrittenOnce(f: Facts, note: string, u: Update)
    requires f.Plain(u) && Recognised(f, u)
    ensures var w := Write(f, note, u); Write(f, w.note, u) == Written(w.note, 0)
  {
    hide Quotes, Texts, Lines, Unbroken, SameCall, Undated;
    var texts, line := Texts(note), f.Rendered(u);
    var same, undated := SameCall(f, texts, u), Undated(f, texts, u);
    LinesUnbroken(note);
    RenderedOfCall(f, u);
    BlankIsNoCall(f);
    if same.Some? {
      var put := same.value + Due(u);
      if Due(u) != "" && !f.dated(same.value) {
        assert Starts(put, same.value);
        StartQuotes(put, same.value, f.tag);
        LongerUnbroken(same.value, Due(u));
        PutUnbroken(texts, same.value, put);
        JoinedAgain(Put(texts, same.value, put));
        PutFirst(f, texts, u, put);
        TrimmedCall(f, Put(texts, same.value, put), u);
      }
    } else if undated.Some? {
      var now := Put(texts, undated.value, line);
      PutUnbroken(texts, undated.value, line);
      JoinedAgain(now);
      PutAt(texts, undated.value, line);
      OnlyThis(f, now, u, line);
      TrimmedCall(f, now, u);
    } else if !Quotes(note, line) {
      LineAdded(note, line);
      OnlyThis(f, Texts(note + Separator(note) + line), u, line);
    }
  }

  lemma PutAt(texts: seq<string>, at: string, put: string)
    requires at in texts
    ensures put in Put(texts, at, put) && forall t :: t in Put(texts, at, put) ==> t in texts || t == put
  {
    var i :| 0 <= i < |texts| && texts[i] == at;
    assert Put(texts, at, put)[i] == put;
  }

  // ----- The line of a fact -----

  // It ends with the due date of the fact, if there is one.
  lemma RenderingMeans(f: Facts, u: Update)
    ensures u.due.None? || u.due.value == "" ==> f.Rendered(u) == f.head(u)
    ensures u.due.Some? && u.due.value != "" ==> f.Rendered(u) == f.head(u) + " Due: " + u.due.value + "."
  {
    assert f.head(u) + "" == f.head(u);
    assert u.due.Some? ==>
      f.head(u) + (" Due: " + u.due.value + ".") == f.head(u) + " Due: " + u.due.value + ".";
  }
}
