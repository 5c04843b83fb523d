// The facts that a merge leaves are written to the notes one by one: as a line of their own, in
// the place of a line that says the same without a source, or not at all when this call has
// noted them already.
module NoteAppend {
  import opened Wrappers
  import opened Closeouts
  import opened NoteMerge

  // What is left to text rules: whether a line says what a fact says, whether it bears a due date
  // or a source annotation, the mark of this call in an annotation, and a fact with its annotation.
  datatype Facts = Facts(
    matches: (string, Update) -> bool,
    dated: string -> bool,
    sourced: string -> bool,
    tag: string,
    head: Update -> string)
  {
    function Rendered(u: Update): string {
      head(u) + Due(u)
    }

    predicate OfThisCall(line: string) {
      Quotes(line, tag)
    }

    // A fact is one line, and its annotation names this call.
    predicate Plain(u: Update) {
      tag != "" && OfThisCall(head(u)) && Unbroken(Rendered(u)) && Unbroken(Due(u))
    }
  }

  function Due(u: Update): string {
    if u.due.Some? && u.due.value != "" then " Due: " + u.due.value + "." else ""
  }

  predicate Unbroken(s: string) {
    forall c :: c in s ==> !Breaks(c)
  }

  // ----- Lines without their endings -----

  function Texts(note: string): seq<string> {
    seq(|Lines(note)|, i requires 0 <= i < |Lines(note)| => Lines(note)[i].text)
  }

  function JoinTexts(texts: seq<string>): string {
    if texts == [] then "" else if |texts| == 1 then texts[0] else texts[0] + "\n" + JoinTexts(texts[1..])
  }

  function Put(texts: seq<string>, at: string, put: string): seq<string> {
    seq(|texts|, i requires 0 <= i < |texts| => if texts[i] == at then put else texts[i])
  }

  // ----- The loop of _commit -----

  function SameCall(f: Facts, texts: seq<string>, u: Update): (line: Option<string>)
    ensures line.Some? ==> line.value in texts && f.matches(line.value, u) && f.OfThisCall(line.value)
    ensures line.None? ==> forall t :: t in texts ==> !(f.matches(t, u) && f.OfThisCall(t))
  {
    if texts == [] then None
    else if f.matches(texts[0], u) && f.OfThisCall(texts[0]) then Some(texts[0])
    else SameCall(f, texts[1..], u)
  }

  function Undated(f: Facts, texts: seq<string>, u: Update): (line: Option<string>)
    ensures line.Some? ==> line.value in texts && f.matches(line.value, u) && !f.sourced(line.value)
    ensures line.None? ==> forall t :: t in texts ==> !f.matches(t, u) || f.sourced(t)
  {
    if texts == [] then None
    else if f.matches(texts[0], u) && !f.sourced(texts[0]) then Some(texts[0])
    else Undated(f, texts[1..], u)
  }

  function Separator(note: string): string {
    if note == "" || note[|note| - 1] == '\n' then "" else "\n"
  }

  datatype Written = Written(note: string, applied: nat)

  function Write(f: Facts, note: string, u: Update): Written {
    var texts := Texts(note);
    var same := SameCall(f, texts, u);
    if same.Some? then
      if Due(u) != "" && !f.dated(same.value)
      then Written(JoinTexts(Put(texts, same.value, same.value + Due(u))), 1)
      else Written(note, 0)
    else
      var undated := Undated(f, texts, u);
      if undated.Some? then Written(JoinTexts(Put(texts, undated.value, f.Rendered(u))), 1)
      else if Quotes(note, f.Rendered(u)) then Written(note, 0)
      else Written(note + Separator(note) + f.Rendered(u), 1)
  }

  function WriteAll(f: Facts, note: string, us: seq<Update>): Written {
    if us == [] then Written(note, 0)
    else
      var before := WriteAll(f, note, us[..|us| - 1]);
      var after := Write(f, before.note, us[|us| - 1]);
      Written(after.note, before.applied + after.applied)
  }

  method AppendFacts(f: Facts, note: string, us: seq<Update>) returns (after: string, applied: nat)
    ensures Written(after, applied) == WriteAll(f, note, us)
  {
    hide Quotes;
    after, applied := note, 0;
    var i := 0;
    while i < |us|
      invariant i <= |us| && Written(after, applied) == WriteAll(f, note, us[..i])
    {
      var u, texts := us[i], Texts(after);
      var due, line := Due(u), f.Rendered(u);
      var same, undated := SameCall(f, texts, u), Undated(f, texts, u);
      if same.Some? {
        if due != "" && !f.dated(same.value) {
          after := JoinTexts(Put(texts, same.value, same.value + due));
          applied := applied + 1;
        }
      } else if undated.Some? {
        after := JoinTexts(Put(texts, undated.value, line));
        applied := applied + 1;
      } else if !Quotes(after, line) {
        after := after + Separator(after) + line;
        applied := applied + 1;
      }
      i := i + 1;
      assert us[..i][..i - 1] == us[..i - 1];
    }
    assert us[..i] == us;
  }
}
