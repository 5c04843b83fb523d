// The length of JSON texts, as the bounds of the source measure it.
module JsonSize {
  // A number, a boolean or null counts as the width of its literal.
  datatype Value = Text(text: string) | Literal(width: nat)

  datatype Field = Field(name: string, value: Value)

  // Characters of the plain encoding, its UTF-8 bytes, and characters with ASCII escapes.
  datatype Measure = Chars | Utf8 | Ascii

  function Digits(n: nat): nat {
    if n < 10 then 1 else 1 + Digits(n / 10)
  }

  function CharCost(m: Measure, c: char): nat {
    var code := c as int;
    if c == '"' || c == '\\' || 8 <= code <= 10 || 12 <= code <= 13 then 2
    else if code < 0x20 then 6
    else if code < 0x7f then 1
    else
      match m
      case Chars => 1
      case Utf8 => if code < 0x80 then 1 else if code < 0x800 then 2 else if code < 0x10000 then 3 else 4
      case Ascii => if code < 0x10000 then 6 else 12
  }

  function TextCost(m: Measure, s: string): nat {
    if s == [] then 0 else TextCost(m, s[..|s| - 1]) + CharCost(m, s[|s| - 1])
  }

  function FieldSize(m: Measure, f: Field): nat {
    TextCost(m, f.name) + 4 + match f.value case Text(s) => TextCost(m, s) + 2 case Literal(w) => w
  }

  // Each field is followed by a separator or by the closing brace.
  function FieldsSize(m: Measure, fs: seq<Field>): nat {
    if fs == [] then 0 else FieldsSize(m, fs[..|fs| - 1]) + FieldSize(m, fs[|fs| - 1]) + 2
  }

  function ObjectSize(m: Measure, fs: seq<Field>): nat {
    if fs == [] then 2 else FieldsSize(m, fs)
  }

  lemma {:induction false} PrefixCost(m: Measure, s: string, n: nat)
    requires n <= |s|
    ensures TextCost(m, s[..n]) <= TextCost(m, s)
  {
    if n < |s| {
      PrefixCost(m, s[..|s| - 1], n);
      assert s[..|s| - 1][..n] == s[..n];
    } else {
      assert s[..n] == s;
    }
  }

  lemma AppendedField(m: Measure, fs: seq<Field>, f: Field)
    ensures FieldsSize(m, fs + [f]) == FieldsSize(m, fs) + FieldSize(m, f) + 2
  {
    assert (fs + [f])[..|fs + [f]| - 1] == fs;
  }

  // The encoding with ASCII escapes is never shorter than the other two.
  lemma {:induction false} AsciiDominates(m: Measure, s: string)
    ensures TextCost(m, s) <= TextCost(Ascii, s)
  {
    if s != [] {
      AsciiDominates(m, s[..|s| - 1]);
    }
  }

  lemma {:induction false} AsciiDominatesFields(m: Measure, fs: seq<Field>)
    ensures FieldsSize(m, fs) <= FieldsSize(Ascii, fs)
  {
    if fs != [] {
      var last := fs[|fs| - 1];
      AsciiDominatesFields(m, fs[..|fs| - 1]);
      AsciiDominates(m, last.name);
      if last.value.Text? {
        AsciiDominates(m, last.value.text);
      }
    }
  }

  predicate Plain(c: char) {
    'a' <= c <= 'z' || c == '_'
  }

  lemma {:induction false} PlainCost(m: Measure, s: string)
    requires forall i :: 0 <= i < |s| ==> Plain(s[i])
    ensures TextCost(m, s) == |s|
  {
    if s != [] {
      PlainCost(m, s[..|s| - 1]);
    }
  }

  // Escapes: two characters for quotes, backslashes and the named controls, six for the others;
  // beyond ASCII one, as many as UTF-8 has bytes, or six and twice six in ASCII.
  lemma CharacterMeans(c: char)
    ensures var code := c as int;
      forall m :: CharCost(m, c) ==
        if code in {8, 9, 10, 12, 13, 34, 92} then 2
        else if code < 32 then 6
        else if code < 127 then 1
        else match m
          case Chars => 1
          case Utf8 => if code == 127 then 1 else if code < 2048 then 2 else if code < 65536 then 3 else 4
          case Ascii => if code < 65536 then 6 else 12
  {}

  // A field takes its name and its value, quotes, a colon and a space; text has quotes, too.
  lemma FieldMeans(m: Measure, name: string, text: string, width: nat)
    ensures FieldSize(m, Field(name, Text(text))) == TextCost(m, name) + TextCost(m, text) + 6
    ensures FieldSize(m, Field(name, Literal(width))) == TextCost(m, name) + width + 4
    ensures ObjectSize(m, [Field(name, Text(text))]) == TextCost(m, name) + TextCost(m, text) + 8
    ensures ObjectSize(m, []) == 2
  {
    AppendedField(m, [], Field(name, Text(text)));
    assert [] + [Field(name, Text(text))] == [Field(name, Text(text))];
  }
}
