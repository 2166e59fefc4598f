/** JsonConverter.java: an indented rendering of an element tree. Integers,
    strings and lists print as their toString; a dictionary prints one line
    per entry, indented two spaces per nesting level. Render states the
    result; the JsonConverter class computes it with its mutable
    nestingLevel and a string builder. */
module Rendering {
  import opened Java
  import opened Elements

  /** JsonConverter.SHIFT: spaces per nesting level. */
  const Shift: nat := 2

  function Indent(level: nat): (r: string)
    ensures |r| == Shift * level && forall k | 0 <= k < |r| :: r[k] == ' '
  {
    Repeat(' ', level * Shift)
  }

  /** What json(e) returns when nestingLevel is `level`. */
  function Render(e: Element, level: nat): string
  {
    match e
    case BInteger(v) => IntToString(v)
    case BList(_) => ToString(e)
    case BString(_) => ToString(e)
    case BDictionary(d) => Opening(level) + EntryLines(d, level + 1) + Indent(level) + "}"
  }

  /** The opening of a dictionary: "{" and a line break at the top; deeper
      down a line break first, then "{" indented at the current level. */
  function Opening(level: nat): string
  {
    if level == 0 then "{" + "\n" else "\n" + Indent(level) + "{" + "\n"
  }

  /** The lines of the entries in map order, each at `level`, as the
      forEach appends them to the builder. */
  function EntryLines(d: seq<Entry>, level: nat): string
  {
    if d == [] then "" else EntryLines(d[..|d| - 1], level) + EntryLine(d[|d| - 1], level)
  }

  function EntryLine(entry: Entry, level: nat): string
  {
    Indent(level) + ToString(BString(entry.key)) + ": " + Render(entry.value, level) + "\n"
  }

  /** The text a sequence of appends produces. */
  function Concat(parts: seq<string>): string
  {
    if parts == [] then "" else Concat(parts[..|parts| - 1]) + parts[|parts| - 1]
  }

  lemma ConcatParts(a: string, b: string, c: string, d: string)
    ensures Concat([a, b]) == a + b
    ensures Concat([a, b, c]) == a + b + c
    ensures Concat([a, b, c, d]) == a + b + c + d
  {
    assert Concat([a]) == a by { assert [a][..0] == []; }
    assert Concat([a, b]) == a + b by { assert [a, b][..1] == [a]; }
    assert Concat([a, b, c]) == a + b + c by { assert [a, b, c][..2] == [a, b]; }
    assert [a, b, c, d][..3] == [a, b, c];
  }

  class JsonConverter {
    var nestingLevel: nat

    constructor ()
      ensures nestingLevel == 0
    {
      nestingLevel := 0;
    }

    /** JsonConverter.json; it leaves nestingLevel as it found it. */
    method Json(element: Element) returns (s: string)
      modifies this
      ensures nestingLevel == old(nestingLevel)
      ensures s == Render(element, old(nestingLevel))
      decreases element
    {
      match element
      case BInteger(v) =>
        s := IntToString(v);
      case BList(_) =>
        s := ToString(element);
      case BString(_) =>
        s := ToString(element);
      case BDictionary(d) =>
        s := JsonDictionary(d);
    }

    /** json's dictionary case: the opening, the entries one level deeper,
        and the closing brace back at the current level. */
    method JsonDictionary(d: seq<Entry>) returns (s: string)
      modifies this
      ensures nestingLevel == old(nestingLevel)
      ensures s == Opening(old(nestingLevel)) + EntryLines(d, old(nestingLevel) + 1) + Indent(old(nestingLevel)) + "}"
      decreases d, 1
    {
      ghost var level := nestingLevel;
      var sb := "";
      if nestingLevel == 0 {
        sb := AppendStrings(sb, ["{", "\n"]);
        ConcatParts("{", "\n", "", "");
      } else {
        var open := Shifted("{");
        sb := AppendStrings(sb, ["\n", open, "\n"]);
        ConcatParts("\n", open, "\n", "");
      }
      assert sb == Opening(level);
      nestingLevel := nestingLevel + 1;
      sb := AppendEntries(sb, d);
      assert sb == Opening(level) + EntryLines(d, level + 1);
      nestingLevel := nestingLevel - 1;
      var close := Shifted("}");
      s := sb + close;
    }

    /** The dictionary case's forEach: one line per entry, in map order, at
        the current nesting level. */
    method AppendEntries(sb: string, d: seq<Entry>) returns (r: string)
      modifies this
      ensures nestingLevel == old(nestingLevel)
      ensures r == sb + EntryLines(d, old(nestingLevel))
      decreases d, 0
    {
      r := sb;
      for k := 0 to |d|
        invariant nestingLevel == old(nestingLevel)
        invariant r == sb + EntryLines(d[..k], nestingLevel)
      {
        var key := Shifted(ToString(BString(d[k].key)));
        var value := Json(d[k].value);
        r := AppendStrings(r, [key, ": ", value, "\n"]);
        ConcatParts(key, ": ", value, "\n");
        assert d[..k + 1][..k] == d[..k];
      }
      assert d[..|d|] == d;
    }

    /** JsonConverter.appendStrings: the builder's text with the parts
        appended in order. */
    method AppendStrings(sb: string, parts: seq<string>) returns (r: string)
      ensures r == sb + Concat(parts)
    {
      r := sb;
      for k := 0 to |parts|
        invariant r == sb + Concat(parts[..k])
      {
        r := r + parts[k];
        assert parts[..k + 1][..k] == parts[..k];
      }
      assert parts[..|parts|] == parts;
    }

    /** JsonConverter.shifted: the value moved right by two spaces per
        nesting level. */
    method Shifted(value: string) returns (r: string)
      ensures r == Indent(nestingLevel) + value
    {
      r := Repeat(' ', nestingLevel * Shift) + value;
    }
  }
}
