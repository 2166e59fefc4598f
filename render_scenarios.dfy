/** The converter on the elements its tests use: a string, an integer, a
    flat and a nested list, a flat dictionary, and a dictionary holding one
    of each kind, with a dictionary one level down. */
module RenderScenarios {
  import opened Java
  import opened Elements
  import opened Rendering

  lemma TwoDigits()
    ensures IntToString(42) == "42" && IntToString(43) == "43"
  {
    assert NatToDigits(4) == "4";
  }

  lemma ThreeDigits()
    ensures IntToString(123) == "123" && IntToString(1232) == "1232"
  {
    assert NatToDigits(1) == "1";
    assert NatToDigits(12) == "12";
    assert NatToDigits(123) == "123";
  }

  /** A string prints between double quotes. */
  lemma RenderString()
    ensures Render(BString("hello"), 0) == "\"hello\""
  {
  }

  /** An integer prints in decimal. */
  lemma RenderInteger()
    ensures Render(BInteger(1232), 0) == "1232"
  {
    ThreeDigits();
  }

  const Flat: Element := BList([BInteger(123), BString("key"), BString("he||0")])

  /** The test's expected texts, written in the pieces that print them. */
  const FlatText: string := "[" + "123" + ", " + "\"key\"" + ", " + "\"he||0\"" + "]"

  lemma FlatJoined()
    ensures ToString(Flat) == FlatText
  {
    ThreeDigits();
    assert Quote("key") == "\"key\"" && Quote("he||0") == "\"he||0\"";
    assert [BString("key"), BString("he||0")][1..] == [BString("he||0")];
    assert JoinItems(Flat.list) == "123" + ", " + ("\"key\"" + ", " + "\"he||0\"");
  }

  /** A list prints as its toString, with the items separated by ", ". */
  lemma RenderList()
    ensures Render(Flat, 0) == FlatText
  {
    FlatJoined();
  }

  /** A list inside a list prints the same way, on one line. */
  lemma RenderNestedList()
    ensures Render(BList([Flat, BInteger(0)]), 0) == "[" + FlatText + ", " + "0" + "]"
  {
    FlatJoined();
    assert [Flat, BInteger(0)][1..] == [BInteger(0)];
    assert JoinItems([BInteger(0)]) == "0";
    assert JoinItems([Flat, BInteger(0)]) == FlatText + ", " + "0";
  }

  // -------------------------------------------------------- dictionaries

  lemma Indents()
    ensures Indent(0) == "" && Indent(1) == "  " && Indent(2) == "    "
  {
    assert Repeat(' ', 2) == "  ";
    assert Repeat(' ', 3) == "   ";
  }

  /** The forEach appends one more line for one more entry. */
  lemma EntryLinesAppend(d: seq<Entry>, e: Entry, level: nat)
    ensures EntryLines(d + [e], level) == EntryLines(d, level) + EntryLine(e, level)
  {
    assert (d + [e])[..|d|] == d;
  }

  lemma TwoLines(first: Entry, second: Entry, level: nat)
    ensures EntryLines([first, second], level) == EntryLine(first, level) + EntryLine(second, level)
  {
    EntryLinesAppend([], first, level);
    EntryLinesAppend([first], second, level);
    assert [] + [first] == [first] && [first] + [second] == [first, second];
  }

  lemma BarLine(level: nat)
    ensures EntryLine(Entry("bar", BString("spam")), level) == Indent(level) + "\"bar\": \"spam\"" + "\n"
  {
    assert Quote("bar") + ": " + Quote("spam") == "\"bar\": \"spam\"";
  }

  lemma FooLine(level: nat)
    ensures EntryLine(Entry("foo", BInteger(42)), level) == Indent(level) + "\"foo\": 42" + "\n"
  {
    TwoDigits();
    assert Quote("foo") + ": " + "42" == "\"foo\": 42";
  }

  const BarFoo: seq<Entry> := [Entry("bar", BString("spam")), Entry("foo", BInteger(42))]

  lemma BarFooLines(level: nat)
    ensures EntryLines(BarFoo, level) ==
            Indent(level) + "\"bar\": \"spam\"" + "\n" + (Indent(level) + "\"foo\": 42" + "\n")
  {
    BarLine(level);
    FooLine(level);
    TwoLines(BarFoo[0], BarFoo[1], level);
  }

  /** A dictionary at the top: "{", one line per entry indented by two
      spaces, in map order, and "}" at the start of the last line. */
  lemma RenderDictionary()
    ensures Render(BDictionary(BarFoo), 0) ==
            "{" + "\n" + ("  " + "\"bar\": \"spam\"" + "\n" + ("  " + "\"foo\": 42" + "\n")) + "}"
  {
    Indents();
    BarFooLines(1);
  }

  /** One level down, the opening starts a new line and the braces are
      indented by two spaces, the entries by four. */
  lemma RenderInnerDictionary()
    ensures Render(BDictionary(BarFoo), 1) ==
            "\n" + "  " + "{" + "\n" + ("    " + "\"bar\": \"spam\"" + "\n" + ("    " + "\"foo\": 42" + "\n")) + "  " + "}"
  {
    Indents();
    BarFooLines(2);
  }

  /** An empty dictionary is its two braces on two lines. */
  lemma RenderEmptyDictionary()
    ensures Render(BDictionary([]), 0) == "{" + "\n" + "}"
  {
    Indents();
  }

  /** An entry whose value is a dictionary, below the top: after the key
      the line breaks, and the inner braces stand at the entry's own
      indentation, its entries one level deeper. */
  lemma DictionaryEntryLine(key: string, d: seq<Entry>, level: nat)
    requires level > 0
    ensures EntryLine(Entry(key, BDictionary(d)), level) ==
            Indent(level) + Quote(key) + ": " +
            ("\n" + Indent(level) + "{" + "\n" + EntryLines(d, level + 1) + Indent(level) + "}") + "\n"
  {
  }

  /** The test's entry "d" at the first level, holding bar and foo. */
  lemma RenderDictionaryEntry()
    ensures EntryLine(Entry("d", BDictionary(BarFoo)), 1) ==
            "  " + "\"d\"" + ": " +
            ("\n" + "  " + "{" + "\n" + ("    " + "\"bar\": \"spam\"" + "\n" + ("    " + "\"foo\": 42" + "\n")) + "  " + "}") +
            "\n"
  {
    Indents();
    RenderInnerDictionary();
  }
}
