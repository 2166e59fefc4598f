/** Concrete runs of the parser on short token lists: an empty document,
    the two error messages, a dictionary whose order check fails, and one
    whose repeated key is overwritten in place. */
module ParserScenarios {
  import opened Java
  import opened Tokens
  import opened Reporting
  import opened Elements
  import opened Parsing
  import opened Lexing
  import opened Bencoding
  import opened Spans
  import opened ParserProperties

  /** One pass of parse's loop over an element that fails, while the
      reporter still answers true: the error is reported. */
  lemma TopLevelError(tokens: seq<Token>, pos: nat, element: Option<Element>, log: seq<Message>, ex: ParseError, p: nat)
    requires ValidTokens(tokens) && pos < |tokens| && tokens[pos].tokenType != EOF
    requires ElementAt(tokens, pos) == Fail(ex, p) && Allows(log)
    ensures TopLevel(tokens, pos, element, log) == TopLevel(tokens, p, element, log + [ParserMessage(ErrorMessage(ex))])
  {
  }

  /** At EOF after a report, parse returns null. */
  lemma TopLevelAtEnd(tokens: seq<Token>, pos: nat, element: Option<Element>, log: seq<Message>)
    requires ValidTokens(tokens) && pos == |tokens| - 1 && log != []
    ensures TopLevel(tokens, pos, element, log) == ParseResult(None, log)
  {
  }

  /** A document with no element: null, and nothing reported. */
  lemma ParseNothing()
    ensures ParseTokens([EofToken], []) == ParseResult(None, [])
  {
  }

  /** An integer opener closed at once, handed to the parser directly: on
      "ie" the lexer itself reports an incorrect number and returns null. */
  const Unclosed: seq<Token> := [Tok(IntegerBegin, 0, CharValue('i')), Tok(EndType, 1, CharValue('e')), EofToken]

  /** The message, written in the pieces Parser.unexpectedToken appends. */
  const MissingInteger: string :=
    "Line 1, position: 1" + "\nExpected tokens: " + "[INTEGER]" + ",\nActual: " + "END_TYPE" + "\n"

  lemma MissingIntegerText()
    ensures ErrorMessage(UnexpectedToken(Tok(EndType, 1, CharValue('e')), [Integer])) == MissingInteger
  {
    var t := Tok(EndType, 1, CharValue('e'));
    assert IntToString(1) == "1" by { assert NatToDigits(1) == [DigitChar(1)]; }
    assert Position(t, 1) == "Line 1, position: 1";
    assert NameList([Integer]) == "[INTEGER]" by {
      assert seq(1, k requires 0 <= k < 1 => Name([Integer][k])) == ["INTEGER"];
      assert Join(["INTEGER"]) == "INTEGER";
    }
    assert ErrorMessage(UnexpectedToken(t, [Integer])) ==
           Position(t, 1) + "\nExpected tokens: " + NameList([Integer]) + ",\nActual: " + Name(EndType) + "\n";
  }

  /** The parser expects INTEGER after INTEGER_BEGIN and reports the
      token it found at its own position; parse returns null. */
  lemma ParseMissingInteger()
    ensures ParseTokens(Unclosed, []) == ParseResult(None, [ParserMessage(MissingInteger)])
  {
    MissingIntegerText();
    assert ValidTokens(Unclosed);
    assert ElementAt(Unclosed, 0) == Fail(UnexpectedToken(Unclosed[1], [Integer]), 2);
    var m := [ParserMessage(MissingInteger)];
    assert TopLevel(Unclosed, 2, None, m) == ParseResult(None, m);
    assert TopLevel(Unclosed, 0, None, []) == TopLevel(Unclosed, 2, None, m);
  }

  // ---------------------------------------------------------- dictionaries

  /** The tokens of <key>i<v>e for a one-character key and a one-digit value,
      the key's length starting at column `at`. */
  function KeyValue(key: string, v: Int32, at: int): seq<Token>
  {
    StringTokens(key, at) + EncodeTokens(BInteger(v), at + 3)
  }

  /** One pass of parseDictionary's loop over such a key and value: the value
      is put into the map under the key. */
  lemma EntryPass(tokens: seq<Token>, pos: nat, start: Token, dict: seq<Entry>, key: string, v: Int32, at: int)
    requires ValidTokens(tokens) && GoodString(key) && |key| == 1 && 0 <= v <= 9
    requires At(tokens, pos, KeyValue(key, v, at))
    ensures pos + 6 < |tokens|
    ensures DictionaryEntries(tokens, pos, start, dict) == DictionaryEntries(tokens, pos + 6, start, Put(dict, key, BInteger(v)))
  {
    SliceParts(tokens, pos, KeyValue(key, v, at), StringTokens(key, at), EncodeTokens(BInteger(v), at + 3));
    StringAtEncoded(tokens, pos, key, at);
    AtIndex(tokens, pos, StringTokens(key, at), 0);
    IntegerEncoded(tokens, pos + 3, v, at + 3);
    DictionaryEntriesStep(tokens, pos, start, dict, key, pos + 3, BInteger(v), pos + 6);
  }

  lemma AtJoin<T>(xs: seq<T>, a: seq<T>, b: seq<T>, c: seq<T>)
    requires xs == a + b + c
    ensures At(xs, |a|, b)
  {
    assert xs[|a|..|a| + |b|] == b;
    SliceAt(xs, |a|, b);
  }

  const DictOpen: Token := Tok(Dictionary, 0, CharValue('d'))

  /** The tokens of "d1:ai1e1:bi2e1:ai3ee". */
  const RepeatedKey: seq<Token> :=
    [DictOpen] + KeyValue("a", 1, 1) + KeyValue("b", 2, 7) + KeyValue("a", 3, 13) +
    [Tok(EndType, 19, CharValue('e')), EofToken]

  /** The map after the three puts, whose keys are in order. */
  lemma RepeatedKeyPuts()
    ensures Put(Put(Put([], "a", BInteger(1)), "b", BInteger(2)), "a", BInteger(3)) ==
            [Entry("a", BInteger(3)), Entry("b", BInteger(2))]
    ensures KeysInOrder([Entry("a", BInteger(3)), Entry("b", BInteger(2))])
  {
    var d1 := [Entry("a", BInteger(1))];
    assert Put(d1, "b", BInteger(2)) == d1 + [Entry("b", BInteger(2))];
    assert CompareTo("b", "a") == 1;
  }

  /** The three passes of parseDictionary's loop. */
  lemma RepeatedKeyEntries(tokens: seq<Token>)
    requires ValidTokens(tokens) && |tokens| == 21
    requires At(tokens, 1, KeyValue("a", 1, 1)) && At(tokens, 7, KeyValue("b", 2, 7)) && At(tokens, 13, KeyValue("a", 3, 13))
    ensures DictionaryEntries(tokens, 1, DictOpen, []) ==
            DictionaryEntries(tokens, 19, DictOpen, Put(Put(Put([], "a", BInteger(1)), "b", BInteger(2)), "a", BInteger(3)))
  {
    assert GoodString("a") && GoodString("b");
    var d1 := Put([], "a", BInteger(1));
    EntryPass(tokens, 1, DictOpen, [], "a", 1, 1);
    EntryPass(tokens, 7, DictOpen, d1, "b", 2, 7);
    EntryPass(tokens, 13, DictOpen, Put(d1, "b", BInteger(2)), "a", 3, 13);
  }

  lemma RepeatedKeyRun(tokens: seq<Token>)
    requires ValidTokens(tokens) && |tokens| == 21
    requires tokens[0] == DictOpen && tokens[19] == Tok(EndType, 19, CharValue('e'))
    requires At(tokens, 1, KeyValue("a", 1, 1)) && At(tokens, 7, KeyValue("b", 2, 7)) && At(tokens, 13, KeyValue("a", 3, 13))
    ensures ParseTokens(tokens, []) == ParseResult(Some(BDictionary([Entry("a", BInteger(3)), Entry("b", BInteger(2))])), [])
  {
    var d3 := [Entry("a", BInteger(3)), Entry("b", BInteger(2))];
    RepeatedKeyEntries(tokens);
    RepeatedKeyPuts();
    assert DictionaryEntries(tokens, 19, DictOpen, d3) == Parsed(Ok(BDictionary(d3)), 20);
    TopLevelStep(tokens, 0, None, BDictionary(d3), 20);
    TopLevelAtEof(tokens, 20, Some(BDictionary(d3)));
  }

  /** "d1:ai1e1:bi2e1:ai3ee": the keys are not in order in the text, but a
      repeated key keeps its place in the map, so the order check, which
      looks at the map, accepts the dictionary; the later value wins. */
  lemma ParseRepeatedKey()
    ensures ParseTokens(RepeatedKey, []) ==
            ParseResult(Some(BDictionary([Entry("a", BInteger(3)), Entry("b", BInteger(2))])), [])
  {
    var kv1, kv2, kv3 := KeyValue("a", 1, 1), KeyValue("b", 2, 7), KeyValue("a", 3, 13);
    var closing := [Tok(EndType, 19, CharValue('e')), EofToken];
    AtJoin(RepeatedKey, [DictOpen], kv1, kv2 + kv3 + closing);
    AtJoin(RepeatedKey, [DictOpen] + kv1, kv2, kv3 + closing);
    AtJoin(RepeatedKey, [DictOpen] + kv1 + kv2, kv3, closing);
    RepeatedKeyRun(RepeatedKey);
  }

  /** The tokens of "d1:bi1e1:ai2ee". */
  const Unordered: seq<Token> :=
    [DictOpen] + KeyValue("b", 1, 1) + KeyValue("a", 2, 7) + [Tok(EndType, 13, CharValue('e')), EofToken]

  /** The message, in the pieces Parser.lexicographicOrder appends: the
      opening token's position, incremented. */
  const BrokenOrderText: string := "Line 1, position: 1" + "\nThe lexicographic order in the dictionary is broken\n"

  lemma BrokenOrderMessage()
    ensures ErrorMessage(BrokenOrder(DictOpen)) == BrokenOrderText
  {
    assert WrapInt32(DictOpen.pos + 1) == 1;
    assert IntToString(1) == "1" by { assert NatToDigits(1) == [DigitChar(1)]; }
    assert Position(DictOpen, 1) == "Line 1, position: 1";
  }

  lemma UnorderedEntries(tokens: seq<Token>)
    requires ValidTokens(tokens) && |tokens| == 15 && tokens[13] == Tok(EndType, 13, CharValue('e'))
    requires At(tokens, 1, KeyValue("b", 1, 1)) && At(tokens, 7, KeyValue("a", 2, 7))
    ensures DictionaryEntries(tokens, 1, DictOpen, []) == Fail(BrokenOrder(DictOpen), 14)
  {
    assert GoodString("a") && GoodString("b");
    var d1 := Put([], "b", BInteger(1));
    var d2 := [Entry("b", BInteger(1)), Entry("a", BInteger(2))];
    EntryPass(tokens, 1, DictOpen, [], "b", 1, 1);
    EntryPass(tokens, 7, DictOpen, d1, "a", 2, 7);
    assert Put(d1, "a", BInteger(2)) == d2;
    assert CompareTo("a", "b") == -1;
    assert CompareTo(d2[1].key, d2[0].key) < 0;
  }

  lemma UnorderedRun(tokens: seq<Token>)
    requires ValidTokens(tokens) && |tokens| == 15
    requires tokens[0] == DictOpen && tokens[13] == Tok(EndType, 13, CharValue('e'))
    requires At(tokens, 1, KeyValue("b", 1, 1)) && At(tokens, 7, KeyValue("a", 2, 7))
    ensures ParseTokens(tokens, []) == ParseResult(None, [ParserMessage(BrokenOrderText)])
  {
    UnorderedEntries(tokens);
    BrokenOrderMessage();
    TopLevelError(tokens, 0, None, [], BrokenOrder(DictOpen), 14);
    TopLevelAtEnd(tokens, 14, None, [ParserMessage(BrokenOrderText)]);
  }

  /** "d1:bi1e1:ai2ee": keys out of order are reported, at the column after
      the dictionary's opening token, and parse returns null. */
  lemma ParseUnordered()
    ensures ParseTokens(Unordered, []) == ParseResult(None, [ParserMessage(BrokenOrderText)])
  {
    var kv1, kv2 := KeyValue("b", 1, 1), KeyValue("a", 2, 7);
    var closing := [Tok(EndType, 13, CharValue('e')), EofToken];
    AtJoin(Unordered, [DictOpen], kv1, kv2 + closing);
    AtJoin(Unordered, [DictOpen] + kv1, kv2, closing);
    UnorderedRun(Unordered);
  }

  // ---------------------------------------------------------------- lists

  const Unterminated: seq<Token> := [Tok(List, 0, CharValue('l')), EofToken]

  /** The message for EOF where an element was expected: the end of the
      line, and no expected kinds. */
  const EndOfLineText: string := "End of line 1" + "\nExpected tokens: " + "[]" + ",\nActual: " + "EOF" + "\n"

  lemma EndOfLineMessage()
    ensures ErrorMessage(UnexpectedToken(EofToken, [])) == EndOfLineText
  {
    assert IntToString(1) == "1" by { assert NatToDigits(1) == [DigitChar(1)]; }
    assert NameList([]) == "[]";
  }

  /** "l": the list's loop finds EOF, which parseElement rejects without
      moving; the top-level loop then sees EOF and returns null. */
  lemma ParseUnterminated()
    ensures ParseTokens(Unterminated, []) == ParseResult(None, [ParserMessage(EndOfLineText)])
  {
    EndOfLineMessage();
    assert ValidTokens(Unterminated);
    assert ElementAt(Unterminated, 1) == Fail(UnexpectedToken(EofToken, []), 1);
    assert ListItems(Unterminated, 1, []) == Fail(UnexpectedToken(EofToken, []), 1);
    TopLevelError(Unterminated, 0, None, [], UnexpectedToken(EofToken, []), 1);
    TopLevelAtEnd(Unterminated, 1, None, [ParserMessage(EndOfLineText)]);
  }
}
