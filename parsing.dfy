/** The recursive-descent parser of parser/Parser.java. The functions
    describe one call of each private method as a value: what it returns or
    throws, and where it leaves the cursor. The class Parser below moves its
    cursor field in place and is proved to agree with them. */
module Parsing {
  import opened Java
  import opened Tokens
  import opened Reporting
  import opened Elements

  /** The casts of parseInteger and parseString succeed on this token. */
  predicate WellTyped(t: Token)
  {
    (t.tokenType == Integer ==> t.value.IntValue?) && (t.tokenType == String ==> t.value.StringValue?)
  }

  /** What the parser needs of its token list, as the lexer delivers it:
      it ends in EOF, so the cursor always indexes a token. */
  predicate ValidTokens(tokens: seq<Token>)
  {
    |tokens| > 0 && tokens[|tokens| - 1].tokenType == EOF &&
    forall k | 0 <= k < |tokens| :: WellTyped(tokens[k])
  }

  /** What ParserException reports: a token out of place with the kinds
      that were expected there, or a dictionary whose keys are out of order,
      named by its opening token. Message gives the exception's text. */
  datatype ParseError =
    | UnexpectedToken(token: Token, expected: seq<TokenType>)
    | BrokenOrder(start: Token)

  /** A parsing call's outcome: a value, or the ParserException it throws. */
  datatype Result<+T> = Ok(value: T) | Err(error: ParseError)

  /** A parsing call's outcome and the cursor it leaves. */
  datatype Parsed<+T> = Parsed(result: Result<T>, pos: nat)

  function Fail<T>(error: ParseError, pos: nat): Parsed<T>
  {
    Parsed(Err(error), pos)
  }

  // ------------------------------------------------------------- messages

  /** The first line of an error message: the EOF token (pos -1) names the
      end of its line, any other token its line and `shown`. */
  function Position(t: Token, shown: int): string
  {
    if t.pos == -1 then "End of line " + IntToString(t.nLine)
    else "Line " + IntToString(t.nLine) + ", position: " + IntToString(shown)
  }

  /** Arrays.toString of token kinds. */
  function NameList(kinds: seq<TokenType>): string
  {
    "[" + Join(seq(|kinds|, k requires 0 <= k < |kinds| => Name(kinds[k]))) + "]"
  }

  /** The exception's message: Parser.unexpectedToken shows the token's own
      0-based position; Parser.lexicographicOrder increments it (`++pos`). */
  function ErrorMessage(error: ParseError): string
  {
    match error
    case UnexpectedToken(t, expected) =>
      Position(t, t.pos) + "\nExpected tokens: " + NameList(expected) + ",\nActual: " + Name(t.tokenType) + "\n"
    case BrokenOrder(t) =>
      Position(t, WrapInt32(t.pos + 1)) + "\nThe lexicographic order in the dictionary is broken\n"
  }

  // --------------------------------------------------- cursor primitives

  /** Parser.advance: the current token; the cursor moves on unless that
      token is EOF. */
  function Advanced(tokens: seq<Token>, pos: nat): (r: (Token, nat))
    requires ValidTokens(tokens) && pos < |tokens|
    ensures r.0 == tokens[pos] && pos <= r.1 < |tokens|
    ensures r.1 == pos <==> tokens[pos].tokenType == EOF
  {
    (tokens[pos], if tokens[pos].tokenType != EOF then pos + 1 else pos)
  }

  /** Parser.consume: advance, then insist on the expected kind. */
  function Consumed(tokens: seq<Token>, pos: nat, expected: TokenType): (r: Parsed<Token>)
    requires ValidTokens(tokens) && pos < |tokens|
    ensures r.pos == Advanced(tokens, pos).1
    ensures r.result.Ok? <==> tokens[pos].tokenType == expected
    ensures r.result.Ok? ==> r.result.value == tokens[pos]
    ensures r.result.Err? ==> r.result.error == UnexpectedToken(tokens[pos], [expected])
  {
    var a := Advanced(tokens, pos);
    if a.0.tokenType != expected then Fail(UnexpectedToken(a.0, [expected]), a.1)
    else Parsed(Ok(a.0), a.1)
  }

  // ------------------------------------------------------------- elements

  /** Parser.parseInteger. */
  function IntegerAt(tokens: seq<Token>, pos: nat): (r: Parsed<Element>)
    requires ValidTokens(tokens) && pos < |tokens|
    ensures pos <= r.pos < |tokens|
    ensures r.result.Ok? ==> pos < r.pos && r.result.value.BInteger?
  {
    var b := Consumed(tokens, pos, IntegerBegin);
    if b.result.Err? then Parsed(Err(b.result.error), b.pos)
    else
      var n := Consumed(tokens, b.pos, Integer);
      if n.result.Err? then Parsed(Err(n.result.error), n.pos)
      else
        assert WellTyped(tokens[b.pos]);
        var e := Consumed(tokens, n.pos, EndType);
        if e.result.Err? then Parsed(Err(e.result.error), e.pos)
        else Parsed(Ok(BInteger(n.result.value.value.i)), e.pos)
  }

  /** Parser.parseString. */
  function StringAt(tokens: seq<Token>, pos: nat): (r: Parsed<Element>)
    requires ValidTokens(tokens) && pos < |tokens|
    ensures pos <= r.pos < |tokens|
    ensures r.result.Ok? ==> pos < r.pos && r.result.value.BString?
  {
    var b := Consumed(tokens, pos, StringBegin);
    if b.result.Err? then Parsed(Err(b.result.error), b.pos)
    else
      var s := Consumed(tokens, b.pos, Separator);
      if s.result.Err? then Parsed(Err(s.result.error), s.pos)
      else
        var t := Consumed(tokens, s.pos, String);
        if t.result.Err? then Parsed(Err(t.result.error), t.pos)
        else
          assert WellTyped(tokens[s.pos]);
          Parsed(Ok(BString(t.result.value.value.s)), t.pos)
  }

  /** Parser.parseElement: dispatch on the current token; any kind that
      cannot start an element is an error that leaves the cursor put. */
  function ElementAt(tokens: seq<Token>, pos: nat): (r: Parsed<Element>)
    requires ValidTokens(tokens) && pos < |tokens|
    ensures pos <= r.pos < |tokens|
    ensures r.result.Ok? ==> pos < r.pos
    decreases |tokens| - pos, 1
  {
    match tokens[pos].tokenType
    case Dictionary => DictionaryAt(tokens, pos)
    case List => ListAt(tokens, pos)
    case IntegerBegin => IntegerAt(tokens, pos)
    case StringBegin => StringAt(tokens, pos)
    case _ => Fail(UnexpectedToken(tokens[pos], []), pos)
  }

  /** Parser.parseList, from its opening token. */
  function ListAt(tokens: seq<Token>, pos: nat): (r: Parsed<Element>)
    requires ValidTokens(tokens) && pos < |tokens| && tokens[pos].tokenType == List
    ensures pos < r.pos < |tokens|
    ensures r.result.Ok? ==> r.result.value.BList?
    decreases |tokens| - pos, 0
  {
    ListItems(tokens, pos + 1, [])
  }

  /** parseList's `while (!matches(END_TYPE))` loop, with the items so far. */
  function ListItems(tokens: seq<Token>, pos: nat, values: seq<Element>): (r: Parsed<Element>)
    requires ValidTokens(tokens) && pos < |tokens|
    ensures pos <= r.pos < |tokens|
    ensures r.result.Ok? ==> pos < r.pos && r.result.value.BList?
    decreases |tokens| - pos, 2
  {
    if tokens[pos].tokenType == EndType then Parsed(Ok(BList(values)), pos + 1)
    else
      var m := ElementAt(tokens, pos);
      match m.result
      case Err(e) => Parsed(Err(e), m.pos)
      case Ok(v) => ListItems(tokens, m.pos, values + [v])
  }

  /** Parser.isCorrectOrder: no key compares less than the key before it
      (i and j name neighbours, so that each comparison needs both keys). */
  predicate KeysInOrder(dict: seq<Entry>)
  {
    forall i, j | 0 <= i && j == i + 1 < |dict| :: CompareTo(dict[j].key, dict[i].key) >= 0
  }

  /** Parser.parseDictionary, from its opening token. */
  function DictionaryAt(tokens: seq<Token>, pos: nat): (r: Parsed<Element>)
    requires ValidTokens(tokens) && pos < |tokens| && tokens[pos].tokenType == Dictionary
    ensures pos < r.pos < |tokens|
    ensures r.result.Ok? ==> r.result.value.BDictionary?
    decreases |tokens| - pos, 0
  {
    DictionaryEntries(tokens, pos + 1, tokens[pos], [])
  }

  /** parseDictionary's loop: a string key, then a value, put into the map;
      at END_TYPE the key order is checked against the opening token. */
  function DictionaryEntries(tokens: seq<Token>, pos: nat, start: Token, dict: seq<Entry>): (r: Parsed<Element>)
    requires ValidTokens(tokens) && pos < |tokens|
    ensures pos <= r.pos < |tokens|
    ensures r.result.Ok? ==> pos < r.pos && r.result.value.BDictionary?
    decreases |tokens| - pos, 2
  {
    if tokens[pos].tokenType == EndType then
      if KeysInOrder(dict) then Parsed(Ok(BDictionary(dict)), pos + 1)
      else Fail(BrokenOrder(start), pos + 1)
    else
      var k := StringAt(tokens, pos);
      match k.result
      case Err(e) => Parsed(Err(e), k.pos)
      case Ok(key) =>
        var v := ElementAt(tokens, k.pos);
        match v.result
        case Err(e) => Parsed(Err(e), v.pos)
        case Ok(value) => DictionaryEntries(tokens, v.pos, start, Put(dict, key.str, value))
  }

  // ------------------------------------------------------------ top level

  /** What Parser.parse returns (an element or null) and the messages
      reported on the way. */
  datatype ParseResult = ParseResult(element: Option<Element>, log: seq<Message>)

  /** parse()'s `while (!matches(EOF))` loop: each element replaces the one
      before; each error is reported, and the loop stops when the reporter
      says so. It terminates because every pass moves the cursor or spends
      one of the reporter's answers. */
  function TopLevel(tokens: seq<Token>, pos: nat, element: Option<Element>, log: seq<Message>): (r: ParseResult)
    requires ValidTokens(tokens) && pos < |tokens|
    ensures log <= r.log
    decreases Budget(log), |tokens| - pos
  {
    if tokens[pos].tokenType == EOF then ParseResult(if |log| > 0 then None else element, log)
    else
      var p := ElementAt(tokens, pos);
      match p.result
      case Ok(e) => TopLevel(tokens, p.pos, Some(e), log)
      case Err(ex) =>
        var next := log + [ParserMessage(ErrorMessage(ex))];
        if Allows(log) then TopLevel(tokens, p.pos, element, next) else ParseResult(None, next)
  }

  /** Parser.parse(tokens, reporter) with a reporter that has already
      recorded `log`. */
  function ParseTokens(tokens: seq<Token>, log: seq<Message>): ParseResult
    requires ValidTokens(tokens)
  {
    TopLevel(tokens, 0, None, log)
  }

  // ---------------------------------------------------------- the parser

  class Parser {
    const tokens: seq<Token>
    const reporter: TestReporter
    var pos: nat

    predicate Valid() reads this { ValidTokens(tokens) && pos < |tokens| }

    constructor (tokens: seq<Token>, reporter: TestReporter)
      requires ValidTokens(tokens)
      ensures Valid() && this.tokens == tokens && this.reporter == reporter && pos == 0
    {
      this.tokens := tokens;
      this.reporter := reporter;
      pos := 0;
    }

    /** Parser.matches: the current token has one of the given kinds. */
    method Matches(first: TokenType, rest: seq<TokenType>) returns (b: bool)
      requires Valid()
      ensures b <==> tokens[pos].tokenType == first || tokens[pos].tokenType in rest
    {
      var actual := tokens[pos].tokenType;
      if actual == first { return true; }
      for k := 0 to |rest|
        invariant forall j | 0 <= j < k :: rest[j] != actual
      {
        if actual == rest[k] { return true; }
      }
      return false;
    }

    method Advance() returns (t: Token)
      requires Valid()
      modifies this
      ensures Valid() && (t, pos) == Advanced(tokens, old(pos))
    {
      t := tokens[pos];
      if t.tokenType != EOF { pos := pos + 1; }
    }

    method Consume(expected: TokenType) returns (r: Result<Token>)
      requires Valid()
      modifies this
      ensures Valid() && Parsed(r, pos) == Consumed(tokens, old(pos), expected)
    {
      var t := Advance();
      if t.tokenType != expected {
        return Err(UnexpectedToken(t, [expected]));
      }
      return Ok(t);
    }

    method ParseInteger() returns (r: Result<Element>)
      requires Valid()
      modifies this
      ensures Valid() && Parsed(r, pos) == IntegerAt(tokens, old(pos))
    {
      var b := Consume(IntegerBegin);
      if b.Err? { return Err(b.error); }
      var n := Consume(Integer);
      if n.Err? { return Err(n.error); }
      assert WellTyped(n.value);
      var e := Consume(EndType);
      if e.Err? { return Err(e.error); }
      return Ok(BInteger(n.value.value.i));
    }

    method ParseString() returns (r: Result<Element>)
      requires Valid()
      modifies this
      ensures Valid() && Parsed(r, pos) == StringAt(tokens, old(pos))
    {
      var b := Consume(StringBegin);
      if b.Err? { return Err(b.error); }
      var s := Consume(Separator);
      if s.Err? { return Err(s.error); }
      var t := Consume(String);
      if t.Err? { return Err(t.error); }
      assert WellTyped(t.value);
      return Ok(BString(t.value.value.s));
    }

    method ParseElement() returns (r: Result<Element>)
      requires Valid()
      modifies this
      ensures Valid() && Parsed(r, pos) == ElementAt(tokens, old(pos))
      decreases |tokens| - pos, 1
    {
      match tokens[pos].tokenType
      case Dictionary => r := ParseDictionary();
      case List => r := ParseList();
      case IntegerBegin => r := ParseInteger();
      case StringBegin => r := ParseString();
      case _ => r := Err(UnexpectedToken(tokens[pos], []));
    }

    method ParseList() returns (r: Result<Element>)
      requires Valid() && tokens[pos].tokenType == List
      modifies this
      ensures Valid() && Parsed(r, pos) == ListAt(tokens, old(pos))
      decreases |tokens| - pos, 0
    {
      var values: seq<Element> := [];
      var opening := Advance();
      var atEnd := Matches(EndType, []);
      while !atEnd
        invariant Valid() && old(pos) < pos
        invariant atEnd <==> tokens[pos].tokenType == EndType
        invariant ListItems(tokens, pos, values) == ListAt(tokens, old(pos))
        decreases |tokens| - pos
      {
        var member := ParseElement();
        if member.Err? { return member; }
        values := values + [member.value];
        atEnd := Matches(EndType, []);
      }
      var closing := Advance();
      return Ok(BList(values));
    }

    /** Parser.isCorrectOrder: walk the keys in insertion order, comparing
        each with the one before. */
    static method IsCorrectOrder(dict: seq<Entry>) returns (b: bool)
      ensures b <==> KeysInOrder(dict)
    {
      var prev: Option<string> := None;
      for k := 0 to |dict|
        invariant prev == if k == 0 then None else Some(dict[k - 1].key)
        invariant forall j | 0 < j < k :: CompareTo(dict[j].key, dict[j - 1].key) >= 0
      {
        if prev.Some? && CompareTo(dict[k].key, prev.value) < 0 {
          return false;
        }
        prev := Some(dict[k].key);
      }
      return true;
    }

    method ParseDictionary() returns (r: Result<Element>)
      requires Valid() && tokens[pos].tokenType == Dictionary
      modifies this
      ensures Valid() && Parsed(r, pos) == DictionaryAt(tokens, old(pos))
      decreases |tokens| - pos, 0
    {
      var dict: seq<Entry> := [];
      var start := Advance();
      var atEnd := Matches(EndType, []);
      while !atEnd
        invariant Valid() && old(pos) < pos
        invariant atEnd <==> tokens[pos].tokenType == EndType
        invariant DictionaryEntries(tokens, pos, start, dict) == DictionaryAt(tokens, old(pos))
        decreases |tokens| - pos
      {
        var key := ParseString();
        if key.Err? { return key; }
        var value := ParseElement();
        if value.Err? { return value; }
        dict := Put(dict, key.value.str, value.value);
        atEnd := Matches(EndType, []);
      }
      var closing := Advance();
      var ordered := IsCorrectOrder(dict);
      if !ordered {
        return Err(BrokenOrder(start));
      }
      return Ok(BDictionary(dict));
    }

    /** Parser's private parse(). */
    method Parse() returns (r: Option<Element>)
      requires Valid() && reporter.Valid()
      modifies this, reporter
      ensures reporter.Valid()
      ensures ParseResult(r, reporter.messages) == TopLevel(tokens, old(pos), None, old(reporter.messages))
    {
      var element: Option<Element> := None;
      var atEof := Matches(EOF, []);
      while !atEof
        invariant Valid() && reporter.Valid()
        invariant atEof <==> tokens[pos].tokenType == EOF
        invariant TopLevel(tokens, pos, element, reporter.messages)
                  == TopLevel(tokens, old(pos), None, old(reporter.messages))
        decreases Budget(reporter.messages), |tokens| - pos
      {
        var e := ParseElement();
        if e.Ok? {
          element := Some(e.value);
        } else {
          var ok := reporter.Report(ParserMessage(ErrorMessage(e.error)));
          if !ok { return None; }
        }
        atEof := Matches(EOF, []);
      }
      var failed := reporter.HasError();
      return if failed then None else element;
    }
  }

  /** Parser.parse(tokens, reporter): a fresh parser with its cursor at 0. */
  method Parse(tokens: seq<Token>, reporter: TestReporter) returns (r: Option<Element>)
    requires ValidTokens(tokens) && reporter.Valid()
    modifies reporter
    ensures reporter.Valid()
    ensures ParseResult(r, reporter.messages) == ParseTokens(tokens, old(reporter.messages))
  {
    var parser := new Parser(tokens, reporter);
    r := parser.Parse();
  }
}
