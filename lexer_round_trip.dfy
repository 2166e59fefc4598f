/** The lexer against the reference encoder: scanning the Bencode text of a
    canonical element yields exactly the encoder's tokens, and lexing then
    parsing that text gives the element back. */
module LexerRoundTrip {
  import opened Java
  import opened Tokens
  import opened Reporting
  import opened Elements
  import opened Lexing
  import opened Bencoding
  import opened Spans
  import Parsing
  import ParserProperties
  import LexerProperties

  /** The lastNumber the scanning loop holds after the text of e: the length
      of the last string in it, or what it held before when there is none. */
  function NumberAfter(e: Element, ln: Int32): Int32
  {
    match e
    case BInteger(_) => ln
    case BString(s) => WrapInt32(|s|)
    case BList(items) => ItemsNumberAfter(items, ln)
    case BDictionary(d) => EntriesNumberAfter(d, ln)
  }

  function ItemsNumberAfter(items: seq<Element>, ln: Int32): Int32
  {
    if items == [] then ln else ItemsNumberAfter(items[1..], NumberAfter(items[0], ln))
  }

  function EntriesNumberAfter(d: seq<Entry>, ln: Int32): Int32
  {
    if d == [] then ln else EntriesNumberAfter(d[1..], NumberAfter(d[0].value, WrapInt32(|d[0].key|)))
  }

  lemma {:induction false} Glue3<T>(a: seq<T>, b: seq<T>, c: seq<T>)
    ensures a + b + c == a + (b + c)
  {
  }

  lemma {:induction false} Glue4<T>(a: seq<T>, b: seq<T>, c: seq<T>, d: seq<T>)
    ensures a + b + c + d == a + (b + c + d)
  {
  }

  /** Scanning on from s gives what scanning on from t gives. */
  predicate Leads(line: string, s: LexState, t: LexState)
  {
    0 <= s.i && 0 <= t.i && ScanFrom(line, s) == ScanFrom(line, t)
  }

  lemma {:induction false} Advance(line: string, s: LexState, t: LexState)
    requires 0 <= s.i < |line| && Step(line, s) == Next(t)
    ensures Leads(line, s, t)
  {
  }

  lemma {:induction false} Trans(line: string, a: LexState, b: LexState, c: LexState)
    requires Leads(line, a, b) && Leads(line, b, c)
    ensures Leads(line, a, c)
  {
  }

  // ------------------------------------------------------- single passes
  // Positions are passed as variables, with their arithmetic in requires
  // clauses, so that the states one lemma ends in are the very terms the
  // next lemma starts from.

  /** A pass over l, d, e or ':' outside a string appends that character's
      token and moves one column on. */
  lemma {:induction false} CharScanned(line: string, tokens: seq<Token>, i: nat, j: nat, ln: Int32, log: seq<Message>, c: char, kind: TokenType)
    requires j == i + 1 && i < |line| && line[i] == c && !IsSeparator(LastToken(tokens))
    requires (kind == List && c == 'l') || (kind == Dictionary && c == 'd') ||
             (kind == EndType && c == 'e') || (kind == Separator && c == ':')
    ensures Leads(line, LexState(tokens, i, ln, log), LexState(tokens + [Tok(kind, i, CharValue(c))], j, ln, log))
    ensures kind != Separator ==> !IsSeparator(LastToken(tokens + [Tok(kind, i, CharValue(c))]))
  {
    Advance(line, LexState(tokens, i, ln, log), LexState(tokens + [Tok(kind, i, CharValue(c))], j, ln, log));
  }

  /** The first index at or after k that holds no digit, where the digits
      are known to stop at e. */
  lemma {:induction false} DigitRunEndAt(line: string, k: nat, e: nat)
    requires k <= e <= |line| && (e == |line| || !IsAsciiDigit(line[e]))
    requires forall j | k <= j < e :: IsAsciiDigit(line[j])
    ensures DigitRunEnd(line, k) == e
    decreases e - k
  {
    if k < e {
      DigitRunEndAt(line, k + 1, e);
    }
  }

  /** String.valueOf(n) is a sign or a digit followed by digits only, and has
      no dead zeros. */
  lemma {:induction false} IntToStringShape(n: int)
    ensures |IntToString(n)| >= 1 && !StartsWithZeros(IntToString(n))
    ensures forall k | 1 <= k < |IntToString(n)| :: IsAsciiDigit(IntToString(n)[k])
  {
    var s := IntToString(n);
    if n < 0 {
      var d := NatToDigits(0 - n);
      NatToDigitsLeadingDigit(0 - n);
      assert s == "-" + d;
      forall k | 1 <= k < |s| ensures IsAsciiDigit(s[k]) {
        assert s[k] == d[k - 1];
      }
    } else {
      NatToDigitsLeadingDigit(n);
    }
  }

  /** number() over the text of an int, followed by a non-digit: the token
      holds the int and scanning resumes right after the text. */
  lemma {:induction false} NumberScanned(line: string, start: nat, end: nat, n: Int32, kind: TokenType, tokens: seq<Token>, log: seq<Message>)
    requires At(line, start, IntToString(n)) && end == start + IntWidth(n) && end < |line| && !IsAsciiDigit(line[end])
    ensures NumberEffect(line, start, kind, tokens, log) == Effect(Returned(end), tokens + [Tok(kind, start, IntValue(n))], log)
  {
    var lit := IntToString(n);
    IntToStringLength(n);
    IntToStringShape(n);
    AtSlice(line, start, lit);
    forall j | start + 1 <= j < start + |lit| ensures IsAsciiDigit(line[j]) {
      AtIndex(line, start, lit, j - start);
    }
    DigitRunEndAt(line, start + 1, start + |lit|);
    ParseIntOfIntToString(n);
  }

  /** The pass over `i` when number() reads an int: lastNumber is kept. */
  lemma {:induction false} IntegerBeginStep(line: string, tokens: seq<Token>, i: nat, p: nat, ln: Int32, log: seq<Message>, k: nat, more: seq<Token>)
    requires p == i + 1 && i < |line| && line[i] == 'i' && !IsSeparator(LastToken(tokens))
    requires NumberEffect(line, p, Integer, tokens + [Tok(IntegerBegin, i, CharValue('i'))], log) == Effect(Returned(k), more, log)
    ensures Leads(line, LexState(tokens, i, ln, log), LexState(more, k, ln, log))
  {
    IntegerBeginNext(line, LexState(tokens, i, ln, log), p, k, more);
    Advance(line, LexState(tokens, i, ln, log), LexState(more, k, ln, log));
  }

  lemma {:induction false} IntegerBeginNext(line: string, s: LexState, p: nat, k: nat, more: seq<Token>)
    requires 0 <= s.i < |line| && p == s.i + 1 && line[s.i] == 'i' && !IsSeparator(LastToken(s.tokens))
    requires NumberEffect(line, p, Integer, s.tokens + [Tok(IntegerBegin, s.i, CharValue('i'))], s.log) == Effect(Returned(k), more, s.log)
    ensures Step(line, s) == Next(LexState(more, k, s.lastNumber, s.log))
  {
    assert GetTokenType(line[s.i], LastToken(s.tokens)) == Some(IntegerBegin);
  }

  /** The pass over a digit when number() reads a length: its token comes
      last and lastNumber takes its value. */
  lemma {:induction false} LengthStep(line: string, tokens: seq<Token>, i: nat, k: nat, ln: Int32, log: seq<Message>, n: Int32)
    requires i < |line| && IsAsciiDigit(line[i]) && !IsSeparator(LastToken(tokens))
    requires NumberEffect(line, i, StringBegin, tokens, log) == Effect(Returned(k), tokens + [Tok(StringBegin, i, IntValue(n))], log)
    ensures Leads(line, LexState(tokens, i, ln, log), LexState(tokens + [Tok(StringBegin, i, IntValue(n))], k, n, log))
  {
    Advance(line, LexState(tokens, i, ln, log), LexState(tokens + [Tok(StringBegin, i, IntValue(n))], k, n, log));
  }

  /** A pass over `i`: INTEGER_BEGIN, then number() reads the int up to the
      closing `e` at k. */
  lemma {:induction false} IntegerBeginScanned(line: string, tokens: seq<Token>, i: nat, p: nat, k: nat, ln: Int32, log: seq<Message>, v: Int32)
    requires p == i + 1 && k == p + IntWidth(v)
    requires i < |line| && line[i] == 'i' && !IsSeparator(LastToken(tokens))
    requires At(line, p, IntToString(v)) && k < |line| && line[k] == 'e'
    ensures Leads(line, LexState(tokens, i, ln, log),
                  LexState(tokens + [Tok(IntegerBegin, i, CharValue('i'))] + [Tok(Integer, p, IntValue(v))], k, ln, log))
    ensures !IsSeparator(LastToken(tokens + [Tok(IntegerBegin, i, CharValue('i'))] + [Tok(Integer, p, IntValue(v))]))
  {
    var withBegin := tokens + [Tok(IntegerBegin, i, CharValue('i'))];
    NumberScanned(line, p, k, v, Integer, withBegin, log);
    IntegerBeginStep(line, tokens, i, p, ln, log, k, withBegin + [Tok(Integer, p, IntValue(v))]);
  }

  /** A pass over the length of <length>:<text>, which ends at the separator
      at p: a STRING_BEGIN token, and lastNumber becomes the length. */
  lemma {:induction false} LengthScanned(line: string, tokens: seq<Token>, i: nat, p: nat, ln: Int32, log: seq<Message>, str: string)
    requires p == i + DigitCount(|str|) && !IsSeparator(LastToken(tokens)) && GoodString(str)
    requires At(line, i, NatToDigits(|str|)) && p < |line| && line[p] == ':'
    ensures Leads(line, LexState(tokens, i, ln, log),
                  LexState(tokens + [Tok(StringBegin, i, IntValue(WrapInt32(|str|)))], p, WrapInt32(|str|), log))
  {
    assert IntToString(WrapInt32(|str|)) == NatToDigits(|str|);
    NatToDigitsLength(|str|);
    AtIndex(line, i, NatToDigits(|str|), 0);
    NumberScanned(line, i, p, WrapInt32(|str|), StringBegin, tokens, log);
    LengthStep(line, tokens, i, p, ln, log, WrapInt32(|str|));
  }

  /** A pass right after the separator: string() takes the next `length`
      characters, all ASCII, as a STRING token placed at i - length. */
  lemma {:induction false} TextScanned(line: string, tokens: seq<Token>, i: nat, j: nat, log: seq<Message>, str: string)
    requires j == i + |str| && IsSeparator(LastToken(tokens)) && GoodString(str) && At(line, i, str) && |line| <= MaxInt
    ensures Leads(line, LexState(tokens, i, WrapInt32(|str|), log),
                  LexState(tokens + [Tok(String, i - |str|, StringValue(str))], j, WrapInt32(|str|), log))
  {
    AtSlice(line, i, str);
    AtIndex(line, i, str, 0);
    assert WrapInt32(i + WrapInt32(|str|)) == j;
    forall q | i <= q < j ensures IsAscii(line[q]) {
      assert line[q] == line[i..j][q - i];
    }
    assert FirstNonAscii(line, i, j).None?;
    Advance(line, LexState(tokens, i, WrapInt32(|str|), log),
            LexState(tokens + [Tok(String, i - |str|, StringValue(str))], j, WrapInt32(|str|), log));
  }

  // -------------------------------------------------------- whole texts

  /** Where the characters of i<n>e stand. */
  lemma {:induction false} IntegerText(line: string, i: nat, p: nat, k: nat, v: Int32)
    requires At(line, i, Encode(BInteger(v))) && p == i + 1 && k == p + IntWidth(v)
    ensures i < |line| && line[i] == 'i' && At(line, p, IntToString(v)) && k < |line| && line[k] == 'e'
  {
    IntToStringLength(v);
    ThreeParts(line, i, "i", IntToString(v), "e");
    AtIndex(line, i, "i", 0);
    AtIndex(line, k, "e", 0);
  }

  /** The scanner's tokens for i<n>e, gathered. */
  lemma {:induction false} IntegerChain(tokens: seq<Token>, i: nat, p: nat, k: nat, j: nat, ln: Int32, log: seq<Message>, v: Int32)
    requires p == i + 1 && k == p + IntWidth(v) && j == k + 1
    ensures LexState(tokens + [Tok(IntegerBegin, i, CharValue('i'))] + [Tok(Integer, p, IntValue(v))] + [Tok(EndType, k, CharValue('e'))], j, ln, log) ==
            LexState(tokens + EncodeTokens(BInteger(v), i), j, NumberAfter(BInteger(v), ln), log)
  {
    Glue4(tokens, [Tok(IntegerBegin, i, CharValue('i'))], [Tok(Integer, p, IntValue(v))], [Tok(EndType, k, CharValue('e'))]);
  }

  /** The scan from column i over the text of an int, which ends before j. */
  lemma {:induction false} IntegerScanned(line: string, tokens: seq<Token>, i: nat, j: nat, ln: Int32, log: seq<Message>, v: Int32)
    requires j == i + Width(BInteger(v)) && !IsSeparator(LastToken(tokens)) && At(line, i, Encode(BInteger(v)))
    ensures Leads(line, LexState(tokens, i, ln, log), LexState(tokens + EncodeTokens(BInteger(v), i), j, NumberAfter(BInteger(v), ln), log))
  {
    var p := i + 1;
    var k := p + IntWidth(v);
    IntegerText(line, i, p, k, v);
    var begin := [Tok(IntegerBegin, i, CharValue('i'))];
    var value := [Tok(Integer, p, IntValue(v))];
    IntegerBeginScanned(line, tokens, i, p, k, ln, log, v);
    CharScanned(line, tokens + begin + value, k, j, ln, log, 'e', EndType);
    Trans(line, LexState(tokens, i, ln, log), LexState(tokens + begin + value, k, ln, log),
          LexState(tokens + begin + value + [Tok(EndType, k, CharValue('e'))], j, ln, log));
    IntegerChain(tokens, i, p, k, j, ln, log, v);
  }

  /** Where the parts of <length>:<text> stand. */
  lemma {:induction false} StringText(line: string, i: nat, p: nat, q: nat, str: string)
    requires At(line, i, EncodeString(str)) && p == i + DigitCount(|str|) && q == p + 1
    ensures At(line, i, NatToDigits(|str|)) && p < |line| && line[p] == ':' && At(line, q, str)
  {
    NatToDigitsLength(|str|);
    ThreeParts(line, i, NatToDigits(|str|), ":", str);
    AtIndex(line, p, ":", 0);
  }

  /** The scanner's tokens for <length>:<text>, gathered. */
  lemma {:induction false} StringChain(tokens: seq<Token>, i: nat, p: nat, q: nat, j: nat, ln: Int32, log: seq<Message>, str: string)
    requires p == i + DigitCount(|str|) && q == p + 1
    ensures LexState(tokens + [Tok(StringBegin, i, IntValue(WrapInt32(|str|)))] + [Tok(Separator, p, CharValue(':'))] +
                     [Tok(String, q - |str|, StringValue(str))], j, WrapInt32(|str|), log) ==
            LexState(tokens + EncodeTokens(BString(str), i), j, NumberAfter(BString(str), ln), log)
  {
    Glue4(tokens, [Tok(StringBegin, i, IntValue(WrapInt32(|str|)))], [Tok(Separator, p, CharValue(':'))],
          [Tok(String, q - |str|, StringValue(str))]);
  }

  /** The scan from column i over <length>:<text>, which ends before j. */
  lemma {:induction false} StringScanned(line: string, tokens: seq<Token>, i: nat, j: nat, ln: Int32, log: seq<Message>, str: string)
    requires j == i + Width(BString(str)) && !IsSeparator(LastToken(tokens)) && GoodString(str)
    requires At(line, i, Encode(BString(str))) && |line| <= MaxInt
    ensures Leads(line, LexState(tokens, i, ln, log), LexState(tokens + EncodeTokens(BString(str), i), j, NumberAfter(BString(str), ln), log))
  {
    var p := i + DigitCount(|str|);
    var q := p + 1;
    StringText(line, i, p, q, str);
    var m := WrapInt32(|str|);
    var length := [Tok(StringBegin, i, IntValue(m))];
    var colon := [Tok(Separator, p, CharValue(':'))];
    LengthScanned(line, tokens, i, p, ln, log, str);
    CharScanned(line, tokens + length, p, q, m, log, ':', Separator);
    TextScanned(line, tokens + length + colon, q, j, log, str);
    Trans(line, LexState(tokens, i, ln, log), LexState(tokens + length, p, m, log), LexState(tokens + length + colon, q, m, log));
    Trans(line, LexState(tokens, i, ln, log), LexState(tokens + length + colon, q, m, log),
          LexState(tokens + length + colon + [Tok(String, q - |str|, StringValue(str))], j, m, log));
    StringChain(tokens, i, p, q, j, ln, log, str);
  }

  /** The last token of an element's encoding is END_TYPE or STRING, never a
      separator, so what follows it is not read as string text. */
  lemma {:induction false} EncodeTokensLast(e: Element, at: int)
    ensures EncodeTokens(e, at) != []
    ensures var ts := EncodeTokens(e, at); ts[|ts| - 1].tokenType == EndType || ts[|ts| - 1].tokenType == String
  {
  }

  lemma {:induction false} NotSeparatorAfter(tokens: seq<Token>, e: Element, at: int)
    ensures !IsSeparator(LastToken(tokens + EncodeTokens(e, at)))
  {
    EncodeTokensLast(e, at);
    var ts := EncodeTokens(e, at);
    assert (tokens + ts)[|tokens + ts| - 1] == ts[|ts| - 1];
  }

  /** The scan from column i over the text of a canonical element appends
      the element's tokens and ends right after its text, whatever follows. */
  lemma {:induction false} ElementScanned(line: string, tokens: seq<Token>, i: nat, j: nat, ln: Int32, log: seq<Message>, e: Element)
    requires j == i + Width(e) && !IsSeparator(LastToken(tokens)) && Canonical(e) && At(line, i, Encode(e)) && |line| <= MaxInt
    ensures Leads(line, LexState(tokens, i, ln, log), LexState(tokens + EncodeTokens(e, i), j, NumberAfter(e, ln), log))
    decreases e, 1
  {
    match e
    case BInteger(v) => IntegerScanned(line, tokens, i, j, ln, log, v);
    case BString(str) => StringScanned(line, tokens, i, j, ln, log, str);
    case BList(items) => ListScanned(line, tokens, i, j, ln, log, items);
    case BDictionary(d) => DictionaryScanned(line, tokens, i, j, ln, log, d);
  }

  /** Where the characters of l...e stand. */
  lemma {:induction false} ListText(line: string, i: nat, p: nat, k: nat, items: seq<Element>)
    requires At(line, i, Encode(BList(items))) && p == i + 1 && k == p + ItemsWidth(items)
    ensures i < |line| && line[i] == 'l' && At(line, p, EncodeItems(items)) && k < |line| && line[k] == 'e'
  {
    EncodeItemsWidth(items);
    ThreeParts(line, i, "l", EncodeItems(items), "e");
    AtIndex(line, i, "l", 0);
    AtIndex(line, k, "e", 0);
  }

  /** The scanner's tokens for l...e, gathered. */
  lemma {:induction false} ListChain(tokens: seq<Token>, i: nat, p: nat, k: nat, j: nat, ln: Int32, log: seq<Message>, items: seq<Element>)
    requires p == i + 1 && k == p + ItemsWidth(items)
    ensures LexState(tokens + [Tok(List, i, CharValue('l'))] + ItemsTokens(items, p) + [Tok(EndType, k, CharValue('e'))], j,
                     ItemsNumberAfter(items, ln), log) ==
            LexState(tokens + EncodeTokens(BList(items), i), j, NumberAfter(BList(items), ln), log)
  {
    Glue4(tokens, [Tok(List, i, CharValue('l'))], ItemsTokens(items, p), [Tok(EndType, k, CharValue('e'))]);
  }

  lemma {:induction false} ListScanned(line: string, tokens: seq<Token>, i: nat, j: nat, ln: Int32, log: seq<Message>, items: seq<Element>)
    requires j == i + Width(BList(items)) && !IsSeparator(LastToken(tokens)) && CanonicalItems(items)
    requires At(line, i, Encode(BList(items))) && |line| <= MaxInt
    ensures Leads(line, LexState(tokens, i, ln, log), LexState(tokens + EncodeTokens(BList(items), i), j, NumberAfter(BList(items), ln), log))
    decreases BList(items), 0
  {
    var p := i + 1;
    var k := p + ItemsWidth(items);
    ListText(line, i, p, k, items);
    var open := [Tok(List, i, CharValue('l'))];
    var m := ItemsNumberAfter(items, ln);
    CharScanned(line, tokens, i, p, ln, log, 'l', List);
    ItemsScanned(line, tokens + open, p, k, ln, log, items);
    ItemsNotSeparator(tokens + open, items, p);
    CharScanned(line, tokens + open + ItemsTokens(items, p), k, j, m, log, 'e', EndType);
    Trans(line, LexState(tokens, i, ln, log), LexState(tokens + open, p, ln, log),
          LexState(tokens + open + ItemsTokens(items, p), k, m, log));
    Trans(line, LexState(tokens, i, ln, log), LexState(tokens + open + ItemsTokens(items, p), k, m, log),
          LexState(tokens + open + ItemsTokens(items, p) + [Tok(EndType, k, CharValue('e'))], j, m, log));
    ListChain(tokens, i, p, k, j, ln, log, items);
  }

  lemma {:induction false} ItemsNotSeparator(tokens: seq<Token>, items: seq<Element>, at: int)
    requires !IsSeparator(LastToken(tokens))
    ensures !IsSeparator(LastToken(tokens + ItemsTokens(items, at)))
    decreases items
  {
    if items != [] {
      NotSeparatorAfter(tokens, items[0], at);
      ItemsNotSeparator(tokens + EncodeTokens(items[0], at), items[1..], at + Width(items[0]));
      Glue3(tokens, EncodeTokens(items[0], at), ItemsTokens(items[1..], at + Width(items[0])));
    }
  }

  /** Where the first item's text and the remaining items' texts stand. */
  lemma {:induction false} ItemsText(line: string, i: nat, k: nat, items: seq<Element>)
    requires items != [] && At(line, i, EncodeItems(items)) && k == i + Width(items[0])
    ensures At(line, i, Encode(items[0])) && At(line, k, EncodeItems(items[1..]))
  {
    EncodeWidth(items[0]);
    SliceParts(line, i, EncodeItems(items), Encode(items[0]), EncodeItems(items[1..]));
  }

  /** The scanner's tokens for the first item and the rest, gathered. */
  lemma {:induction false} ItemsChain(tokens: seq<Token>, i: nat, k: nat, j: nat, ln: Int32, log: seq<Message>, items: seq<Element>)
    requires items != [] && k == i + Width(items[0])
    ensures LexState(tokens + EncodeTokens(items[0], i) + ItemsTokens(items[1..], k), j, ItemsNumberAfter(items[1..], NumberAfter(items[0], ln)), log) ==
            LexState(tokens + ItemsTokens(items, i), j, ItemsNumberAfter(items, ln), log)
  {
    Glue3(tokens, EncodeTokens(items[0], i), ItemsTokens(items[1..], k));
  }

  /** The scan over the items' texts, one after the other, up to j. */
  lemma {:induction false} ItemsScanned(line: string, tokens: seq<Token>, i: nat, j: nat, ln: Int32, log: seq<Message>, items: seq<Element>)
    requires j == i + ItemsWidth(items) && !IsSeparator(LastToken(tokens)) && CanonicalItems(items)
    requires At(line, i, EncodeItems(items)) && |line| <= MaxInt
    ensures Leads(line, LexState(tokens, i, ln, log), LexState(tokens + ItemsTokens(items, i), j, ItemsNumberAfter(items, ln), log))
    decreases items, 0
  {
    if items == [] {
      assert LexState(tokens + ItemsTokens(items, i), j, ItemsNumberAfter(items, ln), log) == LexState(tokens, i, ln, log);
    } else {
      var k := i + Width(items[0]);
      ItemsText(line, i, k, items);
      var first := EncodeTokens(items[0], i);
      var m := NumberAfter(items[0], ln);
      ElementScanned(line, tokens, i, k, ln, log, items[0]);
      NotSeparatorAfter(tokens, items[0], i);
      ItemsScanned(line, tokens + first, k, j, m, log, items[1..]);
      Trans(line, LexState(tokens, i, ln, log), LexState(tokens + first, k, m, log),
            LexState(tokens + first + ItemsTokens(items[1..], k), j, ItemsNumberAfter(items[1..], m), log));
      ItemsChain(tokens, i, k, j, ln, log, items);
    }
  }

  /** Where the characters of d...e stand. */
  lemma {:induction false} DictionaryText(line: string, i: nat, p: nat, k: nat, d: seq<Entry>)
    requires At(line, i, Encode(BDictionary(d))) && p == i + 1 && k == p + EntriesWidth(d)
    ensures i < |line| && line[i] == 'd' && At(line, p, EncodeEntries(d)) && k < |line| && line[k] == 'e'
  {
    EncodeEntriesWidth(d);
    ThreeParts(line, i, "d", EncodeEntries(d), "e");
    AtIndex(line, i, "d", 0);
    AtIndex(line, k, "e", 0);
  }

  /** The scanner's tokens for d...e, gathered. */
  lemma {:induction false} DictionaryChain(tokens: seq<Token>, i: nat, p: nat, k: nat, j: nat, ln: Int32, log: seq<Message>, d: seq<Entry>)
    requires p == i + 1 && k == p + EntriesWidth(d)
    ensures LexState(tokens + [Tok(Dictionary, i, CharValue('d'))] + EntriesTokens(d, p) + [Tok(EndType, k, CharValue('e'))], j,
                     EntriesNumberAfter(d, ln), log) ==
            LexState(tokens + EncodeTokens(BDictionary(d), i), j, NumberAfter(BDictionary(d), ln), log)
  {
    Glue4(tokens, [Tok(Dictionary, i, CharValue('d'))], EntriesTokens(d, p), [Tok(EndType, k, CharValue('e'))]);
  }

  lemma {:induction false} DictionaryScanned(line: string, tokens: seq<Token>, i: nat, j: nat, ln: Int32, log: seq<Message>, d: seq<Entry>)
    requires j == i + Width(BDictionary(d)) && !IsSeparator(LastToken(tokens)) && CanonicalEntries(d)
    requires At(line, i, Encode(BDictionary(d))) && |line| <= MaxInt
    ensures Leads(line, LexState(tokens, i, ln, log), LexState(tokens + EncodeTokens(BDictionary(d), i), j, NumberAfter(BDictionary(d), ln), log))
    decreases BDictionary(d), 0
  {
    var p := i + 1;
    var k := p + EntriesWidth(d);
    DictionaryText(line, i, p, k, d);
    var open := [Tok(Dictionary, i, CharValue('d'))];
    var m := EntriesNumberAfter(d, ln);
    CharScanned(line, tokens, i, p, ln, log, 'd', Dictionary);
    EntriesScanned(line, tokens + open, p, k, ln, log, d);
    EntriesNotSeparator(tokens + open, d, p);
    CharScanned(line, tokens + open + EntriesTokens(d, p), k, j, m, log, 'e', EndType);
    Trans(line, LexState(tokens, i, ln, log), LexState(tokens + open, p, ln, log),
          LexState(tokens + open + EntriesTokens(d, p), k, m, log));
    Trans(line, LexState(tokens, i, ln, log), LexState(tokens + open + EntriesTokens(d, p), k, m, log),
          LexState(tokens + open + EntriesTokens(d, p) + [Tok(EndType, k, CharValue('e'))], j, m, log));
    DictionaryChain(tokens, i, p, k, j, ln, log, d);
  }

  lemma {:induction false} EntriesNotSeparator(tokens: seq<Token>, d: seq<Entry>, at: int)
    requires !IsSeparator(LastToken(tokens))
    ensures !IsSeparator(LastToken(tokens + EntriesTokens(d, at)))
    decreases d
  {
    if d != [] {
      var withKey := tokens + StringTokens(d[0].key, at);
      NotSeparatorAfter(withKey, d[0].value, at + StringWidth(d[0].key));
      EntriesNotSeparator(withKey + EncodeTokens(d[0].value, at + StringWidth(d[0].key)), d[1..],
                          at + StringWidth(d[0].key) + Width(d[0].value));
      Glue4(tokens, StringTokens(d[0].key, at), EncodeTokens(d[0].value, at + StringWidth(d[0].key)),
            EntriesTokens(d[1..], at + StringWidth(d[0].key) + Width(d[0].value)));
    }
  }

  /** Where the first key's text, its value's text and the remaining
      entries' texts stand. */
  lemma {:induction false} EntriesText(line: string, i: nat, p: nat, r: nat, d: seq<Entry>)
    requires d != [] && At(line, i, EncodeEntries(d)) && p == i + Width(BString(d[0].key)) && r == p + Width(d[0].value)
    ensures At(line, i, Encode(BString(d[0].key))) && At(line, p, Encode(d[0].value)) && At(line, r, EncodeEntries(d[1..]))
  {
    var key := EncodeString(d[0].key);
    NatToDigitsLength(|d[0].key|);
    EncodeWidth(d[0].value);
    ThreePartsAt(line, i, p, r, key, Encode(d[0].value), EncodeEntries(d[1..]));
  }

  /** The scanner's tokens for the first entry and the rest, gathered. */
  lemma {:induction false} EntriesChain(tokens: seq<Token>, i: nat, p: nat, r: nat, j: nat, ln: Int32, log: seq<Message>, d: seq<Entry>)
    requires d != [] && p == i + Width(BString(d[0].key)) && r == p + Width(d[0].value)
    ensures LexState(tokens + EncodeTokens(BString(d[0].key), i) + EncodeTokens(d[0].value, p) + EntriesTokens(d[1..], r), j,
                     EntriesNumberAfter(d[1..], NumberAfter(d[0].value, NumberAfter(BString(d[0].key), ln))), log) ==
            LexState(tokens + EntriesTokens(d, i), j, EntriesNumberAfter(d, ln), log)
  {
    Glue4(tokens, StringTokens(d[0].key, i), EncodeTokens(d[0].value, p), EntriesTokens(d[1..], r));
  }

  /** The scan over the entries' texts, each key then its value, up to j. */
  lemma {:induction false} EntriesScanned(line: string, tokens: seq<Token>, i: nat, j: nat, ln: Int32, log: seq<Message>, d: seq<Entry>)
    requires j == i + EntriesWidth(d) && !IsSeparator(LastToken(tokens)) && CanonicalEntries(d)
    requires At(line, i, EncodeEntries(d)) && |line| <= MaxInt
    ensures Leads(line, LexState(tokens, i, ln, log), LexState(tokens + EntriesTokens(d, i), j, EntriesNumberAfter(d, ln), log))
    decreases d, 0
  {
    if d == [] {
      assert LexState(tokens + EntriesTokens(d, i), j, EntriesNumberAfter(d, ln), log) == LexState(tokens, i, ln, log);
    } else {
      var key := BString(d[0].key);
      var value := d[0].value;
      var p := i + Width(key);
      var r := p + Width(value);
      EntriesText(line, i, p, r, d);
      var kt := EncodeTokens(key, i);
      var vt := EncodeTokens(value, p);
      var k := NumberAfter(key, ln);
      var m := NumberAfter(value, k);
      StringScanned(line, tokens, i, p, ln, log, d[0].key);
      NotSeparatorAfter(tokens, key, i);
      ElementScanned(line, tokens + kt, p, r, k, log, value);
      NotSeparatorAfter(tokens + kt, value, p);
      EntriesScanned(line, tokens + kt + vt, r, j, m, log, d[1..]);
      Trans(line, LexState(tokens, i, ln, log), LexState(tokens + kt, p, k, log), LexState(tokens + kt + vt, r, m, log));
      Trans(line, LexState(tokens, i, ln, log), LexState(tokens + kt + vt, r, m, log),
            LexState(tokens + kt + vt + EntriesTokens(d[1..], r), j, EntriesNumberAfter(d[1..], m), log));
      EntriesChain(tokens, i, p, r, j, ln, log, d);
    }
  }

  // ------------------------------------------------------ whole documents

  /** Bencode text never starts with whitespace. */
  lemma {:induction false} OpensNotBlank(text: string)
    requires |text| > 0 && Opens(text[0])
    ensures !IsBlank(text)
  {
  }

  /** Lexer.scan over the Bencode text of a canonical element yields the
      encoder's tokens closed by EOF, and reports nothing; a reporter that
      already holds messages makes the result null, as hasError() decides. */
  lemma {:induction false} ScanEncoded(e: Element, log: seq<Message>)
    requires Canonical(e) && |Encode(e)| <= MaxInt
    ensures Tokenize(Some(Encode(e)), log) ==
            ScanResult(Returned(if |log| > 0 then None else Some(EncodeTokens(e, 0) + [EofToken])), log)
  {
    var line := Encode(e);
    OpensNotBlank(line);
    assert line[0..|line|] == line;
    SliceAt(line, 0, line);
    EncodeWidth(e);
    ElementScanned(line, [], 0, |line|, 0, log, e);
    assert [] + EncodeTokens(e, 0) == EncodeTokens(e, 0);
  }

  /** The text of several elements, one after the other: the tokens of each
      in turn, closed by EOF. */
  lemma {:induction false} ScanEncodedItems(items: seq<Element>, log: seq<Message>)
    requires items != [] && CanonicalItems(items) && |EncodeItems(items)| <= MaxInt
    ensures Tokenize(Some(EncodeItems(items)), log) ==
            ScanResult(Returned(if |log| > 0 then None else Some(ItemsTokens(items, 0) + [EofToken])), log)
  {
    var line := EncodeItems(items);
    assert line[0] == Encode(items[0])[0];
    OpensNotBlank(line);
    assert line[0..|line|] == line;
    SliceAt(line, 0, line);
    EncodeItemsWidth(items);
    ItemsScanned(line, [], 0, |line|, 0, log, items);
    assert [] + ItemsTokens(items, 0) == ItemsTokens(items, 0);
  }

  /** What lexing then parsing a text gives: the parser runs on the lexer's
      tokens only when the lexer returned a list. */
  predicate Decodes(text: string, e: Element)
  {
    var r := Tokenize(Some(text), []);
    r.outcome.Returned? && r.outcome.value.Some? && r.log == [] &&
    Parsing.ValidTokens(r.outcome.value.value) &&
    Parsing.ParseTokens(r.outcome.value.value, []) == Parsing.ParseResult(Some(e), [])
  }

  lemma {:induction false} TokensAt(ts: seq<Token>, w: seq<Token>)
    ensures At(w + ts, 0, w)
  {
    assert (w + ts)[0..|w|] == w;
    SliceAt(w + ts, 0, w);
  }

  /** Round trip: the decoder gives back every canonical element from its
      Bencode text, reporting nothing. */
  lemma {:induction false} DecodeEncoded(e: Element)
    requires Canonical(e) && |Encode(e)| <= MaxInt
    ensures Decodes(Encode(e), e)
  {
    ScanEncoded(e, []);
    LexerProperties.ScanResultShape(Some(Encode(e)), []);
    var ts := EncodeTokens(e, 0) + [EofToken];
    TokensAt([EofToken], EncodeTokens(e, 0));
    ParserProperties.ParseEncodedDocument(ts, e, 0);
  }

  /** Of a text holding several elements, the decoder returns the last. */
  lemma {:induction false} DecodeEncodedItems(items: seq<Element>)
    requires items != [] && CanonicalItems(items) && |EncodeItems(items)| <= MaxInt
    ensures Decodes(EncodeItems(items), items[|items| - 1])
  {
    ScanEncodedItems(items, []);
    LexerProperties.ScanResultShape(Some(EncodeItems(items)), []);
    var ts := ItemsTokens(items, 0) + [EofToken];
    TokensAt([EofToken], ItemsTokens(items, 0));
    ParserProperties.LastElementWins(ts, items, 0);
  }
}
