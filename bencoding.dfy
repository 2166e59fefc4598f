/** A reference encoder, independent of the decoder: the Bencode text of an
    element (BitTorrent BEP 3, "bencoding") and the tokens the lexer is
    meant to produce for it. It is the partner against which the lexer and
    the parser are proved. */
module Bencoding {
  import opened Java
  import opened Tokens
  import opened Elements
  import Parsing

  /** A string the decoder can carry: the lexer reads only ASCII spans, and
      a declared length of 0 aborts the scan. */
  predicate GoodString(s: string)
  {
    1 <= |s| <= MaxInt && forall k | 0 <= k < |s| :: s[k] as int <= 127
  }

  /** An element in canonical Bencode form: good strings everywhere, and
      every dictionary's keys distinct and in ascending order. */
  predicate Canonical(e: Element)
  {
    match e
    case BInteger(_) => true
    case BString(s) => GoodString(s)
    case BList(items) => CanonicalItems(items)
    case BDictionary(d) => DistinctKeys(d) && Parsing.KeysInOrder(d) && CanonicalEntries(d)
  }

  predicate CanonicalItems(items: seq<Element>)
  {
    items == [] || (Canonical(items[0]) && CanonicalItems(items[1..]))
  }

  predicate CanonicalEntries(d: seq<Entry>)
  {
    d == [] || (GoodString(d[0].key) && Canonical(d[0].value) && CanonicalEntries(d[1..]))
  }

  /** Whether a character opens an element's text. */
  predicate Opens(c: char) { c == 'i' || c == 'l' || c == 'd' || IsAsciiDigit(c) }

  /** <length>:<text>. */
  function EncodeString(s: string): (r: string)
    ensures |r| > 0 && IsAsciiDigit(r[0])
  {
    NatToDigits(|s|) + ":" + s
  }

  /** The Bencode text: i<n>e, <length>:<text>, l...e, d...e. */
  function Encode(e: Element): (r: string)
    ensures |r| > 0 && Opens(r[0])
  {
    match e
    case BInteger(v) => "i" + IntToString(v) + "e"
    case BString(s) => EncodeString(s)
    case BList(items) => "l" + EncodeItems(items) + "e"
    case BDictionary(d) => "d" + EncodeEntries(d) + "e"
  }

  function EncodeItems(items: seq<Element>): string
  {
    if items == [] then "" else Encode(items[0]) + EncodeItems(items[1..])
  }

  function EncodeEntries(d: seq<Entry>): string
  {
    if d == [] then "" else EncodeString(d[0].key) + Encode(d[0].value) + EncodeEntries(d[1..])
  }

  /** |Encode(e)|, computed from the digit counts alone. */
  function Width(e: Element): nat
  {
    match e
    case BInteger(v) => IntWidth(v) + 2
    case BString(s) => StringWidth(s)
    case BList(items) => ItemsWidth(items) + 2
    case BDictionary(d) => EntriesWidth(d) + 2
  }

  function StringWidth(s: string): nat
  {
    DigitCount(|s|) + 1 + |s|
  }

  function ItemsWidth(items: seq<Element>): nat
  {
    if items == [] then 0 else Width(items[0]) + ItemsWidth(items[1..])
  }

  function EntriesWidth(d: seq<Entry>): nat
  {
    if d == [] then 0 else StringWidth(d[0].key) + Width(d[0].value) + EntriesWidth(d[1..])
  }

  lemma {:induction false} EncodeWidth(e: Element)
    ensures |Encode(e)| == Width(e)
    decreases e, 1
  {
    match e
    case BInteger(v) => IntToStringLength(v);
    case BString(s) => NatToDigitsLength(|s|);
    case BList(items) => EncodeItemsWidth(items);
    case BDictionary(d) => EncodeEntriesWidth(d);
  }

  lemma {:induction false} EncodeItemsWidth(items: seq<Element>)
    ensures |EncodeItems(items)| == ItemsWidth(items)
    decreases items
  {
    if items != [] {
      EncodeWidth(items[0]);
      EncodeItemsWidth(items[1..]);
    }
  }

  lemma {:induction false} EncodeEntriesWidth(d: seq<Entry>)
    ensures |EncodeEntries(d)| == EntriesWidth(d)
    decreases d
  {
    if d != [] {
      NatToDigitsLength(|d[0].key|);
      EncodeWidth(d[0].value);
      EncodeEntriesWidth(d[1..]);
    }
  }

  /** A lexer token on the only line. */
  function Tok(kind: TokenType, pos: int, value: TokenValue): Token
  {
    Token(kind, 1, pos, value)
  }

  /** The tokens of Encode(e) when it starts at column `at`, with the
      positions and payloads the lexer gives them: a STRING token sits at
      its start minus its length. */
  function EncodeTokens(e: Element, at: int): seq<Token>
  {
    match e
    case BInteger(v) =>
      [Tok(IntegerBegin, at, CharValue('i')), Tok(Integer, at + 1, IntValue(v)),
       Tok(EndType, at + 1 + IntWidth(v), CharValue('e'))]
    case BString(s) => StringTokens(s, at)
    case BList(items) =>
      [Tok(List, at, CharValue('l'))] + ItemsTokens(items, at + 1) +
      [Tok(EndType, at + 1 + ItemsWidth(items), CharValue('e'))]
    case BDictionary(d) =>
      [Tok(Dictionary, at, CharValue('d'))] + EntriesTokens(d, at + 1) +
      [Tok(EndType, at + 1 + EntriesWidth(d), CharValue('e'))]
  }

  /** The tokens of <length>:<text>; the length is the int the lexer parses,
      which is |s| itself for a good string. */
  function StringTokens(s: string, at: int): seq<Token>
  {
    var n := DigitCount(|s|);
    [Tok(StringBegin, at, IntValue(WrapInt32(|s|))), Tok(Separator, at + n, CharValue(':')),
     Tok(String, at + n + 1 - |s|, StringValue(s))]
  }

  function ItemsTokens(items: seq<Element>, at: int): seq<Token>
  {
    if items == [] then []
    else EncodeTokens(items[0], at) + ItemsTokens(items[1..], at + Width(items[0]))
  }

  function EntriesTokens(d: seq<Entry>, at: int): seq<Token>
  {
    if d == [] then []
    else
      StringTokens(d[0].key, at) + EncodeTokens(d[0].value, at + StringWidth(d[0].key)) +
      EntriesTokens(d[1..], at + StringWidth(d[0].key) + Width(d[0].value))
  }
}
