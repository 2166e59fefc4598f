/** Concrete runs of the lexer on the inputs its tests are about. Each run
    is walked back from the end of the loop: the result from the last state,
    then, pass by pass, the same result from the state before. */
module LexerScenarios {
  import opened Java
  import opened Tokens
  import opened Reporting
  import opened Lexing
  import opened Bencoding
  import LexerProperties

  // One pass of the loop, for any line, told by what the current character
  // is; a run below is a chain of these.

  lemma Starts(line: string, log: seq<Message>)
    requires |line| > 0 && !IsWhitespace(line[0])
    ensures Tokenize(Some(line), log) == ScanFrom(line, LexState([], 0, 0, log))
  {
  }

  lemma Passes(line: string, s: LexState, t: LexState)
    requires 0 <= s.i < |line| && Step(line, s) == Next(t)
    ensures ScanFrom(line, s) == ScanFrom(line, t)
  {
  }

  lemma Ends(line: string, s: LexState, r: ScanResult)
    requires 0 <= s.i < |line| && Step(line, s) == Stop(r)
    ensures ScanFrom(line, s) == r
  {
  }

  lemma Finishes(line: string, s: LexState)
    requires |line| <= s.i
    ensures ScanFrom(line, s) ==
            ScanResult(Returned(if |s.log| > 0 then None else Some(s.tokens + [EofToken])), s.log)
  {
  }

  lemma OpenerPass(line: string, s: LexState, eff: Effect)
    requires 0 <= s.i < |line| && GetTokenType(line[s.i], LastToken(s.tokens)) == Some(IntegerBegin)
    requires eff == NumberEffect(line, s.i + 1, Integer, s.tokens + [Tok(IntegerBegin, s.i, CharValue('i'))], s.log)
    ensures Step(line, s) == Resume(eff, s.lastNumber)
  {
  }

  lemma TextPass(line: string, s: LexState)
    requires 0 <= s.i < |line| && GetTokenType(line[s.i], LastToken(s.tokens)) == Some(String)
    ensures Step(line, s) == Resume(StringEffect(line, s.i, s.lastNumber, s.tokens, s.log), s.lastNumber)
  {
  }

  lemma LengthPass(line: string, s: LexState, eff: Effect, length: Int32)
    requires 0 <= s.i < |line| && IsAsciiDigit(line[s.i]) && GetTokenType(line[s.i], LastToken(s.tokens)).None?
    requires eff == NumberEffect(line, s.i, StringBegin, s.tokens, s.log)
    requires eff.result.Returned? && eff.result.value != -1
    requires LastToken(eff.tokens).Some? && LastToken(eff.tokens).value.value == IntValue(length)
    ensures Step(line, s) == Next(LexState(eff.tokens, eff.result.value, length, eff.log))
  {
  }

  lemma CharPass(line: string, s: LexState, kind: TokenType)
    requires 0 <= s.i < |line| && !IsAsciiDigit(line[s.i])
    requires GetTokenType(line[s.i], LastToken(s.tokens)) == Some(kind) && kind != IntegerBegin && kind != String
    ensures Step(line, s) == Next(LexState(s.tokens + [Tok(kind, s.i, CharValue(line[s.i]))], s.i + 1, s.lastNumber, s.log))
  {
  }

  lemma UnknownPass(line: string, s: LexState)
    requires 0 <= s.i < |line| && !IsAsciiDigit(line[s.i]) && GetTokenType(line[s.i], LastToken(s.tokens)).None?
    requires Allows(s.log)
    ensures Step(line, s) == Next(LexState(s.tokens, s.i + 1, s.lastNumber, s.log + [LexerMessage(UnknownChar, s.i)]))
  {
  }

  lemma NumberRead(line: string, start: nat, end: nat, kind: TokenType, tokens: seq<Token>, log: seq<Message>, v: Int32)
    requires start < |line| && end == DigitRunEnd(line, start + 1)
    requires !StartsWithZeros(line[start..end]) && ParseInt(line[start..end]) == Some(v)
    ensures NumberEffect(line, start, kind, tokens, log) == Effect(Returned(end), tokens + [Tok(kind, start, IntValue(v))], log)
  {
  }

  lemma NumberZeros(line: string, start: nat, end: nat, kind: TokenType, tokens: seq<Token>, log: seq<Message>)
    requires start < |line| && end == DigitRunEnd(line, start + 1) && StartsWithZeros(line[start..end])
    ensures NumberEffect(line, start, kind, tokens, log) ==
            Effect(Returned(if Allows(log) then end - start else -1), tokens, log + [LexerMessage(NumberWithDeadZeros, start)])
  {
  }

  lemma CastPass(line: string, s: LexState, eff: Effect)
    requires 0 <= s.i < |line| && IsAsciiDigit(line[s.i]) && GetTokenType(line[s.i], LastToken(s.tokens)).None?
    requires eff == NumberEffect(line, s.i, StringBegin, s.tokens, s.log)
    requires eff.result.Returned? && eff.result.value != -1
    requires LastToken(eff.tokens).Some? && !LastToken(eff.tokens).value.value.IntValue?
    ensures Step(line, s) == Stop(ScanResult(Threw(ClassCast), eff.log))
  {
  }

  lemma TextRead(line: string, i: nat, length: Int32, tokens: seq<Token>, log: seq<Message>)
    requires i < |line| <= MaxInt && 0 < length && i + length <= |line| && FirstNonAscii(line, i, i + length).None?
    ensures StringEffect(line, i, length, tokens, log) ==
            Effect(Returned(i + length), tokens + [Tok(String, i - length, StringValue(line[i..i + length]))], log)
  {
  }

  lemma TextTooLong(line: string, i: nat, length: Int32, tokens: seq<Token>, log: seq<Message>)
    requires i < |line| && 0 < length && |line| < i + length <= MaxInt
    ensures StringEffect(line, i, length, tokens, log) ==
            Effect(Returned(if Allows(log) then i + length else -1), tokens, log + [LexerMessage(IncorrectStringLength, i)])
  {
  }

  lemma TextEmpty(line: string, i: nat, tokens: seq<Token>, log: seq<Message>)
    requires i < |line|
    ensures StringEffect(line, i, 0, tokens, log) ==
            Effect(Returned(-1), tokens, log + [LexerMessage(IncorrectStringLength, i)])
  {
  }

  lemma TextNotAscii(line: string, i: nat, length: Int32, tokens: seq<Token>, log: seq<Message>, p: nat)
    requires i < |line| <= MaxInt && 0 < length && i + length <= |line| && FirstNonAscii(line, i, i + length) == Some(p)
    ensures StringEffect(line, i, length, tokens, log) ==
            Effect(Returned(if Allows(log) then i + 1 else -1), tokens, log + [LexerMessage(UnknownChar, p)])
  {
  }

  /** Whether `line` holds the characters of `text`. The runs below are
      proved for any such line and then stated for the text itself; stating
      them for the literal directly would make the solver evaluate the
      whole loop at every step. */
  predicate Spelled(line: string, text: string)
  {
    |line| == |text| && forall k | 0 <= k < |text| :: line[k] == text[k]
  }

  const Opener: Token := Tok(IntegerBegin, 0, CharValue('i'))

  /** The tokens of a one-digit length n and its separator. */
  function Header(n: Int32): seq<Token>
  {
    [Tok(StringBegin, 0, IntValue(n)), Tok(Separator, 1, CharValue(':'))]
  }

  /** The first pass over "<digit>...": the one-digit length. */
  lemma LengthDigit(line: string, n: nat)
    requires n < 10 && |line| >= 2 && line[0] == DigitChar(n) && !IsAsciiDigit(line[1])
    ensures ScanFrom(line, LexState([], 0, 0, [])) ==
            ScanFrom(line, LexState([Tok(StringBegin, 0, IntValue(n))], 1, n, []))
  {
    var s0 := LexState([], 0, 0, []);
    assert DigitRunEnd(line, 1) == 1;
    assert line[0..1] == [DigitChar(n)];
    assert DigitsValue([DigitChar(n)]) == n by { assert [DigitChar(n)][..0] == []; }
    NumberRead(line, 0, 1, StringBegin, [], [], n);
    LengthPass(line, s0, Effect(Returned(1), [Tok(StringBegin, 0, IntValue(n))], []), n);
    Passes(line, s0, LexState([Tok(StringBegin, 0, IntValue(n))], 1, n, []));
  }

  /** The first two passes over "<digit>:...": the length and the separator. */
  lemma HeaderPasses(line: string, n: nat)
    requires n < 10 && |line| >= 2 && line[0] == DigitChar(n) && line[1] == ':'
    ensures Tokenize(Some(line), []) == ScanFrom(line, LexState(Header(n), 2, n, []))
  {
    var s1 := LexState([Tok(StringBegin, 0, IntValue(n))], 1, n, []);
    Starts(line, []);
    LengthDigit(line, n);
    CharPass(line, s1, Separator);
    Passes(line, s1, LexState(Header(n), 2, n, []));
  }

  // ------------------------------------------------------------ "i0e"

  const ZeroTokens: seq<Token> := [Opener, Tok(Integer, 1, IntValue(0))]

  lemma ScanZero0(line: string)
    requires Spelled(line, "i0e")
    ensures ScanFrom(line, LexState([], 0, 0, [])) == ScanFrom(line, LexState(ZeroTokens, 2, 0, []))
  {
    assert DigitRunEnd(line, 2) == 2;
    assert line[1..2] == "0";
    assert DigitsValue("0") == 0 by { assert "0"[..0] == ""; }
    NumberRead(line, 1, 2, Integer, [Opener], [], 0);
    OpenerPass(line, LexState([], 0, 0, []), Effect(Returned(2), ZeroTokens, []));
    Passes(line, LexState([], 0, 0, []), LexState(ZeroTokens, 2, 0, []));
  }

  lemma ScanZero1(line: string)
    requires Spelled(line, "i0e")
    ensures ScanFrom(line, LexState(ZeroTokens, 2, 0, [])) ==
            ScanResult(Returned(Some(ZeroTokens + [Tok(EndType, 2, CharValue('e'))] + [EofToken])), [])
  {
    var s1 := LexState(ZeroTokens, 2, 0, []);
    CharPass(line, s1, EndType);
    Passes(line, s1, LexState(ZeroTokens + [Tok(EndType, 2, CharValue('e'))], 3, 0, []));
    Finishes(line, LexState(ZeroTokens + [Tok(EndType, 2, CharValue('e'))], 3, 0, []));
  }

  lemma ScanZeroRun(line: string)
    requires Spelled(line, "i0e")
    ensures Tokenize(Some(line), []) ==
            ScanResult(Returned(Some([Opener, Tok(Integer, 1, IntValue(0)), Tok(EndType, 2, CharValue('e')), EofToken])), [])
  {
    Starts(line, []);
    ScanZero0(line);
    ScanZero1(line);
    assert ZeroTokens + [Tok(EndType, 2, CharValue('e'))] + [EofToken] ==
           [Opener, Tok(Integer, 1, IntValue(0)), Tok(EndType, 2, CharValue('e')), EofToken];
  }

  /** "i0e": a single zero is an integer, not a number with dead zeros. */
  lemma ScanZero()
    ensures Tokenize(Some("i0e"), []) ==
            ScanResult(Returned(Some([Tok(IntegerBegin, 0, CharValue('i')), Tok(Integer, 1, IntValue(0)),
                                      Tok(EndType, 2, CharValue('e')), EofToken])), [])
  {
    ScanZeroRun("i0e");
  }

  // ---------------------------------------------------------- "i-213e"

  const NegativeTokens: seq<Token> := [Opener, Tok(Integer, 1, IntValue(-213))]

  lemma ScanNegative0(line: string)
    requires Spelled(line, "i-213e")
    ensures ScanFrom(line, LexState([], 0, 0, [])) == ScanFrom(line, LexState(NegativeTokens, 5, 0, []))
  {
    assert DigitRunEnd(line, 5) == 5;
    assert DigitRunEnd(line, 3) == 5;
    assert DigitRunEnd(line, 2) == 5;
    assert line[1..5] == "-213";
    assert DigitsValue("213") == 213 by {
      assert "213"[..2] == "21" && "21"[..1] == "2" && "2"[..0] == "";
    }
    assert "-213"[1..] == "213";
    NumberRead(line, 1, 5, Integer, [Opener], [], -213);
    OpenerPass(line, LexState([], 0, 0, []), Effect(Returned(5), NegativeTokens, []));
    Passes(line, LexState([], 0, 0, []), LexState(NegativeTokens, 5, 0, []));
  }

  lemma ScanNegative1(line: string)
    requires Spelled(line, "i-213e")
    ensures ScanFrom(line, LexState(NegativeTokens, 5, 0, [])) ==
            ScanResult(Returned(Some(NegativeTokens + [Tok(EndType, 5, CharValue('e'))] + [EofToken])), [])
  {
    var s1 := LexState(NegativeTokens, 5, 0, []);
    CharPass(line, s1, EndType);
    Passes(line, s1, LexState(NegativeTokens + [Tok(EndType, 5, CharValue('e'))], 6, 0, []));
    Finishes(line, LexState(NegativeTokens + [Tok(EndType, 5, CharValue('e'))], 6, 0, []));
  }

  lemma ScanNegativeRun(line: string)
    requires Spelled(line, "i-213e")
    ensures Tokenize(Some(line), []) ==
            ScanResult(Returned(Some([Opener, Tok(Integer, 1, IntValue(-213)), Tok(EndType, 5, CharValue('e')), EofToken])), [])
  {
    Starts(line, []);
    ScanNegative0(line);
    ScanNegative1(line);
    assert NegativeTokens + [Tok(EndType, 5, CharValue('e'))] + [EofToken] ==
           [Opener, Tok(Integer, 1, IntValue(-213)), Tok(EndType, 5, CharValue('e')), EofToken];
  }

  /** "i-213e": a negative integer keeps its sign. */
  lemma ScanNegative()
    ensures Tokenize(Some("i-213e"), []) ==
            ScanResult(Returned(Some([Tok(IntegerBegin, 0, CharValue('i')), Tok(Integer, 1, IntValue(-213)),
                                      Tok(EndType, 5, CharValue('e')), EofToken])), [])
  {
    ScanNegativeRun("i-213e");
  }

  // --------------------------------------------------------- "i00323e"

  const DeadZeros: seq<Message> := [LexerMessage(NumberWithDeadZeros, 1)]

  lemma ScanDeadZeros0(line: string)
    requires Spelled(line, "i00323e")
    ensures ScanFrom(line, LexState([], 0, 0, [])) == ScanFrom(line, LexState([Opener], 5, 0, DeadZeros))
  {
    assert DigitRunEnd(line, 6) == 6;
    assert DigitRunEnd(line, 4) == 6;
    assert DigitRunEnd(line, 2) == 6;
    assert line[1..6] == "00323";
    NumberZeros(line, 1, 6, Integer, [Opener], []);
    OpenerPass(line, LexState([], 0, 0, []), Effect(Returned(5), [Opener], DeadZeros));
    Passes(line, LexState([], 0, 0, []), LexState([Opener], 5, 0, DeadZeros));
  }

  lemma ScanDeadZeros1(line: string)
    requires Spelled(line, "i00323e")
    ensures ScanFrom(line, LexState([Opener], 5, 0, DeadZeros)) ==
            ScanFrom(line, LexState([Opener, Tok(StringBegin, 5, IntValue(3))], 6, 3, DeadZeros))
  {
    var s1 := LexState([Opener], 5, 0, DeadZeros);
    assert DigitRunEnd(line, 6) == 6;
    assert line[5..6] == "3";
    assert DigitsValue("3") == 3 by { assert "3"[..0] == ""; }
    NumberRead(line, 5, 6, StringBegin, [Opener], DeadZeros, 3);
    LengthPass(line, s1, Effect(Returned(6), [Opener, Tok(StringBegin, 5, IntValue(3))], DeadZeros), 3);
    Passes(line, s1, LexState([Opener, Tok(StringBegin, 5, IntValue(3))], 6, 3, DeadZeros));
  }

  lemma ScanDeadZeros2(line: string)
    requires Spelled(line, "i00323e")
    ensures ScanFrom(line, LexState([Opener, Tok(StringBegin, 5, IntValue(3))], 6, 3, DeadZeros)) ==
            ScanResult(Returned(None), DeadZeros)
  {
    var s2 := LexState([Opener, Tok(StringBegin, 5, IntValue(3))], 6, 3, DeadZeros);
    var s3 := LexState(s2.tokens + [Tok(EndType, 6, CharValue('e'))], 7, 3, DeadZeros);
    CharPass(line, s2, EndType);
    Passes(line, s2, s3);
    Finishes(line, s3);
  }

  lemma ScanDeadZerosRun(line: string)
    requires Spelled(line, "i00323e")
    ensures Tokenize(Some(line), []) == ScanResult(Returned(None), DeadZeros)
  {
    Starts(line, []);
    ScanDeadZeros0(line);
    ScanDeadZeros1(line);
    ScanDeadZeros2(line);
  }

  /** "i00323e": the dead zeros are reported at the literal's column, and
      scanning resumes at the literal's length, 5, where the last digit is
      read as a string length. */
  lemma ScanDeadZeros()
    ensures Tokenize(Some("i00323e"), []) ==
            ScanResult(Returned(None), [LexerMessage(NumberWithDeadZeros, 1)])
  {
    ScanDeadZerosRun("i00323e");
  }

  // ------------------------------------------------- "i234324343243424e"

  const TooLarge: seq<Message> := [LexerMessage(IncorrectNumber, 1)]

  lemma ScanTooLarge0(line: string)
    requires Spelled(line, "i234324343243424e")
    ensures ScanFrom(line, LexState([], 0, 0, [])) == ScanFrom(line, LexState([Opener], 15, 0, TooLarge))
  {
    assert DigitRunEnd(line, 16) == 16;
    assert DigitRunEnd(line, 14) == 16;
    assert DigitRunEnd(line, 12) == 16;
    assert DigitRunEnd(line, 10) == 16;
    assert DigitRunEnd(line, 8) == 16;
    assert DigitRunEnd(line, 6) == 16;
    assert DigitRunEnd(line, 4) == 16;
    assert DigitRunEnd(line, 2) == 16;
    var number := line[1..16];
    assert AllDigits(number) by {
      forall k | 0 <= k < |number| ensures IsAsciiDigit(number[k]) { assert number[k] == line[k + 1]; }
    }
    assert number[0] == '2';
    ParseIntRejectsLong(number);
    LexerProperties.NumberOutOfRange(line, 1, Integer, [Opener], []);
    OpenerPass(line, LexState([], 0, 0, []), Effect(Returned(15), [Opener], TooLarge));
    Passes(line, LexState([], 0, 0, []), LexState([Opener], 15, 0, TooLarge));
  }

  lemma ScanTooLarge1(line: string)
    requires Spelled(line, "i234324343243424e")
    ensures ScanFrom(line, LexState([Opener], 15, 0, TooLarge)) ==
            ScanFrom(line, LexState([Opener, Tok(StringBegin, 15, IntValue(4))], 16, 4, TooLarge))
  {
    var s1 := LexState([Opener], 15, 0, TooLarge);
    assert DigitRunEnd(line, 16) == 16;
    assert line[15..16] == "4";
    assert DigitsValue("4") == 4 by { assert "4"[..0] == ""; }
    NumberRead(line, 15, 16, StringBegin, [Opener], TooLarge, 4);
    LengthPass(line, s1, Effect(Returned(16), [Opener, Tok(StringBegin, 15, IntValue(4))], TooLarge), 4);
    Passes(line, s1, LexState([Opener, Tok(StringBegin, 15, IntValue(4))], 16, 4, TooLarge));
  }

  lemma ScanTooLarge2(line: string)
    requires Spelled(line, "i234324343243424e")
    ensures ScanFrom(line, LexState([Opener, Tok(StringBegin, 15, IntValue(4))], 16, 4, TooLarge)) ==
            ScanResult(Returned(None), TooLarge)
  {
    var s2 := LexState([Opener, Tok(StringBegin, 15, IntValue(4))], 16, 4, TooLarge);
    var s3 := LexState(s2.tokens + [Tok(EndType, 16, CharValue('e'))], 17, 4, TooLarge);
    CharPass(line, s2, EndType);
    Passes(line, s2, s3);
    Finishes(line, s3);
  }

  lemma ScanTooLargeRun(line: string)
    requires Spelled(line, "i234324343243424e")
    ensures Tokenize(Some(line), []) == ScanResult(Returned(None), TooLarge)
  {
    Starts(line, []);
    ScanTooLarge0(line);
    ScanTooLarge1(line);
    ScanTooLarge2(line);
  }

  /** "i234324343243424e": the literal is beyond the int range, so
      INCORRECT_NUMBER is reported at its column and scan returns null;
      scanning resumes at the literal's length, 15, where the last digit is
      read as a string length. */
  lemma ScanTooLarge()
    ensures Tokenize(Some("i234324343243424e"), []) ==
            ScanResult(Returned(None), [LexerMessage(IncorrectNumber, 1)])
  {
    ScanTooLargeRun("i234324343243424e");
  }

  // ------------------------------------------------------------ "i-0e"

  lemma ScanMinusZero0(line: string)
    requires Spelled(line, "i-0e")
    ensures ScanFrom(line, LexState([], 0, 0, [])) == ScanFrom(line, LexState([Opener], 2, 0, DeadZeros))
  {
    assert DigitRunEnd(line, 2) == 3;
    assert line[1..3] == "-0";
    NumberZeros(line, 1, 3, Integer, [Opener], []);
    OpenerPass(line, LexState([], 0, 0, []), Effect(Returned(2), [Opener], DeadZeros));
    Passes(line, LexState([], 0, 0, []), LexState([Opener], 2, 0, DeadZeros));
  }

  lemma ScanMinusZero1(line: string)
    requires Spelled(line, "i-0e")
    ensures ScanFrom(line, LexState([Opener], 2, 0, DeadZeros)) ==
            ScanFrom(line, LexState([Opener, Tok(StringBegin, 2, IntValue(0))], 3, 0, DeadZeros))
  {
    var s1 := LexState([Opener], 2, 0, DeadZeros);
    assert DigitRunEnd(line, 3) == 3;
    assert line[2..3] == "0";
    assert DigitsValue("0") == 0 by { assert "0"[..0] == ""; }
    NumberRead(line, 2, 3, StringBegin, [Opener], DeadZeros, 0);
    LengthPass(line, s1, Effect(Returned(3), [Opener, Tok(StringBegin, 2, IntValue(0))], DeadZeros), 0);
    Passes(line, s1, LexState([Opener, Tok(StringBegin, 2, IntValue(0))], 3, 0, DeadZeros));
  }

  lemma ScanMinusZero2(line: string)
    requires Spelled(line, "i-0e")
    ensures ScanFrom(line, LexState([Opener, Tok(StringBegin, 2, IntValue(0))], 3, 0, DeadZeros)) ==
            ScanResult(Returned(None), DeadZeros)
  {
    var s2 := LexState([Opener, Tok(StringBegin, 2, IntValue(0))], 3, 0, DeadZeros);
    var s3 := LexState(s2.tokens + [Tok(EndType, 3, CharValue('e'))], 4, 0, DeadZeros);
    CharPass(line, s2, EndType);
    Passes(line, s2, s3);
    Finishes(line, s3);
  }

  lemma ScanMinusZeroRun(line: string)
    requires Spelled(line, "i-0e")
    ensures Tokenize(Some(line), []) == ScanResult(Returned(None), DeadZeros)
  {
    Starts(line, []);
    ScanMinusZero0(line);
    ScanMinusZero1(line);
    ScanMinusZero2(line);
  }

  /** "i-0e": minus zero counts as dead zeros too. */
  lemma ScanMinusZero()
    ensures Tokenize(Some("i-0e"), []) ==
            ScanResult(Returned(None), [LexerMessage(NumberWithDeadZeros, 1)])
  {
    ScanMinusZeroRun("i-0e");
  }

  // --------------------------------------------------------------- "$"

  lemma ScanUnknownCharRun(line: string)
    requires Spelled(line, "$")
    ensures Tokenize(Some(line), []) == ScanResult(Returned(None), [LexerMessage(UnknownChar, 0)])
  {
    var s0 := LexState([], 0, 0, []);
    var s1 := LexState([], 1, 0, [LexerMessage(UnknownChar, 0)]);
    Starts(line, []);
    UnknownPass(line, s0);
    Passes(line, s0, s1);
    Finishes(line, s1);
  }

  /** "$": a character that opens nothing is reported and skipped, and the
      scan returns null. */
  lemma ScanUnknownChar()
    ensures Tokenize(Some("$"), []) == ScanResult(Returned(None), [LexerMessage(UnknownChar, 0)])
  {
    ScanUnknownCharRun("$");
  }

  // --------------------------------------------------------- "5:12d$@"

  lemma ScanString0(line: string)
    requires Spelled(line, "5:12d$@")
    ensures ScanFrom(line, LexState(Header(5), 2, 5, [])) ==
            ScanFrom(line, LexState(Header(5) + [Tok(String, -3, StringValue("12d$@"))], 7, 5, []))
  {
    var s2 := LexState(Header(5), 2, 5, []);
    TextPass(line, s2);
    assert line[2..7] == "12d$@";
    TextRead(line, 2, 5, s2.tokens, []);
    Passes(line, s2, LexState(Header(5) + [Tok(String, -3, StringValue("12d$@"))], 7, 5, []));
  }

  lemma ScanStringRun(line: string)
    requires Spelled(line, "5:12d$@")
    ensures Tokenize(Some(line), []) ==
            ScanResult(Returned(Some([Tok(StringBegin, 0, IntValue(5)), Tok(Separator, 1, CharValue(':')),
                                      Tok(String, -3, StringValue("12d$@")), EofToken])), [])
  {
    var s3 := LexState(Header(5) + [Tok(String, -3, StringValue("12d$@"))], 7, 5, []);
    assert DigitChar(5) == '5';
    HeaderPasses(line, 5);
    ScanString0(line);
    Finishes(line, s3);
    assert s3.tokens + [EofToken] ==
           [Tok(StringBegin, 0, IntValue(5)), Tok(Separator, 1, CharValue(':')),
            Tok(String, -3, StringValue("12d$@")), EofToken];
  }

  /** "5:12d$@": the five characters after the separator are one string,
      whatever they are, and its token sits at 2 - 5. */
  lemma ScanString()
    ensures Tokenize(Some("5:12d$@"), []) ==
            ScanResult(Returned(Some([Tok(StringBegin, 0, IntValue(5)), Tok(Separator, 1, CharValue(':')),
                                      Tok(String, -3, StringValue("12d$@")), EofToken])), [])
  {
    ScanStringRun("5:12d$@");
  }

  // -------------------------------------------------------------- "0:"

  /** "0:": a zero length at the end of the line is never read, so the
      tokens stop after the separator. */
  lemma ScanZeroLengthAtEnd()
    ensures Tokenize(Some("0:"), []) ==
            ScanResult(Returned(Some([Tok(StringBegin, 0, IntValue(0)), Tok(Separator, 1, CharValue(':')),
                                      EofToken])), [])
  {
    HeaderPasses("0:", 0);
    Finishes("0:", LexState(Header(0), 2, 0, []));
    assert Header(0) + [EofToken] ==
           [Tok(StringBegin, 0, IntValue(0)), Tok(Separator, 1, CharValue(':')), EofToken];
  }

  // ------------------------------------------------------------- "0:a"

  lemma ScanZeroLengthRun(line: string)
    requires Spelled(line, "0:a")
    ensures Tokenize(Some(line), []) == ScanResult(Returned(None), [LexerMessage(IncorrectStringLength, 2)])
  {
    var s2 := LexState(Header(0), 2, 0, []);
    assert DigitChar(0) == '0';
    HeaderPasses(line, 0);
    TextPass(line, s2);
    TextEmpty(line, 2, s2.tokens, []);
    Ends(line, s2, ScanResult(Returned(None), [LexerMessage(IncorrectStringLength, 2)]));
  }

  /** "0:a": a zero length followed by text is reported and ends the scan
      with null at once. */
  lemma ScanZeroLength()
    ensures Tokenize(Some("0:a"), []) ==
            ScanResult(Returned(None), [LexerMessage(IncorrectStringLength, 2)])
  {
    ScanZeroLengthRun("0:a");
  }

  // ---------------------------------------------------------- "5:1e$@"

  lemma ScanLengthPastEndRun(line: string)
    requires Spelled(line, "5:1e$@")
    ensures Tokenize(Some(line), []) == ScanResult(Returned(None), [LexerMessage(IncorrectStringLength, 2)])
  {
    var s2 := LexState(Header(5), 2, 5, []);
    var s3 := LexState(s2.tokens, 7, 5, [LexerMessage(IncorrectStringLength, 2)]);
    assert DigitChar(5) == '5';
    HeaderPasses(line, 5);
    TextPass(line, s2);
    TextTooLong(line, 2, 5, s2.tokens, []);
    Passes(line, s2, s3);
    Finishes(line, s3);
  }

  /** "5:1e$@": a declared length past the end of the line is reported at
      the string's column and the rest of the line is skipped. */
  lemma ScanLengthPastEnd()
    ensures Tokenize(Some("5:1e$@"), []) ==
            ScanResult(Returned(None), [LexerMessage(IncorrectStringLength, 2)])
  {
    ScanLengthPastEndRun("5:1e$@");
  }

  // ------------------------------------------------------------ "2:aé"

  const NotAscii: seq<Message> := [LexerMessage(UnknownChar, 3)]

  lemma ScanNotAscii0(line: string)
    requires Spelled(line, "2:aé")
    ensures ScanFrom(line, LexState(Header(2), 2, 2, [])) == ScanFrom(line, LexState(Header(2), 3, 2, NotAscii))
  {
    var s2 := LexState(Header(2), 2, 2, []);
    TextPass(line, s2);
    assert FirstNonAscii(line, 2, 4) == Some(3);
    TextNotAscii(line, 2, 2, s2.tokens, [], 3);
    Passes(line, s2, LexState(Header(2), 3, 2, NotAscii));
  }

  lemma ScanNotAscii1(line: string)
    requires Spelled(line, "2:aé")
    ensures ScanFrom(line, LexState(Header(2), 3, 2, NotAscii)) == ScanResult(Returned(None), NotAscii + NotAscii)
  {
    var s3 := LexState(Header(2), 3, 2, NotAscii);
    UnknownPass(line, s3);
    Passes(line, s3, LexState(Header(2), 4, 2, NotAscii + NotAscii));
    Finishes(line, LexState(Header(2), 4, 2, NotAscii + NotAscii));
  }

  lemma ScanNotAsciiRun(line: string)
    requires Spelled(line, "2:aé")
    ensures Tokenize(Some(line), []) == ScanResult(Returned(None), NotAscii + NotAscii)
  {
    assert DigitChar(2) == '2';
    HeaderPasses(line, 2);
    ScanNotAscii0(line);
    ScanNotAscii1(line);
  }

  /** "2:aé": a non-ASCII character inside a span is reported, scanning
      resumes one character after the span's start and, since no token was
      added, the same character is reported again by getTokenType. */
  lemma ScanNotAscii()
    ensures Tokenize(Some("2:aé"), []) ==
            ScanResult(Returned(None), [LexerMessage(UnknownChar, 3), LexerMessage(UnknownChar, 3)])
  {
    ScanNotAsciiRun("2:aé");
  }

  // --------------------------------------------------------------- "i"

  lemma ScanLoneOpenerRun(line: string)
    requires Spelled(line, "i")
    ensures Tokenize(Some(line), []) == ScanResult(Threw(StringIndexOutOfBounds), [])
  {
    var s0 := LexState([], 0, 0, []);
    Starts(line, []);
    OpenerPass(line, s0, Effect(Threw(StringIndexOutOfBounds), [Opener], []));
    Ends(line, s0, ScanResult(Threw(StringIndexOutOfBounds), []));
  }

  /** "i": an integer opener as the last character makes number() read past
      the end of the line. */
  lemma ScanLoneOpener()
    ensures Tokenize(Some("i"), []) == ScanResult(Threw(StringIndexOutOfBounds), [])
  {
    ScanLoneOpenerRun("i");
  }

  // ----------------------------------------------------------- "1:a00"

  const CastTokens: seq<Token> := Header(1) + [Tok(String, 1, StringValue("a"))]

  lemma ScanFailedCast0(line: string)
    requires Spelled(line, "1:a00")
    ensures ScanFrom(line, LexState(Header(1), 2, 1, [])) == ScanFrom(line, LexState(CastTokens, 3, 1, []))
  {
    var s2 := LexState(Header(1), 2, 1, []);
    TextPass(line, s2);
    assert line[2..3] == "a";
    TextRead(line, 2, 1, s2.tokens, []);
    Passes(line, s2, LexState(CastTokens, 3, 1, []));
  }

  lemma ScanFailedCast1(line: string)
    requires Spelled(line, "1:a00")
    ensures ScanFrom(line, LexState(CastTokens, 3, 1, [])) ==
            ScanResult(Threw(ClassCast), [LexerMessage(NumberWithDeadZeros, 3)])
  {
    var s3 := LexState(CastTokens, 3, 1, []);
    var m := [LexerMessage(NumberWithDeadZeros, 3)];
    assert DigitRunEnd(line, 4) == 5;
    assert line[3..5] == "00";
    NumberZeros(line, 3, 5, StringBegin, CastTokens, []);
    CastPass(line, s3, Effect(Returned(2), CastTokens, m));
    Ends(line, s3, ScanResult(Threw(ClassCast), m));
  }

  lemma ScanFailedCastRun(line: string)
    requires Spelled(line, "1:a00")
    ensures Tokenize(Some(line), []) == ScanResult(Threw(ClassCast), [LexerMessage(NumberWithDeadZeros, 3)])
  {
    assert DigitChar(1) == '1';
    HeaderPasses(line, 1);
    ScanFailedCast0(line);
    ScanFailedCast1(line);
  }

  /** "1:a00": after a string, a malformed number reports its dead zeros and
      the cast of the last token's value (the string) to Integer fails. */
  lemma ScanFailedCast()
    ensures Tokenize(Some("1:a00"), []) ==
            ScanResult(Threw(ClassCast), [LexerMessage(NumberWithDeadZeros, 3)])
  {
    ScanFailedCastRun("1:a00");
  }

  // ----------------------------------------------------------- "xyi00"

  /** The message number() reports for the dead zeros of "xyi00". */
  const Zeros: Message := LexerMessage(NumberWithDeadZeros, 3)

  /** On "xyi00", number() returns the literal's length 2, which is the
      column of the 'i' itself: the loop goes back to it, reports the same
      dead zeros again, and so on, until the reporter refuses one. */
  lemma {:induction false} JumpBackRepeats(line: string, tokens: seq<Token>, ln: Int32, log: seq<Message>)
    requires Spelled(line, "xyi00") && !IsSeparator(LastToken(tokens)) && |log| < MessageLimit
    ensures ScanFrom(line, LexState(tokens, 2, ln, log)) ==
            ScanResult(Returned(None), log + seq(MessageLimit - |log|, _ => Zeros))
    decreases MessageLimit - |log|
  {
    var s := LexState(tokens, 2, ln, log);
    var withBegin := tokens + [Tok(IntegerBegin, 2, CharValue('i'))];
    assert DigitRunEnd(line, 5) == 5;
    assert DigitRunEnd(line, 4) == 5;
    assert line[3..5] == "00";
    NumberZeros(line, 3, 5, Integer, withBegin, log);
    OpenerPass(line, s, Effect(Returned(if Allows(log) then 2 else -1), withBegin, log + [Zeros]));
    if Allows(log) {
      Passes(line, s, LexState(withBegin, 2, ln, log + [Zeros]));
      JumpBackRepeats(line, withBegin, ln, log + [Zeros]);
      assert (log + [Zeros]) + seq(MessageLimit - |log| - 1, _ => Zeros) ==
             log + seq(MessageLimit - |log|, _ => Zeros);
    } else {
      Ends(line, s, ScanResult(Returned(None), log + [Zeros]));
      assert seq(MessageLimit - |log|, _ => Zeros) == [Zeros];
    }
  }

  lemma ScanJumpBackRun(line: string)
    requires Spelled(line, "xyi00")
    ensures Tokenize(Some(line), []) ==
            ScanResult(Returned(None), [LexerMessage(UnknownChar, 0), LexerMessage(UnknownChar, 1)] +
                                       seq(MessageLimit - 2, _ => Zeros))
  {
    var m := [LexerMessage(UnknownChar, 0)];
    var s0 := LexState([], 0, 0, []);
    var s1 := LexState([], 1, 0, m);
    var s2 := LexState([], 2, 0, m + [LexerMessage(UnknownChar, 1)]);
    Starts(line, []);
    UnknownPass(line, s0);
    Passes(line, s0, s1);
    UnknownPass(line, s1);
    Passes(line, s1, s2);
    JumpBackRepeats(line, [], 0, s2.log);
  }

  /** "xyi00" from the start: two unknown characters, then the dead zeros
      over and over, twenty messages in all, and null. */
  lemma ScanJumpBack()
    ensures Tokenize(Some("xyi00"), []) ==
            ScanResult(Returned(None), [LexerMessage(UnknownChar, 0), LexerMessage(UnknownChar, 1)] +
                                       seq(MessageLimit - 2, _ => Zeros))
  {
    ScanJumpBackRun("xyi00");
  }
}
