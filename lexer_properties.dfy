/** What Lexer.scan promises about its result: one line, one trailing EOF,
    tokens the parser can cast, no token list once an error was reported,
    and an immediate stop when the reporter refuses a message. */
module LexerProperties {
  import opened Java
  import opened Tokens
  import opened Reporting
  import opened Lexing
  import Parsing

  /** The tokens the scan appends before EOF: on line 1, not EOF, and with
      the payload the parser's casts expect. */
  predicate Clean(tokens: seq<Token>)
  {
    forall k | 0 <= k < |tokens| ::
      tokens[k].nLine == NLine && tokens[k].tokenType != EOF && Parsing.WellTyped(tokens[k])
  }

  lemma CleanAppend(tokens: seq<Token>, t: Token)
    requires Clean(tokens) && t.nLine == NLine && t.tokenType != EOF && Parsing.WellTyped(t)
    ensures Clean(tokens + [t])
  {
    var r := tokens + [t];
    forall k | 0 <= k < |r|
      ensures r[k].nLine == NLine && r[k].tokenType != EOF && Parsing.WellTyped(r[k])
    {
      if k < |tokens| { assert r[k] == tokens[k]; }
    }
  }

  lemma NumberKeepsClean(line: string, start: nat, kind: TokenType, tokens: seq<Token>, log: seq<Message>)
    requires start <= |line| && Clean(tokens) && (kind == Integer || kind == StringBegin)
    ensures Clean(NumberEffect(line, start, kind, tokens, log).tokens)
  {
    if start < |line| {
      var end := DigitRunEnd(line, start + 1);
      var number := line[start..end];
      if !StartsWithZeros(number) && ParseInt(number).Some? {
        CleanAppend(tokens, Token(kind, NLine, start, IntValue(ParseInt(number).value)));
      }
    }
  }

  /** A literal beyond the int range (a sign or none, then digits, not
      starting with dead zeros, whose signed value lies outside [MinInt,
      MaxInt]): number() reports INCORRECT_NUMBER at its first character,
      adds no token and returns the literal's length, or -1 once the
      reporter refuses. */
  lemma NumberOutOfRange(line: string, start: nat, kind: TokenType, tokens: seq<Token>, log: seq<Message>)
    requires start < |line|
    requires var number := line[start..DigitRunEnd(line, start + 1)];
             var body := if number[0] == '-' || number[0] == '+' then number[1..] else number;
             |body| > 0 && AllDigits(body) && !StartsWithZeros(number) &&
             var v := if number[0] == '-' then 0 - DigitsValue(body) else DigitsValue(body);
             !(MinInt <= v <= MaxInt)
    ensures var end := DigitRunEnd(line, start + 1);
            NumberEffect(line, start, kind, tokens, log) ==
            Effect(Returned(if Allows(log) then end - start else -1), tokens, log + [LexerMessage(IncorrectNumber, start)])
  {
  }

  lemma StringKeepsClean(line: string, i: nat, length: Int32, tokens: seq<Token>, log: seq<Message>)
    requires i < |line| && Clean(tokens)
    ensures Clean(StringEffect(line, i, length, tokens, log).tokens)
  {
    var end := WrapInt32(i + length);
    if !(length == 0 || end > |line|) && end >= i && FirstNonAscii(line, i, end).None? {
      CleanAppend(tokens, Token(String, NLine, i - length, StringValue(line[i..end])));
    }
  }

  lemma StepKeepsClean(line: string, s: LexState)
    requires 0 <= s.i < |line| && Clean(s.tokens)
    ensures Step(line, s).Next? ==> Clean(Step(line, s).state.tokens)
  {
    var c := line[s.i];
    var t := GetTokenType(c, LastToken(s.tokens));
    if t == Some(IntegerBegin) {
      var withBegin := s.tokens + [Token(IntegerBegin, NLine, s.i, CharValue('i'))];
      CleanAppend(s.tokens, Token(IntegerBegin, NLine, s.i, CharValue('i')));
      NumberKeepsClean(line, s.i + 1, Integer, withBegin, s.log);
    } else if t == Some(String) {
      StringKeepsClean(line, s.i, s.lastNumber, s.tokens, s.log);
    } else if IsAsciiDigit(c) {
      NumberKeepsClean(line, s.i, StringBegin, s.tokens, s.log);
    } else if t.Some? {
      CleanAppend(s.tokens, Token(t.value, NLine, s.i, CharValue(c)));
    }
  }

  /** A scan that yields a token list reported nothing at all, and its list
      is clean tokens closed by the one EOF token. */
  lemma {:induction false} ScanFromSucceeds(line: string, s: LexState)
    requires 0 <= s.i && Clean(s.tokens)
    ensures var r := ScanFrom(line, s);
            r.outcome.Returned? && r.outcome.value.Some? ==>
              r.log == [] &&
              var ts := r.outcome.value.value;
              |ts| >= 1 && ts[|ts| - 1] == EofToken && Clean(ts[..|ts| - 1])
    decreases Budget(s.log), Dist(line, s.i)
  {
    if s.i >= |line| {
      var ts := s.tokens + [EofToken];
      assert ts[..|ts| - 1] == s.tokens;
    } else {
      StepKeepsClean(line, s);
      match Step(line, s)
      case Stop(r) =>
      case Next(t) => ScanFromSucceeds(line, t);
    }
  }

  /** A successful scan: exactly one EOF, last, at position -1; every token on
      line 1; a list the parser accepts; and, for a line with content, no
      message reported before or during the scan. Conversely any reported
      message makes the result null. */
  lemma ScanResultShape(input: Option<string>, log: seq<Message>)
    ensures var r := Tokenize(input, log);
            r.outcome.Returned? && r.outcome.value.Some? ==>
              var ts := r.outcome.value.value;
              |ts| >= 1 && ts[|ts| - 1] == EofToken && ts[|ts| - 1].pos == -1 &&
              (forall k | 0 <= k < |ts| - 1 :: ts[k].tokenType != EOF) &&
              (forall k | 0 <= k < |ts| :: ts[k].nLine == 1) &&
              Parsing.ValidTokens(ts) &&
              (input.Some? && !IsBlank(input.value) ==> r.log == [])
    ensures var r := Tokenize(input, log);
            input.Some? && !IsBlank(input.value) && r.log != [] ==>
              !(r.outcome.Returned? && r.outcome.value.Some?)
  {
    var r := Tokenize(input, log);
    if !(input.None? || IsBlank(input.value)) {
      ScanFromSucceeds(input.value, LexState([], 0, 0, log));
      if r.outcome.Returned? && r.outcome.value.Some? {
        var ts := r.outcome.value.value;
        assert ts == ts[..|ts| - 1] + [EofToken];
        assert forall k | 0 <= k < |ts| - 1 :: ts[k] == ts[..|ts| - 1][k];
      }
    }
  }

  /** One pass never goes past the limit; the pass whose report is refused
      (the limit-th message) ends the scan with null. */
  lemma StepWithinLimit(line: string, s: LexState)
    requires 0 <= s.i < |line| && |s.log| < MessageLimit
    ensures match Step(line, s)
            case Next(t) => |t.log| < MessageLimit
            case Stop(r) => |r.log| <= MessageLimit && (|r.log| == MessageLimit ==> r.outcome == Returned(None))
  {
  }

  lemma {:induction false} ScanFromWithinLimit(line: string, s: LexState)
    requires 0 <= s.i && |s.log| < MessageLimit
    ensures var r := ScanFrom(line, s);
            |r.log| <= MessageLimit && (|r.log| == MessageLimit ==> r.outcome == Returned(None))
    decreases Budget(s.log), Dist(line, s.i)
  {
    if s.i < |line| {
      StepWithinLimit(line, s);
      match Step(line, s)
      case Stop(r) =>
      case Next(t) => ScanFromWithinLimit(line, t);
    }
  }

  /** The scan reports at most up to the limit, and when the reporter
      refuses a message the scan returns null at once. */
  lemma ScanStopsAtRefusal(input: Option<string>, log: seq<Message>)
    requires |log| < MessageLimit
    ensures var r := Tokenize(input, log);
            |r.log| <= MessageLimit && (|r.log| == MessageLimit ==> r.outcome == Returned(None))
  {
    if !(input.None? || IsBlank(input.value)) {
      ScanFromWithinLimit(input.value, LexState([], 0, 0, log));
    }
  }
}
