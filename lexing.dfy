/** The tokenizer of lexer/Lexer.java. The functions describe one call of
    each private method of the Java class as a value: what it returns (or
    throws), the token list it leaves and the messages it reports. The class
    Lexer below runs the same algorithm in place and is proved to agree
    with them. */
module Lexing {
  import opened Java
  import opened Tokens
  import opened Reporting

  /** Only the first line is ever read, so every token is on line 1. */
  const NLine: int := 1

  /** The token that closes every token list; its value is the line number. */
  const EofToken: Token := Token(EOF, NLine, -1, IntValue(NLine))

  predicate IsAscii(c: char) { c as int <= 127 }

  function LastToken(tokens: seq<Token>): (r: Option<Token>)
    ensures r.Some? <==> tokens != []
    ensures r.Some? ==> r.value == tokens[|tokens| - 1]
  {
    if tokens == [] then None else Some(tokens[|tokens| - 1])
  }

  predicate IsSeparator(t: Option<Token>) { t.Some? && t.value.tokenType == Separator }

  /** Lexer.getTokenType: right after a separator any ASCII character opens
      a string; otherwise the five structural characters; None for the rest. */
  function GetTokenType(c: char, last: Option<Token>): Option<TokenType>
  {
    if IsSeparator(last) && IsAscii(c) then Some(String)
    else if c == ':' then Some(Separator)
    else if c == 'i' then Some(IntegerBegin)
    else if c == 'd' then Some(Dictionary)
    else if c == 'l' then Some(List)
    else if c == 'e' then Some(EndType)
    else None
  }

  /** The first index at or after k that does not hold a digit. */
  function DigitRunEnd(line: string, k: nat): (e: nat)
    requires k <= |line|
    ensures k <= e <= |line|
    ensures forall j | k <= j < e :: IsAsciiDigit(line[j])
    ensures e == |line| || !IsAsciiDigit(line[e])
    decreases |line| - k
  {
    if k < |line| && IsAsciiDigit(line[k]) then DigitRunEnd(line, k + 1) else k
  }

  /** Lexer.startsWithZeros: a literal longer than one character that starts
      with 0 or with -0. */
  predicate StartsWithZeros(number: string)
  {
    |number| > 1 && (number[0] == '0' || (number[0] == '-' && number[1] == '0'))
  }

  /** What number() or string() leaves behind: the index it returns (-1 for
      "give up") or the exception it throws, the token list and the
      reporter's messages. */
  datatype Effect = Effect(result: Outcome<int>, tokens: seq<Token>, log: seq<Message>)

  /** A call of Lexer.number(start, line, kind). Its first character is
      taken whatever it is, the digits after it are added, and the literal
      becomes a token of the given kind. On an error it reports and returns
      the literal's LENGTH, so scanning may jump back. */
  function NumberEffect(line: string, start: nat, kind: TokenType, tokens: seq<Token>, log: seq<Message>): (r: Effect)
    requires start <= |line|
    ensures log <= r.log && |r.log| <= |log| + 1
    ensures r.result.Returned? && r.result.value != -1 ==>
              r.result.value >= 1 && (r.log == log ==> r.result.value > start) && (r.log != log ==> Allows(log))
    ensures r.result.Threw? <==> start == |line|
    ensures r.log != log ==>
              start < |line| && r.tokens == tokens &&
              r.result == Returned(if Allows(log) then DigitRunEnd(line, start + 1) - start else -1)
  {
    if start == |line| then
      // the do-while steps past the end and substring(start, start + 1) fails
      Effect(Threw(StringIndexOutOfBounds), tokens, log)
    else
      var end := DigitRunEnd(line, start + 1);
      var number := line[start..end];
      if StartsWithZeros(number) then
        Effect(Returned(if Allows(log) then |number| else -1), tokens,
               log + [LexerMessage(NumberWithDeadZeros, start)])
      else
        match ParseInt(number)
        case None =>
          Effect(Returned(if Allows(log) then |number| else -1), tokens,
                 log + [LexerMessage(IncorrectNumber, start)])
        case Some(v) =>
          Effect(Returned(end), tokens + [Token(kind, NLine, start, IntValue(v))], log)
  }

  /** The first index in [from, to) that holds a non-ASCII character. */
  function FirstNonAscii(line: string, from: nat, to: nat): (r: Option<nat>)
    requires from <= to <= |line|
    ensures r.Some? ==> from <= r.value < to && !IsAscii(line[r.value])
                        && forall p | from <= p < r.value :: IsAscii(line[p])
    ensures r.None? ==> (forall p | from <= p < to :: IsAscii(line[p]))
    decreases (to as int) - from
  {
    if from == to then None
    else if !IsAscii(line[from]) then Some(from)
    else FirstNonAscii(line, from + 1, to)
  }

  /** A call of Lexer.string(i, line, length): the next `length` characters
      become a STRING token positioned at i - length. Length 0 always gives
      up; a span past the end of the line is reported and skipped; a
      non-ASCII character inside the span is reported and scanning resumes
      one character on. `i + length` is Java `int` arithmetic. */
  function StringEffect(line: string, i: nat, length: Int32, tokens: seq<Token>, log: seq<Message>): (r: Effect)
    requires i < |line|
    ensures log <= r.log && |r.log| <= |log| + 1
    ensures r.result.Returned? && r.result.value != -1 ==>
              (r.log == log ==> r.result.value > i) && (r.log != log ==> Allows(log) && r.result.value > i)
  {
    var end := WrapInt32(i + length);
    if length == 0 || end > |line| then
      Effect(Returned(if !Allows(log) || length == 0 then -1 else end), tokens,
             log + [LexerMessage(IncorrectStringLength, i)])
    else if end < i then
      // the for loop is skipped and substring(i, end) fails
      Effect(Threw(StringIndexOutOfBounds), tokens, log)
    else
      match FirstNonAscii(line, i, end)
      case Some(p) =>
        Effect(Returned(if Allows(log) then i + 1 else -1), tokens, log + [LexerMessage(UnknownChar, p)])
      case None =>
        Effect(Returned(end), tokens + [Token(String, NLine, i - length, StringValue(line[i..end]))], log)
  }

  /** The variables of the scanning loop, and the reporter's messages. */
  datatype LexState = LexState(tokens: seq<Token>, i: int, lastNumber: Int32, log: seq<Message>)

  /** What Lexer.scan returns (a token list, null, or an exception) and the
      messages reported on the way. */
  datatype ScanResult = ScanResult(outcome: Outcome<Option<seq<Token>>>, log: seq<Message>)

  datatype StepResult = Next(state: LexState) | Stop(result: ScanResult)

  /** How far the scanning loop still has to go along the line. */
  function Dist(line: string, i: int): nat { if i < |line| then |line| - i else 0 }

  /** Each pass of the loop either moves on without reporting or used up a
      report that let it continue. */
  predicate Progress(s: LexState, t: LexState)
  {
    (t.log == s.log && t.i > s.i) || (s.log <= t.log && |t.log| == |s.log| + 1 && Allows(s.log))
  }

  /** `if ((i = ...) == -1) return null; continue;` after number() and string(). */
  function Resume(eff: Effect, lastNumber: Int32): StepResult
  {
    match eff.result
    case Threw(e) => Stop(ScanResult(Threw(e), eff.log))
    case Returned(j) =>
      if j == -1 then Stop(ScanResult(Returned(None), eff.log))
      else Next(LexState(eff.tokens, j, lastNumber, eff.log))
  }

  /** One pass of the `while (i < line.length())` loop of Lexer.scan. */
  function Step(line: string, s: LexState): (r: StepResult)
    requires 0 <= s.i < |line|
    ensures r.Next? ==> r.state.i >= 0 && Progress(s, r.state)
    ensures r.Stop? ==> s.log <= r.result.log
  {
    var c := line[s.i];
    var t := GetTokenType(c, LastToken(s.tokens));
    if t == Some(IntegerBegin) then
      var withBegin := s.tokens + [Token(IntegerBegin, NLine, s.i, CharValue('i'))];
      Resume(NumberEffect(line, s.i + 1, Integer, withBegin, s.log), s.lastNumber)
    else if t == Some(String) then
      Resume(StringEffect(line, s.i, s.lastNumber, s.tokens, s.log), s.lastNumber)
    else if IsAsciiDigit(c) then
      var eff := NumberEffect(line, s.i, StringBegin, s.tokens, s.log);
      if eff.result.Returned? && eff.result.value != -1 then
        // lastNumber = (Integer) getLastToken().value(), also after an error
        match LastToken(eff.tokens)
        case None => Next(LexState(eff.tokens, eff.result.value, 0, eff.log))
        case Some(last) =>
          if last.value.IntValue? then Next(LexState(eff.tokens, eff.result.value, last.value.i, eff.log))
          else Stop(ScanResult(Threw(ClassCast), eff.log))
      else Resume(eff, s.lastNumber)
    else if t.None? then
      var log := s.log + [LexerMessage(UnknownChar, s.i)];
      if Allows(s.log) then Next(LexState(s.tokens, s.i + 1, s.lastNumber, log))
      else Stop(ScanResult(Returned(None), log))
    else
      Next(LexState(s.tokens + [Token(t.value, NLine, s.i, CharValue(c))], s.i + 1, s.lastNumber, s.log))
  }

  /** The scanning loop from state s to its end. It terminates because every
      pass either advances i or spends one of the reporter's 20 answers. */
  function ScanFrom(line: string, s: LexState): (r: ScanResult)
    requires 0 <= s.i
    ensures s.log <= r.log
    decreases Budget(s.log), Dist(line, s.i)
  {
    if s.i >= |line| then
      ScanResult(Returned(if |s.log| > 0 then None else Some(s.tokens + [EofToken])), s.log)
    else
      match Step(line, s)
      case Stop(r) => r
      case Next(t) => ScanFrom(line, t)
  }

  /** Lexer.scan on a reader whose first line is `input` (None: no line),
      with a reporter that has already recorded `log`. */
  function Tokenize(input: Option<string>, log: seq<Message>): ScanResult
  {
    if input.None? || IsBlank(input.value) then ScanResult(Returned(Some([EofToken])), log)
    else ScanFrom(input.value, LexState([], 0, 0, log))
  }

  /** Lexer's state: the line the reader delivers, the token list it fills
      in place and the error sink. */
  class Lexer {
    const input: Option<string>
    var tokens: seq<Token>
    const reporter: TestReporter

    constructor (input: Option<string>, reporter: TestReporter)
      ensures this.input == input && this.reporter == reporter && tokens == []
    {
      this.input := input;
      this.reporter := reporter;
      tokens := [];
    }

    method Number(i: nat, line: string, kind: TokenType) returns (r: Outcome<int>)
      requires i <= |line| && reporter.Valid()
      modifies this, reporter
      ensures reporter.Valid()
      ensures Effect(r, tokens, reporter.messages) == NumberEffect(line, i, kind, old(tokens), old(reporter.messages))
    {
      var start := i;
      var j := i + 1;
      while j < |line| && IsAsciiDigit(line[j])
        invariant start < j <= |line| || j == start + 1
        invariant start < |line| ==> j <= |line| && DigitRunEnd(line, j) == DigitRunEnd(line, start + 1)
        decreases |line| - j
      {
        j := j + 1;
      }
      if j > |line| {
        return Threw(StringIndexOutOfBounds);
      }
      var number := line[start..j];
      if StartsWithZeros(number) {
        var ok := reporter.Report(LexerMessage(NumberWithDeadZeros, start));
        if !ok { return Returned(-1); }
        return Returned(|number|);
      }
      var value := ParseInt(number);
      if value.None? {
        var ok := reporter.Report(LexerMessage(IncorrectNumber, start));
        if !ok { return Returned(-1); }
        return Returned(|number|);
      }
      tokens := tokens + [Token(kind, NLine, start, IntValue(value.value))];
      return Returned(j);
    }

    method StringToken(i: nat, line: string, length: Int32) returns (r: Outcome<int>)
      requires i < |line| && reporter.Valid()
      modifies this, reporter
      ensures reporter.Valid()
      ensures Effect(r, tokens, reporter.messages) == StringEffect(line, i, length, old(tokens), old(reporter.messages))
    {
      var end := WrapInt32(i + length);
      if length == 0 || end > |line| {
        var ok := reporter.Report(LexerMessage(IncorrectStringLength, i));
        if !ok { return Returned(-1); }
        return Returned(if length == 0 then -1 else end);
      }
      var pos := i;
      while pos < end
        invariant i <= pos && (end >= i ==> pos <= end)
        invariant end >= i ==> FirstNonAscii(line, pos, end) == FirstNonAscii(line, i, end)
      {
        if !IsAscii(line[pos]) {
          var ok := reporter.Report(LexerMessage(UnknownChar, pos));
          if !ok { return Returned(-1); }
          return Returned(i + 1);
        }
        pos := pos + 1;
      }
      if end < i {
        return Threw(StringIndexOutOfBounds);
      }
      tokens := tokens + [Token(String, NLine, i - length, StringValue(line[i..end]))];
      return Returned(end);
    }

    /** One pass of scan()'s `while (i < line.length())` body: `stop` is
        what scan() returns when the pass ends it, otherwise `next` and
        `last` are the new values of i and lastNumber. */
    method ScanStep(line: string, i: nat, lastNumber: Int32)
      returns (stop: Option<Outcome<Option<seq<Token>>>>, next: int, last: Int32)
      requires i < |line| && reporter.Valid()
      modifies this, reporter
      ensures reporter.Valid()
      ensures Step(line, LexState(old(tokens), i, lastNumber, old(reporter.messages))) ==
              if stop.Some? then Stop(ScanResult(stop.value, reporter.messages))
              else Next(LexState(tokens, next, last, reporter.messages))
    {
      var c := line[i];
      var t := GetTokenType(c, LastToken(tokens));
      stop, last := None, lastNumber;
      if t == Some(IntegerBegin) {
        tokens := tokens + [Token(IntegerBegin, NLine, i, CharValue('i'))];
        var n := Number(i + 1, line, Integer);
        if n.Threw? { return Some(Threw(n.exception)), 0, last; }
        if n.value == -1 { return Some(Returned(None)), 0, last; }
        next := n.value;
      } else if t == Some(String) {
        var n := StringToken(i, line, lastNumber);
        if n.Threw? { return Some(Threw(n.exception)), 0, last; }
        if n.value == -1 { return Some(Returned(None)), 0, last; }
        next := n.value;
      } else if IsAsciiDigit(c) {
        // i < |line|, so this substring cannot throw
        var n := Number(i, line, StringBegin);
        if n.value == -1 { return Some(Returned(None)), 0, last; }
        next := n.value;
        if tokens == [] {
          last := 0;
        } else if tokens[|tokens| - 1].value.IntValue? {
          last := tokens[|tokens| - 1].value.i;
        } else {
          return Some(Threw(ClassCast)), 0, last;
        }
      } else {
        if t.None? {
          var ok := reporter.Report(LexerMessage(UnknownChar, i));
          if !ok { return Some(Returned(None)), 0, last; }
        } else {
          tokens := tokens + [Token(t.value, NLine, i, CharValue(c))];
        }
        next := i + 1;
      }
    }

    /** Lexer's private scan(). */
    method ScanLine() returns (r: Outcome<Option<seq<Token>>>)
      requires tokens == [] && reporter.Valid()
      modifies this, reporter
      ensures reporter.Valid()
      ensures ScanResult(r, reporter.messages) == Tokenize(input, old(reporter.messages))
    {
      if input.None? || IsBlank(input.value) {
        tokens := tokens + [EofToken];
        assert tokens == [EofToken];
        return Returned(Some(tokens));
      }
      var line := input.value;
      var lastNumber: Int32 := 0;
      var i := 0;
      while i < |line|
        invariant 0 <= i && reporter.Valid()
        invariant ScanFrom(line, LexState(tokens, i, lastNumber, reporter.messages))
                  == Tokenize(input, old(reporter.messages))
        decreases Budget(reporter.messages), |line| - i
      {
        var stop, next, last := ScanStep(line, i, lastNumber);
        if stop.Some? { return stop.value; }
        i, lastNumber := next, last;
      }
      tokens := tokens + [EofToken];
      var failed := reporter.HasError();
      return Returned(if failed then None else Some(tokens));
    }
  }

  /** Lexer.scan(reader, reporter): a fresh lexer over the reader's first line. */
  method Scan(input: Option<string>, reporter: TestReporter) returns (r: Outcome<Option<seq<Token>>>)
    requires reporter.Valid()
    modifies reporter
    ensures reporter.Valid()
    ensures ScanResult(r, reporter.messages) == Tokenize(input, old(reporter.messages))
  {
    var lexer := new Lexer(input, reporter);
    r := lexer.ScanLine();
  }
}
