# Bencode decoder — a Dafny model

This project models the decoder in the lower-case packages of
`com.github.plugatarev.bencode`. The decoder turns one line of Bencode text
into an element tree, then prints that tree as indented JSON-like text. It
has five parts:

- **Lexer** (`lexer/Lexer.java`). It reads the first line of a reader and
  splits it into tokens. A separator `:` is followed by a STRING token that
  spans the previously read length. Errors go to an error reporter. After
  a refused report, or after any report at all, `scan` returns null,
  unless `number()`'s substring or the cast of line 48 throws first.
- **Parser** (`parser/Parser.java`). A recursive-descent parser over the
  token list. It builds `BInteger`, `BString`, `BList` and `BDictionary`
  records. Dictionaries are `LinkedHashMap`s whose keys must never decrease
  under `String.compareTo`. Each `ParserException` is reported.
  `parse` keeps the last top-level element it read, and returns null once
  anything was reported.
- **Elements** (`parser/Element.java`). The four records and their
  `toString`.
- **JsonConverter** (`JsonConverter.java`). It prints integers, strings and
  lists through `toString`. A dictionary gets one line per entry, indented
  two spaces for each nesting level.
- **TestReporter** (`error/TestReporter.java`). The error sink: it counts
  messages and refuses the 20th.

Every modelled state-changing Java method is stated twice:

- once as a **function on values**: what it returns or throws, the token
  list or cursor it leaves, and the messages reported;
- once as an **imperative member** of a Dafny class that updates the same
  fields in place (`Lexing.Lexer`, `Parsing.Parser`,
  `Rendering.JsonConverter`, `Reporting.TestReporter`). Each is proved equal
  to its function of the old state.

The promises of the source are then proved as lemmas about the functions:

- the shape of a successful scan;
- the 20-message limit;
- the exact token sequences `parseInteger` and `parseString` accept;
- the key order of dictionaries: every dictionary the parser returns, at
  any depth, has distinct keys that never decrease, and keys that
  decrease somewhere give the broken-order error;
- scenarios taken from the repository's tests and from the code's edge
  cases.

An independent reference encoder (`Bencoding.Encode`, Bencode as described
in BitTorrent's BEP 3) is the partner for the round trip. Lexing and then
parsing the encoding of any canonical element gives that element back, and
reports nothing.

Modules, one per file:

- `java.dfy` (`Java`): the Java library behaviour relied on.
  - 32-bit `int`, `String.valueOf(int)`, `Integer.parseInt` and
    `String.compareTo`.
  - `isBlank`, `repeat`, and call outcomes (a value or an exception).
- `tokens.dfy` (`Tokens`): token kinds, tokens and lexical error kinds.
- `reporting.dfy` (`Reporting`): `TestReporter`.
- `elements.dfy` (`Elements`): the records, `toString`, `LinkedHashMap.put`
  and `get`, and Java equality.
- `lexing.dfy` (`Lexing`): `Lexer`.
- `parsing.dfy` (`Parsing`): `Parser`.
- `rendering.dfy` (`Rendering`): `JsonConverter`.
- `bencoding.dfy` (`Bencoding`): the reference encoder, and the tokens the
  lexer should give for its text.
- `spans.dfy` (`Spans`): sub-sequences at an offset.
- `lexer_properties.dfy`, `lexer_round_trip.dfy`, `parser_properties.dfy`:
  the general properties.
- `lexer_scenarios.dfy`, `parser_scenarios.dfy`, `render_scenarios.dfy`,
  `reporter_scenarios.dfy`: concrete runs.

Some members carry no contract of their own and are used through the
members that do, so they have no row below:

- `Lexing.GetTokenType`, `Lexing.StartsWithZeros` and `Lexing.IsAscii`
  (`Lexer.java:71-84`, `121-123`, `67-69`), used by `Lexing.Step`;
- `Parsing.ErrorMessage` (`Parser.java:124-146`);
- `Elements.ToString` (`Element.java:8-34`);
- `Rendering.Render` (`JsonConverter.java:11-29`).

## Model

| member | source | states |
|---|---|---|
| Lexing.LastToken | src/main/java/com/github/plugatarev/bencode/lexer/Lexer.java:86-88 | null exactly when no token was added yet; otherwise the last token added |
| Lexing.DigitRunEnd | src/main/java/com/github/plugatarev/bencode/lexer/Lexer.java:100-102 | the do-while stops at the first non-digit at or after k, or at the end of the line; every character skipped is a digit |
| Lexing.NumberEffect | src/main/java/com/github/plugatarev/bencode/lexer/Lexer.java:98-119 | number() adds at most one message; it throws exactly when it starts at the end of the line; on dead zeros or a failed parseInt it records the message even when the reporter refuses it, adds no token, and returns the literal's length, or -1 after a refusal, so scanning can jump back; a return other than -1 is at least 1, and past the start when nothing was reported |
| Lexing.FirstNonAscii | src/main/java/com/github/plugatarev/bencode/lexer/Lexer.java:131-137 | the first position in the span holding a character above 127, with everything before it ASCII; None exactly when the whole span is ASCII |
| Lexing.StringEffect | src/main/java/com/github/plugatarev/bencode/lexer/Lexer.java:125-141 | string() adds at most one message, and a return other than -1 always lies past i, whether or not an error was reported |
| Lexing.Step | src/main/java/com/github/plugatarev/bencode/lexer/Lexer.java:34-58 | one pass of the scanning loop either moves i forward without reporting or spends one report the reporter accepted; a pass that ends the scan only adds messages |
| Lexing.ScanFrom | src/main/java/com/github/plugatarev/bencode/lexer/Lexer.java:34-60 | the loop terminates (every pass advances or spends the 20-message budget) and never removes messages |
| Lexing.Lexer.constructor | src/main/java/com/github/plugatarev/bencode/lexer/Lexer.java:16-19 | a lexer over the given reader and reporter with an empty token list |
| Lexing.Lexer.Number | src/main/java/com/github/plugatarev/bencode/lexer/Lexer.java:98-119 | the in-place number() leaves the return value, the token list and the reporter exactly as NumberEffect of the old state says |
| Lexing.Lexer.StringToken | src/main/java/com/github/plugatarev/bencode/lexer/Lexer.java:125-141 | the in-place string() with its ASCII-check loop leaves exactly what StringEffect of the old state says |
| Lexing.Lexer.ScanStep | src/main/java/com/github/plugatarev/bencode/lexer/Lexer.java:35-57 | one in-place pass of the loop body, including the (Integer) cast of line 48, agrees with Step on the old token list and messages |
| Lexing.Lexer.ScanLine | src/main/java/com/github/plugatarev/bencode/lexer/Lexer.java:26-61 | the private scan(), blank-line case and final hasError() included, returns and reports what Tokenize says for the reader's first line and the reporter's earlier messages |
| Lexing.Scan | src/main/java/com/github/plugatarev/bencode/lexer/Lexer.java:21-24 | the public scan over a fresh lexer agrees with Tokenize |
| LexerProperties.NumberKeepsClean | src/main/java/com/github/plugatarev/bencode/lexer/Lexer.java:117 | the token number() adds is on line 1, is not EOF, and holds an int |
| LexerProperties.NumberOutOfRange | src/main/java/com/github/plugatarev/bencode/lexer/Lexer.java:110-115 | a literal beyond the int range (an optional sign, digits without dead zeros, a signed value outside [-2^31, 2^31-1]) is reported as INCORRECT_NUMBER at its first character, adds no token, and number() returns its length, or -1 once refused |
| LexerProperties.StringKeepsClean | src/main/java/com/github/plugatarev/bencode/lexer/Lexer.java:138-139 | the token string() adds is on line 1, is not EOF, and holds the text |
| LexerProperties.StepKeepsClean | src/main/java/com/github/plugatarev/bencode/lexer/Lexer.java:37-56 | every token a pass of the loop adds is on line 1, not EOF, and carries the payload the parser's casts expect |
| LexerProperties.ScanFromSucceeds | src/main/java/com/github/plugatarev/bencode/lexer/Lexer.java:59-60 | when the scan returns a list, nothing was reported, and the list is clean tokens closed by the one EOF token |
| LexerProperties.ScanResultShape | src/main/java/com/github/plugatarev/bencode/lexer/Lexer.java:26-61 | a returned list has exactly one EOF, last, at position -1; every token is on line 1; the list is one the parser accepts; for a non-blank line nothing was ever reported. Conversely, any message on a non-blank line makes the result null |
| LexerProperties.StepWithinLimit | src/main/java/com/github/plugatarev/bencode/lexer/Lexer.java:39-57 | a pass never goes past 20 messages, and the pass whose report is refused ends the scan with null |
| LexerProperties.ScanFromWithinLimit | src/main/java/com/github/plugatarev/bencode/lexer/Lexer.java:34-60 | the loop as a whole never records more than 20 messages, and the 20th gives null |
| LexerProperties.ScanStopsAtRefusal | src/main/java/com/github/plugatarev/bencode/error/TestReporter.java:7-10 | with TestReporter, the scan stops at once with null when report refuses, so it records at most 20 messages |
| LexerRoundTrip.ScanEncoded | src/main/java/com/github/plugatarev/bencode/lexer/Lexer.java:26-61 | the Bencode text of any canonical element, at most 2^31-1 characters long, scans to exactly the reference encoder's tokens, positions included (a STRING at its start minus its length), closed by EOF; a reporter that already holds messages yields null |
| LexerRoundTrip.ScanEncodedItems | src/main/java/com/github/plugatarev/bencode/lexer/Lexer.java:26-61 | several canonical encoded elements in a row, at most 2^31-1 characters in all, scan to their tokens in turn, closed by EOF |
| LexerRoundTrip.DecodeEncoded | src/test/java/com/github/plugatarev/bencode/IntegrationTest.java:21-28 | round trip: Lexer.scan and then Parser.parse on the Bencode text of any canonical element return that element and report nothing |
| LexerRoundTrip.DecodeEncodedItems | src/main/java/com/github/plugatarev/bencode/parser/Parser.java:26-28 | of a text holding several encoded elements, the decoder returns the last |
| Parsing.Advanced | src/main/java/com/github/plugatarev/bencode/parser/Parser.java:110-114 | advance returns the current token; the cursor stays inside the list and moves exactly when that token is not EOF |
| Parsing.Consumed | src/main/java/com/github/plugatarev/bencode/parser/Parser.java:116-122 | consume advances, and succeeds exactly when the token has the expected kind; otherwise it throws naming that token and the one expected kind |
| Parsing.IntegerAt | src/main/java/com/github/plugatarev/bencode/parser/Parser.java:93-98 | parseInteger never moves the cursor back; on success it yields a BInteger and has moved on |
| Parsing.StringAt | src/main/java/com/github/plugatarev/bencode/parser/Parser.java:86-91 | parseString never moves the cursor back; on success it yields a BString and has moved on |
| Parsing.ElementAt | src/main/java/com/github/plugatarev/bencode/parser/Parser.java:39-48 | parseElement dispatches on the current kind; on success the cursor has moved on |
| Parsing.ListAt | src/main/java/com/github/plugatarev/bencode/parser/Parser.java:50-59 | parseList always consumes its opening token; on success it yields a BList |
| Parsing.ListItems | src/main/java/com/github/plugatarev/bencode/parser/Parser.java:53-57 | parseList's loop yields a BList and moves on when it succeeds |
| Parsing.DictionaryAt | src/main/java/com/github/plugatarev/bencode/parser/Parser.java:73-84 | parseDictionary always consumes its opening token; on success it yields a BDictionary |
| Parsing.DictionaryEntries | src/main/java/com/github/plugatarev/bencode/parser/Parser.java:76-83 | parseDictionary's loop of key, value and put yields a BDictionary and moves on when it succeeds |
| Parsing.TopLevel | src/main/java/com/github/plugatarev/bencode/parser/Parser.java:26-36 | parse()'s loop terminates, the cursor moving or the reporter's budget shrinking on every pass, and never removes messages |
| Parsing.Parser.constructor | src/main/java/com/github/plugatarev/bencode/parser/Parser.java:14-17 | a parser over the tokens and the reporter with its cursor at 0 |
| Parsing.Parser.Matches | src/main/java/com/github/plugatarev/bencode/parser/Parser.java:100-108 | true exactly when the current kind is the first or one of the rest |
| Parsing.Parser.Advance | src/main/java/com/github/plugatarev/bencode/parser/Parser.java:110-114 | the in-place advance agrees with Advanced |
| Parsing.Parser.Consume | src/main/java/com/github/plugatarev/bencode/parser/Parser.java:116-122 | the in-place consume agrees with Consumed |
| Parsing.Parser.ParseInteger | src/main/java/com/github/plugatarev/bencode/parser/Parser.java:93-98 | the in-place parseInteger agrees with IntegerAt |
| Parsing.Parser.ParseString | src/main/java/com/github/plugatarev/bencode/parser/Parser.java:86-91 | the in-place parseString agrees with StringAt |
| Parsing.Parser.ParseElement | src/main/java/com/github/plugatarev/bencode/parser/Parser.java:39-48 | the in-place parseElement agrees with ElementAt |
| Parsing.Parser.ParseList | src/main/java/com/github/plugatarev/bencode/parser/Parser.java:50-59 | the in-place parseList with its while loop agrees with ListAt |
| Parsing.Parser.IsCorrectOrder | src/main/java/com/github/plugatarev/bencode/parser/Parser.java:61-71 | the for loop over the keys returns true exactly when no key compares below the key before it |
| Parsing.Parser.ParseDictionary | src/main/java/com/github/plugatarev/bencode/parser/Parser.java:73-84 | the in-place parseDictionary with its LinkedHashMap loop agrees with DictionaryAt |
| Parsing.Parser.Parse | src/main/java/com/github/plugatarev/bencode/parser/Parser.java:24-37 | the private parse(), with its catch, report and hasError, returns and reports what TopLevel says from the cursor |
| Parsing.Parse | src/main/java/com/github/plugatarev/bencode/parser/Parser.java:19-22 | the public parse over a fresh parser agrees with ParseTokens |
| ParserProperties.IntegerAtAcceptsExactly | src/main/java/com/github/plugatarev/bencode/parser/Parser.java:93-98 | parseInteger succeeds exactly on INTEGER_BEGIN INTEGER END_TYPE, yielding that INTEGER's value and stepping three tokens; otherwise the error names the first token out of place and the one kind expected there |
| ParserProperties.StringAtAcceptsExactly | src/main/java/com/github/plugatarev/bencode/parser/Parser.java:86-91 | parseString succeeds exactly on STRING_BEGIN SEPARATOR STRING, yielding that STRING's text and stepping three tokens; otherwise the error names the first token out of place and the one kind expected there |
| ParserProperties.ListRejectsStrayToken | src/main/java/com/github/plugatarev/bencode/parser/Parser.java:46 | inside a list, a token that can neither close it nor start an element throws with no expected kinds and leaves the cursor on it |
| ParserProperties.InOrderIsAscending | src/main/java/com/github/plugatarev/bencode/parser/Parser.java:61-71 | distinct keys that pass isCorrectOrder are strictly ascending under compareTo, for every pair and not only for neighbours |
| ParserProperties.TopLevelSucceeds | src/main/java/com/github/plugatarev/bencode/parser/Parser.java:36 | parse's loop returns an element only when no message was ever reported |
| ParserProperties.TopLevelWithinLimit | src/main/java/com/github/plugatarev/bencode/parser/Parser.java:31-33 | parse's loop records at most 20 messages, and the 20th gives null |
| ParserProperties.ParseTokensOutcome | src/main/java/com/github/plugatarev/bencode/parser/Parser.java:19-37 | an element only if nothing was reported before or during parse; at most 20 messages, with null at the 20th; a list holding only EOF gives null |
| ParserProperties.StuckTopLevel | src/main/java/com/github/plugatarev/bencode/parser/Parser.java:26-34 | a top-level token that cannot start an element is reported again and again, because parseElement throws without moving the cursor; parse returns null holding 20 copies of the same message |
| ParserProperties.ParseEncoded | src/main/java/com/github/plugatarev/bencode/parser/Parser.java:39-48 | parseElement, at the reference encoder's tokens for a canonical element, yields that element and stops right after them |
| ParserProperties.ListEncoded | src/main/java/com/github/plugatarev/bencode/parser/Parser.java:50-59 | parseList recovers every canonical list from the encoder's tokens |
| ParserProperties.DictionaryEncoded | src/main/java/com/github/plugatarev/bencode/parser/Parser.java:73-84 | parseDictionary recovers every canonical dictionary, entries in order, from the encoder's tokens |
| ParserProperties.DictionaryReadThrough | src/main/java/com/github/plugatarev/bencode/parser/Parser.java:76-80 | whatever the key order, parseDictionary reads the encoder's entries one by one and reaches the closing END_TYPE holding all of them |
| ParserProperties.DictionaryBroken | src/main/java/com/github/plugatarev/bencode/parser/Parser.java:81-82 | at END_TYPE, entries with a key that compares below the key before it throw the broken-order error naming the opening token, the cursor past END_TYPE |
| ParserProperties.DictionaryEncodedUnordered | src/main/java/com/github/plugatarev/bencode/parser/Parser.java:73-84 | on the encoder's tokens of a dictionary with distinct keys that decrease somewhere, parseElement reads every entry and then throws the broken-order error of the opening token |
| ParserProperties.PutWellFormed | src/main/java/com/github/plugatarev/bencode/parser/Parser.java:79 | put of a well-formed value keeps every stored value well formed |
| ParserProperties.ElementWellFormed | src/main/java/com/github/plugatarev/bencode/parser/Parser.java:39-48 | every element parseElement returns has, at every depth, dictionaries with distinct keys that never decrease under compareTo |
| ParserProperties.ItemsWellFormed | src/main/java/com/github/plugatarev/bencode/parser/Parser.java:53-57 | parseList's loop, started from well-formed items, returns a list whose items are well formed |
| ParserProperties.EntriesWellFormed | src/main/java/com/github/plugatarev/bencode/parser/Parser.java:76-83 | parseDictionary's loop, started from distinct keys and well-formed values, returns a dictionary only with distinct keys in non-decreasing order and well-formed values |
| ParserProperties.TopLevelWellFormed | src/main/java/com/github/plugatarev/bencode/parser/Parser.java:26-36 | the element parse()'s loop keeps is well formed |
| ParserProperties.ParseTokensWellFormed | src/main/java/com/github/plugatarev/bencode/parser/Parser.java:19-37 | the element parse returns has, at every depth, distinct keys in non-decreasing compareTo order, and equals itself under the records' equals |
| ParserProperties.ParseEncodedDocument | src/main/java/com/github/plugatarev/bencode/parser/Parser.java:19-37 | parse on the encoder's tokens for a canonical element, closed by EOF, returns that element and reports nothing |
| ParserProperties.LastElementWins | src/main/java/com/github/plugatarev/bencode/parser/Parser.java:26-28 | of several encoded top-level elements, parse returns the last |
| Elements.Get | src/main/java/com/github/plugatarev/bencode/parser/Parser.java:79 | Map.get gives null exactly for a key that is absent; otherwise it gives a value stored under that key |
| Elements.Put | src/main/java/com/github/plugatarev/bencode/parser/Parser.java:79 | LinkedHashMap.put grows the map by one exactly for a new key |
| Elements.PutKeys | src/main/java/com/github/plugatarev/bencode/parser/Parser.java:74-79 | after put, the key order is unchanged for a known key, and a new key goes last |
| Elements.PutGet | src/main/java/com/github/plugatarev/bencode/parser/Parser.java:79 | after put, the key maps to the new value and every other key to what it mapped to before |
| Elements.PutNew | src/main/java/com/github/plugatarev/bencode/parser/Parser.java:79 | put of a new key appends the entry |
| Elements.PutDistinct | src/main/java/com/github/plugatarev/bencode/parser/Parser.java:74-79 | put keeps the keys distinct |
| Elements.ListToString | src/main/java/com/github/plugatarev/bencode/parser/Element.java:15-20 | BList.toString is "[", the items' toString separated by ", ", then "]" |
| Elements.EqualsReflexive | src/main/java/com/github/plugatarev/bencode/parser/Element.java:6-35 | record equality, with Map.equals for dictionaries, holds between any element and itself, for elements whose maps have distinct keys at every depth, as every Java Map does |
| Elements.EqualsIgnoresEntryOrder | src/main/java/com/github/plugatarev/bencode/parser/Element.java:22-27 | two dictionaries with the same entries in any order are equal as Java records |
| Java.WrapInt32 | src/main/java/com/github/plugatarev/bencode/lexer/Lexer.java:126 | int addition: the sum when it fits in 32 bits; otherwise it is congruent to the sum modulo 2^32 |
| Java.ParseIntOfIntToString | src/main/java/com/github/plugatarev/bencode/lexer/Lexer.java:111 | Integer.parseInt reads back every int that String.valueOf prints |
| Java.ParseIntRejectsLong | src/main/java/com/github/plugatarev/bencode/lexer/Lexer.java:111 | any literal whose digits, after an optional sign, start with a non-zero digit and number more than ten is worth more than 2^31, so Integer.parseInt rejects it |
| Java.CompareToZero | src/main/java/com/github/plugatarev/bencode/parser/Parser.java:66 | compareTo is 0 exactly for equal strings |
| Java.CompareToSwap | src/main/java/com/github/plugatarev/bencode/parser/Parser.java:66 | compareTo is antisymmetric |
| Java.CompareToTransitive | src/main/java/com/github/plugatarev/bencode/parser/Parser.java:66 | "compares below" is transitive |
| Reporting.TestReporter.constructor | src/main/java/com/github/plugatarev/bencode/error/TestReporter.java:4 | a new reporter holds no messages |
| Reporting.TestReporter.Report | src/main/java/com/github/plugatarev/bencode/error/TestReporter.java:7-10 | report records the message and answers true exactly when the new count is below 20 |
| Reporting.TestReporter.HasError | src/main/java/com/github/plugatarev/bencode/error/TestReporter.java:13-15 | true exactly when some message was reported |
| Reporting.TestReporter.Clear | src/main/java/com/github/plugatarev/bencode/error/TestReporter.java:17-19 | clear forgets every message |
| ReporterScenarios.ReportUntilRefused | src/main/java/com/github/plugatarev/bencode/error/TestReporter.java:7-19 | after clear, a reporter accepts 19 messages and refuses the 20th |
| Rendering.Indent | src/main/java/com/github/plugatarev/bencode/JsonConverter.java:38 | " ".repeat(level * SHIFT) is two spaces per level |
| Rendering.ConcatParts | src/main/java/com/github/plugatarev/bencode/JsonConverter.java:31-35 | appending two, three or four parts appends them in order |
| Rendering.JsonConverter.constructor | src/main/java/com/github/plugatarev/bencode/JsonConverter.java:8 | a new converter starts at nesting level 0 |
| Rendering.JsonConverter.Json | src/main/java/com/github/plugatarev/bencode/JsonConverter.java:11-29 | json returns Render of the element at the current nesting level, and leaves the level where it found it |
| Rendering.JsonConverter.JsonDictionary | src/main/java/com/github/plugatarev/bencode/JsonConverter.java:14-25 | a dictionary prints as its opening, each entry one level deeper, then "}" indented at the current level; the level comes back after nestingLevel++ and -- |
| Rendering.JsonConverter.AppendEntries | src/main/java/com/github/plugatarev/bencode/JsonConverter.java:20 | the forEach appends one line per entry, in map order |
| Rendering.JsonConverter.AppendStrings | src/main/java/com/github/plugatarev/bencode/JsonConverter.java:31-35 | the builder's text followed by the parts in order |
| Rendering.JsonConverter.Shifted | src/main/java/com/github/plugatarev/bencode/JsonConverter.java:37-39 | the value preceded by two spaces per nesting level |
| LexerScenarios.ScanZero | src/main/java/com/github/plugatarev/bencode/lexer/Lexer.java:37-41 | "i0e" scans to INTEGER_BEGIN@0, INTEGER 0@1, END_TYPE@2, EOF (a lone 0 is not a dead zero) |
| LexerScenarios.ScanNegative | src/test/java/com/github/plugatarev/bencode/LexerTest.java:119-120 | "i-213e" scans to an INTEGER token holding -213 |
| LexerScenarios.ScanDeadZeros | src/test/java/com/github/plugatarev/bencode/LexerTest.java:140-144 | "i00323e" reports NUMBER_WITH_DEAD_ZEROS at column 1, and scan returns null |
| LexerScenarios.ScanTooLarge | src/test/java/com/github/plugatarev/bencode/LexerTest.java:124-126 | "i234324343243424e" reports INCORRECT_NUMBER at column 1, and scan returns null |
| LexerScenarios.ScanMinusZero | src/test/java/com/github/plugatarev/bencode/LexerTest.java:147-150 | "i-0e" reports dead zeros at column 1, and scan returns null |
| LexerScenarios.ScanUnknownChar | src/test/java/com/github/plugatarev/bencode/LexerTest.java:57-59 | "$" reports UNKNOWN_CHAR at 0, and scan returns null |
| LexerScenarios.ScanString | src/test/java/com/github/plugatarev/bencode/LexerTest.java:78-81 | "5:12d$@" scans to STRING_BEGIN 5, SEPARATOR, STRING "12d$@" at position -3, EOF |
| LexerScenarios.ScanZeroLengthAtEnd | src/test/java/com/github/plugatarev/bencode/LexerTest.java:153-156 | "0:" scans to STRING_BEGIN, SEPARATOR, EOF; string() is never called |
| LexerScenarios.ScanZeroLength | src/main/java/com/github/plugatarev/bencode/lexer/Lexer.java:126-129 | "0:a" reports INCORRECT_STRING_LENGTH at 2, and a declared length of 0 aborts with null |
| LexerScenarios.ScanLengthPastEnd | src/test/java/com/github/plugatarev/bencode/LexerTest.java:99-101 | "5:1e$@" reports INCORRECT_STRING_LENGTH at 2; the span is skipped and scan returns null |
| LexerScenarios.ScanNotAscii | src/main/java/com/github/plugatarev/bencode/lexer/Lexer.java:131-136 | "2:aé" reports UNKNOWN_CHAR at 3 twice (inside the span, then again as a character after ++i) and returns null |
| LexerScenarios.ScanLoneOpener | src/main/java/com/github/plugatarev/bencode/lexer/Lexer.java:98-104 | a line ending in 'i' makes number() call substring past the end: StringIndexOutOfBoundsException |
| LexerScenarios.ScanFailedCast | src/main/java/com/github/plugatarev/bencode/lexer/Lexer.java:46-49 | "1:a00" reports dead zeros at 3, and the (Integer) cast of the STRING token's text throws ClassCastException |
| LexerScenarios.ScanJumpBack | src/main/java/com/github/plugatarev/bencode/lexer/Lexer.java:105-108 | in "xyi00" the dead-zero error returns the literal's length 2, so scanning jumps back and repeats the same report until the 20th is refused |
| ParserScenarios.ParseNothing | src/main/java/com/github/plugatarev/bencode/parser/Parser.java:25-36 | a token list holding only EOF parses to null with no message |
| ParserScenarios.MissingIntegerText | src/main/java/com/github/plugatarev/bencode/parser/Parser.java:135-146 | the message for an END_TYPE at 1 where INTEGER was expected: its line and position, "Expected tokens: [INTEGER]," and "Actual: END_TYPE" |
| ParserScenarios.ParseMissingInteger | src/main/java/com/github/plugatarev/bencode/parser/Parser.java:93-97 | the token list INTEGER_BEGIN, END_TYPE, EOF, handed to the parser directly (on "ie" the lexer itself stops with an incorrect-number report), reports that message once and parse returns null |
| ParserScenarios.ParseRepeatedKey | src/main/java/com/github/plugatarev/bencode/parser/Parser.java:73-84 | "d1:ai1e1:bi2e1:ai3ee" gives {a: 3, b: 2}: a repeated key keeps its place and takes the later value |
| ParserScenarios.BrokenOrderMessage | src/main/java/com/github/plugatarev/bencode/parser/Parser.java:124-133 | the broken-order message names the opening token's position plus one |
| ParserScenarios.ParseUnordered | src/main/java/com/github/plugatarev/bencode/parser/Parser.java:82 | "d1:bi1e1:ai2ee" reports the broken order once and parse returns null |
| ParserScenarios.EndOfLineMessage | src/main/java/com/github/plugatarev/bencode/parser/Parser.java:135-139 | for the EOF token the message reads "End of line 1" |
| ParserScenarios.ParseUnterminated | src/main/java/com/github/plugatarev/bencode/parser/Parser.java:50-56 | an unclosed list reaches EOF, which cannot start an element; that one report ends the parse with null, because the error leaves the cursor at EOF |
| RenderScenarios.RenderString | src/test/java/com/github/plugatarev/bencode/JsonConverterTest.java:17-22 | json of BString "hello" is "\"hello\"" |
| RenderScenarios.RenderInteger | src/test/java/com/github/plugatarev/bencode/JsonConverterTest.java:24-29 | json of BInteger 1232 is "1232" |
| RenderScenarios.FlatJoined | src/main/java/com/github/plugatarev/bencode/parser/Element.java:15-20 | toString of [123, "key", "he\|\|0"] is "[123, \"key\", \"he\|\|0\"]" |
| RenderScenarios.RenderList | src/test/java/com/github/plugatarev/bencode/JsonConverterTest.java:31-37 | json of that list is the same text |
| RenderScenarios.RenderNestedList | src/test/java/com/github/plugatarev/bencode/JsonConverterTest.java:53-61 | a list within a list prints as "[[123, \"key\", \"he\|\|0\"], 0]" |
| RenderScenarios.Indents | src/main/java/com/github/plugatarev/bencode/JsonConverter.java:37-39 | the shift at levels 0, 1 and 2 is "", two spaces, four spaces |
| RenderScenarios.RenderDictionary | src/test/java/com/github/plugatarev/bencode/JsonConverterTest.java:39-51 | {bar: "spam", foo: 42} prints as "{", a line per entry indented two spaces, then "}" |
| RenderScenarios.RenderInnerDictionary | src/main/java/com/github/plugatarev/bencode/JsonConverter.java:17-23 | the same dictionary at level 1 opens with a line break and "{" indented two spaces, its entries at four spaces, then "}" back at two |
| RenderScenarios.RenderEmptyDictionary | src/main/java/com/github/plugatarev/bencode/JsonConverter.java:14-25 | an empty dictionary prints as "{", a line break and "}" |
| RenderScenarios.DictionaryEntryLine | src/main/java/com/github/plugatarev/bencode/JsonConverter.java:17-20 | an entry holding a dictionary prints its key, ": ", then a line break, the dictionary's own opening and its lines |
| RenderScenarios.RenderDictionaryEntry | src/test/java/com/github/plugatarev/bencode/JsonConverterTest.java:86-90 | the "d" entry of allTypesWithinDictionary prints as the test expects at level 1 |

## Left out

- Reading input: `BufferedReader.readLine` and its IOException are not modelled. The first line is a parameter (`Option<string>`, where None is end of stream). Only that line is ever read, as in the source.
- Lexing.Scan: the line is a `seq<char>` of Unicode scalar values, while a Java `String` holds UTF-16 code units. A character outside the Basic Multilingual Plane counts as one character in the model and as two in Java.
- Lexing.DigitRunEnd: `Character.isDigit` (line 102) also accepts non-ASCII decimal digits. The model accepts only '0'..'9', so `Integer.parseInt` over a non-ASCII run is not modelled either. `Java.ParseInt` accepts one leading '+' or '-', as parseInt does.
- The text of lexical error messages: Lexer.java calls `LexerError.message`, but lexer/LexerError.java defines only `getErrorMessage`, whose format also puts its arguments in a different order. A lexical message is therefore its error kind and its column. Parser messages are modelled as their full text.
- Reporting.TestReporter.Report: `nMessages` is an unbounded counter. Java's `int` would wrap after 2^31 reports, which the 20-message loops never reach.
- Tokens: lexer/Token.java is not part of this model. The token record (kind, line, position, value) is taken from its use in Lexer.java and Parser.java.
- Parsing.Parse: requires ValidTokens: the list ends in EOF, and INTEGER and STRING tokens hold an int and a string. Without it, Java would throw IndexOutOfBounds or ClassCast inside the parser. LexerProperties.ScanResultShape proves that every list the lexer returns meets it.
- LexerRoundTrip.ScanEncoded: requires the encoded text to be at most 2^31-1 characters long, the longest Java `String`, so that every position is an int.
- LexerRoundTrip.ScanEncodedItems: requires the same bound on the texts in a row.
- LexerRoundTrip.DecodeEncoded: requires the encoded text to be at most 2^31-1 characters long, the longest Java `String`. Its canonical elements exclude empty strings, since a declared length of 0 aborts the scan, and non-ASCII strings.
- Elements.EqualsReflexive: Java's `equals` on the records is modelled as the predicate `Equals` (order-insensitive on maps). The rest of the model compares elements with Dafny's structural equality.
- RenderScenarios.RenderDictionary: the test builds its maps with `HashMap`, whose iteration order follows hash codes. The model iterates in insertion order, which gives "bar" before "foo" as the test expects.
- RenderScenarios.RenderDictionaryEntry: of the test allTypesWithinDictionary, only the nested dictionary's entry line is stated as a scenario, not the whole four-entry text. The general contract of Rendering.JsonConverter.Json covers the remainder.
- `Main`, `ConsoleReporter`, `FileReporter` and the `ErrorReporter` interface are not modelled: they are console and file I/O, or an interface with no behaviour of its own. The upper-case packages (`Lexer/`, `Parser/`, `Error/`) are an older revision of the same code and are not modelled.
- Tests written against types the code no longer has are not restated: `TokenType.EOL`, `JInteger`, and `parse` returning a list. They survive in LexerTest.java, ParserTest.java and Lexer/LexerTest.java. The lexer scenarios above drop the EOL tokens those tests expect.
