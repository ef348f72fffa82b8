# gostream query front end, in Dafny

This project models the query front end of gostream:

- the parser in `pkg/parser/parser.go`;
- the lexer behaviour that `pkg/lexer/lexer_test.go` pins down.

A query such as `select count(*) from MyEvent.length(50) where Value > 97` is turned into a
statement in four steps. `Parse` checks that the first raw token is `select`. It then runs four
passes, each over a fresh lexer on the same query:

- the event-type pass reads the identifiers after `from`;
- the projection pass reads the aggregates before `from`;
- the window pass reads `length(n)` or `time(n unit)` after the first `.`;
- the predicate pass reads the `where`/`and`/`or` comparisons after that `.`.

Each pass mutates one statement.

The files:

- `lexer.dfy` (module `Lexer`):
  - a lexer is a class holding a cursor over the (token, literal) stream its scanner yields, ending in EOF;
  - its four operations are loops over the raw scan, specified by `Seek`, the index where a traversal mode stops;
  - the functions `Calls`, `After` and `Visible` describe repeated calls, the cursor after them, and the filtered view of a stream.
- `lexer_test.dfy` (module `LexerTest`) states the five lexer tests:
  - the keyword and punctuation tables;
  - a raw stream for each test query, proved to spell the query and to obey the classification rules (each run of spaces, of letters or of digits is one token);
  - the test loop as a method proved to succeed on every test.
- `statement.dfy` (module `Statement`): the statement as a class with the six setters the passes call, and its contents as a `Snapshot` value.
- `expr.dfy` (module `Expr`): projection entries and predicate comparisons as datatypes.
- `numbers.dfy` (module `Numbers`):
  - `strconv.Atoi` on 64-bit integers;
  - the plain decimal text that `strconv.ParseFloat` is given;
  - the 64-bit wrap-around of `time.Duration` products.
- `parser.dfy` (module `Parser`):
  - each pass as a method over a `Lexer` and a `Statement`, proved against a function of the token stream that gives the pass's status and the statement it leaves;
  - `Parse` proved against `ParseSpec`.
- `parser_props.dfy` (module `ParserProperties`): what the passes guarantee on every token stream.
- `parser_examples.dfy` (module `ParserExamples`):
  - one whole query through every pass, accepted with a registered event type and rejected without one;
  - `select from .length(1)`, accepted with neither event type nor projection;
  - the projection of the aggregate lexer test's query, and the float predicate of the float lexer test's query, each on the raw stream written for that test.

A skip-to-anchor loop whose anchor is missing never returns in Go, because EOF repeats. Here it gives the status `Hangs`, and `Parse` gives the verdict `Diverges`.

Where the documented behaviour and the code disagree, the model follows the code:

- A query without `from` makes `Parse` spin forever in the event-type pass. It is not rejected with an error.
- `count(*)` appends `Count{As: "count(*)"}` and then, for the `*` it does not consume, `SelectAll{}`. It does not append a single count.
- A successful `Parse` does not guarantee an event type or a projection entry:
  - `from .length(1)` sets no event type;
  - `select from` with no aggregate sets no projection.
- `MIN` is one token for both the `min` aggregate and the minute unit of `time(n min)`.

## Model

| member | source | states |
|---|---|---|
| Parser.Parser.constructor | pkg/parser/parser.go:20-22 | A new parser has an empty registry. |
| Parser.Parser.Register | pkg/parser/parser.go:24-26 | Afterwards `name` maps to `t` and every other name maps to what it mapped to before, or stays absent. |
| Parser.PastAnchor | pkg/parser/parser.go:85-89 | The cursor just past the first `anchor` at or after `i`, or none exactly when no `anchor` follows. No entry it skips is the anchor. |
| Parser.SkipTo | pkg/parser/parser.go:110-114 | The skip-to-anchor loop, which the passes run at lines 85-89, 110-114 and 158-162, reports `found` exactly when an anchor follows, and then leaves the cursor just past the first one. |
| Parser.Parser.ParseEventType | pkg/parser/parser.go:84-107 | The status and the statement after the pass are those of `EventTypePass` on the stream from the cursor. |
| ParserProperties.EventTypeScanResult | pkg/parser/parser.go:91-106 | The identifiers before the first `.` are looked up in order: the first unregistered one fails with its name. Otherwise `.` succeeds and EOF fails with its literal. On success the last name's type is the event type, or the earlier one is kept when there is no name. Nothing else changes. |
| ParserProperties.EventTypeScanStatus | pkg/parser/parser.go:91-106 | The scan fails with the first unregistered name before the first `.`, else succeeds at `.` and fails at EOF with its literal. |
| ParserProperties.EventTypeScanAfter | pkg/parser/parser.go:96-104 | A successful scan leaves the type of the last name before `.` as the event type, or the statement as it was when there is no name. |
| ParserProperties.EventTypeScanKeeps | pkg/parser/parser.go:91-106 | The scan changes no field but the event type. |
| ParserProperties.ParseUnregistered | pkg/parser/parser.go:98-102 | A query naming an unregistered event type after `from` is rejected in the event-type clause with that name. |
| ParserProperties.ParseWithoutFrom | pkg/parser/parser.go:85-89 | A query with no `from` token never returns. |
| Parser.Parser.ParseFunction | pkg/parser/parser.go:28-82 | The status and the statement after the pass are those of `FunctionScan` from the cursor. |
| ParserProperties.FunctionScanResult | pkg/parser/parser.go:28-82 | The pass only appends to the projection list, and each entry it appends is typed against the event type. It fails only with the EOF literal, and always fails when no `from` follows. |
| Parser.AggregateOf | pkg/parser/parser.go:40-79 | Exactly `max`, `min`, `med`, `sum` and `avg` name an aggregate over a field. |
| ParserProperties.AggregateSpelling | pkg/parser/parser.go:40-79 | The aggregate a token names is the one whose column prefix is spelled by the keyword that lexes to that token: `max` gives `Max`, `min` gives `Min`, and so on. |
| ParserProperties.AggregateKeyword | pkg/parser/parser.go:40-79 | Every aggregate's column prefix is a keyword, and the token of that keyword names that aggregate back. |
| ParserProperties.AggregateAt | pkg/parser/parser.go:40-47 | An aggregate keyword followed by `(` and a field name appends that aggregate's entries over the field for the current event type, and the scan goes on after the name. |
| ParserProperties.FunctionScanSkipTo | pkg/parser/parser.go:29-81 | A run of tokens the projection switch has no case for is skipped with no effect on the statement. |
| ParserProperties.AggregatesByKind | pkg/parser/parser.go:40-79 | An aggregate appends its Int variant for an int field, then its Float variant for a float field, and nothing for any other field. Each entry is named `op(name)`. |
| ParserProperties.CountStar | pkg/parser/parser.go:36-39 | `count(*)` appends `Count("count(*)")` and then `SelectAll`, and the scan goes on after `)`. |
| Expr.ColumnInjective | pkg/parser/parser.go:40-79 | Two aggregate column names are equal only for the same aggregate over the same field. |
| Parser.Parser.ParseWindow | pkg/parser/parser.go:109-155 | The status and the statement after the pass are those of `WindowPass` from the cursor. |
| ParserProperties.WindowPassResult | pkg/parser/parser.go:116-154 | A successful window pass sets a length window with a length and no new duration, or a time window with the length untouched. It changes no other field. |
| ParserProperties.CountedResult | pkg/parser/parser.go:121-151 | After the window keyword, the count sets the length for `length` and only the duration for `time`. |
| ParserProperties.WithUnitKeeps | pkg/parser/parser.go:143-149 | The unit of a time window changes the duration and nothing else. |
| ParserProperties.WindowKeyword | pkg/parser/parser.go:116-154 | The window pass succeeds only at `length` or `time`. Any other token after the first `.`, EOF included, fails with that token's literal and leaves the statement as it was. |
| ParserProperties.LengthWindow | pkg/parser/parser.go:121-131 | `length(n)` with `n` written in decimal sets a length window of `n`. |
| ParserProperties.LengthWindowOf | pkg/parser/parser.go:121-131 | A length window whose count converts to `n` has length `n` and changes nothing else. |
| ParserProperties.WindowBadCount | pkg/parser/parser.go:121-140 | A count that does not convert fails with its text, once the window kind has already been set. |
| ParserProperties.TimeWindow | pkg/parser/parser.go:134-151 | `time(n unit)` sets a time window with duration `Scaled(n, Second)` for `sec`, i.e. `n` seconds in nanoseconds wrapped to 64 bits, and `Scaled(n, Minute)` for `min`, i.e. `n` minutes wrapped likewise. Any other unit sets no duration. |
| ParserProperties.TimeWindowWithUnit | pkg/parser/parser.go:134-151 | A time window whose count converts to `n` applies the unit token that follows to `n`. |
| Numbers.Atoi | pkg/parser/parser.go:124-128 | A converted value is a 64-bit integer whose text is an optional sign followed by digits. |
| Numbers.AtoiItoa | pkg/parser/parser.go:124-128 | Every 64-bit integer written in decimal converts back to itself. |
| Numbers.Wrap64 | pkg/parser/parser.go:145-148 | The result lies in the signed 64-bit range, is congruent to the input modulo 2^64, and is the input itself when the input already lies in the range. |
| Numbers.Scaled | pkg/parser/parser.go:145-148 | The duration product lies in the 64-bit range and equals the exact product when that fits. |
| Numbers.SecondsExact | pkg/parser/parser.go:145-146 | Up to 9223372036 seconds, the duration is exact. |
| Numbers.SecondsWrap | pkg/parser/parser.go:145-146 | 9223372037 seconds wraps around to a negative duration. |
| Parser.Parser.ParseWhere | pkg/parser/parser.go:157-213 | The status and the statement after the pass are those of `WherePass` from the cursor. The predicates are recorded only on success. |
| Parser.Parser.ScanWhere | pkg/parser/parser.go:164-209 | The predicate loop returns the predicates of `WhereScan` in source order, or its first error with none. |
| Parser.WhereScan | pkg/parser/parser.go:164-209 | The predicate loop never spins forever, and a failure carries no predicates. |
| Parser.Parser.ReadPredicate | pkg/parser/parser.go:175-208 | One predicate reads a name, a comparator and a value, then a fraction for a float field. It yields the entries, error and cursor of `Predicate`. |
| Parser.Parser.ReadFraction | pkg/parser/parser.go:193-208 | The float half joins `value + "." + value2` and either fails with that text or appends its comparison after the integer ones. |
| Parser.CmpOf | pkg/parser/parser.go:185-190 | Exactly `>` and `<` build a comparison. Any other comparator builds none. |
| ParserProperties.WhereScanTyped | pkg/parser/parser.go:164-209 | Every integer comparison collected is on an int field with a 64-bit value. Every float comparison is on a float field with a decimal text. |
| ParserProperties.PredicateTyped | pkg/parser/parser.go:175-208 | Every entry one predicate yields is typed against the event type. |
| ParserProperties.IntCompareTyped | pkg/parser/parser.go:185-190 | An integer comparison on an int field is typed. |
| ParserProperties.FractionTyped | pkg/parser/parser.go:193-208 | The float half, on a float field, yields only float comparisons with decimal text beside the typed integer ones. |
| ParserProperties.FloatTextOf | pkg/parser/parser.go:194-197 | The joined text of an accepted value and fraction is a decimal with a point. |
| ParserProperties.WhereScanSkipTo | pkg/parser/parser.go:165-173 | A run of tokens other than EOF, `where`, `and` and `or` is skipped with no effect on the predicate loop's result. |
| ParserProperties.FloatPredicate | pkg/parser/parser.go:193-207 | A predicate on a float field that is not an int field reads one more identifier and joins the value, `.` and it. Text that is not a decimal fails with that text. Otherwise it yields one float comparison for `>` or `<` and none for any other comparator. The cursor ends past the fraction either way. |
| ParserProperties.WhereScanNone | pkg/parser/parser.go:165-173 | Without `where`, `and` or `or`, the predicate loop succeeds at EOF with no predicates. |
| ParserProperties.IntPredicate | pkg/parser/parser.go:175-191 | A predicate on an int field that is not a float field consumes only name, comparator and value. It yields one comparison for `>` or `<` and none for any other comparator. |
| Parser.Parser.Parse | pkg/parser/parser.go:215-239 | The verdict is `ParseSpec`'s. A statement is returned exactly when the query is accepted, and it is a new statement holding the accepted contents. |
| ParserProperties.AcceptedPasses | pkg/parser/parser.go:215-239 | An accepted query began with `select` and passed all four passes in order. Its statement is the one the predicate pass leaves. |
| ParserProperties.AcceptedStatement | pkg/parser/parser.go:215-239 | An accepted statement holds either a length window with a length and no duration, or a time window with no length. All its projection and predicate entries are typed. |
| ParserExamples.LengthExample | pkg/parser/parser.go:215-239 | `select count(*) from MyEvent.length(50)`, with `MyEvent` registered, is accepted with `Count`, `SelectAll`, the event type and a length window of 50. |
| ParserExamples.LengthUnregistered | pkg/parser/parser.go:222-224 | The same query with nothing registered is rejected in the event-type clause, naming `MyEvent`. |
| ParserExamples.EventTypeDecides | pkg/parser/parser.go:222-224 | A failing event-type pass decides `Parse`'s verdict. |
| ParserExamples.FunctionsAt | pkg/parser/parser.go:36-39 | In the example, the projection pass appends `Count` and `SelectAll` and stops at `from`. |
| ParserExamples.LengthWindowAt | pkg/parser/parser.go:121-131 | In the example, the window pass sets a length window of 50. |
| ParserExamples.NoPredicatesAt | pkg/parser/parser.go:165-173 | In the example, the predicate pass succeeds with no predicates. |
| ParserExamples.EventTypeAt | pkg/parser/parser.go:98-104 | In the example, the event-type pass sets `MyEvent`. |
| ParserExamples.UnregisteredAt | pkg/parser/parser.go:98-102 | In the example with `MyEvent` unregistered, the event-type pass fails naming it. |
| ParserExamples.BareExample | pkg/parser/parser.go:215-239 | `select from .length(1)` is accepted with no event type, no projection, a length window of 1 and no predicates, whatever is registered. |
| ParserExamples.AggregatesProjection | pkg/parser/parser.go:28-82 | On the tokens of `select Value, count(*), avg(Value), sum(Value) from ...` with `MyEvent` set, the projection pass yields `Count`, `SelectAll`, `avg(Value)` and `sum(Value)` as integer aggregates, in that order. The bare `Value` adds nothing. |
| ParserExamples.AggregatesQueryProjection | pkg/lexer/lexer_test.go:80-82 | The raw stream written for the aggregate lexer test has those tokens, so its projection is that list. |
| ParserExamples.FloatPredicateAt | pkg/parser/parser.go:193-208 | In `where Level > 2.5` with `Level` a float field, the predicate yields `Level > "2.5"` and ends past the `5`. |
| ParserExamples.FloatWhere | pkg/parser/parser.go:157-213 | On those tokens, the predicate pass records exactly that float comparison. |
| ParserExamples.FloatQueryWhere | pkg/lexer/lexer_test.go:44-45 | The raw stream written for the float lexer test, with `Level` a float field, gives the one comparison `Level > "2.5"`. |
| Statement.Statement.constructor | pkg/parser/parser.go:216 | A new statement has nothing set. |
| Statement.Statement.SetEventType | pkg/parser/parser.go:104 | Only the event type changes. |
| Statement.Statement.SetFunction | pkg/parser/parser.go:37 | The entry is appended to the projection list and nothing else changes. |
| Statement.Statement.SetWindow | pkg/parser/parser.go:122 | Only the window kind changes. |
| Statement.Statement.SetLength | pkg/parser/parser.go:130 | Only the length changes. |
| Statement.Statement.SetTime | pkg/parser/parser.go:146 | Only the duration changes. |
| Statement.Statement.SetWhere | pkg/parser/parser.go:211 | The predicates are appended in order and nothing else changes. |
| Lexer.Lexer.constructor | pkg/lexer/lexer_test.go:10 | A new lexer stands at the start of the query's stream. |
| Lexer.Lexer.Tokenize | pkg/lexer/lexer_test.go:130-135 | Returns the entry at the cursor and moves one further, except that at EOF it stays. |
| Lexer.Lexer.TokenizeIgnoreWhiteSpace | pkg/lexer/lexer_test.go:35-40 | Returns the first entry at or after the cursor that is not whitespace, or EOF. The cursor ends just past it. |
| Lexer.Lexer.TokenizeIdentifier | pkg/parser/parser.go:41 | Returns the first identifier at or after the cursor, or EOF. The cursor ends just past it. |
| Lexer.Lexer.TokenizeIgnoreIdentifier | pkg/parser/parser.go:176 | Returns the first entry at or after the cursor that is neither whitespace nor an identifier, or EOF. The cursor ends just past it. |
| Lexer.Seek | pkg/parser/parser.go:41 | A traversal returns the first entry at or after the cursor at which its mode stops. |
| Lexer.SeekFirst | pkg/parser/parser.go:41 | Any index at which the mode stops, with no stop before it, is where the traversal ends. |
| Lexer.CallsAreVisible | pkg/lexer/lexer_test.go:165-170 | Repeated traversals in one mode return, in order, exactly the entries that mode does not skip. |
| Lexer.CallsSeen | pkg/lexer/lexer_test.go:165-170 | The first `n` traversals return the first `n` stops. |
| Lexer.SeenIsVisible | pkg/lexer/lexer_test.go:165-170 | The stops of a traversal from the cursor are the filtered rest of the stream. |
| Lexer.CallsSnoc | pkg/lexer/lexer_test.go:165-170 | One traversal more appends the entry at the next stop and moves the cursor past it. |
| Lexer.VisibleEndsInEof | pkg/lexer/lexer_test.go:165-170 | What a traversal sees from any cursor ends with the stream's EOF. |
| Lexer.EofRepeats | pkg/parser/parser.go:85-89 | Once the cursor is at EOF, every later traversal in any mode returns EOF and stays there. |
| Lexer.RawSeesAll | pkg/lexer/lexer_test.go:130-135 | Raw traversals see the whole stream. |
| Lexer.FilteredViewConsistency | pkg/lexer/lexer_test.go:80-218 | Raw calls return the whole stream. Whitespace-skipping calls return that stream with its whitespace tokens removed. |
| Lexer.KeywordOf | pkg/lexer/lexer_test.go:16-29 | The keyword table yields only keyword tokens, never an identifier, whitespace or EOF. |
| LexerTest.LexesAppend | pkg/lexer/lexer_test.go:81 | Adjacent pieces of query text lex as the concatenation of their streams when the junction splits no run: no two whitespace tokens, two letters or two digits meet across it. |
| LexerTest.LexedStream | pkg/lexer/lexer_test.go:82 | A lexed query followed by EOF is a stream a lexer runs over. |
| LexerTest.MinLexes | pkg/lexer/lexer_test.go:9 | The raw stream written for the `min` test spells its query, with each literal classified as its token. |
| LexerTest.FloatLexes | pkg/lexer/lexer_test.go:44 | The raw stream for the float test spells its query. Its `2.5` is an identifier, a dot and an identifier. |
| LexerTest.TimeWindowLexes | pkg/lexer/lexer_test.go:139 | The raw stream for the time-window test spells its query. |
| LexerTest.AggregatesLexes | pkg/lexer/lexer_test.go:80-128 | The whitespace-including table spells its query exactly, each space run is one whitespace token, and each literal is classified. |
| LexerTest.PointFiveView | pkg/lexer/lexer_test.go:67-69 | `.5` is seen as one `DOT` and one identifier. There is no float token. |
| LexerTest.MinView | pkg/lexer/lexer_test.go:16-32 | Without whitespace, the `min` test's stream is its table. |
| LexerTest.FloatView | pkg/lexer/lexer_test.go:51-69 | Without whitespace, the float test's stream is its table. |
| LexerTest.TimeWindowView | pkg/lexer/lexer_test.go:146-162 | Without whitespace, the time-window test's stream is its table. |
| LexerTest.AggregatesView | pkg/lexer/lexer_test.go:181-209 | The raw table with its whitespace tokens removed is the whitespace-skipping table. |
| LexerTest.TableFromView | pkg/lexer/lexer_test.go:35-40 | When a stream's filtered view is a table, the first calls of a fresh lexer return that table. |
| LexerTest.Expect | pkg/lexer/lexer_test.go:35-40 | The table loop succeeds exactly when the calls return the table, and leaves the cursor after them. |
| LexerTest.TestLexerTokenizeMin | pkg/lexer/lexer_test.go:8-41 | The whitespace-skipping calls on the `min` query return its table. |
| LexerTest.TestLexerTokenizeFloat | pkg/lexer/lexer_test.go:43-78 | The whitespace-skipping calls on the float query return its table. |
| LexerTest.TestLexerTokenize | pkg/lexer/lexer_test.go:80-136 | The raw calls on the aggregate query return its table, whitespace included. |
| LexerTest.TestLexerTokenizeIgnoreSpaceTimeWindow | pkg/lexer/lexer_test.go:138-171 | The whitespace-skipping calls on the time-window query return its table. |
| LexerTest.TestLexerTokenizeIgnoreSpace | pkg/lexer/lexer_test.go:173-218 | The whitespace-skipping calls on the aggregate query return its table. |

## Left out

- The character-level scanner is not part of this model:
  - a lexer runs over the (token, literal) stream its scanner yields;
  - the tests fix that stream only through their tables;
  - the streams written here for the tests obey the classification rules (keywords, one-character punctuation, each run of spaces, of letters or of digits one token), but nothing is claimed about other inputs;
  - how a run of letters directly followed by digits, or the reverse, is split is not fixed by the tests and not claimed;
  - keyword case and the handling of other characters are not modelled.
- The literal of EOF is not fixed by the tests; the test streams use the empty string.
- `strings.NewReader` and the reader plumbing are not modelled: a query is given as its token stream.
- The `statement` and `expr` packages are not modelled beyond their use:
  - the setters are taken to store or append their argument;
  - each expression type is one datatype constructor.
- `IntField` and `FloatField` use reflection, which is not modelled. An event type is seen only through the names of its integer fields and of its float fields, and a statement without an event type has neither kind.
- A registered value is such a field-kind description, not an arbitrary Go value.
- Go's nil for an unset statement field is `None`.
- `fmt` error messages are not formatted: an error is a constructor carrying the literal or text the message shows, and `Parse`'s prefix is the clause the error came from.
- Numbers.DecimalFloat: takes `strconv.ParseFloat` to accept the joined `value.value2` exactly when it is a plain decimal (an optional sign, digits, a point, digits, at least one digit). Exponents, `inf` and `nan` are not modelled, and neither is a float value's range. A float comparison holds its decimal text rather than a float64.
- A pass that never returns in Go is the status `Hangs`, and `Parse` then gives `Diverges`. Nontermination itself is not modelled.
