/**
  A whole query through `Parse`: `select count(*) from MyEvent.length(50)`,
  with `MyEvent` registered, is accepted with a count and a select-all
  entry, the event type, and a length window of 50.

  Each pass is evaluated on its own, over any stream with the query's
  tokens, and the driver's verdict is assembled from the four passes.

  Three more queries show the projection of several aggregates, an accepted
  query with neither event type nor projection, and a float predicate.
 */
module ParserExamples {
  import opened Wrappers
  import opened Lexer
  import opened Expr
  import opened Numbers
  import opened Statement
  import opened Parser
  import opened ParserProperties
  import LexerTest

  /** `MyEvent`, with one integer field `Value`. */
  const MyEvent: Schema := Schema({"Value"}, {})

  /** The raw tokens of `select count(*) from MyEvent.length(50)`, then EOF. */
  const LengthQuery: seq<Entry> := [
    (SELECT, "select"), (WHITESPACE, " "), (COUNT, "count"), (LPAREN, "("), (ASTERISK, "*"), (RPAREN, ")"),
    (WHITESPACE, " "), (FROM, "from"), (WHITESPACE, " "), (IDENTIFIER, "MyEvent"), (DOT, "."), (LENGTH, "length"),
    (LPAREN, "("), (IDENTIFIER, "50"), (RPAREN, ")"), (EOF, "")]
  // The statement after each pass.
  const St1: Snapshot := Snapshot(Some(MyEvent), [], None, None, None, [])
  const St2: Snapshot := Snapshot(Some(MyEvent), [Count("count(*)"), SelectAll], None, None, None, [])
  const St3: Snapshot := Snapshot(Some(MyEvent), [Count("count(*)"), SelectAll], Some(LENGTH), Some(50), None, [])

  /** The entries of `LengthQuery`, one by one. */
  predicate LengthShape(s: seq<Entry>) {
    |s| == 16 &&
    s[0] == (SELECT, "select") && s[1] == (WHITESPACE, " ") && s[2] == (COUNT, "count") && s[3] == (LPAREN, "(") &&
    s[4] == (ASTERISK, "*") && s[5] == (RPAREN, ")") && s[6] == (WHITESPACE, " ") && s[7] == (FROM, "from") &&
    s[8] == (WHITESPACE, " ") && s[9] == (IDENTIFIER, "MyEvent") && s[10] == (DOT, ".") && s[11] == (LENGTH, "length") &&
    s[12] == (LPAREN, "(") && s[13] == (IDENTIFIER, "50") && s[14] == (RPAREN, ")") && s[15] == (EOF, "")
  }

  lemma LengthShaped() ensures LengthShape(LengthQuery) {}

  // Facts about the stream that the passes rely on.

  lemma LengthWellFormed(s: seq<Entry>) requires LengthShape(s) ensures WellFormed(s) {}

  lemma LengthAnchors(s: seq<Entry>)
    requires LengthShape(s)
    ensures WellFormed(s) && PastAnchor(s, 0, FROM) == Some(8) && PastAnchor(s, 0, DOT) == Some(11)
  {
    LengthWellFormed(s);
    SeekFirst(s, 0, Until(FROM), 7);
    SeekFirst(s, 0, Until(DOT), 10);
  }

  // Each pass on a stream with the query's tokens where it looks.

  /** After `from `, the registered `MyEvent` is set and the `.` ends the pass. */
  lemma EventTypeAt(reg: map<string, Schema>, s: seq<Entry>, st: Snapshot)
    requires WellFormed(s) && 10 < |s| && PastAnchor(s, 0, FROM) == Some(8) && reg == map["MyEvent" := MyEvent]
    requires s[8].0 == WHITESPACE && s[9] == (IDENTIFIER, "MyEvent") && s[10].0 == DOT
    ensures EventTypePass(reg, s, 0, st) == Outcome(Ok, st.(eventType := Some(MyEvent)))
  {
    var st1 := st.(eventType := Some(MyEvent));
    assert EventTypeScan(reg, s, 10, st1) == Outcome(Ok, st1);
    assert EventTypeScan(reg, s, 9, st) == EventTypeScan(reg, s, 10, st1);
  }
  /** Before `from`, `count(*)` appends a count and a select-all entry. */
  lemma FunctionsAt(s: seq<Entry>, st: Snapshot)
    requires WellFormed(s) && 7 < |s|
    requires s[0].0 == SELECT && s[1].0 == WHITESPACE && s[2].0 == COUNT && s[3].0 == LPAREN && s[4].0 == ASTERISK
    requires s[5].0 == RPAREN && s[6].0 == WHITESPACE && s[7].0 == FROM
    ensures FunctionScan(s, 0, st) == Outcome(Ok, st.(functions := st.functions + [Count("count(*)"), SelectAll]))
  {
    CountStar(s, 2, st);
    assert FunctionScan(s, 0, st) == FunctionScan(s, 2, st);
  }
  lemma Atoi50() ensures Atoi("50") == Some(50) {
    assert Itoa(50) == "50";
    AtoiItoa(50);
  }
  /** After the first `.`, `length(50)` sets a length window of 50. */
  lemma LengthWindowAt(s: seq<Entry>, st: Snapshot)
    requires WellFormed(s) && 13 < |s| && PastAnchor(s, 0, DOT) == Some(11)
    requires s[11].0 == LENGTH && s[12].0 == LPAREN && s[13] == (IDENTIFIER, "50")
    ensures WindowPass(s, 0, st) == Outcome(Ok, st.(window := Some(LENGTH), length := Some(50)))
  {
    SeekFirst(s, 12, Identifier, 13);
    Atoi50();
  }
  /** No `where`, `and` or `or` after the first `.`: the predicate pass adds nothing. */
  lemma NoPredicatesAt(s: seq<Entry>, st: Snapshot)
    requires WellFormed(s) && |s| == 16 && PastAnchor(s, 0, DOT) == Some(11)
    requires s[11].0 == LENGTH && s[12].0 == LPAREN && s[13].0 == IDENTIFIER && s[14].0 == RPAREN && s[15].0 == EOF
    ensures WherePass(s, 0, st) == Outcome(Ok, st)
  {
    var et := st.eventType;
    WhereScanSkips(et, s, 14);
    WhereScanSkips(et, s, 13);
    WhereScanSkips(et, s, 12);
    WhereScanSkips(et, s, 11);
    assert st.where + [] == st.where;
  }
  /** An unregistered name after `from ` fails the event-type pass with that name. */
  lemma UnregisteredAt(reg: map<string, Schema>, s: seq<Entry>, st: Snapshot)
    requires WellFormed(s) && 9 < |s| && PastAnchor(s, 0, FROM) == Some(8) && "MyEvent" !in reg
    requires s[8].0 == WHITESPACE && s[9] == (IDENTIFIER, "MyEvent")
    ensures EventTypePass(reg, s, 0, st) == Outcome(Failed(Unregistered("MyEvent")), st)
  {
    assert EventTypeScan(reg, s, 8, st) == EventTypeScan(reg, s, 9, st);
  }

  // The passes over the query.

  lemma LengthEventType(s: seq<Entry>)
    requires LengthShape(s)
    ensures WellFormed(s) && EventTypePass(map["MyEvent" := MyEvent], s, 0, Empty) == Outcome(Ok, St1)
  {
    LengthAnchors(s);
    EventTypeAt(map["MyEvent" := MyEvent], s, Empty);
  }
  lemma LengthFunctions(s: seq<Entry>)
    requires LengthShape(s)
    ensures WellFormed(s) && FunctionScan(s, 0, St1) == Outcome(Ok, St2)
  {
    LengthWellFormed(s);
    FunctionsAt(s, St1);
  }
  lemma LengthWindowPass(s: seq<Entry>)
    requires LengthShape(s)
    ensures WellFormed(s) && WindowPass(s, 0, St2) == Outcome(Ok, St3)
  {
    LengthAnchors(s);
    LengthWindowAt(s, St2);
  }
  lemma LengthWherePass(s: seq<Entry>)
    requires LengthShape(s)
    ensures WellFormed(s) && WherePass(s, 0, St3) == Outcome(Ok, St3)
  {
    LengthAnchors(s);
    NoPredicatesAt(s, St3);
  }
  /** With `MyEvent` registered, the query is accepted with the statement the passes build. */
  lemma LengthExample(s: seq<Entry>)
    requires LengthShape(s)
    ensures WellFormed(s)
    ensures ParseSpec(map["MyEvent" := MyEvent], s) == Accepted(St3)
  {
    LengthEventType(s);
    LengthFunctions(s);
    LengthWindowPass(s);
    LengthWherePass(s);
  }

  /** With nothing registered, the query is rejected in the event-type pass, naming `MyEvent`. */
  lemma LengthUnregistered(s: seq<Entry>)
    requires LengthShape(s)
    ensures WellFormed(s)
    ensures ParseSpec(map[], s) == Rejected(InClause(EventTypeClause, Unregistered("MyEvent")))
  {
    LengthAnchors(s);
    UnregisteredAt(map[], s, Empty);
    EventTypeDecides(map[], s);
  }

  /** A query whose event-type pass fails is rejected by that pass. */
  lemma EventTypeDecides(reg: map<string, Schema>, s: seq<Entry>)
    requires WellFormed(s) && s[0].0 == SELECT && !EventTypePass(reg, s, 0, Empty).status.Ok?
    ensures ParseSpec(reg, s) == Abort(EventTypeClause, EventTypePass(reg, s, 0, Empty).status)
  {
  }

  // `select from .length(1)`: accepted with no event type and no projection.

  /** The raw tokens of `select from .length(1)`, then EOF (only the count's literal matters). */
  predicate BareShape(s: seq<Entry>) {
    |s| == 10 &&
    s[0].0 == SELECT && s[1].0 == WHITESPACE && s[2].0 == FROM && s[3].0 == WHITESPACE && s[4].0 == DOT &&
    s[5].0 == LENGTH && s[6].0 == LPAREN && s[7] == (IDENTIFIER, "1") && s[8].0 == RPAREN && s[9].0 == EOF
  }

  const BareStatement: Snapshot := Snapshot(None, [], Some(LENGTH), Some(1), None, [])

  lemma BareAnchors(s: seq<Entry>)
    requires BareShape(s)
    ensures WellFormed(s) && PastAnchor(s, 0, FROM) == Some(3) && PastAnchor(s, 0, DOT) == Some(5)
  {
    assert WellFormed(s);
    SeekFirst(s, 0, Until(FROM), 2);
    SeekFirst(s, 0, Until(DOT), 4);
  }

  lemma Atoi1() ensures Atoi("1") == Some(1) {
    assert Itoa(1) == "1";
    AtoiItoa(1);
  }

  lemma BareEventType(reg: map<string, Schema>, s: seq<Entry>)
    requires BareShape(s)
    ensures WellFormed(s) && EventTypePass(reg, s, 0, Empty) == Outcome(Ok, Empty)
  {
    BareAnchors(s);
    assert EventTypeScan(reg, s, 3, Empty) == EventTypeScan(reg, s, 4, Empty);
  }

  lemma BareFunctions(s: seq<Entry>)
    requires BareShape(s)
    ensures WellFormed(s) && FunctionScan(s, 0, Empty) == Outcome(Ok, Empty)
  {
    BareAnchors(s);
    assert Ignored(s[0].0) && Ignored(s[1].0);
    FunctionScanSkipTo(s, 0, 2, Empty);
  }

  lemma BareWindow(s: seq<Entry>)
    requires BareShape(s)
    ensures WellFormed(s) && WindowPass(s, 0, Empty) == Outcome(Ok, BareStatement)
  {
    BareAnchors(s);
    SeekFirst(s, 6, Identifier, 7);
    Atoi1();
  }

  lemma BareWhere(s: seq<Entry>)
    requires BareShape(s)
    ensures WellFormed(s) && WherePass(s, 0, BareStatement) == Outcome(Ok, BareStatement)
  {
    BareAnchors(s);
    WhereScanNone(None, s, 5);
    assert BareStatement.where + [] == BareStatement.where;
  }

  /** Whatever is registered, the query is accepted with neither an event type nor a projection entry. */
  lemma BareExample(reg: map<string, Schema>, s: seq<Entry>)
    requires BareShape(s)
    ensures WellFormed(s)
    ensures ParseSpec(reg, s) == Accepted(Snapshot(None, [], Some(LENGTH), Some(1), None, []))
  {
    BareEventType(reg, s);
    BareFunctions(s);
    BareWindow(s);
    BareWhere(s);
  }

  // `select Value, count(*), avg(Value), sum(Value) from MyEvent...`: several aggregates, in order.

  /** The raw tokens of `select Value, count(*), avg(Value), sum(Value) from`. */
  predicate AggregatesShape(s: seq<Entry>) {
    |s| > 22 &&
    s[0].0 == SELECT && s[1].0 == WHITESPACE && s[2].0 == IDENTIFIER && s[3].0 == COMMA && s[4].0 == WHITESPACE &&
    s[5].0 == COUNT && s[6].0 == LPAREN && s[7].0 == ASTERISK && s[8].0 == RPAREN && s[9].0 == COMMA &&
    s[10].0 == WHITESPACE && s[11].0 == AVG && s[12].0 == LPAREN && s[13] == (IDENTIFIER, "Value") &&
    s[14].0 == RPAREN && s[15].0 == COMMA && s[16].0 == WHITESPACE && s[17].0 == SUM && s[18].0 == LPAREN &&
    s[19] == (IDENTIFIER, "Value") && s[20].0 == RPAREN && s[21].0 == WHITESPACE && s[22].0 == FROM
  }

  /** The projection `Parse` builds for the aggregate query, with `MyEvent` set. */
  const AggregatesStatement: Snapshot := St1.(functions := [
    Count("count(*)"), SelectAll, Aggregate(Avg, Int, "Value", "avg(Value)"), Aggregate(Sum, Int, "Value", "sum(Value)")])

  /**
    A bare field name in the projection adds nothing; `count(*)`, then
    `avg(Value)` and `sum(Value)` over the integer field add their entries in
    query order, each named by its keyword.
   */
  lemma AggregatesProjection(s: seq<Entry>)
    requires WellFormed(s) && AggregatesShape(s)
    ensures FunctionScan(s, 0, St1) == Outcome(Ok, AggregatesStatement)
  {
    var c := St1.(functions := [Count("count(*)"), SelectAll]);
    var a := c.(functions := c.functions + [Aggregate(Avg, Int, "Value", "avg(Value)")]);
    var b := a.(functions := a.functions + [Aggregate(Sum, Int, "Value", "sum(Value)")]);
    AggregatesSkips(s);
    FunctionScanSkipTo(s, 0, 5, St1);
    CountStar(s, 5, St1);
    assert St1.functions + [Count("count(*)"), SelectAll] == c.functions;
    FunctionScanSkipTo(s, 9, 11, c);
    AggregateAt(s, 11, c);
    AvgSumColumns();
    FunctionScanSkipTo(s, 14, 17, a);
    AggregateAt(s, 17, a);
    FunctionScanSkipTo(s, 20, 22, b);
    assert b == AggregatesStatement;
  }

  /** The tokens between the entries of the aggregate query add none. */
  lemma AggregatesSkips(s: seq<Entry>)
    requires AggregatesShape(s)
    ensures forall k :: 0 <= k < 5 ==> Ignored(s[k].0)
    ensures forall k :: 9 <= k < 11 ==> Ignored(s[k].0)
    ensures forall k :: 14 <= k < 17 ==> Ignored(s[k].0)
    ensures forall k :: 20 <= k < 22 ==> Ignored(s[k].0)
  {
    forall k | 0 <= k < 22 && !(5 <= k < 9) && !(11 <= k < 14) && !(17 <= k < 20)
      ensures Ignored(s[k].0)
    {
      assert k in {0, 1, 2, 3, 4, 9, 10, 14, 15, 16, 20, 21};
    }
  }

  /** `avg(Value)` and `sum(Value)` over the integer field `Value` of `MyEvent`. */
  lemma AvgSumColumns()
    ensures Aggregates(Avg, Some(MyEvent), "Value") == [Aggregate(Avg, Int, "Value", "avg(Value)")]
    ensures Aggregates(Sum, Some(MyEvent), "Value") == [Aggregate(Sum, Int, "Value", "sum(Value)")]
  {
    assert Column(Avg, "Value") == "avg(Value)";
    assert Column(Sum, "Value") == "sum(Value)";
  }

  /** The raw table of the aggregate lexer test has that shape. */
  lemma TokenizeTableShape()
    ensures WellFormed(LexerTest.TokenizeTable + [LexerTest.EofEntry])
    ensures AggregatesShape(LexerTest.TokenizeTable + [LexerTest.EofEntry])
  {
    var s := LexerTest.TokenizeTable + [LexerTest.EofEntry];
    LexerTest.AggregatesLexes();
    LexerTest.LexedStream(LexerTest.QueryAggregates, LexerTest.TokenizeTable);
    var left, right := LexerTest.ValueSelect + LexerTest.CountList + LexerTest.AvgSumList, LexerTest.MyEventFrom;
    TableLeft(left);
    assert |left| == 22 && s[22] == right[0];
    assert forall k | 0 <= k < 22 :: s[k] == left[k];
  }

  /** The projection half of the raw table, entry by entry. */
  lemma TableLeft(left: seq<Entry>)
    requires left == LexerTest.ValueSelect + LexerTest.CountList + LexerTest.AvgSumList
    ensures |left| == 22
    ensures left[0].0 == SELECT && left[1].0 == WHITESPACE && left[2].0 == IDENTIFIER && left[3].0 == COMMA
    ensures left[4].0 == WHITESPACE && left[5].0 == COUNT && left[6].0 == LPAREN && left[7].0 == ASTERISK
    ensures left[8].0 == RPAREN && left[9].0 == COMMA && left[10].0 == WHITESPACE && left[11].0 == AVG
    ensures left[12].0 == LPAREN && left[13] == (IDENTIFIER, "Value") && left[14].0 == RPAREN && left[15].0 == COMMA
    ensures left[16].0 == WHITESPACE && left[17].0 == SUM && left[18].0 == LPAREN && left[19] == (IDENTIFIER, "Value")
    ensures left[20].0 == RPAREN && left[21].0 == WHITESPACE
  {
  }

  /** The projection of the aggregate lexer test's query. */
  lemma AggregatesQueryProjection()
    ensures var s := LexerTest.TokenizeTable + [LexerTest.EofEntry];
      WellFormed(s) && FunctionScan(s, 0, St1) == Outcome(Ok, AggregatesStatement)
  {
    TokenizeTableShape();
    AggregatesProjection(LexerTest.TokenizeTable + [LexerTest.EofEntry]);
  }

  // `... where Level > 2.5` on a float field: the value and the fraction are joined.

  /** `LogEvent` with one float field `Level`. */
  const LogEventFloat: Schema := Schema({}, {"Level"})

  /** The tokens of `time(10 sec) where Level > 2.5` after the first `.`, then EOF. */
  predicate FloatWhereShape(s: seq<Entry>) {
    |s| == 28 &&
    s[11].0 == TIME && s[12].0 == LPAREN && s[13].0 == IDENTIFIER && s[14].0 == WHITESPACE && s[15].0 == SEC &&
    s[16].0 == RPAREN && s[17].0 == WHITESPACE && s[18].0 == WHERE && s[19].0 == WHITESPACE &&
    s[20] == (IDENTIFIER, "Level") && s[21].0 == WHITESPACE && s[22].0 == LARGER && s[23].0 == WHITESPACE &&
    s[24] == (IDENTIFIER, "2") && s[25].0 == DOT && s[26] == (IDENTIFIER, "5") && s[27].0 == EOF
  }

  /** The predicate `Level > 2.5` on a float field, read after its `where`. */
  lemma FloatPredicateAt(s: seq<Entry>)
    requires WellFormed(s) && FloatWhereShape(s)
    ensures Predicate(Some(LogEventFloat), s, 19) == Reading(Ok, [FloatComparison(Larger, "Level", "2.5")], 27)
  {
    SeekFirst(s, 19, Identifier, 20);
    SeekFirst(s, 21, IgnoreIdentifier, 22);
    SeekFirst(s, 23, Identifier, 24);
    SeekFirst(s, 25, Identifier, 26);
    assert ReadOperands(s, 19) == Operands("Level", LARGER, "2", 25);
    FloatPredicate(Some(LogEventFloat), s, 19);
    assert Unsigned("2") == "2" && DecimalFloat("2", "5");
    assert "2" + "." + "5" == "2.5";
  }

  /** From the first `.`, the scan skips to the `where` and reads the one predicate. */
  lemma FloatScan(et: Option<Schema>, s: seq<Entry>)
    requires WellFormed(s) && FloatWhereShape(s) && et == Some(LogEventFloat)
    ensures WhereScan(et, s, 11) == (Ok, [FloatComparison(Larger, "Level", "2.5")])
  {
    forall k | 11 <= k < 18
      ensures s[k].0 != EOF && !Opens(s[k].0)
    {
      assert k == 11 || k == 12 || k == 13 || k == 14 || k == 15 || k == 16 || k == 17;
    }
    WhereScanSkipTo(et, s, 11, 18);
    FloatPredicateAt(s);
    var entries := [FloatComparison(Larger, "Level", "2.5")];
    WhereScanOpens(et, s, 18, [], Reading(Ok, entries, 27));
    assert WhereScan(et, s, 27) == (Ok, []);
    assert [] + entries == entries && entries + [] == entries;
  }

  /**
    With `Level` a float field, `where Level > 2.5` is one float comparison
    whose text joins the digit runs on either side of the `.`.
   */
  lemma FloatWhere(s: seq<Entry>, st: Snapshot)
    requires WellFormed(s) && FloatWhereShape(s) && PastAnchor(s, 0, DOT) == Some(11)
    requires st.eventType == Some(LogEventFloat)
    ensures WherePass(s, 0, st) == Outcome(Ok, st.(where := st.where + [FloatComparison(Larger, "Level", "2.5")]))
  {
    FloatScan(st.eventType, s);
  }

  /** The raw stream of the float lexer test has that shape, and its first `.` ends `LogEvent`. */
  lemma FloatTokensShape()
    ensures var s := LexerTest.FloatTokens + [LexerTest.EofEntry];
      WellFormed(s) && FloatWhereShape(s) && PastAnchor(s, 0, DOT) == Some(11)
  {
    var s := LexerTest.FloatTokens + [LexerTest.EofEntry];
    LexerTest.FloatLexes();
    LexerTest.LexedStream(LexerTest.QueryFloat, LexerTest.FloatTokens);
    var left := LexerTest.CountSelect + LexerTest.LogEventFrom;
    var right := LexerTest.TenSecWindow + LexerTest.LevelAbove2Point5;
    FloatLeft(left);
    FloatRight(right);
    assert forall k | 0 <= k < 11 :: s[k] == left[k];
    assert forall k | 11 <= k < 27 :: s[k] == right[k - 11];
    assert s[27] == LexerTest.EofEntry;
    SeekFirst(s, 0, Until(DOT), 10);
  }

  /** `select count(*) from LogEvent.`, entry by entry. */
  lemma FloatLeft(left: seq<Entry>)
    requires left == LexerTest.CountSelect + LexerTest.LogEventFrom
    ensures |left| == 11 && left[10].0 == DOT
    ensures forall k :: 0 <= k < 10 ==> left[k].0 != DOT
  {
    forall k | 0 <= k < 10
      ensures left[k].0 != DOT
    {
      assert k in {0, 1, 2, 3, 4, 5, 6, 7, 8, 9};
    }
  }

  /** `time(10 sec) where Level > 2.5`, entry by entry. */
  lemma FloatRight(right: seq<Entry>)
    requires right == LexerTest.TenSecWindow + LexerTest.LevelAbove2Point5
    ensures |right| == 16
    ensures right[0].0 == TIME && right[1].0 == LPAREN && right[2].0 == IDENTIFIER && right[3].0 == WHITESPACE
    ensures right[4].0 == SEC && right[5].0 == RPAREN && right[6].0 == WHITESPACE && right[7].0 == WHERE
    ensures right[8].0 == WHITESPACE && right[9] == (IDENTIFIER, "Level") && right[10].0 == WHITESPACE
    ensures right[11].0 == LARGER && right[12].0 == WHITESPACE && right[13] == (IDENTIFIER, "2")
    ensures right[14].0 == DOT && right[15] == (IDENTIFIER, "5")
  {
  }

  /** The float lexer test's query, with `Level` a float field, has the one comparison `Level > 2.5`. */
  lemma FloatQueryWhere(st: Snapshot)
    requires st.eventType == Some(LogEventFloat)
    ensures var s := LexerTest.FloatTokens + [LexerTest.EofEntry];
      WellFormed(s) && WherePass(s, 0, st) == Outcome(Ok, st.(where := st.where + [FloatComparison(Larger, "Level", "2.5")]))
  {
    FloatTokensShape();
    FloatWhere(LexerTest.FloatTokens + [LexerTest.EofEntry], st);
  }
}
