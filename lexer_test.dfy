/**
  The lexer's contract as its tests fix it: for each test query, the
  (token, literal) pairs that successive `Tokenize` or
  `TokenizeIgnoreWhiteSpace` calls must return.

  Only one test lists the raw stream with its whitespace. For the other three
  queries the raw stream is written out here: it spells the query exactly, it
  obeys the classification rules, and its whitespace-free view is the test's
  table.
 */
module LexerTest {
  import opened Wrappers
  import opened Lexer
  import opened Numbers

  /** The literal of EOF is not fixed by the tests; the empty string is used. */
  const EofEntry: Entry := (EOF, "")

  /** The one-character tokens. */
  function PunctuationOf(c: char): Option<Token> {
    match c
    case '(' => Some(LPAREN)
    case ')' => Some(RPAREN)
    case ',' => Some(COMMA)
    case '.' => Some(DOT)
    case '>' => Some(LARGER)
    case '<' => Some(LESS)
    case '*' => Some(ASTERISK)
    case _ => None
  }

  predicate IsLetter(c: char) { 'a' <= c <= 'z' || 'A' <= c <= 'Z' }

  /** A non-empty run of letters: a name or a keyword. */
  predicate LetterRun(lit: string) {
    |lit| > 0 && forall i :: 0 <= i < |lit| ==> IsLetter(lit[i])
  }

  /** A non-empty run of digits: a number. */
  predicate DigitRun(lit: string) {
    |lit| > 0 && forall i :: 0 <= i < |lit| ==> IsDigit(lit[i])
  }

  /** A letter run or a digit run: the literals of names and numbers. */
  predicate IsWord(lit: string) {
    LetterRun(lit) || DigitRun(lit)
  }

  /**
    Whether `x` may be directly followed by `y`: a run of spaces, of letters
    or of digits is one token, so no token boundary falls inside one.
   */
  predicate Separated(x: Entry, y: Entry) {
    !(x.0 == WHITESPACE && y.0 == WHITESPACE) &&
    (|x.1| > 0 && |y.1| > 0 ==>
      var c, d := x.1[|x.1| - 1], y.1[0];
      !(IsLetter(c) && IsLetter(d)) && !(IsDigit(c) && IsDigit(d)))
  }

  /** Whether stream `b` may directly follow stream `a`. */
  predicate Joinable(a: seq<Entry>, b: seq<Entry>) {
    a != [] && b != [] ==> Separated(a[|a| - 1], b[0])
  }

  /** Whether `lit` is classified as `t`. */
  predicate Classified(t: Token, lit: string) {
    match t
    case EOF => false
    case WHITESPACE => |lit| > 0 && forall i :: 0 <= i < |lit| ==> lit[i] == ' '
    case IDENTIFIER => IsWord(lit) && KeywordOf(lit).None?
    case _ => KeywordOf(lit) == Some(t) || (|lit| == 1 && PunctuationOf(lit[0]) == Some(t))
  }

  /** The concatenation of the literals. */
  function Literals(s: seq<Entry>): string {
    if s == [] then "" else s[0].1 + Literals(s[1..])
  }

  /**
    `raw`, the tokens before EOF, is a raw token stream for query text `q`:
    its literals spell `q` exactly, each literal has its token's
    classification, and each run of spaces, of letters or of digits is a
    single token.
   */
  predicate Lexes(q: string, raw: seq<Entry>) {
    Literals(raw) == q &&
    (forall i :: 0 <= i < |raw| ==> Classified(raw[i].0, raw[i].1)) &&
    (forall i :: 0 < i < |raw| ==> Separated(raw[i - 1], raw[i]))
  }

  lemma {:induction false} LiteralsAppend(a: seq<Entry>, b: seq<Entry>)
    ensures Literals(a + b) == Literals(a) + Literals(b)
  {
    if a == [] {
      assert a + b == b;
    } else {
      assert (a + b)[1..] == a[1..] + b;
      LiteralsAppend(a[1..], b);
      assert Literals(a + b) == a[0].1 + Literals(a[1..] + b);
    }
  }

  lemma {:induction false} VisibleAppend(a: seq<Entry>, b: seq<Entry>, m: Mode)
    ensures Visible(a + b, m) == Visible(a, m) + Visible(b, m)
  {
    if a == [] {
      assert a + b == b;
    } else {
      var x, r := a[0], a[1..];
      assert a == [x] + r && a + b == [x] + (r + b);
      VisibleCons(x, r, m);
      VisibleCons(x, r + b, m);
      VisibleAppend(r, b, m);
      AppendAssoc(if Stops(m, x.0) then [x] else [], Visible(r, m), Visible(b, m));
    }
  }

  lemma AppendAssoc(a: seq<Entry>, b: seq<Entry>, c: seq<Entry>)
    ensures a + (b + c) == (a + b) + c
  {
  }

  /** The first entry's contribution to the view, then the rest's. */
  lemma VisibleCons(x: Entry, r: seq<Entry>, m: Mode)
    ensures Visible([x] + r, m) == (if Stops(m, x.0) then [x] else []) + Visible(r, m)
  {
    assert ([x] + r)[1..] == r;
  }

  /** Two adjacent pieces of query text lex as the concatenation of their streams. */
  lemma LexesAppend(qa: string, a: seq<Entry>, qb: string, b: seq<Entry>)
    requires Lexes(qa, a) && Lexes(qb, b)
    requires Joinable(a, b)
    ensures Lexes(qa + qb, a + b)
  {
    LiteralsAppend(a, b);
    forall i | 0 < i < |a + b|
      ensures Separated((a + b)[i - 1], (a + b)[i])
    {
      if i < |a| {
        assert (a + b)[i - 1] == a[i - 1] && (a + b)[i] == a[i];
      } else if i == |a| {
        assert (a + b)[i - 1] == a[|a| - 1] && (a + b)[i] == b[0];
      } else {
        assert (a + b)[i - 1] == b[i - 1 - |a|] && (a + b)[i] == b[i - |a|];
      }
    }
  }

  /** A lexed query followed by EOF is a stream a lexer can run over. */
  lemma LexedStream(q: string, raw: seq<Entry>)
    requires Lexes(q, raw)
    ensures WellFormed(raw + [EofEntry])
  {
  }

  // Pieces of the test queries, as the lexer splits them.

  /** `select count(*) ` */
  const CountSelect: seq<Entry> := [
    (SELECT, "select"), (WHITESPACE, " "), (COUNT, "count"), (LPAREN, "("), (ASTERISK, "*"),
    (RPAREN, ")"), (WHITESPACE, " ")]

  /** `select min(Level) ` */
  const MinSelect: seq<Entry> := [
    (SELECT, "select"), (WHITESPACE, " "), (MIN, "min"), (LPAREN, "("), (IDENTIFIER, "Level"),
    (RPAREN, ")"), (WHITESPACE, " ")]

  /** `select Value, ` */
  const ValueSelect: seq<Entry> := [
    (SELECT, "select"), (WHITESPACE, " "), (IDENTIFIER, "Value"), (COMMA, ","), (WHITESPACE, " ")]

  /** `count(*), ` */
  const CountList: seq<Entry> := [
    (COUNT, "count"), (LPAREN, "("), (ASTERISK, "*"), (RPAREN, ")"), (COMMA, ","), (WHITESPACE, " ")]

  /** `avg(Value), ` */
  const AvgList: seq<Entry> := [
    (AVG, "avg"), (LPAREN, "("), (IDENTIFIER, "Value"), (RPAREN, ")"), (COMMA, ","), (WHITESPACE, " ")]

  /** `sum(Value) ` */
  const SumList: seq<Entry> := [(SUM, "sum"), (LPAREN, "("), (IDENTIFIER, "Value"), (RPAREN, ")"), (WHITESPACE, " ")]

  /** `avg(Value), sum(Value) ` */
  const AvgSumList: seq<Entry> := AvgList + SumList

  /** `from LogEvent.` */
  const LogEventFrom: seq<Entry> := [(FROM, "from"), (WHITESPACE, " "), (IDENTIFIER, "LogEvent"), (DOT, ".")]

  /** `from MyEvent.` */
  const MyEventFrom: seq<Entry> := [(FROM, "from"), (WHITESPACE, " "), (IDENTIFIER, "MyEvent"), (DOT, ".")]

  /** `time(10 sec)` */
  const TenSecWindow: seq<Entry> := [
    (TIME, "time"), (LPAREN, "("), (IDENTIFIER, "10"), (WHITESPACE, " "), (SEC, "sec"), (RPAREN, ")")]

  /** ` where Level > 2` */
  const LevelAbove2: seq<Entry> := [
    (WHITESPACE, " "), (WHERE, "where"), (WHITESPACE, " "), (IDENTIFIER, "Level"), (WHITESPACE, " "),
    (LARGER, ">"), (WHITESPACE, " "), (IDENTIFIER, "2")]

  /** `.5` */
  const PointFive: seq<Entry> := [(DOT, "."), (IDENTIFIER, "5")]

  /** ` where Level > 2.5`: the float is a digit run, a dot and a digit run. */
  const LevelAbove2Point5: seq<Entry> := LevelAbove2 + PointFive

  /** ` where Value > 97` */
  const ValueAbove97: seq<Entry> := [
    (WHITESPACE, " "), (WHERE, "where"), (WHITESPACE, " "), (IDENTIFIER, "Value"), (WHITESPACE, " "),
    (LARGER, ">"), (WHITESPACE, " "), (IDENTIFIER, "97")]

  // The test queries, written as the pieces their streams are built from.

  /** `select min(Level) from LogEvent.time(10 sec) where Level > 2` */
  const QueryMin := ("select min(Level) " + "from LogEvent.") + ("time(10 sec)" + " where Level > 2")

  /** `select count(*) from LogEvent.time(10 sec) where Level > 2.5` */
  const QueryFloat := ("select count(*) " + "from LogEvent.") + ("time(10 sec)" + (" where Level > 2" + ".5"))

  /** `select Value, count(*), avg(Value), sum(Value) from MyEvent.time(10 sec) where Value > 97` */
  const QueryAggregates :=
    ("select Value, " + "count(*), " + ("avg(Value), " + "sum(Value) ")) + ("from MyEvent." + ("time(10 sec)" + " where Value > 97"))

  /** `select count(*) from LogEvent.time(10 sec) where Level > 2` */
  const QueryTimeWindow := ("select count(*) " + "from LogEvent.") + ("time(10 sec)" + " where Level > 2")

  /** The tokens `Tokenize` must return for `QueryAggregates`, whitespace included. */
  const TokenizeTable: seq<Entry> :=
    (ValueSelect + CountList + AvgSumList) + (MyEventFrom + (TenSecWindow + ValueAbove97))

  // The raw token streams of the other three queries.
  const MinTokens: seq<Entry> := (MinSelect + LogEventFrom) + (TenSecWindow + LevelAbove2)
  const FloatTokens: seq<Entry> := (CountSelect + LogEventFrom) + (TenSecWindow + LevelAbove2Point5)
  const TimeWindowTokens: seq<Entry> := (CountSelect + LogEventFrom) + (TenSecWindow + LevelAbove2)

  /** The tokens `TokenizeIgnoreWhiteSpace` must return for `QueryMin`. */
  const MinTable: seq<Entry> := [
    (SELECT, "select"), (MIN, "min"), (LPAREN, "("), (IDENTIFIER, "Level"), (RPAREN, ")"),
    (FROM, "from"), (IDENTIFIER, "LogEvent"), (DOT, "."), (TIME, "time"), (LPAREN, "("),
    (IDENTIFIER, "10"), (SEC, "sec"), (RPAREN, ")"), (WHERE, "where"), (IDENTIFIER, "Level"),
    (LARGER, ">"), (IDENTIFIER, "2")]

  /** The tokens `TokenizeIgnoreWhiteSpace` must return for `QueryFloat`: there is no float token. */
  const FloatTable: seq<Entry> := [
    (SELECT, "select"), (COUNT, "count"), (LPAREN, "("), (ASTERISK, "*"), (RPAREN, ")"),
    (FROM, "from"), (IDENTIFIER, "LogEvent"), (DOT, "."), (TIME, "time"), (LPAREN, "("),
    (IDENTIFIER, "10"), (SEC, "sec"), (RPAREN, ")"), (WHERE, "where"), (IDENTIFIER, "Level"),
    (LARGER, ">"), (IDENTIFIER, "2"), (DOT, "."), (IDENTIFIER, "5")]

  /** The tokens `TokenizeIgnoreWhiteSpace` must return for `QueryTimeWindow`. */
  const TimeWindowTable: seq<Entry> := [
    (SELECT, "select"), (COUNT, "count"), (LPAREN, "("), (ASTERISK, "*"), (RPAREN, ")"),
    (FROM, "from"), (IDENTIFIER, "LogEvent"), (DOT, "."), (TIME, "time"), (LPAREN, "("),
    (IDENTIFIER, "10"), (SEC, "sec"), (RPAREN, ")"), (WHERE, "where"), (IDENTIFIER, "Level"),
    (LARGER, ">"), (IDENTIFIER, "2")]

  /** The tokens `TokenizeIgnoreWhiteSpace` must return for `QueryAggregates`. */
  const IgnoreSpaceTable: seq<Entry> := [
    (SELECT, "select"), (IDENTIFIER, "Value"), (COMMA, ","), (COUNT, "count"), (LPAREN, "("),
    (ASTERISK, "*"), (RPAREN, ")"), (COMMA, ","), (AVG, "avg"), (LPAREN, "("), (IDENTIFIER, "Value"),
    (RPAREN, ")"), (COMMA, ","), (SUM, "sum"), (LPAREN, "("), (IDENTIFIER, "Value"), (RPAREN, ")"),
    (FROM, "from"), (IDENTIFIER, "MyEvent"), (DOT, "."), (TIME, "time"), (LPAREN, "("),
    (IDENTIFIER, "10"), (SEC, "sec"), (RPAREN, ")"), (WHERE, "where"), (IDENTIFIER, "Value"),
    (LARGER, ">"), (IDENTIFIER, "97")]

  // Each piece lexes from its text, and its whitespace-free view is what the
  // tables list for it. Each fact is evaluated in a lemma of its own.

  lemma CountSelectSpelled() ensures Literals(CountSelect) == "select count(*) " {}
  lemma CountSelectClassified()
    ensures forall i :: 0 <= i < |CountSelect| ==> Classified(CountSelect[i].0, CountSelect[i].1)
  {}
  lemma CountSelectBounds()
    ensures forall i :: 0 < i < |CountSelect| ==> Separated(CountSelect[i - 1], CountSelect[i])
  {}
  lemma CountSelectView()
    ensures Visible(CountSelect, IgnoreWhiteSpace) ==
      [(SELECT, "select"), (COUNT, "count"), (LPAREN, "("), (ASTERISK, "*"), (RPAREN, ")")]
  {}

  lemma MinSelectSpelled() ensures Literals(MinSelect) == "select min(Level) " {}
  lemma MinSelectClassified()
    ensures forall i :: 0 <= i < |MinSelect| ==> Classified(MinSelect[i].0, MinSelect[i].1)
  {}
  lemma MinSelectBounds()
    ensures forall i :: 0 < i < |MinSelect| ==> Separated(MinSelect[i - 1], MinSelect[i])
  {}
  lemma MinSelectView()
    ensures Visible(MinSelect, IgnoreWhiteSpace) ==
      [(SELECT, "select"), (MIN, "min"), (LPAREN, "("), (IDENTIFIER, "Level"), (RPAREN, ")")]
  {}

  lemma ValueSelectSpelled() ensures Literals(ValueSelect) == "select Value, " {}
  lemma ValueSelectClassified()
    ensures forall i :: 0 <= i < |ValueSelect| ==> Classified(ValueSelect[i].0, ValueSelect[i].1)
  {}
  lemma ValueSelectBounds()
    ensures forall i :: 0 < i < |ValueSelect| ==> Separated(ValueSelect[i - 1], ValueSelect[i])
  {}
  lemma ValueSelectView()
    ensures Visible(ValueSelect, IgnoreWhiteSpace) == [(SELECT, "select"), (IDENTIFIER, "Value"), (COMMA, ",")]
  {}

  lemma CountListSpelled() ensures Literals(CountList) == "count(*), " {}
  lemma CountListClassified()
    ensures forall i :: 0 <= i < |CountList| ==> Classified(CountList[i].0, CountList[i].1)
  {}
  lemma CountListBounds()
    ensures forall i :: 0 < i < |CountList| ==> Separated(CountList[i - 1], CountList[i])
  {}
  lemma CountListView()
    ensures Visible(CountList, IgnoreWhiteSpace) == [(COUNT, "count"), (LPAREN, "("), (ASTERISK, "*"), (RPAREN, ")"), (COMMA, ",")]
  {}

  lemma AvgListSpelled() ensures Literals(AvgList) == "avg(Value), " {}
  lemma AvgListClassified()
    ensures forall i :: 0 <= i < |AvgList| ==> Classified(AvgList[i].0, AvgList[i].1)
  {}
  lemma AvgListBounds()
    ensures forall i :: 0 < i < |AvgList| ==> Separated(AvgList[i - 1], AvgList[i])
  {}
  lemma AvgListView()
    ensures Visible(AvgList, IgnoreWhiteSpace) ==
      [(AVG, "avg"), (LPAREN, "("), (IDENTIFIER, "Value"), (RPAREN, ")"), (COMMA, ",")]
  {}

  lemma SumListSpelled() ensures Literals(SumList) == "sum(Value) " {}
  lemma SumListClassified()
    ensures forall i :: 0 <= i < |SumList| ==> Classified(SumList[i].0, SumList[i].1)
  {}
  lemma SumListBounds()
    ensures forall i :: 0 < i < |SumList| ==> Separated(SumList[i - 1], SumList[i])
  {}
  lemma SumListView()
    ensures Visible(SumList, IgnoreWhiteSpace) == [(SUM, "sum"), (LPAREN, "("), (IDENTIFIER, "Value"), (RPAREN, ")")]
  {}

  lemma AvgSumListView()
    ensures Visible(AvgSumList, IgnoreWhiteSpace) ==
      [(AVG, "avg"), (LPAREN, "("), (IDENTIFIER, "Value"), (RPAREN, ")"), (COMMA, ",")] +
      [(SUM, "sum"), (LPAREN, "("), (IDENTIFIER, "Value"), (RPAREN, ")")]
  {
    AvgListView();
    SumListView();
    VisibleAppend(AvgList, SumList, IgnoreWhiteSpace);
  }

  lemma LogEventFromSpelled() ensures Literals(LogEventFrom) == "from LogEvent." {}
  lemma LogEventFromClassified()
    ensures forall i :: 0 <= i < |LogEventFrom| ==> Classified(LogEventFrom[i].0, LogEventFrom[i].1)
  {}
  lemma LogEventFromBounds()
    ensures forall i :: 0 < i < |LogEventFrom| ==> Separated(LogEventFrom[i - 1], LogEventFrom[i])
  {}
  lemma LogEventFromView()
    ensures Visible(LogEventFrom, IgnoreWhiteSpace) ==
      [(FROM, "from"), (IDENTIFIER, "LogEvent"), (DOT, ".")]
  {}

  lemma MyEventFromSpelled() ensures Literals(MyEventFrom) == "from MyEvent." {}
  lemma MyEventFromClassified()
    ensures forall i :: 0 <= i < |MyEventFrom| ==> Classified(MyEventFrom[i].0, MyEventFrom[i].1)
  {}
  lemma MyEventFromBounds()
    ensures forall i :: 0 < i < |MyEventFrom| ==> Separated(MyEventFrom[i - 1], MyEventFrom[i])
  {}
  lemma MyEventFromView()
    ensures Visible(MyEventFrom, IgnoreWhiteSpace) ==
      [(FROM, "from"), (IDENTIFIER, "MyEvent"), (DOT, ".")]
  {}

  lemma TenSecWindowSpelled() ensures Literals(TenSecWindow) == "time(10 sec)" {}
  lemma TenSecWindowClassified()
    ensures forall i :: 0 <= i < |TenSecWindow| ==> Classified(TenSecWindow[i].0, TenSecWindow[i].1)
  {}
  lemma TenSecWindowBounds()
    ensures forall i :: 0 < i < |TenSecWindow| ==> Separated(TenSecWindow[i - 1], TenSecWindow[i])
  {}
  lemma TenSecWindowView()
    ensures Visible(TenSecWindow, IgnoreWhiteSpace) ==
      [(TIME, "time"), (LPAREN, "("), (IDENTIFIER, "10"), (SEC, "sec"), (RPAREN, ")")]
  {}

  lemma LevelAbove2Spelled() ensures Literals(LevelAbove2) == " where Level > 2" {}
  lemma LevelAbove2Classified()
    ensures forall i :: 0 <= i < |LevelAbove2| ==> Classified(LevelAbove2[i].0, LevelAbove2[i].1)
  {}
  lemma LevelAbove2Bounds()
    ensures forall i :: 0 < i < |LevelAbove2| ==> Separated(LevelAbove2[i - 1], LevelAbove2[i])
  {}
  lemma LevelAbove2View()
    ensures Visible(LevelAbove2, IgnoreWhiteSpace) ==
      [(WHERE, "where"), (IDENTIFIER, "Level"), (LARGER, ">"), (IDENTIFIER, "2")]
  {}

  lemma PointFiveSpelled() ensures Literals(PointFive) == ".5" {}
  lemma PointFiveClassified()
    ensures forall i :: 0 <= i < |PointFive| ==> Classified(PointFive[i].0, PointFive[i].1)
  {}
  lemma PointFiveBounds()
    ensures forall i :: 0 < i < |PointFive| ==> Separated(PointFive[i - 1], PointFive[i])
  {}
  lemma PointFiveView()
    ensures Visible(PointFive, IgnoreWhiteSpace) == [(DOT, "."), (IDENTIFIER, "5")]
  {}

  lemma LevelAbove2Point5View()
    ensures Visible(LevelAbove2Point5, IgnoreWhiteSpace) ==
      [(WHERE, "where"), (IDENTIFIER, "Level"), (LARGER, ">"), (IDENTIFIER, "2")] + [(DOT, "."), (IDENTIFIER, "5")]
  {
    LevelAbove2View();
    PointFiveView();
    VisibleAppend(LevelAbove2, PointFive, IgnoreWhiteSpace);
  }

  lemma ValueAbove97Spelled() ensures Literals(ValueAbove97) == " where Value > 97" {}
  lemma ValueAbove97Classified()
    ensures forall i :: 0 <= i < |ValueAbove97| ==> Classified(ValueAbove97[i].0, ValueAbove97[i].1)
  {}
  lemma ValueAbove97Bounds()
    ensures forall i :: 0 < i < |ValueAbove97| ==> Separated(ValueAbove97[i - 1], ValueAbove97[i])
  {}
  lemma ValueAbove97View()
    ensures Visible(ValueAbove97, IgnoreWhiteSpace) ==
      [(WHERE, "where"), (IDENTIFIER, "Value"), (LARGER, ">"), (IDENTIFIER, "97")]
  {}

  // Each piece lexes from its text.

  lemma CountSelectLexes()
    ensures Lexes("select count(*) ", CountSelect)
  {
    CountSelectSpelled();
    CountSelectClassified();
    CountSelectBounds();
  }

  lemma MinSelectLexes()
    ensures Lexes("select min(Level) ", MinSelect)
  {
    MinSelectSpelled();
    MinSelectClassified();
    MinSelectBounds();
  }

  lemma ValueSelectLexes()
    ensures Lexes("select Value, ", ValueSelect)
  {
    ValueSelectSpelled();
    ValueSelectClassified();
    ValueSelectBounds();
  }

  lemma CountListLexes()
    ensures Lexes("count(*), ", CountList)
  {
    CountListSpelled();
    CountListClassified();
    CountListBounds();
  }

  lemma AvgListLexes()
    ensures Lexes("avg(Value), ", AvgList)
  {
    AvgListSpelled();
    AvgListClassified();
    AvgListBounds();
  }

  lemma SumListLexes()
    ensures Lexes("sum(Value) ", SumList)
  {
    SumListSpelled();
    SumListClassified();
    SumListBounds();
  }

  lemma AvgSumListLexes()
    ensures Lexes("avg(Value), " + "sum(Value) ", AvgSumList)
  {
    AvgListLexes();
    SumListLexes();
    AvgSumListJoins();
    LexesAppend("avg(Value), ", AvgList, "sum(Value) ", SumList);
  }

  lemma LogEventFromLexes()
    ensures Lexes("from LogEvent.", LogEventFrom)
  {
    LogEventFromSpelled();
    LogEventFromClassified();
    LogEventFromBounds();
  }

  lemma MyEventFromLexes()
    ensures Lexes("from MyEvent.", MyEventFrom)
  {
    MyEventFromSpelled();
    MyEventFromClassified();
    MyEventFromBounds();
  }

  lemma TenSecWindowLexes()
    ensures Lexes("time(10 sec)", TenSecWindow)
  {
    TenSecWindowSpelled();
    TenSecWindowClassified();
    TenSecWindowBounds();
  }

  lemma LevelAbove2Lexes()
    ensures Lexes(" where Level > 2", LevelAbove2)
  {
    LevelAbove2Spelled();
    LevelAbove2Classified();
    LevelAbove2Bounds();
  }

  lemma PointFiveLexes()
    ensures Lexes(".5", PointFive)
  {
    PointFiveSpelled();
    PointFiveClassified();
    PointFiveBounds();
  }

  lemma LevelAbove2Point5Lexes()
    ensures Lexes(" where Level > 2" + ".5", LevelAbove2Point5)
  {
    LevelAbove2Lexes();
    PointFiveLexes();
    LevelAbove2Point5Joins();
    LexesAppend(" where Level > 2", LevelAbove2, ".5", PointFive);
  }

  lemma ValueAbove97Lexes()
    ensures Lexes(" where Value > 97", ValueAbove97)
  {
    ValueAbove97Spelled();
    ValueAbove97Classified();
    ValueAbove97Bounds();
  }

  // Where the pieces meet, no run of spaces, letters or digits is split.

  lemma AvgSumListJoins() ensures Joinable(AvgList, SumList) {}
  lemma LevelAbove2Point5Joins() ensures Joinable(LevelAbove2, PointFive) {}

  lemma MinJoins()
    ensures Joinable(MinSelect, LogEventFrom) && Joinable(TenSecWindow, LevelAbove2)
    ensures Joinable(MinSelect + LogEventFrom, TenSecWindow + LevelAbove2)
  {
    assert (MinSelect + LogEventFrom)[|MinSelect + LogEventFrom| - 1] == LogEventFrom[3];
    assert (TenSecWindow + LevelAbove2)[0] == TenSecWindow[0];
  }

  lemma FloatJoins()
    ensures Joinable(CountSelect, LogEventFrom) && Joinable(TenSecWindow, LevelAbove2Point5)
    ensures Joinable(CountSelect + LogEventFrom, TenSecWindow + LevelAbove2Point5)
  {
    assert (CountSelect + LogEventFrom)[|CountSelect + LogEventFrom| - 1] == LogEventFrom[3];
    assert (TenSecWindow + LevelAbove2Point5)[0] == TenSecWindow[0];
    assert LevelAbove2Point5[0] == LevelAbove2[0];
  }

  lemma TimeWindowJoins()
    ensures Joinable(CountSelect, LogEventFrom) && Joinable(TenSecWindow, LevelAbove2)
    ensures Joinable(CountSelect + LogEventFrom, TenSecWindow + LevelAbove2)
  {
    assert (CountSelect + LogEventFrom)[|CountSelect + LogEventFrom| - 1] == LogEventFrom[3];
    assert (TenSecWindow + LevelAbove2)[0] == TenSecWindow[0];
  }

  lemma AggregatesJoins()
    ensures Joinable(ValueSelect, CountList) && Joinable(ValueSelect + CountList, AvgSumList)
    ensures Joinable(TenSecWindow, ValueAbove97) && Joinable(MyEventFrom, TenSecWindow + ValueAbove97)
    ensures Joinable(ValueSelect + CountList + AvgSumList, MyEventFrom + (TenSecWindow + ValueAbove97))
  {
    assert (ValueSelect + CountList)[|ValueSelect + CountList| - 1] == CountList[5];
    assert AvgSumList[0] == AvgList[0];
    assert (TenSecWindow + ValueAbove97)[0] == TenSecWindow[0];
    var left := ValueSelect + CountList + AvgSumList;
    assert left[|left| - 1] == SumList[4];
    assert (MyEventFrom + (TenSecWindow + ValueAbove97))[0] == MyEventFrom[0];
  }

  // The test queries are spelled by their streams.

  /** The raw stream of `QueryMin` lexes from it. */
  lemma MinLexes()
    ensures Lexes(QueryMin, MinTokens)
  {
    MinJoins();
    MinSelectLexes();
    LogEventFromLexes();
    TenSecWindowLexes();
    LevelAbove2Lexes();
    LexesAppend("select min(Level) ", MinSelect, "from LogEvent.", LogEventFrom);
    LexesAppend("time(10 sec)", TenSecWindow, " where Level > 2", LevelAbove2);
    LexesAppend("select min(Level) " + "from LogEvent.", MinSelect + LogEventFrom,
      "time(10 sec)" + " where Level > 2", TenSecWindow + LevelAbove2);
  }

  /** The raw stream of `QueryFloat` lexes from it. */
  lemma FloatLexes()
    ensures Lexes(QueryFloat, FloatTokens)
  {
    FloatJoins();
    CountSelectLexes();
    LogEventFromLexes();
    TenSecWindowLexes();
    LevelAbove2Point5Lexes();
    LexesAppend("select count(*) ", CountSelect, "from LogEvent.", LogEventFrom);
    LexesAppend("time(10 sec)", TenSecWindow, " where Level > 2" + ".5", LevelAbove2Point5);
    LexesAppend("select count(*) " + "from LogEvent.", CountSelect + LogEventFrom,
      "time(10 sec)" + (" where Level > 2" + ".5"), TenSecWindow + LevelAbove2Point5);
  }

  /** The raw stream of `QueryTimeWindow` lexes from it. */
  lemma TimeWindowLexes()
    ensures Lexes(QueryTimeWindow, TimeWindowTokens)
  {
    TimeWindowJoins();
    CountSelectLexes();
    LogEventFromLexes();
    TenSecWindowLexes();
    LevelAbove2Lexes();
    LexesAppend("select count(*) ", CountSelect, "from LogEvent.", LogEventFrom);
    LexesAppend("time(10 sec)", TenSecWindow, " where Level > 2", LevelAbove2);
    LexesAppend("select count(*) " + "from LogEvent.", CountSelect + LogEventFrom,
      "time(10 sec)" + " where Level > 2", TenSecWindow + LevelAbove2);
  }

  /** The whitespace-including table of `QueryAggregates` lexes from it. */
  lemma AggregatesLexes()
    ensures Lexes(QueryAggregates, TokenizeTable)
  {
    AggregatesJoins();
    ValueSelectLexes();
    CountListLexes();
    AvgSumListLexes();
    MyEventFromLexes();
    TenSecWindowLexes();
    ValueAbove97Lexes();
    LexesAppend("select Value, ", ValueSelect, "count(*), ", CountList);
    LexesAppend("select Value, " + "count(*), ", ValueSelect + CountList, ("avg(Value), " + "sum(Value) "), AvgSumList);
    LexesAppend("time(10 sec)", TenSecWindow, " where Value > 97", ValueAbove97);
    LexesAppend("from MyEvent.", MyEventFrom, "time(10 sec)" + " where Value > 97", TenSecWindow + ValueAbove97);
    LexesAppend("select Value, " + "count(*), " + ("avg(Value), " + "sum(Value) "), ValueSelect + CountList + AvgSumList,
      "from MyEvent." + ("time(10 sec)" + " where Value > 97"), MyEventFrom + (TenSecWindow + ValueAbove97));
  }

  // What the whitespace-skipping traversal sees of each stream.

  lemma EofView(m: Mode)
    ensures Visible([EofEntry], m) == [EofEntry]
  {
    assert [EofEntry][1..] == [];
  }

  /** The filtered view of a stream of two halves of two pieces each, followed by EOF. */
  lemma {:induction false} ViewOfQuarters(a: seq<Entry>, b: seq<Entry>, c: seq<Entry>, d: seq<Entry>, m: Mode)
    ensures Visible((a + b) + (c + d) + [EofEntry], m) ==
      (Visible(a, m) + Visible(b, m)) + (Visible(c, m) + Visible(d, m)) + [EofEntry]
  {
    VisibleAppend(a, b, m);
    VisibleAppend(c, d, m);
    VisibleAppend(a + b, c + d, m);
    VisibleAppend((a + b) + (c + d), [EofEntry], m);
    EofView(m);
  }

  lemma MinTableSplit()
    ensures MinTable ==
      ([(SELECT, "select"), (MIN, "min"), (LPAREN, "("), (IDENTIFIER, "Level"), (RPAREN, ")")] +
       [(FROM, "from"), (IDENTIFIER, "LogEvent"), (DOT, ".")]) +
      ([(TIME, "time"), (LPAREN, "("), (IDENTIFIER, "10"), (SEC, "sec"), (RPAREN, ")")] +
       [(WHERE, "where"), (IDENTIFIER, "Level"), (LARGER, ">"), (IDENTIFIER, "2")])
  {}

  lemma MinView()
    ensures Visible(MinTokens + [EofEntry], IgnoreWhiteSpace) == MinTable + [EofEntry]
  {
    MinSelectView();
    LogEventFromView();
    TenSecWindowView();
    LevelAbove2View();
    ViewOfQuarters(MinSelect, LogEventFrom, TenSecWindow, LevelAbove2, IgnoreWhiteSpace);
    MinTableSplit();
  }

  lemma FloatTableSplit()
    ensures FloatTable ==
      ([(SELECT, "select"), (COUNT, "count"), (LPAREN, "("), (ASTERISK, "*"), (RPAREN, ")")] +
       [(FROM, "from"), (IDENTIFIER, "LogEvent"), (DOT, ".")]) +
      ([(TIME, "time"), (LPAREN, "("), (IDENTIFIER, "10"), (SEC, "sec"), (RPAREN, ")")] +
       ([(WHERE, "where"), (IDENTIFIER, "Level"), (LARGER, ">"), (IDENTIFIER, "2")] + [(DOT, "."), (IDENTIFIER, "5")]))
  {}

  lemma FloatView()
    ensures Visible(FloatTokens + [EofEntry], IgnoreWhiteSpace) == FloatTable + [EofEntry]
  {
    CountSelectView();
    LogEventFromView();
    TenSecWindowView();
    LevelAbove2Point5View();
    ViewOfQuarters(CountSelect, LogEventFrom, TenSecWindow, LevelAbove2Point5, IgnoreWhiteSpace);
    FloatTableSplit();
  }

  lemma TimeWindowTableSplit()
    ensures TimeWindowTable ==
      ([(SELECT, "select"), (COUNT, "count"), (LPAREN, "("), (ASTERISK, "*"), (RPAREN, ")")] +
       [(FROM, "from"), (IDENTIFIER, "LogEvent"), (DOT, ".")]) +
      ([(TIME, "time"), (LPAREN, "("), (IDENTIFIER, "10"), (SEC, "sec"), (RPAREN, ")")] +
       [(WHERE, "where"), (IDENTIFIER, "Level"), (LARGER, ">"), (IDENTIFIER, "2")])
  {}

  lemma TimeWindowView()
    ensures Visible(TimeWindowTokens + [EofEntry], IgnoreWhiteSpace) == TimeWindowTable + [EofEntry]
  {
    CountSelectView();
    LogEventFromView();
    TenSecWindowView();
    LevelAbove2View();
    ViewOfQuarters(CountSelect, LogEventFrom, TenSecWindow, LevelAbove2, IgnoreWhiteSpace);
    TimeWindowTableSplit();
  }

  lemma IgnoreSpaceTableSplit()
    ensures IgnoreSpaceTable ==
      ([(SELECT, "select"), (IDENTIFIER, "Value"), (COMMA, ",")] +
       [(COUNT, "count"), (LPAREN, "("), (ASTERISK, "*"), (RPAREN, ")"), (COMMA, ",")] +
       ([(AVG, "avg"), (LPAREN, "("), (IDENTIFIER, "Value"), (RPAREN, ")"), (COMMA, ",")] +
        [(SUM, "sum"), (LPAREN, "("), (IDENTIFIER, "Value"), (RPAREN, ")")])) +
      ([(FROM, "from"), (IDENTIFIER, "MyEvent"), (DOT, ".")] +
       ([(TIME, "time"), (LPAREN, "("), (IDENTIFIER, "10"), (SEC, "sec"), (RPAREN, ")")] +
        [(WHERE, "where"), (IDENTIFIER, "Value"), (LARGER, ">"), (IDENTIFIER, "97")]))
  {}

  /** The whitespace-free view of the raw table of `QueryAggregates` is its whitespace-skipping table. */
  lemma AggregatesView()
    ensures Visible(TokenizeTable + [EofEntry], IgnoreWhiteSpace) == IgnoreSpaceTable + [EofEntry]
  {
    var m := IgnoreWhiteSpace;
    ValueSelectView();
    CountListView();
    AvgSumListView();
    MyEventFromView();
    TenSecWindowView();
    ValueAbove97View();
    VisibleAppend(ValueSelect, CountList, m);
    VisibleAppend(ValueSelect + CountList, AvgSumList, m);
    VisibleAppend(TenSecWindow, ValueAbove97, m);
    VisibleAppend(MyEventFrom, TenSecWindow + ValueAbove97, m);
    VisibleAppend(ValueSelect + CountList + AvgSumList, MyEventFrom + (TenSecWindow + ValueAbove97), m);
    VisibleAppend(TokenizeTable, [EofEntry], m);
    EofView(m);
    IgnoreSpaceTableSplit();
  }

  /**
    When a lexed stream's view in mode `m` is `table` followed by EOF, a fresh
    lexer's first `|table|` traversals in that mode return `table`.
   */
  lemma TableFromView(q: string, raw: seq<Entry>, table: seq<Entry>, m: Mode)
    requires Lexes(q, raw) && Visible(raw + [EofEntry], m) == table + [EofEntry]
    ensures WellFormed(raw + [EofEntry])
    ensures Calls(raw + [EofEntry], 0, m, |table|) == table
  {
    var s := raw + [EofEntry];
    LexedStream(q, raw);
    assert s[0..] == s;
    CallsAreVisible(s, 0, m, |table|);
    assert (table + [EofEntry])[..|table|] == table;
  }

  /**
    The test loop: one traversal in mode `m` per row of `table`, comparing
    each returned pair with the row. It succeeds exactly when the lexer
    returns the table.
   */
  method Expect(l: Lexer, m: Mode, table: seq<Entry>) returns (ok: bool)
    requires l.Valid() && (m == Raw || m == IgnoreWhiteSpace)
    modifies l
    ensures l.Valid()
    ensures ok <==> Calls(l.stream, old(l.pos), m, |table|) == table
    ensures l.pos == After(l.stream, old(l.pos), m, |table|)
  {
    ghost var p := l.pos;
    ok := true;
    var k := 0;
    while k < |table|
      invariant 0 <= k <= |table|
      invariant l.Valid()
      invariant l.pos == After(l.stream, p, m, k)
      invariant ok <==> Calls(l.stream, p, m, k) == table[..k]
    {
      CallsSnoc(l.stream, p, m, k);
      var token, literal;
      if m == Raw {
        token, literal := l.Tokenize();
      } else {
        token, literal := l.TokenizeIgnoreWhiteSpace();
      }
      assert table[..k + 1] == table[..k] + [table[k]];
      ok := ok && (token, literal) == table[k];
      k := k + 1;
    }
    assert table[..k] == table;
  }

  /** `TestLexerTokenizeMin`: whitespace-skipping calls on `QueryMin`. */
  method TestLexerTokenizeMin() returns (ok: bool)
    ensures ok
  {
    MinLexes();
    MinView();
    TableFromView(QueryMin, MinTokens, MinTable, IgnoreWhiteSpace);
    var l := new Lexer(MinTokens + [EofEntry]);
    ok := Expect(l, IgnoreWhiteSpace, MinTable);
  }

  /** `TestLexerTokenizeFloat`: whitespace-skipping calls on `QueryFloat`. */
  method TestLexerTokenizeFloat() returns (ok: bool)
    ensures ok
  {
    FloatLexes();
    FloatView();
    TableFromView(QueryFloat, FloatTokens, FloatTable, IgnoreWhiteSpace);
    var l := new Lexer(FloatTokens + [EofEntry]);
    ok := Expect(l, IgnoreWhiteSpace, FloatTable);
  }

  /** `TestLexerTokenize`: raw calls on `QueryAggregates`, whitespace included. */
  method TestLexerTokenize() returns (ok: bool)
    ensures ok
  {
    AggregatesLexes();
    RawSeesAll(TokenizeTable + [EofEntry]);
    TableFromView(QueryAggregates, TokenizeTable, TokenizeTable, Raw);
    var l := new Lexer(TokenizeTable + [EofEntry]);
    ok := Expect(l, Raw, TokenizeTable);
  }

  /** `TestLexerTokenizeIgnoreSpaceTimeWindow`: whitespace-skipping calls on `QueryTimeWindow`. */
  method TestLexerTokenizeIgnoreSpaceTimeWindow() returns (ok: bool)
    ensures ok
  {
    TimeWindowLexes();
    TimeWindowView();
    TableFromView(QueryTimeWindow, TimeWindowTokens, TimeWindowTable, IgnoreWhiteSpace);
    var l := new Lexer(TimeWindowTokens + [EofEntry]);
    ok := Expect(l, IgnoreWhiteSpace, TimeWindowTable);
  }

  /** `TestLexerTokenizeIgnoreSpace`: whitespace-skipping calls on `QueryAggregates`. */
  method TestLexerTokenizeIgnoreSpace() returns (ok: bool)
    ensures ok
  {
    AggregatesLexes();
    AggregatesView();
    TableFromView(QueryAggregates, TokenizeTable, IgnoreSpaceTable, IgnoreWhiteSpace);
    var l := new Lexer(TokenizeTable + [EofEntry]);
    ok := Expect(l, IgnoreWhiteSpace, IgnoreSpaceTable);
  }
}
