/**
  What the passes guarantee, for every token stream: which registered event
  type wins, the shape of every projection and predicate entry, the window a
  `length(n)` or `time(n unit)` clause sets, and what an accepted query's
  statement always holds.
 */
module ParserProperties {
  import opened Wrappers
  import opened Lexer
  import opened Expr
  import opened Numbers
  import opened Statement
  import opened Parser

  // The event-type pass

  /** The identifiers the event-type pass looks up from cursor `i`: those before the first `.`. */
  function Names(s: seq<Entry>, i: nat): seq<string>
    requires WellFormed(s) && i < |s|
    decreases |s| - i
  {
    var t := s[i].0;
    if t == EOF || t == DOT then []
    else (if t == IDENTIFIER then [s[i].1] else []) + Names(s, i + 1)
  }

  /** The first of `names` that is not registered. */
  function FirstUnregistered(reg: map<string, Schema>, names: seq<string>): Option<string> {
    if names == [] then None
    else if names[0] !in reg then Some(names[0])
    else FirstUnregistered(reg, names[1..])
  }

  function Last(names: seq<string>): string
    requires names != []
  {
    names[|names| - 1]
  }

  /**
    The event-type scan from cursor `i`: it fails on the first unregistered
    name, else on EOF before `.`; when it succeeds the last name before `.`
    is the event type (the one set before is kept when there is none), and no
    other field changes.
   */
  lemma EventTypeScanResult(reg: map<string, Schema>, s: seq<Entry>, i: nat, st: Snapshot)
    requires WellFormed(s) && i < |s|
    ensures var o := EventTypeScan(reg, s, i, st);
      var names := Names(s, i);
      var stop := s[Seek(s, i, Until(DOT))];
      o.status == (
        if FirstUnregistered(reg, names).Some? then Failed(Unregistered(FirstUnregistered(reg, names).value))
        else if stop.0 == DOT then Ok
        else Failed(InvalidToken(stop.1)))
    ensures var o := EventTypeScan(reg, s, i, st);
      var names := Names(s, i);
      o.status.Ok? ==>
        (names == [] && o.after == st) ||
        (names != [] && Last(names) in reg && o.after == st.(eventType := Some(reg[Last(names)])))
    ensures EventTypeScan(reg, s, i, st).after.(eventType := st.eventType) == st
  {
    EventTypeScanStatus(reg, s, i, st);
    EventTypeScanAfter(reg, s, i, st);
    EventTypeScanKeeps(reg, s, i, st);
  }

  /** The scan's status: the first unregistered name, else the token that stops it. */
  lemma {:induction false} EventTypeScanStatus(reg: map<string, Schema>, s: seq<Entry>, i: nat, st: Snapshot)
    requires WellFormed(s) && i < |s|
    ensures var o := EventTypeScan(reg, s, i, st);
      var names := Names(s, i);
      var stop := s[Seek(s, i, Until(DOT))];
      o.status == (
        if FirstUnregistered(reg, names).Some? then Failed(Unregistered(FirstUnregistered(reg, names).value))
        else if stop.0 == DOT then Ok
        else Failed(InvalidToken(stop.1)))
    decreases |s| - i
  {
    var t := s[i].0;
    if t == EOF || t == DOT {
    } else if t == IDENTIFIER {
      var n := s[i].1;
      assert Names(s, i) == [n] + Names(s, i + 1);
      if n in reg {
        EventTypeScanStatus(reg, s, i + 1, st.(eventType := Some(reg[n])));
        assert ([n] + Names(s, i + 1))[1..] == Names(s, i + 1);
      }
    } else {
      assert Names(s, i) == Names(s, i + 1);
      EventTypeScanStatus(reg, s, i + 1, st);
    }
  }

  /** A successful scan sets the last name before `.`, or keeps the statement when there is none. */
  lemma {:induction false} EventTypeScanAfter(reg: map<string, Schema>, s: seq<Entry>, i: nat, st: Snapshot)
    requires WellFormed(s) && i < |s|
    ensures var o := EventTypeScan(reg, s, i, st);
      var names := Names(s, i);
      o.status.Ok? ==>
        (names == [] && o.after == st) ||
        (names != [] && Last(names) in reg && o.after == st.(eventType := Some(reg[Last(names)])))
    decreases |s| - i
  {
    var t := s[i].0;
    if t == EOF || t == DOT {
    } else if t == IDENTIFIER {
      var n := s[i].1;
      assert Names(s, i) == [n] + Names(s, i + 1);
      if n in reg {
        EventTypeScanAfter(reg, s, i + 1, st.(eventType := Some(reg[n])));
        if Names(s, i + 1) != [] {
          assert Last(Names(s, i)) == Last(Names(s, i + 1));
        }
      }
    } else {
      assert Names(s, i) == Names(s, i + 1);
      EventTypeScanAfter(reg, s, i + 1, st);
    }
  }

  /** The scan changes no field but the event type. */
  lemma {:induction false} EventTypeScanKeeps(reg: map<string, Schema>, s: seq<Entry>, i: nat, st: Snapshot)
    requires WellFormed(s) && i < |s|
    ensures EventTypeScan(reg, s, i, st).after.(eventType := st.eventType) == st
    decreases |s| - i
  {
    var t := s[i].0;
    if t == IDENTIFIER && s[i].1 in reg {
      EventTypeScanKeeps(reg, s, i + 1, st.(eventType := Some(reg[s[i].1])));
    } else if t != EOF && t != DOT && t != IDENTIFIER {
      EventTypeScanKeeps(reg, s, i + 1, st);
    }
  }

  /** A query naming an unregistered event type after `from` is rejected with that name. */
  lemma ParseUnregistered(reg: map<string, Schema>, s: seq<Entry>, k: nat, name: string)
    requires WellFormed(s) && s[0].0 == SELECT
    requires PastAnchor(s, 0, FROM) == Some(k) && FirstUnregistered(reg, Names(s, k)) == Some(name)
    ensures ParseSpec(reg, s) == Rejected(InClause(EventTypeClause, Unregistered(name)))
  {
    EventTypeScanResult(reg, s, k, Empty);
  }

  /** A query without `from` never returns: the event-type pass spins on EOF. */
  lemma ParseWithoutFrom(reg: map<string, Schema>, s: seq<Entry>)
    requires WellFormed(s) && s[0].0 == SELECT
    requires forall k :: 0 <= k < |s| ==> s[k].0 != FROM
    ensures ParseSpec(reg, s) == Diverges
  {
    assert PastAnchor(s, 0, FROM) == None;
  }

  // The projection pass

  /** A projection entry is built as its kind and field demand. */
  predicate Typed(et: Option<Schema>, f: Function) {
    match f
    case SelectAll => true
    case Count(c) => c == "count(*)"
    case Aggregate(op, kind, name, c) =>
      c == Column(op, name) && (if kind == Int then IntField(et, name) else FloatField(et, name))
  }

  /**
    An aggregate over field `name` appends its integer variant when the field
    is an integer field, then its float variant when it is a float field, and
    nothing when it is neither; each entry is named `op(name)`.
   */
  lemma AggregatesByKind(op: AggOp, et: Option<Schema>, name: string)
    ensures var a := Aggregates(op, et, name);
      |a| == (if IntField(et, name) then 1 else 0) + (if FloatField(et, name) then 1 else 0) &&
      (forall j :: 0 <= j < |a| ==> a[j] == Aggregate(op, a[j].kind, name, Column(op, name))) &&
      (IntField(et, name) ==> a[0].kind == Int) &&
      (FloatField(et, name) ==> a[|a| - 1].kind == Float)
  {
  }

  /** The column prefix of the aggregate a keyword names is that keyword's own spelling. */
  lemma AggregateSpelling(t: Token)
    requires AggregateOf(t).Some?
    ensures KeywordOf(OpName(AggregateOf(t).value)) == Some(t)
  {
  }

  /** Each aggregate is named by the keyword that spells its column prefix. */
  lemma AggregateKeyword(op: AggOp)
    ensures KeywordOf(OpName(op)).Some? && AggregateOf(KeywordOf(OpName(op)).value) == Some(op)
  {
  }

  /** An aggregate keyword, `(` and a field name append the aggregates over that field. */
  lemma AggregateAt(s: seq<Entry>, i: nat, st: Snapshot)
    requires WellFormed(s) && i + 2 < |s| && AggregateOf(s[i].0).Some?
    requires s[i + 1].0 == LPAREN && s[i + 2].0 == IDENTIFIER
    ensures FunctionScan(s, i, st) ==
      FunctionScan(s, i + 3, st.(functions := st.functions + Aggregates(AggregateOf(s[i].0).value, st.eventType, s[i + 2].1)))
  {
    SeekFirst(s, i + 1, Identifier, i + 2);
  }

  /**
    The projection scan from cursor `i` only appends to the projection list,
    and every entry it appends is typed against the event type. It fails
    exactly with the EOF literal, and it always fails when no `from` follows.
   */
  lemma {:induction false} FunctionScanResult(s: seq<Entry>, i: nat, st: Snapshot)
    requires WellFormed(s) && i < |s|
    ensures var o := FunctionScan(s, i, st);
      o.status.Ok? || o.status == Failed(InvalidToken(s[|s| - 1].1))
    ensures var o := FunctionScan(s, i, st);
      (forall k :: i <= k < |s| ==> s[k].0 != FROM) ==> !o.status.Ok?
    ensures var o := FunctionScan(s, i, st);
      st.functions <= o.after.functions && o.after == st.(functions := o.after.functions)
    ensures var o := FunctionScan(s, i, st);
      forall j :: |st.functions| <= j < |o.after.functions| ==> Typed(st.eventType, o.after.functions[j])
    decreases |s| - i
  {
    var t := s[i].0;
    if t == EOF {
      assert i == |s| - 1;
    } else if t == FROM {
    } else if t == ASTERISK {
      var st1 := st.(functions := st.functions + [SelectAll]);
      FunctionScanResult(s, i + 1, st1);
    } else if t == COUNT {
      var st1 := st.(functions := st.functions + [Count("count(*)")]);
      FunctionScanResult(s, i + 1, st1);
    } else if AggregateOf(t).Some? {
      var op := AggregateOf(t).value;
      var k := Seek(s, i + 1, Identifier);
      var added := Aggregates(op, st.eventType, s[k].1);
      var st1 := st.(functions := st.functions + added);
      assert forall f :: f in added ==> Typed(st.eventType, f);
      FunctionScanResult(s, Step(s, k), st1);
    } else {
      FunctionScanResult(s, i + 1, st);
    }
  }

  /** A token the projection scan passes over without adding an entry. */
  predicate Ignored(t: Token) {
    t != EOF && t != FROM && t != ASTERISK && t != COUNT && AggregateOf(t).None?
  }

  /** Tokens that add no entry, such as a bare field name or a comma, are skipped. */
  lemma {:induction false} FunctionScanSkipTo(s: seq<Entry>, i: nat, j: nat, st: Snapshot)
    requires WellFormed(s) && i <= j < |s|
    requires forall k :: i <= k < j ==> Ignored(s[k].0)
    ensures FunctionScan(s, i, st) == FunctionScan(s, j, st)
    decreases j - i
  {
    if i < j {
      assert FunctionScan(s, i, st) == FunctionScan(s, i + 1, st);
      FunctionScanSkipTo(s, i + 1, j, st);
    }
  }

  /** `count(*)` appends a count and then, for its `*`, a select-all entry. */
  lemma CountStar(s: seq<Entry>, i: nat, st: Snapshot)
    requires WellFormed(s) && i + 4 < |s|
    requires s[i].0 == COUNT && s[i + 1].0 == LPAREN && s[i + 2].0 == ASTERISK && s[i + 3].0 == RPAREN
    ensures FunctionScan(s, i, st) == FunctionScan(s, i + 4, st.(functions := st.functions + [Count("count(*)"), SelectAll]))
  {
    var st1 := st.(functions := st.functions + [Count("count(*)")]);
    var st2 := st1.(functions := st1.functions + [SelectAll]);
    assert FunctionScan(s, i, st) == FunctionScan(s, i + 1, st1);
    assert FunctionScan(s, i + 1, st1) == FunctionScan(s, i + 2, st1);
    assert FunctionScan(s, i + 2, st1) == FunctionScan(s, i + 3, st2);
    assert FunctionScan(s, i + 3, st2) == FunctionScan(s, i + 4, st2);
    assert st1.functions + [SelectAll] == st.functions + [Count("count(*)"), SelectAll];
  }

  // The window pass

  /** `length(n)`, `n` written in decimal, sets a length window of `n`. */
  lemma LengthWindow(s: seq<Entry>, i: nat, k: nat, st: Snapshot, n: int)
    requires WellFormed(s) && i < |s| && PastAnchor(s, i, DOT) == Some(k)
    requires s[k].0 == LENGTH && MinInt64 <= n <= MaxInt64 && s[Seek(s, k + 1, Identifier)].1 == Itoa(n)
    ensures WindowPass(s, i, st) == Outcome(Ok, st.(window := Some(LENGTH), length := Some(n)))
  {
    AtoiItoa(n);
    LengthWindowOf(s, i, k, st, n);
  }

  /** A length window whose count converts to `n` has length `n`. */
  lemma LengthWindowOf(s: seq<Entry>, i: nat, k: nat, st: Snapshot, n: int)
    requires WellFormed(s) && i < |s| && PastAnchor(s, i, DOT) == Some(k)
    requires s[k].0 == LENGTH && Atoi(s[Seek(s, k + 1, Identifier)].1) == Some(n)
    ensures WindowPass(s, i, st) == Outcome(Ok, st.(window := Some(LENGTH), length := Some(n)))
  {
    var st1 := st.(window := Some(LENGTH));
    assert WindowPass(s, i, st) == Counted(s, k, st1);
    var j := Seek(s, k + 1, Identifier);
    assert Counted(s, k, st1) == Outcome(Ok, st1.(length := Some(Atoi(s[j].1).value)));
  }

  /** A window count that does not convert is rejected by its text, after the window kind is set. */
  lemma WindowBadCount(s: seq<Entry>, i: nat, k: nat, st: Snapshot)
    requires WellFormed(s) && i < |s| && PastAnchor(s, i, DOT) == Some(k)
    requires (s[k].0 == LENGTH || s[k].0 == TIME) && Atoi(s[Seek(s, k + 1, Identifier)].1).None?
    ensures WindowPass(s, i, st) == Outcome(Failed(BadInt(s[Seek(s, k + 1, Identifier)].1)), st.(window := Some(s[k].0)))
  {
    var j := Seek(s, k + 1, Identifier);
    var o := WindowPass(s, i, st);
    assert o == Outcome(Failed(BadInt(s[j].1)), st.(window := Some(s[k].0)));
  }

  /**
    `time(n unit)`, `n` written in decimal, sets a time window of `n`
    seconds for `sec`, `n` minutes for `min`, and no duration for any other
    unit.
   */
  lemma TimeWindow(s: seq<Entry>, i: nat, k: nat, st: Snapshot, n: int)
    requires WellFormed(s) && i < |s| && PastAnchor(s, i, DOT) == Some(k)
    requires s[k].0 == TIME && MinInt64 <= n <= MaxInt64 && s[Seek(s, k + 1, Identifier)].1 == Itoa(n)
    ensures var unit := s[Seek(s, Step(s, Seek(s, k + 1, Identifier)), IgnoreWhiteSpace)].0;
      var st1 := st.(window := Some(TIME));
      WindowPass(s, i, st) == Outcome(Ok,
        if unit == SEC then st1.(duration := Some(Scaled(n, Second)))
        else if unit == MIN then st1.(duration := Some(Scaled(n, Minute)))
        else st1)
  {
    AtoiItoa(n);
    TimeWindowWithUnit(s, i, k, st, n);
  }

  /** A time window whose count converts to `n` applies its unit to `n`. */
  lemma TimeWindowWithUnit(s: seq<Entry>, i: nat, k: nat, st: Snapshot, n: int)
    requires WellFormed(s) && i < |s| && PastAnchor(s, i, DOT) == Some(k)
    requires s[k].0 == TIME && Atoi(s[Seek(s, k + 1, Identifier)].1) == Some(n)
    ensures var unit := s[Seek(s, Step(s, Seek(s, k + 1, Identifier)), IgnoreWhiteSpace)].0;
      WindowPass(s, i, st) == Outcome(Ok, WithUnit(st.(window := Some(TIME)), n, unit))
  {
    var j := Seek(s, k + 1, Identifier);
    var o := WindowPass(s, i, st);
    assert o == Outcome(Ok, WithUnit(st.(window := Some(TIME)), Atoi(s[j].1).value, s[Seek(s, Step(s, j), IgnoreWhiteSpace)].0));
  }

  /**
    A successful window pass sets exactly one window: a length window with
    its length, or a time window, with a duration or none. It changes
    nothing else.
   */
  lemma WindowPassResult(s: seq<Entry>, i: nat, st: Snapshot)
    requires WellFormed(s) && i < |s|
    ensures var o := WindowPass(s, i, st);
      o.status.Ok? ==>
        (o.after.window == Some(LENGTH) && o.after.length.Some? && o.after.duration == st.duration) ||
        (o.after.window == Some(TIME) && o.after.length == st.length)
    ensures var o := WindowPass(s, i, st);
      o.after.(window := st.window, length := st.length, duration := st.duration) == st
  {
    match PastAnchor(s, i, DOT)
    case None =>
    case Some(k) =>
      var t := s[k].0;
      if t == LENGTH || t == TIME {
        CountedResult(s, k, st.(window := Some(t)));
      }
  }

  /** A counted window sets its length or its duration, and nothing else. */
  lemma CountedResult(s: seq<Entry>, k: nat, st1: Snapshot)
    requires WellFormed(s) && k + 1 < |s|
    ensures var o := Counted(s, k, st1);
      o.status.Ok? ==>
        (s[k].0 == LENGTH && o.after.length.Some? && o.after.duration == st1.duration) ||
        (s[k].0 != LENGTH && o.after.length == st1.length)
    ensures Counted(s, k, st1).after.(length := st1.length, duration := st1.duration) == st1
  {
    var n := Seek(s, k + 1, Identifier);
    match Atoi(s[n].1)
    case None =>
    case Some(v) =>
      if s[k].0 != LENGTH {
        WithUnitKeeps(st1, v, s[Seek(s, Step(s, n), IgnoreWhiteSpace)].0);
      }
  }

  /** Applying a unit changes the duration only. */
  lemma WithUnitKeeps(st: Snapshot, n: int, unit: Token)
    requires MinInt64 <= n <= MaxInt64
    ensures WithUnit(st, n, unit).(duration := st.duration) == st
  {
  }

  lemma WindowKeyword(s: seq<Entry>, i: nat, k: nat, st: Snapshot)
    requires WellFormed(s) && i < |s| && PastAnchor(s, i, DOT) == Some(k)
    ensures WindowPass(s, i, st).status.Ok? ==> s[k].0 == LENGTH || s[k].0 == TIME
    ensures s[k].0 != LENGTH && s[k].0 != TIME ==> WindowPass(s, i, st) == Outcome(Failed(InvalidToken(s[k].1)), st)
  {
  }

  // The predicate pass

  /** The text of a float comparison: a decimal with a sign, digits, a point and digits. */
  predicate FloatText(text: string) {
    exists k :: 0 <= k < |text| && text[k] == '.' && DecimalFloat(text[..k], text[k + 1..])
  }

  /** A predicate entry is built as its field demands. */
  predicate WhereTyped(et: Option<Schema>, w: Where) {
    match w
    case IntComparison(_, name, v) => IntField(et, name) && MinInt64 <= v <= MaxInt64
    case FloatComparison(_, name, text) => FloatField(et, name) && FloatText(text)
  }

  lemma FloatTextOf(value: string, value2: string)
    requires DecimalFloat(value, value2)
    ensures FloatText(value + "." + value2)
  {
    var text := value + "." + value2;
    assert text[..|value|] == value && text[|value| + 1..] == value2;
    assert text[|value|] == '.';
  }

  /** Every entry one predicate yields is typed. */
  lemma PredicateTyped(et: Option<Schema>, s: seq<Entry>, i: nat)
    requires WellFormed(s) && i < |s|
    ensures forall w :: w in Predicate(et, s, i).entries ==> WhereTyped(et, w)
  {
    var r := Predicate(et, s, i);
    var o := ReadOperands(s, i);
    var isInt := IntField(et, o.name);
    if isInt && Atoi(o.value).None? {
      assert r.entries == [];
    } else {
      var ints := if isInt then IntCompare(o.sel, o.name, Atoi(o.value).value) else [];
      if isInt {
        IntCompareTyped(et, o.sel, o.name, Atoi(o.value).value);
      }
      if !FloatField(et, o.name) {
        assert r.entries == ints;
      } else {
        assert r == Fraction(s, o, ints);
        FractionTyped(et, s, o, ints);
      }
    }
  }

  /** An integer comparison on an integer field is typed. */
  lemma IntCompareTyped(et: Option<Schema>, sel: Token, name: string, v: int)
    requires IntField(et, name) && MinInt64 <= v <= MaxInt64
    ensures forall w :: w in IntCompare(sel, name, v) ==> WhereTyped(et, w)
  {
  }

  /** The float half of a predicate on a float field keeps its entries typed. */
  lemma FractionTyped(et: Option<Schema>, s: seq<Entry>, o: Operands, ints: seq<Where>)
    requires WellFormed(s) && o.next < |s| && FloatField(et, o.name)
    requires forall w :: w in ints ==> WhereTyped(et, w)
    ensures forall w :: w in Fraction(s, o, ints).entries ==> WhereTyped(et, w)
  {
    var kf := Seek(s, o.next, Identifier);
    if DecimalFloat(o.value, s[kf].1) {
      FloatTextOf(o.value, s[kf].1);
    }
  }

  /** Every predicate the scan collects is typed against the event type. */
  lemma {:induction false} WhereScanTyped(et: Option<Schema>, s: seq<Entry>, i: nat)
    requires WellFormed(s) && i < |s|
    ensures forall w :: w in WhereScan(et, s, i).1 ==> WhereTyped(et, w)
    decreases |s| - i
  {
    var t := s[i].0;
    if t == EOF {
    } else if !Opens(t) {
      WhereScanTyped(et, s, i + 1);
    } else {
      var p := Predicate(et, s, i + 1);
      PredicateTyped(et, s, i + 1);
      if p.status.Ok? {
        WhereScanTyped(et, s, p.next);
      }
    }
  }

  /** Without `where`, `and` or `or` the scan succeeds with no predicates. */
  lemma {:induction false} WhereScanNone(et: Option<Schema>, s: seq<Entry>, i: nat)
    requires WellFormed(s) && i < |s|
    requires forall k :: i <= k < |s| ==> !Opens(s[k].0)
    ensures WhereScan(et, s, i) == (Ok, [])
    decreases |s| - i
  {
    if s[i].0 != EOF {
      WhereScanNone(et, s, i + 1);
    }
  }

  /** Tokens that open no predicate are skipped by the scan. */
  lemma {:induction false} WhereScanSkipTo(et: Option<Schema>, s: seq<Entry>, i: nat, j: nat)
    requires WellFormed(s) && i <= j < |s|
    requires forall k :: i <= k < j ==> s[k].0 != EOF && !Opens(s[k].0)
    ensures WhereScan(et, s, i) == WhereScan(et, s, j)
    decreases j - i
  {
    if i < j {
      WhereScanSkips(et, s, i);
      WhereScanSkipTo(et, s, i + 1, j);
    }
  }

  /**
    An integer-field predicate consumes only its name, comparator and value:
    a following `.` and digits are left to the scan, which skips them.
   */
  lemma IntPredicate(et: Option<Schema>, s: seq<Entry>, i: nat, v: int)
    requires WellFormed(s) && i < |s|
    requires var o := ReadOperands(s, i);
      IntField(et, o.name) && !FloatField(et, o.name) && Atoi(o.value) == Some(v)
    ensures var o := ReadOperands(s, i);
      Predicate(et, s, i) == Reading(Ok, if CmpOf(o.sel).Some? then [IntComparison(CmpOf(o.sel).value, o.name, v)] else [], o.next)
  {
  }

  /**
    A float-field predicate reads one more identifier as the fraction and
    joins it to the value with a point: the joined text is compared if it is
    a decimal, and rejected otherwise; the scan resumes after the fraction.
   */
  lemma FloatPredicate(et: Option<Schema>, s: seq<Entry>, i: nat)
    requires WellFormed(s) && i < |s|
    requires var o := ReadOperands(s, i); FloatField(et, o.name) && !IntField(et, o.name)
    ensures var o := ReadOperands(s, i);
      var kf := Seek(s, o.next, Identifier);
      var text := o.value + "." + s[kf].1;
      Predicate(et, s, i) ==
        if !DecimalFloat(o.value, s[kf].1) then Reading(Failed(BadFloat(text)), [], Step(s, kf))
        else Reading(Ok, if CmpOf(o.sel).Some? then [FloatComparison(CmpOf(o.sel).value, o.name, text)] else [], Step(s, kf))
  {
    var o := ReadOperands(s, i);
    assert Predicate(et, s, i) == Fraction(s, o, []);
  }

  // The driver

  /**
    An accepted query began with `select`, and its statement holds exactly
    one window: a length window with its length, or a time window without
    one. Its entries are typed against its event type. It may have no event
    type and no projection entry.
   */
  lemma AcceptedStatement(reg: map<string, Schema>, s: seq<Entry>)
    requires WellFormed(s) && ParseSpec(reg, s).Accepted?
    ensures s[0].0 == SELECT
    ensures var st := ParseSpec(reg, s).statement;
      (st.window == Some(LENGTH) && st.length.Some? && st.duration == None) ||
      (st.window == Some(TIME) && st.length == None)
    ensures var st := ParseSpec(reg, s).statement;
      (forall j :: 0 <= j < |st.functions| ==> Typed(st.eventType, st.functions[j])) &&
      (forall w :: w in st.where ==> WhereTyped(st.eventType, w))
  {
    AcceptedPasses(reg, s);
    var e := EventTypePass(reg, s, 0, Empty);
    var k := PastAnchor(s, 0, FROM).value;
    EventTypeScanResult(reg, s, k, Empty);
    var f := FunctionScan(s, 0, e.after);
    FunctionScanResult(s, 0, e.after);
    var w := WindowPass(s, 0, f.after);
    WindowPassResult(s, 0, f.after);
    var d := PastAnchor(s, 0, DOT).value;
    WhereScanTyped(w.after.eventType, s, d);
  }

  /** An accepted query passed all four passes, and its statement is the predicate pass's. */
  lemma AcceptedPasses(reg: map<string, Schema>, s: seq<Entry>)
    requires WellFormed(s) && ParseSpec(reg, s).Accepted?
    ensures s[0].0 == SELECT
    ensures var e := EventTypePass(reg, s, 0, Empty);
      var f := FunctionScan(s, 0, e.after);
      var w := WindowPass(s, 0, f.after);
      var p := WherePass(s, 0, w.after);
      e.status.Ok? && f.status.Ok? && w.status.Ok? && p.status.Ok? && ParseSpec(reg, s).statement == p.after
  {
  }
}
