/**
  The clause-anchored parser. `Parse` checks the first raw token, then runs
  four passes, each over a fresh lexer on the same token stream: the event
  type after `from`, the projection before `from`, the window after the
  first `.`, and the predicates after the first `.`.

  Each pass is a method over a lexer and a statement, proved against a
  function that states the outcome and the resulting statement. A pass whose
  skip-to-anchor loop reaches EOF never returns in Go (EOF repeats, so the
  loop spins); its outcome here is `Hangs`.
 */
module Parser {
  import opened Wrappers
  import opened Lexer
  import opened Expr
  import opened Numbers
  import opened Statement

  /** The error conditions of the passes. */
  datatype Error =
    | InvalidToken(literal: string)   // `invalid token=<literal>`
    | Unregistered(name: string)      // `EventType [<name>] is not registered`
    | BadInt(text: string)            // `atoi=<text>`
    | BadFloat(text: string)          // `parse float=<text>`

  /** How a pass ends: it returns nil, it returns an error, or it never returns. */
  datatype Status = Ok | Failed(error: Error) | Hangs

  /** A pass's status and the statement as the pass leaves it. */
  datatype Outcome = Outcome(status: Status, after: Snapshot)

  /** The pass an error is reported from, with its prefix in `Parse`'s message. */
  datatype Clause =
    | EventTypeClause   // `parse event type: ...`
    | FunctionClause    // `parse function: ...`
    | WindowClause      // `parse window: ...`
    | WhereClause       // `parse selector: ...`

  datatype Failure = NotSelect(literal: string) | InClause(clause: Clause, error: Error)

  /** What `Parse` does with a query: returns a statement, returns an error, or never returns. */
  datatype Verdict = Accepted(statement: Snapshot) | Rejected(failure: Failure) | Diverges

  // The skip-to-anchor loop

  /**
    The cursor after `for { if token, _ := l.Tokenize(); token == anchor { break } }`
    from cursor `i`: just past the first `anchor`, or `None` when there is
    none, and the loop spins on EOF.
   */
  function PastAnchor(s: seq<Entry>, i: nat, anchor: Token): (r: Option<nat>)
    requires WellFormed(s) && i < |s| && anchor != EOF
    ensures r.Some? <==> exists k :: i <= k < |s| && s[k].0 == anchor
    ensures r.Some? ==> i < r.value < |s| && s[r.value - 1].0 == anchor
    ensures r.Some? ==> forall k :: i <= k < r.value - 1 ==> s[k].0 != anchor
  {
    var j := Seek(s, i, Until(anchor));
    if s[j].0 == EOF then None else Some(j + 1)
  }

  /** The skip-to-anchor loop: `found` is false where the Go loop never ends. */
  method SkipTo(l: Lexer, anchor: Token) returns (found: bool)
    requires l.Valid() && anchor != EOF
    modifies l
    ensures l.Valid()
    ensures var r := PastAnchor(l.stream, old(l.pos), anchor);
      found == r.Some? && (found ==> l.pos == r.value)
  {
    ghost var j := l.pos;
    var token, literal := l.Tokenize();
    while token != anchor
      invariant l.Valid()
      invariant j < |l.stream| && token == l.stream[j].0 && l.pos == Step(l.stream, j)
      invariant Seek(l.stream, old(l.pos), Until(anchor)) == Seek(l.stream, j, Until(anchor))
      decreases |l.stream| - j
    {
      if token == EOF {
        return false;
      }
      j := l.pos;
      token, literal := l.Tokenize();
    }
    return true;
  }

  // The event-type pass

  /** The tokens after `from`: each identifier is looked up and set, until `.`. */
  function EventTypeScan(reg: map<string, Schema>, s: seq<Entry>, i: nat, st: Snapshot): (o: Outcome)
    requires WellFormed(s) && i < |s|
    decreases |s| - i
  {
    match s[i].0
    case EOF => Outcome(Failed(InvalidToken(s[i].1)), st)
    case DOT => Outcome(Ok, st)
    case IDENTIFIER =>
      if s[i].1 !in reg then Outcome(Failed(Unregistered(s[i].1)), st)
      else EventTypeScan(reg, s, i + 1, st.(eventType := Some(reg[s[i].1])))
    case _ => EventTypeScan(reg, s, i + 1, st)
  }

  function EventTypePass(reg: map<string, Schema>, s: seq<Entry>, i: nat, st: Snapshot): Outcome
    requires WellFormed(s) && i < |s|
  {
    match PastAnchor(s, i, FROM)
    case None => Outcome(Hangs, st)
    case Some(k) => EventTypeScan(reg, s, k, st)
  }

  // The projection pass

  /** The aggregate an aggregate keyword names (`count` is not one: it takes no field). */
  function AggregateOf(t: Token): (r: Option<AggOp>)
    ensures r.Some? <==> t in {MAX, MIN, MED, SUM, AVG}
  {
    match t
    case MAX => Some(Max)
    case MIN => Some(Min)
    case MED => Some(Med)
    case SUM => Some(Sum)
    case AVG => Some(Avg)
    case _ => None
  }

  /**
    The entries an aggregate over field `name` appends: the integer variant
    if it is an integer field, then the float variant if it is a float field.
   */
  function Aggregates(op: AggOp, et: Option<Schema>, name: string): seq<Function> {
    (if IntField(et, name) then [Aggregate(op, Int, name, Column(op, name))] else []) +
    (if FloatField(et, name) then [Aggregate(op, Float, name, Column(op, name))] else [])
  }

  /** The raw tokens up to `from`: `*`, `count` and the aggregates append entries. */
  function FunctionScan(s: seq<Entry>, i: nat, st: Snapshot): (o: Outcome)
    requires WellFormed(s) && i < |s|
    decreases |s| - i
  {
    var t := s[i].0;
    if t == EOF then Outcome(Failed(InvalidToken(s[i].1)), st)
    else if t == FROM then Outcome(Ok, st)
    else if t == ASTERISK then FunctionScan(s, i + 1, st.(functions := st.functions + [SelectAll]))
    else if t == COUNT then FunctionScan(s, i + 1, st.(functions := st.functions + [Count("count(*)")]))
    else if AggregateOf(t).Some? then
      var k := Seek(s, i + 1, Identifier);
      FunctionScan(s, Step(s, k), st.(functions := st.functions + Aggregates(AggregateOf(t).value, st.eventType, s[k].1)))
    else FunctionScan(s, i + 1, st)
  }

  // The window pass

  /** The statement after `time(n unit)` with `n` converted: seconds, minutes, or no duration. */
  function WithUnit(st: Snapshot, n: int, unit: Token): Snapshot
    requires MinInt64 <= n <= MaxInt64
  {
    if unit == SEC then st.(duration := Some(Scaled(n, Second)))
    else if unit == MIN then st.(duration := Some(Scaled(n, Minute)))
    else st
  }

  function WindowPass(s: seq<Entry>, i: nat, st: Snapshot): Outcome
    requires WellFormed(s) && i < |s|
  {
    match PastAnchor(s, i, DOT)
    case None => Outcome(Hangs, st)
    case Some(k) => WindowAt(s, k, st)
  }

  /** The window pass from the keyword `s[k]` after the dot. */
  function WindowAt(s: seq<Entry>, k: nat, st: Snapshot): Outcome
    requires WellFormed(s) && k < |s|
  {
    var t := s[k].0;
    if t == EOF then Outcome(Failed(InvalidToken(s[k].1)), st)
    else if t == LENGTH || t == TIME then Counted(s, k, st.(window := Some(t)))
    else Outcome(Failed(InvalidToken(s[k].1)), st)
  }

  /** `length(n)` or `time(n unit)` from the keyword `s[k]`, the window kind already set. */
  function Counted(s: seq<Entry>, k: nat, st1: Snapshot): Outcome
    requires WellFormed(s) && k + 1 < |s|
  {
    var n := Seek(s, k + 1, Identifier);
    match Atoi(s[n].1)
    case None => Outcome(Failed(BadInt(s[n].1)), st1)
    case Some(v) =>
      if s[k].0 == LENGTH then Outcome(Ok, st1.(length := Some(v)))
      else Outcome(Ok, WithUnit(st1, v, s[Seek(s, Step(s, n), IgnoreWhiteSpace)].0))
  }

  // The predicate pass

  /** The comparator a token stands for. */
  function CmpOf(t: Token): (r: Option<Cmp>)
    ensures r.Some? <==> t == LARGER || t == LESS
  {
    if t == LARGER then Some(Larger) else if t == LESS then Some(Less) else None
  }

  predicate Opens(t: Token) { t == WHERE || t == AND || t == OR }

  /** One predicate: its status, its entries and the cursor after it. */
  datatype Reading = Reading(status: Status, entries: seq<Where>, next: nat)

  /** A predicate's field name, comparator token and value text, and the cursor after them. */
  datatype Operands = Operands(name: string, sel: Token, value: string, next: nat)

  /**
    The operands read from cursor `i`: the next identifier, the next token
    that is neither whitespace nor an identifier, and the next identifier.
   */
  function ReadOperands(s: seq<Entry>, i: nat): (o: Operands)
    requires WellFormed(s) && i < |s|
    ensures i <= o.next < |s|
  {
    var kn := Seek(s, i, Identifier);
    var ks := Seek(s, Step(s, kn), IgnoreIdentifier);
    var kv := Seek(s, Step(s, ks), Identifier);
    Operands(s[kn].1, s[ks].0, s[kv].1, Step(s, kv))
  }

  /** The integer comparison a comparator token builds, if it is one. */
  function IntCompare(sel: Token, name: string, value: int): seq<Where> {
    match CmpOf(sel)
    case None => []
    case Some(cmp) => [IntComparison(cmp, name, value)]
  }

  /** The float comparison a comparator token builds, if it is one. */
  function FloatCompare(sel: Token, name: string, text: string): seq<Where> {
    match CmpOf(sel)
    case None => []
    case Some(cmp) => [FloatComparison(cmp, name, text)]
  }

  /**
    The predicate read from cursor `i`, just after its `where`/`and`/`or`.
    An integer field converts the value; a float field reads one more
    identifier as the fraction and converts the joined text.
   */
  function Predicate(et: Option<Schema>, s: seq<Entry>, i: nat): (r: Reading)
    requires WellFormed(s) && i < |s|
    ensures i <= r.next < |s|
  {
    var o := ReadOperands(s, i);
    var isInt := IntField(et, o.name);
    if isInt && Atoi(o.value).None? then Reading(Failed(BadInt(o.value)), [], o.next)
    else
      var ints := if isInt then IntCompare(o.sel, o.name, Atoi(o.value).value) else [];
      if !FloatField(et, o.name) then Reading(Ok, ints, o.next)
      else Fraction(s, o, ints)
  }

  /**
    The float half of a predicate on operands `o`: the next identifier is the
    fraction, and the joined text must be a decimal; `ints` are the entries
    already built.
   */
  function Fraction(s: seq<Entry>, o: Operands, ints: seq<Where>): (r: Reading)
    requires WellFormed(s) && o.next < |s|
    ensures o.next <= r.next < |s|
  {
    var kf := Seek(s, o.next, Identifier);
    var text := o.value + "." + s[kf].1;
    if !DecimalFloat(o.value, s[kf].1) then Reading(Failed(BadFloat(text)), [], Step(s, kf))
    else Reading(Ok, ints + FloatCompare(o.sel, o.name, text), Step(s, kf))
  }

  /** The raw tokens up to EOF: the predicates in order, or the first error. */
  function WhereScan(et: Option<Schema>, s: seq<Entry>, i: nat): (r: (Status, seq<Where>))
    requires WellFormed(s) && i < |s|
    ensures r.0 != Hangs
    ensures !r.0.Ok? ==> r.1 == []
    decreases |s| - i
  {
    var t := s[i].0;
    if t == EOF then (Ok, [])
    else if !Opens(t) then WhereScan(et, s, i + 1)
    else
      var p := Predicate(et, s, i + 1);
      if !p.status.Ok? then (p.status, [])
      else
        var rest := WhereScan(et, s, p.next);
        if !rest.0.Ok? then rest else (Ok, p.entries + rest.1)
  }

  /** The predicates `list` followed by a scan's: a failure stays a failure. */
  function Then(list: seq<Where>, r: (Status, seq<Where>)): (Status, seq<Where>) {
    if r.0.Ok? then (Ok, list + r.1) else r
  }

  /** One step of `WhereScan` at a token that opens no predicate. */
  lemma WhereScanSkips(et: Option<Schema>, s: seq<Entry>, i: nat)
    requires WellFormed(s) && i < |s| && s[i].0 != EOF && !Opens(s[i].0)
    ensures WhereScan(et, s, i) == WhereScan(et, s, i + 1)
  {
  }

  /** One step of `WhereScan` at a `where`, `and` or `or`, given the predicate `p` read after it. */
  lemma WhereScanOpens(et: Option<Schema>, s: seq<Entry>, i: nat, list: seq<Where>, p: Reading)
    requires WellFormed(s) && i < |s| && Opens(s[i].0) && p == Predicate(et, s, Step(s, i))
    ensures Then(list, WhereScan(et, s, i)) ==
      if p.status.Ok? then Then(list + p.entries, WhereScan(et, s, p.next)) else (p.status, [])
  {
    if p.status.Ok? {
      var later := WhereScan(et, s, p.next);
      assert list + (p.entries + later.1) == (list + p.entries) + later.1;
    }
  }

  /** The predicates are recorded only if the pass succeeds. */
  function WherePass(s: seq<Entry>, i: nat, st: Snapshot): Outcome
    requires WellFormed(s) && i < |s|
  {
    match PastAnchor(s, i, DOT)
    case None => Outcome(Hangs, st)
    case Some(k) =>
      var r := WhereScan(st.eventType, s, k);
      if r.0.Ok? then Outcome(Ok, st.(where := st.where + r.1)) else Outcome(r.0, st)
  }

  // The driver

  /** `Parse`'s verdict when a pass does not succeed. */
  function Abort(c: Clause, r: Status): Verdict
    requires !r.Ok?
  {
    if r.Hangs? then Diverges else Rejected(InClause(c, r.error))
  }

  /** `Parse` on a query the scanner turns into `s`. */
  function ParseSpec(reg: map<string, Schema>, s: seq<Entry>): Verdict
    requires WellFormed(s)
  {
    if s[0].0 != SELECT then Rejected(NotSelect(s[0].1))
    else
      var e := EventTypePass(reg, s, 0, Empty);
      if !e.status.Ok? then Abort(EventTypeClause, e.status)
      else
        var f := FunctionScan(s, 0, e.after);
        if !f.status.Ok? then Abort(FunctionClause, f.status)
        else
          var w := WindowPass(s, 0, f.after);
          if !w.status.Ok? then Abort(WindowClause, w.status)
          else
            var p := WherePass(s, 0, w.after);
            if !p.status.Ok? then Abort(WhereClause, p.status)
            else Accepted(p.after)
  }

  /** `ParseSpec` on a `select` query, through the outcomes of its four passes. */
  lemma ParseSpecStages(reg: map<string, Schema>, s: seq<Entry>, e: Outcome, f: Outcome, w: Outcome, p: Outcome)
    requires WellFormed(s) && s[0].0 == SELECT
    requires e == EventTypePass(reg, s, 0, Empty) && f == FunctionScan(s, 0, e.after)
    requires w == WindowPass(s, 0, f.after) && p == WherePass(s, 0, w.after)
    ensures ParseSpec(reg, s) ==
      if !e.status.Ok? then Abort(EventTypeClause, e.status)
      else if !f.status.Ok? then Abort(FunctionClause, f.status)
      else if !w.status.Ok? then Abort(WindowClause, w.status)
      else if !p.status.Ok? then Abort(WhereClause, p.status)
      else Accepted(p.after)
  {
  }

  class Parser {
    var registry: map<string, Schema>

    /** `parser.New()`: an empty registry. */
    constructor ()
      ensures registry == map[]
    {
      registry := map[];
    }

    /** Registers event type `t` under `name`, replacing any earlier one. */
    method Register(name: string, t: Schema)
      modifies this
      ensures registry == old(registry)[name := t]
      ensures name in registry && registry[name] == t
      ensures forall n :: n != name ==>
        (n in registry <==> n in old(registry)) && (n in registry ==> registry[n] == old(registry)[n])
    {
      registry := registry[name := t];
    }

    method ParseEventType(s: Statement, l: Lexer) returns (r: Status)
      requires l.Valid()
      modifies s, l
      ensures l.Valid()
      ensures r == EventTypePass(registry, l.stream, old(l.pos), old(s.Value())).status
      ensures s.Value() == EventTypePass(registry, l.stream, old(l.pos), old(s.Value())).after
    {
      var found := SkipTo(l, FROM);
      if !found {
        return Hangs;
      }
      while true
        invariant l.Valid()
        invariant EventTypeScan(registry, l.stream, l.pos, s.Value()) ==
          EventTypePass(registry, l.stream, old(l.pos), old(s.Value()))
        decreases |l.stream| - l.pos
      {
        var token, literal := l.Tokenize();
        match token
        case EOF => return Failed(InvalidToken(literal));
        case DOT => return Ok;
        case IDENTIFIER =>
          if literal !in registry {
            return Failed(Unregistered(literal));
          }
          s.SetEventType(registry[literal]);
        case _ =>
      }
    }

    method ParseFunction(s: Statement, l: Lexer) returns (r: Status)
      requires l.Valid()
      modifies s, l
      ensures l.Valid()
      ensures r == FunctionScan(l.stream, old(l.pos), old(s.Value())).status
      ensures s.Value() == FunctionScan(l.stream, old(l.pos), old(s.Value())).after
    {
      while true
        invariant l.Valid()
        invariant FunctionScan(l.stream, l.pos, s.Value()) == FunctionScan(l.stream, old(l.pos), old(s.Value()))
        decreases |l.stream| - l.pos
      {
        ghost var st := s.Value();
        var token, literal := l.Tokenize();
        var op := AggregateOf(token);
        if token == EOF {
          return Failed(InvalidToken(literal));
        } else if token == FROM {
          return Ok;
        } else if token == ASTERISK {
          s.SetFunction(SelectAll);
        } else if token == COUNT {
          s.SetFunction(Count("count(*)"));
        } else if op.Some? {
          var _, name := l.TokenizeIdentifier();
          if IntField(s.eventType, name) {
            s.SetFunction(Aggregate(op.value, Int, name, Column(op.value, name)));
          }
          if FloatField(s.eventType, name) {
            s.SetFunction(Aggregate(op.value, Float, name, Column(op.value, name)));
          }
          assert s.Value() == st.(functions := st.functions + Aggregates(op.value, st.eventType, name));
        }
      }
    }

    method ParseWindow(s: Statement, l: Lexer) returns (r: Status)
      requires l.Valid()
      modifies s, l
      ensures l.Valid()
      ensures r == WindowPass(l.stream, old(l.pos), old(s.Value())).status
      ensures s.Value() == WindowPass(l.stream, old(l.pos), old(s.Value())).after
    {
      var found := SkipTo(l, DOT);
      if !found {
        return Hangs;
      }
      var token, literal := l.Tokenize();
      if token == EOF {
        return Failed(InvalidToken(literal));
      }
      if token == LENGTH {
        s.SetWindow(token);
        var _, lex := l.TokenizeIdentifier();
        var length := Atoi(lex);
        if length.None? {
          return Failed(BadInt(lex));
        }
        s.SetLength(length.value);
        return Ok;
      }
      if token == TIME {
        s.SetWindow(token);
        var _, lex := l.TokenizeIdentifier();
        var ct := Atoi(lex);
        if ct.None? {
          return Failed(BadInt(lex));
        }
        var t, _ := l.TokenizeIgnoreWhiteSpace();
        if t == SEC {
          s.SetTime(Scaled(ct.value, Second));
        } else if t == MIN {
          s.SetTime(Scaled(ct.value, Minute));
        }
        return Ok;
      }
      return Failed(InvalidToken(literal));
    }

    /** The body of the predicate loop after a `where`, `and` or `or`. */
    method ReadPredicate(et: Option<Schema>, l: Lexer) returns (status: Status, entries: seq<Where>)
      requires l.Valid()
      modifies l
      ensures l.Valid()
      ensures Reading(status, entries, l.pos) == Predicate(et, l.stream, old(l.pos))
    {
      ghost var i := l.pos;
      var _, name := l.TokenizeIdentifier();
      var sel, _ := l.TokenizeIgnoreIdentifier();
      var _, value := l.TokenizeIdentifier();
      var o := Operands(name, sel, value, l.pos);
      assert o == ReadOperands(l.stream, i);
      entries := [];
      if IntField(et, name) {
        var val := Atoi(value);
        if val.None? {
          return Failed(BadInt(value)), [];
        }
        match sel {
          case LARGER => entries := entries + [IntComparison(Larger, name, val.value)];
          case LESS => entries := entries + [IntComparison(Less, name, val.value)];
          case _ =>
        }
        assert entries == IntCompare(sel, name, val.value);
      }
      if FloatField(et, name) {
        ghost var ints := entries;
        status, entries := ReadFraction(l, o, entries);
        assert Predicate(et, l.stream, i) == Fraction(l.stream, o, ints);
        return;
      }
      return Ok, entries;
    }

    /** The float half of the predicate loop's body. */
    method ReadFraction(l: Lexer, o: Operands, ints: seq<Where>) returns (status: Status, entries: seq<Where>)
      requires l.Valid() && o.next == l.pos
      modifies l
      ensures l.Valid()
      ensures Reading(status, entries, l.pos) == Fraction(l.stream, o, ints)
    {
      var _, value2 := l.TokenizeIdentifier();
      var fvalue := o.value + "." + value2;
      if !DecimalFloat(o.value, value2) {
        return Failed(BadFloat(fvalue)), [];
      }
      entries := ints;
      match o.sel {
        case LARGER => entries := entries + [FloatComparison(Larger, o.name, fvalue)];
        case LESS => entries := entries + [FloatComparison(Less, o.name, fvalue)];
        case _ =>
      }
      return Ok, entries;
    }

    /** The predicate loop: the predicates up to EOF, in order, or the first error. */
    method ScanWhere(et: Option<Schema>, l: Lexer) returns (status: Status, list: seq<Where>)
      requires l.Valid()
      modifies l
      ensures l.Valid()
      ensures (status, list) == WhereScan(et, l.stream, old(l.pos))
    {
      ghost var start := l.pos;
      list := [];
      assert list + WhereScan(et, l.stream, start).1 == WhereScan(et, l.stream, start).1;
      while true
        invariant l.Valid()
        invariant WhereScan(et, l.stream, start) == Then(list, WhereScan(et, l.stream, l.pos))
        decreases |l.stream| - l.pos
      {
        ghost var i := l.pos;
        var token, _ := l.Tokenize();
        if token == EOF {
          assert list + [] == list;
          break;
        }
        if !Opens(token) {
          WhereScanSkips(et, l.stream, i);
          continue;
        }
        var result, entries := ReadPredicate(et, l);
        WhereScanOpens(et, l.stream, i, list, Reading(result, entries, l.pos));
        if !result.Ok? {
          return result, [];
        }
        list := list + entries;
      }
      return Ok, list;
    }

    method ParseWhere(s: Statement, l: Lexer) returns (r: Status)
      requires l.Valid()
      modifies s, l
      ensures l.Valid()
      ensures r == WherePass(l.stream, old(l.pos), old(s.Value())).status
      ensures s.Value() == WherePass(l.stream, old(l.pos), old(s.Value())).after
    {
      var found := SkipTo(l, DOT);
      if !found {
        return Hangs;
      }
      var list;
      r, list := ScanWhere(s.eventType, l);
      if r.Ok? {
        s.SetWhere(list);
      }
    }

    /** `Parse`: the statement when every pass succeeds, otherwise the first failure. */
    method Parse(s: seq<Entry>) returns (stmt: Statement?, v: Verdict)
      requires WellFormed(s)
      ensures v == ParseSpec(registry, s)
      ensures stmt != null <==> v.Accepted?
      ensures stmt != null ==> fresh(stmt) && stmt.Value() == v.statement
    {
      var st := new Statement();
      var first := new Lexer(s);
      var token, literal := first.Tokenize();
      if token != SELECT {
        return null, Rejected(NotSelect(literal));
      }
      ghost var e := EventTypePass(registry, s, 0, Empty);
      ghost var f := FunctionScan(s, 0, e.after);
      ghost var w := WindowPass(s, 0, f.after);
      ghost var p := WherePass(s, 0, w.after);
      ParseSpecStages(registry, s, e, f, w, p);
      var l := new Lexer(s);
      var r := ParseEventType(st, l);
      assert r == e.status && st.Value() == e.after;
      if !r.Ok? {
        return null, Abort(EventTypeClause, r);
      }
      l := new Lexer(s);
      r := ParseFunction(st, l);
      assert r == f.status && st.Value() == f.after;
      if !r.Ok? {
        return null, Abort(FunctionClause, r);
      }
      l := new Lexer(s);
      r := ParseWindow(st, l);
      assert r == w.status && st.Value() == w.after;
      if !r.Ok? {
        return null, Abort(WindowClause, r);
      }
      l := new Lexer(s);
      r := ParseWhere(st, l);
      assert r == p.status && st.Value() == p.after;
      if !r.Ok? {
        return null, Abort(WhereClause, r);
      }
      return st, Accepted(st.Value());
    }
  }
}
