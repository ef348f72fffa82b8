/**
  The statement a query compiles to, and the event types it refers to.

  An event type is seen only through its field kinds: the names of its
  integer fields and of its float fields. A statement is built by the
  parser's passes through its setters; its fields start unset.
 */
module Statement {
  import opened Wrappers
  import opened Lexer
  import opened Expr

  /** A registered event type, through the kinds of its fields. */
  datatype Schema = Schema(ints: set<string>, floats: set<string>)

  /** Whether `name` is an integer field of the event type (false when none is set). */
  predicate IntField(et: Option<Schema>, name: string) {
    et.Some? && name in et.value.ints
  }

  /** Whether `name` is a float field of the event type (false when none is set). */
  predicate FloatField(et: Option<Schema>, name: string) {
    et.Some? && name in et.value.floats
  }

  /**
    The contents of a statement. `None` stands for a field the passes never
    set; `duration` is in nanoseconds.
   */
  datatype Snapshot = Snapshot(
    eventType: Option<Schema>,
    functions: seq<Function>,
    window: Option<Token>,
    length: Option<int>,
    duration: Option<int>,
    where: seq<Where>)

  const Empty: Snapshot := Snapshot(None, [], None, None, None, [])

  class Statement {
    var eventType: Option<Schema>
    var functions: seq<Function>
    var window: Option<Token>
    var length: Option<int>
    var duration: Option<int>
    var where: seq<Where>

    function Value(): Snapshot
      reads this
    {
      Snapshot(eventType, functions, window, length, duration, where)
    }

    /** `statement.New()`: nothing set. */
    constructor ()
      ensures Value() == Empty
    {
      eventType, functions, window, length, duration, where := None, [], None, None, None, [];
    }

    method SetEventType(t: Schema)
      modifies this
      ensures Value() == old(Value()).(eventType := Some(t))
    {
      eventType := Some(t);
    }

    /** Appends one projection entry. */
    method SetFunction(f: Function)
      modifies this
      ensures Value() == old(Value()).(functions := old(functions) + [f])
    {
      functions := functions + [f];
    }

    method SetWindow(t: Token)
      modifies this
      ensures Value() == old(Value()).(window := Some(t))
    {
      window := Some(t);
    }

    method SetLength(n: int)
      modifies this
      ensures Value() == old(Value()).(length := Some(n))
    {
      length := Some(n);
    }

    method SetTime(d: int)
      modifies this
      ensures Value() == old(Value()).(duration := Some(d))
    {
      duration := Some(d);
    }

    /** Appends predicates, in order. */
    method SetWhere(list: seq<Where>)
      modifies this
      ensures Value() == old(Value()).(where := old(where) + list)
    {
      where := where + list;
    }
  }
}
