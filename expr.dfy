/**
  The expressions a parsed statement holds: projection entries and
  predicate comparisons. Each Go expression type (`MaxInt`, `AverageFloat`,
  `LargerThanInt`, ...) is one constructor applied to its operator and
  numeric kind.
 */
module Expr {

  /** The aggregates that take a field name. */
  datatype AggOp = Max | Min | Med | Sum | Avg

  /** The kind of field an aggregate or comparison is built for. */
  datatype NumKind = Int | Float

  /** The spelling of an aggregate in queries and in its column name. */
  function OpName(op: AggOp): string {
    match op
    case Max => "max"
    case Min => "min"
    case Med => "med"
    case Sum => "sum"
    case Avg => "avg"
  }

  /** The output column name (`As`) of an aggregate over field `name`: `op(name)`. */
  function Column(op: AggOp, name: string): string {
    OpName(op) + "(" + name + ")"
  }

  /**
    A projection entry: `SelectAll{}`, `Count{As}`, or one of the ten typed
    aggregates with its field name and output column name (`As`).
   */
  datatype Function =
    | SelectAll
    | Count(column: string)
    | Aggregate(op: AggOp, kind: NumKind, name: string, column: string)

  datatype Cmp = Larger | Less

  /**
    A predicate: an integer comparison holds the converted value; a float
    comparison holds the decimal text it was converted from.
   */
  datatype Where =
    | IntComparison(cmp: Cmp, name: string, value: int)
    | FloatComparison(cmp: Cmp, name: string, text: string)

  /** Different aggregates, or different fields, have different column names. */
  lemma ColumnInjective(op1: AggOp, name1: string, op2: AggOp, name2: string)
    requires Column(op1, name1) == Column(op2, name2)
    ensures op1 == op2 && name1 == name2
  {
    var l := Column(op1, name1);
    assert |OpName(op1)| == 3 && |OpName(op2)| == 3;
    assert OpName(op1) == l[..3] == OpName(op2);
    assert name1 == l[4..|l| - 1] == name2;
  }
}
