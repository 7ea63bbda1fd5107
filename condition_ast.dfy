/** The syntax of guard conditions on graph nodes. */
module ConditionAst {

  /** Comparison operators. */
  datatype CompareOp = Eq | NotEq | Gt | Gte | Lt | Lte | Contains

  /** The literal on the right of a comparison. */
  datatype Literal = String(s: string) | Number(n: real) | Boolean(b: bool) | Null

  /**
   * A condition: a comparison of the value at a dotted path with a literal,
   * the connectives, and the two constants.
   */
  datatype Expression =
    | Compare(left: string, op: CompareOp, right: Literal)
    | And(lhs: Expression, rhs: Expression)
    | Or(lhs: Expression, rhs: Expression)
    | Not(inner: Expression)
    | True
    | False

  /** How an operator is displayed. */
  function Display(op: CompareOp): string
  {
    match op
    case Eq => "=="
    case NotEq => "!="
    case Gt => ">"
    case Gte => ">="
    case Lt => "<"
    case Lte => "<="
    case Contains => "contains"
  }

  /** Different operators display differently. */
  lemma DisplayInjective(a: CompareOp, b: CompareOp)
    ensures Display(a) == Display(b) <==> a == b
  {
  }
}
