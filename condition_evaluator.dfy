/**
 * The evaluator of guard conditions: every condition has a truth value in
 * every state.  Paths are resolved with the state's dotted-path lookup;
 * a comparison with an absent path or with values of different kinds is
 * false, except that an absent path equals `null`.
 */
module ConditionEvaluator {
  import opened Wrappers
  import opened Strings
  import opened Json
  import opened ConditionAst
  import Store
  import StoreLaws
  import ConditionParser
  import ConditionPrint

  /** The JSON value a literal stands for. */
  function LiteralValue(lit: Literal): Value
  {
    match lit
    case String(s) => Json.String(s)
    case Number(n) => Json.Number(n)
    case Boolean(b) => Bool(b)
    case Null => Json.Null
  }

  /**
   * `==` between a looked-up value and a literal: the value is exactly the
   * literal's value, or the path is absent and the literal is `null`.
   */
  function ValuesEqual(left: Option<Value>, right: Literal): (r: bool)
    ensures r <==> left == Some(LiteralValue(right)) || (left.None? && right.Null?)
  {
    match left
    case None => right.Null?
    case Some(v) =>
      match (v, right)
      case (Null, Null) => true
      case (String(s), String(rs)) => s == rs
      case (Number(n), Number(rn)) => n == rn
      case (Bool(b), Boolean(rb)) => b == rb
      case _ => false
  }

  /** An ordering test: true only between a stored number and a number literal. */
  function CompareNumbers(left: Option<Value>, right: Literal, cmp: (real, real) -> bool): (r: bool)
    ensures r ==> left.Some? && left.value.Number? && right.Number?
    ensures left.Some? && left.value.Number? && right.Number? ==> (r <==> cmp(left.value.n, right.n))
  {
    match (left, right)
    case (Some(Number(n)), Number(rn)) => cmp(n, rn)
    case _ => false
  }

  /** `arr.iter().any(..)` for the element test `contains` applies to arrays. */
  function AnyMatches(items: seq<Value>, right: Literal): (r: bool)
    requires right.String? || right.Number? || right.Boolean?
    ensures r <==> LiteralValue(right) in items
  {
    if items == [] then false
    else
      var hit := match (items[0], right)
        case (String(s), String(v)) => s == v
        case (Number(f), Number(v)) => f == v
        case (Bool(b), Boolean(v)) => b == v
        case _ => false;
      assert items == [items[0]] + items[1..];
      hit || AnyMatches(items[1..], right)
  }

  /**
   * `contains`: a substring test on a stored string, a membership test on a
   * stored array for string, number and boolean literals, false otherwise.
   */
  function CheckContains(left: Option<Value>, right: Literal): (r: bool)
    ensures r <==>
      (left.Some? && left.value.String? && right.String? && Strings.Contains(left.value.s, right.s)) ||
      (left.Some? && left.value.Array? && !right.Null? && LiteralValue(right) in left.value.items)
  {
    match (left, right)
    case (Some(String(s)), String(sub)) => Strings.Contains(s, sub)
    case (Some(Array(items)), String(_)) => AnyMatches(items, right)
    case (Some(Array(items)), Number(_)) => AnyMatches(items, right)
    case (Some(Array(items)), Boolean(_)) => AnyMatches(items, right)
    case _ => false
  }

  /** One comparison against the fields of a state. */
  function EvaluateCompare(left: string, op: CompareOp, right: Literal, fields: Store.Fields): bool
  {
    var v := Store.Lookup(fields, left);
    match op
    case Eq => ValuesEqual(v, right)
    case NotEq => !ValuesEqual(v, right)
    case Gt => CompareNumbers(v, right, (a, b) => a > b)
    case Gte => CompareNumbers(v, right, (a, b) => a >= b)
    case Lt => CompareNumbers(v, right, (a, b) => a < b)
    case Lte => CompareNumbers(v, right, (a, b) => a <= b)
    case Contains => CheckContains(v, right)
  }

  /** The truth value of a condition in a state. */
  function Evaluate(e: Expression, fields: Store.Fields): bool
  {
    match e
    case True => true
    case False => false
    case Compare(left, op, right) => EvaluateCompare(left, op, right, fields)
    case And(l, r) => Evaluate(l, fields) && Evaluate(r, fields)
    case Or(l, r) => Evaluate(l, fields) || Evaluate(r, fields)
    case Not(inner) => !Evaluate(inner, fields)
  }

  /** Ordering comparisons hold only between a stored number and a number literal, in numeric order. */
  lemma OrderingSemantics(path: string, lit: Literal, fields: Store.Fields)
    ensures var v := Store.Lookup(fields, path);
      var numeric := v.Some? && v.value.Number? && lit.Number?;
      (EvaluateCompare(path, Gt, lit, fields) <==> numeric && v.value.n > lit.n) &&
      (EvaluateCompare(path, Gte, lit, fields) <==> numeric && v.value.n >= lit.n) &&
      (EvaluateCompare(path, Lt, lit, fields) <==> numeric && v.value.n < lit.n) &&
      (EvaluateCompare(path, Lte, lit, fields) <==> numeric && v.value.n <= lit.n)
  {
  }

  /**
   * Between a stored number and a number literal exactly one of `>`, `==`
   * and `<` holds, `>=` is `>` or `==`, `<=` is `<` or `==`.
   */
  lemma NumericTrichotomy(path: string, lit: Literal, fields: Store.Fields)
    requires var v := Store.Lookup(fields, path); v.Some? && v.value.Number? && lit.Number?
    ensures var gt, eq, lt := EvaluateCompare(path, Gt, lit, fields), EvaluateCompare(path, Eq, lit, fields),
                              EvaluateCompare(path, Lt, lit, fields);
      (gt || eq || lt) && !(gt && eq) && !(gt && lt) && !(eq && lt) &&
      (EvaluateCompare(path, Gte, lit, fields) <==> gt || eq) &&
      (EvaluateCompare(path, Lte, lit, fields) <==> lt || eq)
  {
    OrderingSemantics(path, lit, fields);
  }

  /** `!=` is the negation of `==`; an absent path is unequal to every literal but `null`. */
  lemma InequalityIsNegation(path: string, lit: Literal, fields: Store.Fields)
    ensures EvaluateCompare(path, NotEq, lit, fields) == !EvaluateCompare(path, Eq, lit, fields)
    ensures Store.Lookup(fields, path).None? ==>
      (EvaluateCompare(path, Eq, lit, fields) <==> lit.Null?) &&
      (EvaluateCompare(path, NotEq, lit, fields) <==> !lit.Null?)
  {
  }

  /** Nothing is contained in an absent path, and a `null` literal is contained in nothing. */
  lemma ContainsNeedsValue(path: string, lit: Literal, fields: Store.Fields)
    ensures Store.Lookup(fields, path).None? ==> !EvaluateCompare(path, Contains, lit, fields)
    ensures lit.Null? ==> !EvaluateCompare(path, Contains, lit, fields)
  {
  }

  /**
   * After a state without declared reducers is updated with `value` under a
   * plain field name, an equality guard on that name holds exactly when
   * the value is the literal's value.
   */
  lemma GuardAfterUpdate(fields: Store.Fields, name: string, value: Value, lit: Literal)
    requires '.' !in name
    ensures EvaluateCompare(name, Eq, lit, Store.Updated(fields, map[], name, value)) <==> value == LiteralValue(lit)
  {
    var after := Store.Updated(fields, map[], name, value);
    assert Store.FieldValue(after, name) == Some(value);
    StoreLaws.LookupPlainName(after, name);
  }

  /** A path reaches into nested objects: `result.data.intent` names a member of a member of `result`. */
  lemma NestedPathGuard(fields: Store.Fields, field: string, key1: string, key2: string, s: string)
    requires '.' !in field && '.' !in key1 && '.' !in key2
    requires field in fields && fields[field] == Single(key1, Single(key2, Json.String(s)))
    ensures EvaluateCompare(field + "." + key1 + "." + key2, Eq, Literal.String(s), fields)
  {
    var segments := [field, key1, key2];
    assert Join(segments, ".") == field + "." + key1 + "." + key2 by {
      assert Join(segments[1..], ".") == key1 + "." + Join(segments[2..], ".");
    }
    StoreLaws.LookupSegments(fields, segments);
    assert segments[1..] == [key1, key2] && [key1, key2][1..] == [key2];
  }

  /** A printable condition, printed and parsed back, holds in exactly the states where it held. */
  lemma GuardTextMeansCondition(e: Expression, fields: Store.Fields, renderNumber: real -> string,
                                parseNumber: string -> Option<real>)
    requires ConditionPrint.Printable(e, renderNumber, parseNumber)
    ensures var parsed := ConditionParser.Parse(ConditionPrint.Show(e, renderNumber), parseNumber);
      parsed.Ok? && Evaluate(parsed.value, fields) == Evaluate(e, fields)
  {
    ConditionPrint.ParseShow(e, renderNumber, parseNumber);
  }
}
