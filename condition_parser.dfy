/**
 * The guard parser: it splits at the leftmost top-level `and`/`or`, and
 * otherwise finds the first operator of a fixed priority list outside
 * quotes and parses the literal after it.
 */
module ConditionParser {
  import opened Wrappers
  import opened Strings
  import opened ConditionAst

  predicate IsQuote(c: char)
  {
    c == '\'' || c == '"'
  }

  /**
   * What a left-to-right scan knows before a position: whether it is inside
   * a quoted region (both quote characters toggle one flag) and the nesting
   * depth of parentheses met outside quotes.
   */
  datatype ScanState = ScanState(inString: bool, depth: int)

  function Step(st: ScanState, c: char): ScanState
  {
    if IsQuote(c) then st.(inString := !st.inString)
    else if st.inString then st
    else if c == '(' then st.(depth := st.depth + 1)
    else if c == ')' then st.(depth := st.depth - 1)
    else st
  }

  /** The scan state before position `i` of `s`. */
  function StateAt(s: string, i: nat): ScanState
    requires i <= |s|
  {
    if i == 0 then ScanState(false, 0) else Step(StateAt(s, i - 1), s[i - 1])
  }

  datatype Connective = AndWord | OrWord

  /** The connective that starts at position `i` at the top level, if any. */
  function ConnectiveAt(s: string, i: nat): Option<Connective>
    requires i < |s|
  {
    var st := StateAt(s, i);
    if IsQuote(s[i]) || st.inString || s[i] == '(' || s[i] == ')' || st.depth != 0 then None
    else if OccursAt(s, " and ", i) then Some(AndWord)
    else if OccursAt(s, " or ", i) then Some(OrWord)
    else None
  }

  /** The leftmost top-level connective at or after position `i`. */
  function FindConnective(s: string, i: nat): (r: Option<(nat, Connective)>)
    requires i <= |s|
    ensures r.Some? ==> i <= r.value.0 < |s| && ConnectiveAt(s, r.value.0) == Some(r.value.1)
    ensures r.Some? ==> forall j :: i <= j < r.value.0 ==> ConnectiveAt(s, j).None?
    ensures r.None? ==> forall j :: i <= j < |s| ==> ConnectiveAt(s, j).None?
    decreases |s| - i
  {
    if i == |s| then None
    else match ConnectiveAt(s, i)
      case Some(c) => Some((i, c))
      case None => FindConnective(s, i + 1)
  }

  function ConnectiveWidth(c: Connective): nat
  {
    if c == AndWord then 5 else 4
  }

  /** `op` starts at position `i`, outside quotes. */
  predicate OperatorAt(s: string, op: string, i: nat)
  {
    i < |s| && !IsQuote(s[i]) && !StateAt(s, i).inString && StartsWith(s[i..], op)
  }

  /** The leftmost position at or after `i` where `op` starts outside quotes. */
  function FindOperatorFrom(s: string, op: string, i: nat): (r: Option<nat>)
    requires i <= |s|
    ensures r.Some? ==> i <= r.value < |s| && OperatorAt(s, op, r.value)
    ensures r.Some? ==> forall j :: i <= j < r.value ==> !OperatorAt(s, op, j)
    ensures r.None? ==> forall j :: i <= j < |s| ==> !OperatorAt(s, op, j)
    decreases |s| - i
  {
    if i == |s| then None
    else if OperatorAt(s, op, i) then Some(i)
    else FindOperatorFrom(s, op, i + 1)
  }

  /** The operators in the order they are tried, with the text searched for each. */
  const Operators: seq<(string, CompareOp)> :=
    [("!=", NotEq), (">=", Gte), ("<=", Lte), ("==", Eq), (">", Gt), ("<", Lt), (" contains ", Contains)]

  /** The text searched for `op`: its displayed form, surrounded by spaces for `contains`. */
  function Token(op: CompareOp): (t: string)
    ensures op != Contains ==> t == Display(op)
    ensures op == Contains ==> t == " " + Display(op) + " "
  {
    if op == Contains then " contains " else Display(op)
  }

  /** Every operator is tried, under its token. */
  lemma OperatorsCoverAll(op: CompareOp)
    ensures exists k :: 0 <= k < |Operators| && Operators[k] == (Token(op), op)
  {
    match op
    case NotEq => assert Operators[0] == (Token(op), op);
    case Gte => assert Operators[1] == (Token(op), op);
    case Lte => assert Operators[2] == (Token(op), op);
    case Eq => assert Operators[3] == (Token(op), op);
    case Gt => assert Operators[4] == (Token(op), op);
    case Lt => assert Operators[5] == (Token(op), op);
    case Contains => assert Operators[6] == (Token(op), op);
  }

  /** Starts and ends with the same quote character. */
  predicate Quoted(s: string)
  {
    (StartsWith(s, "'") && EndsWith(s, "'")) || (StartsWith(s, "\"") && EndsWith(s, "\""))
  }

  /**
   * A literal: null, a boolean, a quoted string or a number.  A string
   * literal comes only from quoted text of at least two characters, and its
   * value is what lies between the quotes.
   */
  function ParseLiteral(input: string, parseNumber: string -> Option<real>): (r: Result<Literal, string>)
    ensures var t := Trim(input);
      |t| >= 2 && Quoted(t) ==> r == Ok(String(t[1..|t| - 1]))
    ensures var t := Trim(input);
      r.Ok? && r.value.String? ==> |t| >= 2 && Quoted(t)
    ensures r.Err? ==> r.error == "Could not parse literal: " + Trim(input) && parseNumber(Trim(input)).None?
  {
    LiteralOf(Trim(input), parseNumber)
  }

  /** The literal a trimmed text denotes. */
  function LiteralOf(s: string, parseNumber: string -> Option<real>): Result<Literal, string>
  {
    if s == "null" then Ok(Null)
    else if s == "true" then Ok(Boolean(true))
    else if s == "false" then Ok(Boolean(false))
    else if |s| >= 2 && Quoted(s) then
      Ok(String(s[1..|s| - 1]))
    else match parseNumber(s)
      case Some(n) => Ok(Number(n))
      case None => Err("Could not parse literal: " + s)
  }

  /** What the literal parser does as written: a lone quote character makes it panic. */
  datatype LiteralOutcome = Parsed(lit: Literal) | Rejected(message: string) | Panicked

  function ParseLiteralAsWritten(input: string, parseNumber: string -> Option<real>): LiteralOutcome
  {
    var s := Trim(input);
    if s == "null" then Parsed(Null)
    else if s == "true" then Parsed(Boolean(true))
    else if s == "false" then Parsed(Boolean(false))
    else if Quoted(s) then
      if 1 <= |s| - 1 then Parsed(String(s[1..|s| - 1])) else Panicked
    else match parseNumber(s)
      case Some(n) => Parsed(Number(n))
      case None => Rejected("Could not parse literal: " + s)
  }

  /** A lone quote passes the quoting test and its body slice runs backwards. */
  lemma LoneQuotePanics(parseNumber: string -> Option<real>)
    ensures ParseLiteralAsWritten("'", parseNumber) == Panicked
  {
    var s := "'";
    TrimOfTrimmed(s);
    assert s != "null" && s != "true" && s != "false";
    assert StartsWith(s, "'") && EndsWith(s, "'");
  }

  /** Wherever the parser as written does not panic, the corrected one gives the same answer. */
  lemma ParseLiteralCorrected(input: string, parseNumber: string -> Option<real>)
    ensures ParseLiteralAsWritten(input, parseNumber) != Panicked ==>
      ParseLiteralAsWritten(input, parseNumber) ==
        match ParseLiteral(input, parseNumber) case Ok(l) => Parsed(l) case Err(e) => Rejected(e)
    ensures ParseLiteralAsWritten(input, parseNumber) == Panicked ==>
      (Trim(input) == "'" || Trim(input) == "\"") &&
      (parseNumber(Trim(input)).None? ==> ParseLiteral(input, parseNumber).Err?)
  {
  }

  /** Text between matching quotes is a string literal, quotes removed. */
  lemma QuotedLiteral(q: char, body: string, parseNumber: string -> Option<real>)
    requires IsQuote(q)
    ensures ParseLiteral([q] + body + [q], parseNumber) == Ok(String(body))
  {
    var s := [q] + body + [q];
    TrimOfTrimmed(s);
    QuotedText(q, body, parseNumber);
  }

  lemma QuotedText(q: char, body: string, parseNumber: string -> Option<real>)
    requires IsQuote(q)
    ensures LiteralOf([q] + body + [q], parseNumber) == Ok(String(body))
  {
    var s := [q] + body + [q];
    assert s[..1] == [q] && s[|s| - 1..] == [q];
    if q == '\'' {
      assert StartsWith(s, "'") && EndsWith(s, "'");
    } else {
      assert StartsWith(s, "\"") && EndsWith(s, "\"");
    }
    assert s[0] == q;
    assert s[1..|s| - 1] == body;
  }

  /** A comparison: the first operator found, in priority order, splits path from literal. */
  function ParseComparison(s: string, parseNumber: string -> Option<real>): Result<Expression, string>
  {
    TryOperators(s, 0, parseNumber)
  }

  /** Of the operators from the `k`-th on, the first that occurs outside quotes. */
  function FirstOperator(s: string, k: nat): (m: Option<nat>)
    requires k <= |Operators|
    ensures m.Some? ==> k <= m.value < |Operators| && FindOperatorFrom(s, Operators[m.value].0, 0).Some?
    ensures m.Some? ==> forall j :: k <= j < m.value ==> FindOperatorFrom(s, Operators[j].0, 0).None?
    ensures m.None? ==> forall j :: k <= j < |Operators| ==> FindOperatorFrom(s, Operators[j].0, 0).None?
    decreases |Operators| - k
  {
    if k == |Operators| then None
    else if FindOperatorFrom(s, Operators[k].0, 0).Some? then Some(k)
    else FirstOperator(s, k + 1)
  }

  /** The comparison that splits `s` at `token`, found at `pos`: trimmed path before it, literal after it. */
  function SplitAt(s: string, pos: nat, token: string, op: CompareOp, parseNumber: string -> Option<real>): (r: Result<Expression, string>)
    requires pos + |token| <= |s|
    ensures r.Err? ==> ParseFailure(r.error)
  {
    var right := ParseLiteral(s[pos + |token|..], parseNumber);
    if right.Ok? then Ok(Compare(Trim(s[..pos]), op, right.value)) else Err(right.error)
  }

  /**
   * Tries the operators from the `k`-th on, in order: the first one found
   * outside quotes decides the comparison; when none is found the text is
   * not a condition.
   */
  function TryOperators(s: string, k: nat, parseNumber: string -> Option<real>): (r: Result<Expression, string>)
    requires k <= |Operators|
    ensures FirstOperator(s, k).None? ==> r == Err("Could not parse condition: " + s)
    ensures r.Err? ==> ParseFailure(r.error)
    ensures FirstOperator(s, k).Some? ==>
      var (token, op) := Operators[FirstOperator(s, k).value];
      r == SplitAt(s, FindOperatorFrom(s, token, 0).value, token, op, parseNumber)
    decreases |Operators| - k
  {
    if k == |Operators| then Err("Could not parse condition: " + s)
    else if FindOperatorFrom(s, Operators[k].0, 0).Some? then
      SplitAt(s, FindOperatorFrom(s, Operators[k].0, 0).value, Operators[k].0, Operators[k].1, parseNumber)
    else TryOperators(s, k + 1, parseNumber)
  }

  /** The two messages parsing fails with: a condition or a literal that could not be read. */
  predicate ParseFailure(e: string)
  {
    StartsWith(e, "Could not parse condition: ") || StartsWith(e, "Could not parse literal: ")
  }

  /** Parses a guard condition; whatever fails, the error names the condition or the literal it could not read. */
  function Parse(input: string, parseNumber: string -> Option<real>): (r: Result<Expression, string>)
    ensures r.Err? ==> ParseFailure(r.error)
    decreases |input|, 2
  {
    var s := Trim(input);
    if s == "true" then Ok(True)
    else if s == "false" then Ok(False)
    else match Compound(s, parseNumber)
      case Err(e) => Err(e)
      case Ok(Some(e)) => Ok(e)
      case Ok(None) => ParseComparison(s, parseNumber)
  }

  /**
   * Splits at the leftmost top-level connective and parses both sides;
   * `None` when there is no such connective.
   */
  function Compound(s: string, parseNumber: string -> Option<real>): (r: Result<Option<Expression>, string>)
    ensures r.Err? ==> ParseFailure(r.error)
    decreases |s|, 1
  {
    match FindConnective(s, 0)
    case None => Ok(None)
    case Some((i, c)) => ParseSides(s, i, c, parseNumber)
  }

  /** Parses the text on either side of the connective `c` at position `i`. */
  function ParseSides(s: string, i: nat, c: Connective, parseNumber: string -> Option<real>): (r: Result<Option<Expression>, string>)
    requires i + ConnectiveWidth(c) <= |s|
    ensures r.Err? ==> ParseFailure(r.error)
    decreases |s|, 0
  {
    match Parse(s[..i], parseNumber)
    case Err(e) => Err(e)
    case Ok(left) =>
      match Parse(s[i + ConnectiveWidth(c)..], parseNumber)
      case Err(e) => Err(e)
      case Ok(right) => Ok(Some(if c == AndWord then And(left, right) else Or(left, right)))
  }

  /** No guard text parses to a negation: the parser has no `not`. */
  predicate NoNegation(e: Expression)
  {
    match e
    case Not(_) => false
    case And(l, r) => NoNegation(l) && NoNegation(r)
    case Or(l, r) => NoNegation(l) && NoNegation(r)
    case _ => true
  }

  lemma {:induction false} ParseNeverNegates(input: string, parseNumber: string -> Option<real>)
    ensures Parse(input, parseNumber).Ok? ==> NoNegation(Parse(input, parseNumber).value)
    decreases |input|
  {
    var s := Trim(input);
    if s != "true" && s != "false" {
      match FindConnective(s, 0)
      case None =>
        assert Compound(s, parseNumber) == Ok(None);
        ComparisonIsCompare(s, parseNumber);
      case Some((i, c)) =>
        assert Compound(s, parseNumber) == ParseSides(s, i, c, parseNumber);
        ParseNeverNegates(s[..i], parseNumber);
        ParseNeverNegates(s[i + ConnectiveWidth(c)..], parseNumber);
    }
  }

  lemma ComparisonIsCompare(s: string, parseNumber: string -> Option<real>)
    ensures ParseComparison(s, parseNumber).Ok? ==> ParseComparison(s, parseNumber).value.Compare?
  {
  }

  /** After trimming, the words `true` and `false` are the constant conditions. */
  lemma ParseConstants(input: string, parseNumber: string -> Option<real>)
    ensures Trim(input) == "true" ==> Parse(input, parseNumber) == Ok(True)
    ensures Trim(input) == "false" ==> Parse(input, parseNumber) == Ok(False)
  {
  }

  /** White space of any kind around a constant guard is trimmed: after a no-break space `true` still reads as `true`. */
  lemma ParseUnicodeSpace(a: string, b: string, parseNumber: string -> Option<real>)
    requires forall k :: 0 <= k < |a| ==> IsSpace(a[k])
    requires forall k :: 0 <= k < |b| ==> IsSpace(b[k])
    ensures Parse(a + "true" + b, parseNumber) == Ok(True)
    ensures Parse(a + "false" + b, parseNumber) == Ok(False)
  {
    TrimAround(a, "true", b);
    ParseConstants(a + "true" + b, parseNumber);
    TrimAround(a, "false", b);
    ParseConstants(a + "false" + b, parseNumber);
  }

  /** The character scan that looks for a top-level connective, then parses both sides. */
  method TryParseCompound(s: string, parseNumber: string -> Option<real>) returns (r: Result<Option<Expression>, string>)
    ensures r == Compound(s, parseNumber)
  {
    var depth := 0;
    var inString := false;
    var i := 0;
    while i < |s|
      invariant 0 <= i <= |s|
      invariant ScanState(inString, depth) == StateAt(s, i)
      invariant FindConnective(s, 0) == FindConnective(s, i)
    {
      var c := s[i];
      if c == '\'' || c == '"' {
        inString := !inString;
      } else if !inString {
        if c == '(' {
          depth := depth + 1;
        } else if c == ')' {
          depth := depth - 1;
        } else if depth == 0 {
          if i + 5 <= |s| && s[i..i + 5] == " and " {
            assert ConnectiveAt(s, i) == Some(AndWord);
            assert FindConnective(s, 0) == Some((i, AndWord));
            r := ParseBothSides(s, i, AndWord, parseNumber);
            return;
          }
          if i + 4 <= |s| && s[i..i + 4] == " or " {
            assert ConnectiveAt(s, i) == Some(OrWord);
            assert FindConnective(s, 0) == Some((i, OrWord));
            r := ParseBothSides(s, i, OrWord, parseNumber);
            return;
          }
        }
      }
      i := i + 1;
    }
    return Ok(None);
  }

  /** Parses the two sides of a connective, stopping at the first error. */
  method ParseBothSides(s: string, i: nat, c: Connective, parseNumber: string -> Option<real>)
    returns (r: Result<Option<Expression>, string>)
    requires i + ConnectiveWidth(c) <= |s|
    ensures r == ParseSides(s, i, c, parseNumber)
  {
    var left := Parse(s[..i], parseNumber);
    if left.Err? {
      return Err(left.error);
    }
    var right := Parse(s[i + ConnectiveWidth(c)..], parseNumber);
    if right.Err? {
      return Err(right.error);
    }
    if c == AndWord {
      return Ok(Some(And(left.value, right.value)));
    } else {
      return Ok(Some(Or(left.value, right.value)));
    }
  }

  /** The character scan that finds the first position of `op` outside quotes. */
  method FindOperator(s: string, op: string) returns (r: Option<nat>)
    ensures r == FindOperatorFrom(s, op, 0)
  {
    var inString := false;
    var i := 0;
    while i < |s|
      invariant 0 <= i <= |s|
      invariant inString == StateAt(s, i).inString
      invariant FindOperatorFrom(s, op, 0) == FindOperatorFrom(s, op, i)
    {
      var c := s[i];
      if c == '\'' || c == '"' {
        inString := !inString;
      } else if !inString && StartsWith(s[i..], op) {
        return Some(i);
      }
      i := i + 1;
    }
    return None;
  }
}
