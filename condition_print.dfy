/**
 * A printer for guard conditions and the proof that the parser reads back
 * what it prints: the parser and the printer are inverse on conditions
 * whose paths are identifiers, whose string literals contain no quote
 * character and whose connectives nest to the right.
 */
module ConditionPrint {
  import opened Wrappers
  import opened Strings
  import opened ConditionAst
  import opened ConditionParser

  predicate PathChar(c: char)
  {
    'a' <= c <= 'z' || 'A' <= c <= 'Z' || '0' <= c <= '9' || c == '_' || c == '.'
  }

  /** The characters a printed number may use. */
  predicate NumberChar(c: char)
  {
    '0' <= c <= '9' || c == '.' || c == '-' || c == '+' || c == 'e' || c == 'E'
  }

  predicate IsPath(p: string)
  {
    |p| >= 1 && forall i :: 0 <= i < |p| ==> PathChar(p[i])
  }

  function LiteralText(lit: Literal, renderNumber: real -> string): string
  {
    match lit
    case String(x) => "'" + x + "'"
    case Number(n) => renderNumber(n)
    case Boolean(b) => if b then "true" else "false"
    case Null => "null"
  }

  /** The text of a condition, connectives written between their operands. */
  function Show(e: Expression, renderNumber: real -> string): string
  {
    match e
    case Compare(p, op, lit) => p + " " + Display(op) + " " + LiteralText(lit, renderNumber)
    case And(l, r) => Show(l, renderNumber) + " and " + Show(r, renderNumber)
    case Or(l, r) => Show(l, renderNumber) + " or " + Show(r, renderNumber)
    case Not(x) => "not " + Show(x, renderNumber)
    case True => "true"
    case False => "false"
  }

  /** A literal whose text reads back as itself. */
  predicate PrintableLiteral(lit: Literal, renderNumber: real -> string, parseNumber: string -> Option<real>)
  {
    match lit
    case String(x) => forall i :: 0 <= i < |x| ==> !IsQuote(x[i])
    case Number(n) =>
      var t := renderNumber(n);
      |t| >= 1 && (forall i :: 0 <= i < |t| ==> NumberChar(t[i])) && parseNumber(t) == Some(n)
    case _ => true
  }

  /** A comparison on an identifier path, or a constant. */
  predicate PrintableAtom(e: Expression, renderNumber: real -> string, parseNumber: string -> Option<real>)
  {
    match e
    case Compare(p, _, lit) => IsPath(p) && PrintableLiteral(lit, renderNumber, parseNumber)
    case True => true
    case False => true
    case _ => false
  }

  /** A chain of atoms joined by connectives that nest to the right. */
  predicate Printable(e: Expression, renderNumber: real -> string, parseNumber: string -> Option<real>)
  {
    match e
    case And(l, r) => PrintableAtom(l, renderNumber, parseNumber) && Printable(r, renderNumber, parseNumber)
    case Or(l, r) => PrintableAtom(l, renderNumber, parseNumber) && Printable(r, renderNumber, parseNumber)
    case _ => PrintableAtom(e, renderNumber, parseNumber)
  }

  /** Characters that can start an operator token other than ` contains `. */
  predicate OpChar(c: char)
  {
    c == '!' || c == '<' || c == '>' || c == '='
  }

  /** Scanning characters that are neither quotes nor (outside quotes) parentheses leaves the state alone. */
  lemma {:induction false} StateSteady(s: string, i: nat, j: nat)
    requires i <= j <= |s|
    requires forall k :: i <= k < j ==> !IsQuote(s[k]) && (StateAt(s, i).inString || (s[k] != '(' && s[k] != ')'))
    ensures forall k :: i <= k <= j ==> StateAt(s, k) == StateAt(s, i)
    decreases j - i
  {
    if i < j {
      assert StateAt(s, i + 1) == StateAt(s, i);
      StateSteady(s, i + 1, j);
    }
  }

  /** No displayed operator contains a quote, a parenthesis or white space. */
  lemma DisplayChars(op: CompareOp)
    ensures 1 <= |Display(op)| <= 8
    ensures forall i :: 0 <= i < |Display(op)| ==>
      !IsQuote(Display(op)[i]) && Display(op)[i] != '(' && Display(op)[i] != ')' && Display(op)[i] != ' '
    ensures Display(op)[0] != 'a' && Display(op)[0] != 'o'
  {
  }

  /** The text of a printable literal outside its quotes: no quote, parenthesis or white space. */
  predicate PlainLiteral(lit: Literal, renderNumber: real -> string)
  {
    !lit.String? ==>
      var t := LiteralText(lit, renderNumber);
      forall i :: 0 <= i < |t| ==> !IsQuote(t[i]) && t[i] != '(' && t[i] != ')' && t[i] != ' ' && !OpChar(t[i])
  }

  lemma LiteralChars(lit: Literal, renderNumber: real -> string, parseNumber: string -> Option<real>)
    requires PrintableLiteral(lit, renderNumber, parseNumber)
    ensures PlainLiteral(lit, renderNumber)
    ensures |LiteralText(lit, renderNumber)| >= 1
    ensures var c := LiteralText(lit, renderNumber)[0]; c != ' ' && c != 'a' && c != 'o' && c != 'c'
    ensures var t := LiteralText(lit, renderNumber); t[|t| - 1] != ' '
  {
  }

  /** Characters that leave a scan state that is outside quotes alone. */
  predicate Plain(w: string)
  {
    forall k :: 0 <= k < |w| ==> !IsQuote(w[k]) && w[k] != '(' && w[k] != ')'
  }

  lemma PlainRun(s: string, i: nat, w: string)
    requires i + |w| <= |s| && s[i..i + |w|] == w && Plain(w)
    requires !StateAt(s, i).inString
    ensures forall k :: i <= k <= i + |w| ==> StateAt(s, k) == StateAt(s, i)
  {
    forall k | i <= k < i + |w|
      ensures s[k] == w[k - i]
    {
    }
    StateSteady(s, i, i + |w|);
  }

  /** A quoted run without inner quotes: inside it the scan is in a string, after it the state is back. */
  lemma QuotedRun(s: string, i: nat, x: string)
    requires i + |x| + 2 <= |s| && s[i..i + |x| + 2] == "'" + x + "'"
    requires forall k :: 0 <= k < |x| ==> !IsQuote(x[k])
    requires !StateAt(s, i).inString
    ensures forall k :: i + 1 <= k <= i + 1 + |x| ==> StateAt(s, k) == StateAt(s, i).(inString := true)
    ensures StateAt(s, i + |x| + 2) == StateAt(s, i)
  {
    assert s[i] == '\'';
    assert StateAt(s, i + 1) == StateAt(s, i).(inString := true);
    forall k | i + 1 <= k < i + 1 + |x|
      ensures s[k] == x[k - i - 1]
    {
      assert s[k] == (s[i..i + |x| + 2])[k - i];
    }
    StateSteady(s, i + 1, i + 1 + |x|);
    assert s[i + 1 + |x|] == (s[i..i + |x| + 2])[|x| + 1];
  }

  /**
   * The scan states along `Show(a) + tail` for a printable comparison `a`:
   * outside the literal's quotes the state is the initial one, inside them
   * the scan is in a string, and after the comparison it is back to the
   * initial state.
   */
  lemma CompareStates(p: string, op: CompareOp, lit: Literal, renderNumber: real -> string,
                      parseNumber: string -> Option<real>, tail: string)
    requires IsPath(p) && PrintableLiteral(lit, renderNumber, parseNumber)
    ensures var t := Show(Compare(p, op, lit), renderNumber);
      var s := t + tail;
      var n2 := |p| + 1 + |Display(op)|;
      |t| == n2 + 1 + |LiteralText(lit, renderNumber)| &&
      StateAt(s, |t|) == ScanState(false, 0) &&
      (forall k :: 0 <= k <= n2 + 1 ==> StateAt(s, k) == ScanState(false, 0)) &&
      (lit.String? ==> forall k :: n2 + 2 <= k <= n2 + 2 + |lit.s| ==> StateAt(s, k).inString) &&
      (!lit.String? ==> forall k :: n2 + 1 <= k <= |t| ==> StateAt(s, k) == ScanState(false, 0))
  {
    var d := Display(op);
    var l := LiteralText(lit, renderNumber);
    var pre := p + " " + d + " ";
    var t := Show(Compare(p, op, lit), renderNumber);
    var s := t + tail;
    assert t == pre + l;
    DisplayChars(op);
    LiteralChars(lit, renderNumber, parseNumber);
    assert Plain(pre) by {
      forall k | 0 <= k < |pre|
        ensures !IsQuote(pre[k]) && pre[k] != '(' && pre[k] != ')'
      {
        if k < |p| {
          assert pre[k] == p[k];
        } else if |p| < k < |p| + 1 + |d| {
          assert pre[k] == d[k - |p| - 1];
        }
      }
    }
    assert s[0..|pre|] == pre;
    PlainRun(s, 0, pre);
    assert s[|pre|..|t|] == l;
    if lit.String? {
      QuotedRun(s, |pre|, lit.s);
    } else {
      PlainRun(s, |pre|, l);
    }
  }

  /** Where the pieces of a printed comparison sit. */
  lemma CompareLayout(p: string, op: CompareOp, lit: Literal, renderNumber: real -> string)
    ensures var t := Show(Compare(p, op, lit), renderNumber);
      var d := Display(op);
      var l := LiteralText(lit, renderNumber);
      var n2 := |p| + 1 + |d|;
      |t| == n2 + 1 + |l| && t[|p|] == ' ' && t[n2] == ' ' &&
      (forall k :: 0 <= k < |p| ==> t[k] == p[k]) &&
      (forall k :: |p| < k < n2 ==> t[k] == d[k - |p| - 1]) &&
      (forall k :: n2 < k < |t| ==> t[k] == l[k - n2 - 1])
  {
    var t := Show(Compare(p, op, lit), renderNumber);
    assert t == p + " " + Display(op) + " " + LiteralText(lit, renderNumber);
  }

  /** A connective starts with a space followed by `a` or `o`, outside quotes. */
  lemma NotConnective(s: string, j: nat)
    requires j < |s|
    requires s[j] != ' ' || StateAt(s, j).inString || (j + 1 < |s| && s[j + 1] != 'a' && s[j + 1] != 'o')
    ensures ConnectiveAt(s, j).None?
  {
    if j + 4 <= |s| {
      assert s[j..j + 4][0] == s[j] && s[j..j + 4][1] == s[j + 1];
    }
    if j + 5 <= |s| {
      assert s[j..j + 5][0] == s[j] && s[j..j + 5][1] == s[j + 1];
    }
  }

  /**
   * In a printed comparison followed by anything, no connective starts
   * inside the comparison: the only spaces outside the literal's quotes
   * are followed by the operator or the literal.
   */
  lemma CompareHasNoConnective(p: string, op: CompareOp, lit: Literal, renderNumber: real -> string,
                               parseNumber: string -> Option<real>, tail: string)
    requires IsPath(p) && PrintableLiteral(lit, renderNumber, parseNumber)
    ensures var t := Show(Compare(p, op, lit), renderNumber);
      forall j :: 0 <= j < |t| ==> ConnectiveAt(t + tail, j).None?
  {
    var t := Show(Compare(p, op, lit), renderNumber);
    var s := t + tail;
    var d := Display(op);
    var l := LiteralText(lit, renderNumber);
    var n2 := |p| + 1 + |d|;
    CompareLayout(p, op, lit, renderNumber);
    CompareStates(p, op, lit, renderNumber, parseNumber, tail);
    DisplayChars(op);
    LiteralChars(lit, renderNumber, parseNumber);
    forall j | 0 <= j < |t|
      ensures ConnectiveAt(s, j).None?
    {
      assert s[j] == t[j];
      if j == |p| || j == n2 {
        assert j + 1 < |t| && s[j + 1] == t[j + 1];
      } else if lit.String? && n2 < j {
        assert l == "'" + lit.s + "'";
        assert IsQuote(t[j]) || StateAt(s, j).inString by {
          if j != n2 + 1 && j != n2 + 2 + |lit.s| {
            assert StateAt(s, j).inString;
          }
        }
      }
      NotConnective(s, j);
    }
  }

  /**
   * Outside the displayed operator and the literal's quotes, a printed
   * comparison holds no operator character, and its only spaces are the
   * two around the operator.
   */
  lemma CharOutsideOperator(p: string, op: CompareOp, lit: Literal, renderNumber: real -> string,
                            parseNumber: string -> Option<real>, j: nat)
    requires IsPath(p) && PrintableLiteral(lit, renderNumber, parseNumber)
    requires j < |Show(Compare(p, op, lit), renderNumber)|
    requires !(|p| < j < |p| + 1 + |Display(op)|)
    ensures var t := Show(Compare(p, op, lit), renderNumber);
      IsQuote(t[j]) || StateAt(t, j).inString ||
      (!OpChar(t[j]) && (t[j] == ' ' ==> j == |p| || j == |p| + 1 + |Display(op)|))
  {
    var t := Show(Compare(p, op, lit), renderNumber);
    var l := LiteralText(lit, renderNumber);
    var n2 := |p| + 1 + |Display(op)|;
    CompareLayout(p, op, lit, renderNumber);
    LiteralChars(lit, renderNumber, parseNumber);
    if lit.String? && j > n2 {
      CompareStates(p, op, lit, renderNumber, parseNumber, []);
      assert t + [] == t;
      assert l == "'" + lit.s + "'";
    }
  }

  /** A token of operator characters is found in a printed comparison only inside the displayed operator. */
  lemma OpTokenInCompare(p: string, op: CompareOp, lit: Literal, renderNumber: real -> string,
                         parseNumber: string -> Option<real>, token: string, j: nat)
    requires IsPath(p) && PrintableLiteral(lit, renderNumber, parseNumber)
    requires OperatorAt(Show(Compare(p, op, lit), renderNumber), token, j)
    requires |token| >= 1 && OpChar(token[0]) && (|token| == 1 || (|token| == 2 && token[1] == '='))
    ensures var n1 := |p| + 1;
      n1 <= j && j + |token| <= n1 + |Display(op)| && Display(op)[j - n1] == token[0] &&
      (|token| == 2 ==> Display(op)[j - n1 + 1] == token[1])
  {
    var t := Show(Compare(p, op, lit), renderNumber);
    var n2 := |p| + 1 + |Display(op)|;
    CompareLayout(p, op, lit, renderNumber);
    assert t[j..][..|token|] == token;
    assert t[j] == token[0];
    if !(|p| < j < n2) {
      CharOutsideOperator(p, op, lit, renderNumber, parseNumber, j);
    }
    if |token| == 2 {
      assert t[j + 1] == token[1];
    }
  }

  /** ` contains ` is found in a printed comparison only right after the path, and only for `contains`. */
  lemma ContainsTokenInCompare(p: string, op: CompareOp, lit: Literal, renderNumber: real -> string,
                               parseNumber: string -> Option<real>, j: nat)
    requires IsPath(p) && PrintableLiteral(lit, renderNumber, parseNumber)
    requires OperatorAt(Show(Compare(p, op, lit), renderNumber), " contains ", j)
    ensures j == |p| && op == Contains
  {
    var t := Show(Compare(p, op, lit), renderNumber);
    var n2 := |p| + 1 + |Display(op)|;
    CompareLayout(p, op, lit, renderNumber);
    LiteralChars(lit, renderNumber, parseNumber);
    DisplayChars(op);
    var w := t[j..][..10];
    assert w == " contains ";
    assert t[j] == w[0] == ' ';
    assert t[j + 1] == w[1] == 'c';
    if |p| < j < n2 {
      assert false;
    }
    CharOutsideOperator(p, op, lit, renderNumber, parseNumber, j);
    if j == n2 {
      assert false;
    }
    assert j == |p| && Display(op)[0] == 'c';
  }

  /** The position of an operator in the order the parser tries them. */
  function OpIndex(op: CompareOp): (k: nat)
    ensures k < |Operators| && Operators[k] == (Token(op), op)
  {
    match op
    case NotEq => 0
    case Gte => 1
    case Lte => 2
    case Eq => 3
    case Gt => 4
    case Lt => 5
    case Contains => 6
  }

  /** Where the parser finds the operator of a printed comparison: after the path's space, or at it for ` contains `. */
  function OpPosition(p: string, op: CompareOp): nat
  {
    if op == Contains then |p| else |p| + 1
  }

  /** An operator tried before the printed one is not found in a printed comparison. */
  lemma EarlierTokenAbsent(p: string, op: CompareOp, lit: Literal, renderNumber: real -> string,
                           parseNumber: string -> Option<real>, k: nat)
    requires IsPath(p) && PrintableLiteral(lit, renderNumber, parseNumber)
    requires k < OpIndex(op)
    ensures FindOperatorFrom(Show(Compare(p, op, lit), renderNumber), Operators[k].0, 0).None?
  {
    var t := Show(Compare(p, op, lit), renderNumber);
    var token := Operators[k].0;
    var r := FindOperatorFrom(t, token, 0);
    if r.Some? {
      OpTokenInCompare(p, op, lit, renderNumber, parseNumber, token, r.value);
    }
  }

  lemma OwnTokenAt(p: string, op: CompareOp, lit: Literal, renderNumber: real -> string,
                   parseNumber: string -> Option<real>)
    requires IsPath(p) && PrintableLiteral(lit, renderNumber, parseNumber)
    ensures OperatorAt(Show(Compare(p, op, lit), renderNumber), Token(op), OpPosition(p, op))
  {
    var t := Show(Compare(p, op, lit), renderNumber);
    var pos := OpPosition(p, op);
    var token := Token(op);
    var rest := LiteralText(lit, renderNumber);
    if op == Contains {
      assert t == p + token + rest;
    } else {
      assert t == (p + " ") + token + (" " + rest);
    }
    assert t[pos..][..|token|] == token;
    CompareStates(p, op, lit, renderNumber, parseNumber, []);
    assert t + [] == t;
  }

  /** The printed operator is found where it was printed. */
  lemma OwnTokenFound(p: string, op: CompareOp, lit: Literal, renderNumber: real -> string,
                      parseNumber: string -> Option<real>)
    requires IsPath(p) && PrintableLiteral(lit, renderNumber, parseNumber)
    ensures FindOperatorFrom(Show(Compare(p, op, lit), renderNumber), Token(op), 0) == Some(OpPosition(p, op))
  {
    var t := Show(Compare(p, op, lit), renderNumber);
    var pos := OpPosition(p, op);
    var token := Token(op);
    OwnTokenAt(p, op, lit, renderNumber, parseNumber);
    forall j | 0 <= j < pos
      ensures !OperatorAt(t, token, j)
    {
      NoTokenBefore(p, op, lit, renderNumber, parseNumber, j);
    }
  }

  /** Before where it was printed, the printed operator's token is not found. */
  lemma NoTokenBefore(p: string, op: CompareOp, lit: Literal, renderNumber: real -> string,
                      parseNumber: string -> Option<real>, j: nat)
    requires IsPath(p) && PrintableLiteral(lit, renderNumber, parseNumber)
    requires j < OpPosition(p, op)
    ensures !OperatorAt(Show(Compare(p, op, lit), renderNumber), Token(op), j)
  {
    if OperatorAt(Show(Compare(p, op, lit), renderNumber), Token(op), j) {
      if op == Contains {
        ContainsTokenInCompare(p, op, lit, renderNumber, parseNumber, j);
      } else {
        OpTokenInCompare(p, op, lit, renderNumber, parseNumber, Token(op), j);
      }
    }
  }

  /**
   * In a printed comparison the parser finds no operator it tries before
   * the printed one, and finds the printed one where it was printed.
   */
  lemma CompareOperatorFound(p: string, op: CompareOp, lit: Literal, renderNumber: real -> string,
                             parseNumber: string -> Option<real>)
    requires IsPath(p) && PrintableLiteral(lit, renderNumber, parseNumber)
    ensures var t := Show(Compare(p, op, lit), renderNumber);
      FirstOperator(t, 0) == Some(OpIndex(op)) &&
      FindOperatorFrom(t, Token(op), 0) == Some(OpPosition(p, op))
  {
    var t := Show(Compare(p, op, lit), renderNumber);
    forall k | 0 <= k < OpIndex(op)
      ensures FindOperatorFrom(t, Operators[k].0, 0).None?
    {
      EarlierTokenAbsent(p, op, lit, renderNumber, parseNumber, k);
    }
    OwnTokenFound(p, op, lit, renderNumber, parseNumber);
  }

  /** A path, with or without the space that follows it, trims to itself. */
  lemma TrimPath(p: string)
    requires IsPath(p)
    ensures Trim(p) == p && Trim(p + " ") == p
  {
    TrimOfTrimmed(p);
    var x := p + " ";
    assert SkipSpaces(x, 0) == 0;
    assert SkipSpacesBack(x, |x| - 1) == |p|;
    assert x[0..|p|] == p;
  }

  /** The text of a printable literal denotes that literal. */
  lemma LiteralTextOf(lit: Literal, renderNumber: real -> string, parseNumber: string -> Option<real>)
    requires PrintableLiteral(lit, renderNumber, parseNumber)
    ensures LiteralOf(LiteralText(lit, renderNumber), parseNumber) == Ok(lit)
  {
    match lit
    case String(x) =>
      assert LiteralText(lit, renderNumber) == ['\''] + x + ['\''];
      QuotedText('\'', x, parseNumber);
    case Number(n) =>
      var t := renderNumber(n);
      assert !NumberChar('n') && !NumberChar('t') && !NumberChar('f') && !NumberChar('\'') && !NumberChar('"');
      assert t != "null" && t != "true" && t != "false" && !Quoted(t) by {
        if |t| >= 1 {
          assert NumberChar(t[0]);
        }
      }
    case Boolean(b) =>
    case Null =>
  }

  /** A printable literal's text, with or without a leading space, parses to that literal. */
  lemma LiteralRoundTrip(lit: Literal, renderNumber: real -> string, parseNumber: string -> Option<real>)
    requires PrintableLiteral(lit, renderNumber, parseNumber)
    ensures ParseLiteral(LiteralText(lit, renderNumber), parseNumber) == Ok(lit)
    ensures ParseLiteral(" " + LiteralText(lit, renderNumber), parseNumber) == Ok(lit)
  {
    var l := LiteralText(lit, renderNumber);
    LiteralChars(lit, renderNumber, parseNumber);
    TrimOfTrimmed(l);
    TrimAround(" ", l, "");
    assert " " + l + "" == " " + l;
    LiteralTextOf(lit, renderNumber, parseNumber);
  }

  /** What precedes the operator's token in a printed comparison. */
  function PathPart(p: string, op: CompareOp): string
  {
    if op == Contains then p else p + " "
  }

  /** What follows the operator's token in a printed comparison. */
  function LiteralPart(lit: Literal, op: CompareOp, renderNumber: real -> string): string
  {
    if op == Contains then LiteralText(lit, renderNumber) else " " + LiteralText(lit, renderNumber)
  }

  lemma ShowIsParts(p: string, op: CompareOp, lit: Literal, renderNumber: real -> string)
    ensures Show(Compare(p, op, lit), renderNumber) == PathPart(p, op) + Token(op) + LiteralPart(lit, op, renderNumber)
    ensures |PathPart(p, op)| == OpPosition(p, op)
  {
    var l := LiteralText(lit, renderNumber);
    var d := Display(op);
    if op == Contains {
      RegroupInner(p, d, l);
    } else {
      RegroupOuter(p, d, l);
    }
  }

  /** Regrouping a printed comparison around its spaced operator. */
  lemma RegroupInner(p: string, d: string, l: string)
    ensures p + " " + d + " " + l == p + (" " + d + " ") + l
  {
  }

  /** Regrouping a printed comparison with the spaces on the operands' side. */
  lemma RegroupOuter(p: string, d: string, l: string)
    ensures p + " " + d + " " + l == (p + " ") + d + (" " + l)
  {
  }

  lemma PartsParse(p: string, op: CompareOp, lit: Literal, renderNumber: real -> string,
                   parseNumber: string -> Option<real>)
    requires IsPath(p) && PrintableLiteral(lit, renderNumber, parseNumber)
    ensures Trim(PathPart(p, op)) == p && ParseLiteral(LiteralPart(lit, op, renderNumber), parseNumber) == Ok(lit)
  {
    LiteralRoundTrip(lit, renderNumber, parseNumber);
    TrimPath(p);
  }

  /** A comparison split at a token between a path and a literal. */
  lemma SplitPieces(a: string, token: string, c: string, op: CompareOp, parseNumber: string -> Option<real>,
                    left: string, lit: Literal)
    requires Trim(a) == left && ParseLiteral(c, parseNumber) == Ok(lit)
    ensures SplitAt(a + token + c, |a|, token, op, parseNumber) == Ok(Compare(left, op, lit))
  {
    var s := a + token + c;
    assert s[..|a|] == a && s[|a| + |token|..] == c;
  }

  /** The comparison parser on a text whose first operator is found between a path and a literal. */
  lemma ComparisonOfParts(t: string, a: string, c: string, k: nat, parseNumber: string -> Option<real>,
                          left: string, lit: Literal)
    requires k < |Operators| && t == a + Operators[k].0 + c
    requires FirstOperator(t, 0) == Some(k) && FindOperatorFrom(t, Operators[k].0, 0) == Some(|a|)
    requires Trim(a) == left && ParseLiteral(c, parseNumber) == Ok(lit)
    ensures ParseComparison(t, parseNumber) == Ok(Compare(left, Operators[k].1, lit))
  {
    SplitPieces(a, Operators[k].0, c, Operators[k].1, parseNumber, left, lit);
  }

  /** The comparison parser reads a printed comparison back. */
  lemma ParseCompareShow(p: string, op: CompareOp, lit: Literal, renderNumber: real -> string,
                         parseNumber: string -> Option<real>)
    requires IsPath(p) && PrintableLiteral(lit, renderNumber, parseNumber)
    ensures ParseComparison(Show(Compare(p, op, lit), renderNumber), parseNumber) == Ok(Compare(p, op, lit))
  {
    CompareOperatorFound(p, op, lit, renderNumber, parseNumber);
    ShowIsParts(p, op, lit, renderNumber);
    PartsParse(p, op, lit, renderNumber, parseNumber);
    ComparisonOfParts(Show(Compare(p, op, lit), renderNumber), PathPart(p, op), LiteralPart(lit, op, renderNumber),
                      OpIndex(op), parseNumber, p, lit);
  }

  /**
   * Facts about a printed atom followed by anything: the scan is back in
   * its initial state after it, and no connective starts inside it.
   */
  lemma AtomScan(a: Expression, renderNumber: real -> string, parseNumber: string -> Option<real>, tail: string)
    requires PrintableAtom(a, renderNumber, parseNumber)
    ensures var t := Show(a, renderNumber);
      StateAt(t + tail, |t|) == ScanState(false, 0) &&
      forall j :: 0 <= j < |t| ==> ConnectiveAt(t + tail, j).None?
  {
    var t := Show(a, renderNumber);
    var s := t + tail;
    match a
    case Compare(p, op, lit) =>
      CompareStates(p, op, lit, renderNumber, parseNumber, tail);
      CompareHasNoConnective(p, op, lit, renderNumber, parseNumber, tail);
    case True =>
      ConstantScan(t, tail);
    case False =>
      ConstantScan(t, tail);
  }

  lemma ConstantScan(t: string, tail: string)
    requires t == "true" || t == "false"
    ensures StateAt(t + tail, |t|) == ScanState(false, 0)
    ensures forall j :: 0 <= j < |t| ==> ConnectiveAt(t + tail, j).None?
  {
    var s := t + tail;
    assert s[0..|t|] == t;
    PlainRun(s, 0, t);
    forall j | 0 <= j < |t|
      ensures ConnectiveAt(s, j).None?
    {
      assert s[j] == t[j];
      NotConnective(s, j);
    }
  }

  /** A text of at least four characters that neither starts nor ends with white space. */
  predicate Unpadded(t: string)
  {
    |t| >= 4 && !IsSpace(t[0]) && !IsSpace(t[|t| - 1])
  }

  /** The text of a printable condition neither starts nor ends with white space. */
  lemma {:induction false} ShowEnds(e: Expression, renderNumber: real -> string, parseNumber: string -> Option<real>)
    requires Printable(e, renderNumber, parseNumber)
    ensures Unpadded(Show(e, renderNumber))
  {
    match e
    case And(l, r) =>
      AtomEnds(l, renderNumber, parseNumber);
      ShowEnds(r, renderNumber, parseNumber);
      JoinedEnds(Show(l, renderNumber), " and ", Show(r, renderNumber));
    case Or(l, r) =>
      AtomEnds(l, renderNumber, parseNumber);
      ShowEnds(r, renderNumber, parseNumber);
      JoinedEnds(Show(l, renderNumber), " or ", Show(r, renderNumber));
    case _ =>
      AtomEnds(e, renderNumber, parseNumber);
  }

  /** The text of a printable atom neither starts nor ends with white space. */
  lemma AtomEnds(a: Expression, renderNumber: real -> string, parseNumber: string -> Option<real>)
    requires PrintableAtom(a, renderNumber, parseNumber)
    ensures Unpadded(Show(a, renderNumber))
  {
    if a.Compare? {
      CompareEnds(a.left, a.op, a.right, renderNumber, parseNumber);
    }
  }

  /** A printed comparison starts with its path and ends with its literal. */
  lemma CompareEnds(p: string, op: CompareOp, lit: Literal, renderNumber: real -> string, parseNumber: string -> Option<real>)
    requires PrintableAtom(Compare(p, op, lit), renderNumber, parseNumber)
    ensures Unpadded(Show(Compare(p, op, lit), renderNumber))
  {
    CompareLayout(p, op, lit, renderNumber);
    LiteralChars(lit, renderNumber, parseNumber);
    var l := LiteralText(lit, renderNumber);
    var t := Show(Compare(p, op, lit), renderNumber);
    assert t[|t| - 1] == l[|l| - 1];
    assert t[0] == p[0];
    DisplayChars(op);
  }

  /** Joining two texts keeps the first one's start and the last one's end. */
  lemma JoinedEnds(x: string, sep: string, y: string)
    requires Unpadded(x) && Unpadded(y)
    ensures Unpadded(x + sep + y)
  {
    var t := x + sep + y;
    assert t[0] == x[0];
    assert t[|t| - 1] == y[|y| - 1];
  }

  /** The text of a connective as the parser looks for it. */
  function Word(c: Connective): (w: string)
    ensures |w| == ConnectiveWidth(c)
  {
    if c == AndWord then " and " else " or "
  }

  /** After a printed atom, the connective that follows is the leftmost one. */
  lemma ConnectiveAfterAtom(a: Expression, c: Connective, rest: string, renderNumber: real -> string,
                            parseNumber: string -> Option<real>)
    requires PrintableAtom(a, renderNumber, parseNumber)
    ensures var t := Show(a, renderNumber);
      FindConnective(t + Word(c) + rest, 0) == Some((|t|, c))
  {
    var t := Show(a, renderNumber);
    var s := t + Word(c) + rest;
    assert s == t + (Word(c) + rest);
    AtomScan(a, renderNumber, parseNumber, Word(c) + rest);
    WordAt(t, c, rest);
    FirstConnective(s, 0, |t|, c);
  }

  /** A connective's word at the top level, right after `t`, is found there. */
  lemma WordAt(t: string, c: Connective, rest: string)
    requires StateAt(t + (Word(c) + rest), |t|) == ScanState(false, 0)
    ensures |t| < |t + Word(c) + rest| && ConnectiveAt(t + Word(c) + rest, |t|) == Some(c)
  {
    var w := Word(c);
    var s := t + w + rest;
    assert s == t + (w + rest);
    assert s[|t|..|t| + |w|] == w;
    assert s[|t|] == ' ';
    assert OccursAt(s, w, |t|);
    if c == OrWord {
      assert s[|t| + 1] == 'o';
      assert !OccursAt(s, " and ", |t|) by {
        if |t| + 5 <= |s| {
          assert s[|t|..|t| + 5][1] == s[|t| + 1];
        }
      }
    }
  }

  /** The first position holding a connective is where the search stops. */
  lemma {:induction false} FirstConnective(s: string, i: nat, k: nat, c: Connective)
    requires i <= k < |s| && ConnectiveAt(s, k) == Some(c)
    requires forall j :: i <= j < k ==> ConnectiveAt(s, j).None?
    ensures FindConnective(s, i) == Some((k, c))
    decreases k - i
  {
    if i < k {
      FirstConnective(s, i + 1, k, c);
    }
  }

  /** The parser on a trimmed text without a top-level connective: the comparison parser decides. */
  lemma ParseOfComparison(t: string, parseNumber: string -> Option<real>, e: Expression)
    requires Trim(t) == t && t != "true" && t != "false"
    requires FindConnective(t, 0).None? && ParseComparison(t, parseNumber) == Ok(e)
    ensures Parse(t, parseNumber) == Ok(e)
  {
    assert Compound(t, parseNumber) == Ok(None);
  }

  /** The parser on a trimmed text whose leftmost top-level connective is `c` at `i`. */
  lemma ParseOfConnective(s: string, i: nat, c: Connective, parseNumber: string -> Option<real>,
                          l: Expression, r: Expression)
    requires Trim(s) == s && s != "true" && s != "false"
    requires i + ConnectiveWidth(c) <= |s| && FindConnective(s, 0) == Some((i, c))
    requires Parse(s[..i], parseNumber) == Ok(l) && Parse(s[i + ConnectiveWidth(c)..], parseNumber) == Ok(r)
    ensures Parse(s, parseNumber) == Ok(if c == AndWord then And(l, r) else Or(l, r))
  {
    var e := if c == AndWord then And(l, r) else Or(l, r);
    assert ParseSides(s, i, c, parseNumber) == Ok(Some(e));
    assert Compound(s, parseNumber) == Ok(Some(e));
  }

  /** The parser reads a printed atom back. */
  lemma ParseAtomShow(a: Expression, renderNumber: real -> string, parseNumber: string -> Option<real>)
    requires PrintableAtom(a, renderNumber, parseNumber)
    ensures Parse(Show(a, renderNumber), parseNumber) == Ok(a)
  {
    if a.Compare? {
      ParseCompareAtom(a.left, a.op, a.right, renderNumber, parseNumber);
    }
  }

  /** The parser reads a printed comparison back. */
  lemma ParseCompareAtom(p: string, op: CompareOp, lit: Literal, renderNumber: real -> string,
                         parseNumber: string -> Option<real>)
    requires PrintableAtom(Compare(p, op, lit), renderNumber, parseNumber)
    ensures Parse(Show(Compare(p, op, lit), renderNumber), parseNumber) == Ok(Compare(p, op, lit))
  {
    CompareText(p, op, lit, renderNumber, parseNumber);
    ParseCompareShow(p, op, lit, renderNumber, parseNumber);
    ParseOfComparison(Show(Compare(p, op, lit), renderNumber), parseNumber, Compare(p, op, lit));
  }

  /** A printed comparison is trimmed, is not a constant and has no top-level connective. */
  lemma CompareText(p: string, op: CompareOp, lit: Literal, renderNumber: real -> string,
                    parseNumber: string -> Option<real>)
    requires PrintableAtom(Compare(p, op, lit), renderNumber, parseNumber)
    ensures var t := Show(Compare(p, op, lit), renderNumber);
      Trim(t) == t && t != "true" && t != "false" && FindConnective(t, 0).None?
  {
    var a := Compare(p, op, lit);
    var t := Show(a, renderNumber);
    AtomEnds(a, renderNumber, parseNumber);
    TrimOfTrimmed(t);
    CompareLayout(p, op, lit, renderNumber);
    assert t != "true" && t != "false" by {
      assert t[|p|] == ' ';
    }
    AtomScan(a, renderNumber, parseNumber, []);
    assert t + [] == t;
  }

  /**
   * The parser reads back every printable condition the printer writes:
   * `Parse(Show(e)) == Ok(e)`.
   */
  lemma {:induction false} ParseShow(e: Expression, renderNumber: real -> string, parseNumber: string -> Option<real>)
    requires Printable(e, renderNumber, parseNumber)
    ensures Parse(Show(e, renderNumber), parseNumber) == Ok(e)
    decreases e, 0
  {
    match e
    case And(a, r) =>
      ChainText(a, AndWord, r, renderNumber, parseNumber);
      ParseChain(a, AndWord, r, renderNumber, parseNumber);
    case Or(a, r) =>
      ChainText(a, OrWord, r, renderNumber, parseNumber);
      ParseChain(a, OrWord, r, renderNumber, parseNumber);
    case _ => ParseAtomShow(e, renderNumber, parseNumber);
  }

  /** The text of one link of a chain: atom, connective, rest; already trimmed and not a constant. */
  lemma ChainText(a: Expression, c: Connective, r: Expression, renderNumber: real -> string,
                  parseNumber: string -> Option<real>)
    requires PrintableAtom(a, renderNumber, parseNumber) && Printable(r, renderNumber, parseNumber)
    ensures var s := Show(if c == AndWord then And(a, r) else Or(a, r), renderNumber);
      s == Show(a, renderNumber) + Word(c) + Show(r, renderNumber) &&
      Trim(s) == s && s != "true" && s != "false"
  {
    var e := if c == AndWord then And(a, r) else Or(a, r);
    var s := Show(e, renderNumber);
    assert s == Show(a, renderNumber) + Word(c) + Show(r, renderNumber);
    ShowEnds(e, renderNumber, parseNumber);
    TrimOfTrimmed(s);
  }

  /** The parser on atom text, connective and rest, each side read back. */
  lemma ParseOfLink(ta: string, c: Connective, tr: string, parseNumber: string -> Option<real>,
                    a: Expression, r: Expression)
    requires var s := ta + Word(c) + tr; Trim(s) == s && s != "true" && s != "false"
    requires FindConnective(ta + Word(c) + tr, 0) == Some((|ta|, c))
    requires Parse(ta, parseNumber) == Ok(a) && Parse(tr, parseNumber) == Ok(r)
    ensures Parse(ta + Word(c) + tr, parseNumber) == Ok(if c == AndWord then And(a, r) else Or(a, r))
  {
    var s := ta + Word(c) + tr;
    assert s[..|ta|] == ta && s[|ta| + ConnectiveWidth(c)..] == tr;
    ParseOfConnective(s, |ta|, c, parseNumber, a, r);
  }

  /** One link of a chain: the atom, the connective, and the rest of the chain already read back. */
  lemma {:induction false} ParseChain(a: Expression, c: Connective, r: Expression, renderNumber: real -> string,
                                      parseNumber: string -> Option<real>)
    requires PrintableAtom(a, renderNumber, parseNumber) && Printable(r, renderNumber, parseNumber)
    ensures Parse(Show(a, renderNumber) + Word(c) + Show(r, renderNumber), parseNumber) ==
      Ok(if c == AndWord then And(a, r) else Or(a, r))
    decreases r, 1
  {
    ChainText(a, c, r, renderNumber, parseNumber);
    ConnectiveAfterAtom(a, c, Show(r, renderNumber), renderNumber, parseNumber);
    ParseAtomShow(a, renderNumber, parseNumber);
    ParseShow(r, renderNumber, parseNumber);
    ParseOfLink(Show(a, renderNumber), c, Show(r, renderNumber), parseNumber, a, r);
  }
}
