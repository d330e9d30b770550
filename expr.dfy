/**
 * The expression tree of src/pylox/expr.py and its `AstPrinter`.
 *
 * The four node classes are the four constructors of `Expr`; the visitor's
 * double dispatch (`accept` calling `visit_<variant>_expr`) is a `match` on
 * the constructor. Nodes are values, so they cannot change once built.
 */
module Expressions {
  import opened Values
  import opened Tokens

  datatype Expr =
    | Binary(left: Expr, operator: Token, right: Expr)
    | Grouping(expression: Expr)
    | Literal(value: Value)
    | Unary(operator: Token, right: Expr)

  // ---------------------------------------------------------------------------
  // AstPrinter.

  /** `" ".join(parts)`. */
  function Join(parts: seq<string>): string
  {
    if |parts| == 0 then ""
    else if |parts| == 1 then parts[0]
    else parts[0] + " " + Join(parts[1..])
  }

  /** `parenthesize(name, *exprs)`, given the renderings of `exprs`. */
  function Parenthesize(name: string, parts: seq<string>): string
  {
    "(" + name + " " + Join(parts) + ")"
  }

  /**
   * `visit_literal_expr`: `nil` for None, `str(value)` otherwise. Python's
   * `str` of a float is not modelled: `numText` renders numbers.
   */
  function LiteralText(v: Value, numText: real -> string): string
  {
    match v
    case NilVal => "nil"
    case BoolVal(b) => if b then "True" else "False"
    case NumVal(n) => numText(n)
    case StrVal(s) => s
  }

  /** `AstPrinter().print(expr)`. */
  function AstPrint(e: Expr, numText: real -> string): string
  {
    match e
    case Binary(left, operator, right) =>
      Parenthesize(operator.lexeme, [AstPrint(left, numText), AstPrint(right, numText)])
    case Grouping(inner) => Parenthesize("group", [AstPrint(inner, numText)])
    case Literal(value) => LiteralText(value, numText)
    case Unary(operator, right) => Parenthesize(operator.lexeme, [AstPrint(right, numText)])
  }

  // ---------------------------------------------------------------------------
  // Properties of the printer.

  /** The number of Binary, Grouping and Unary nodes of `e`. */
  function Compounds(e: Expr): nat
  {
    match e
    case Binary(left, _, right) => 1 + Compounds(left) + Compounds(right)
    case Grouping(inner) => 1 + Compounds(inner)
    case Literal(_) => 0
    case Unary(_, right) => 1 + Compounds(right)
  }

  /** No parenthesis in `s`. */
  predicate NoParens(s: string)
  {
    '(' !in s && ')' !in s
  }

  /** No operator lexeme and no literal of `e` renders with a parenthesis. */
  predicate ParenFree(e: Expr, numText: real -> string)
  {
    match e
    case Binary(left, operator, right) => NoParens(operator.lexeme) && ParenFree(left, numText) && ParenFree(right, numText)
    case Grouping(inner) => ParenFree(inner, numText)
    case Literal(value) => NoParens(LiteralText(value, numText))
    case Unary(operator, right) => NoParens(operator.lexeme) && ParenFree(right, numText)
  }

  /** The number of occurrences of `c` in `s`. */
  function Occurrences(s: string, c: char): nat
  {
    if s == [] then 0 else (if s[0] == c then 1 else 0) + Occurrences(s[1..], c)
  }

  lemma {:induction false} OccurrencesAppend(a: string, b: string, c: char)
    ensures Occurrences(a + b, c) == Occurrences(a, c) + Occurrences(b, c)
  {
    if a != [] {
      assert (a + b)[1..] == a[1..] + b;
      OccurrencesAppend(a[1..], b, c);
    } else {
      assert a + b == b;
    }
  }

  lemma {:induction false} NoOccurrences(s: string, c: char)
    requires c !in s
    ensures Occurrences(s, c) == 0
  {
    if s != [] {
      assert s[0] in s && forall x | x in s[1..] :: x in s;
      NoOccurrences(s[1..], c);
    }
  }

  /**
   * `parenthesize` adds one `(` and one `)` around its operator and the parts
   * it joins with spaces.
   */
  lemma ParenthesizeCounts(name: string, left: string, right: string, c: char)
    requires NoParens(name) && (c == '(' || c == ')')
    ensures Occurrences(Parenthesize(name, [left]), c) == 1 + Occurrences(left, c)
    ensures Occurrences(Parenthesize(name, [left, right]), c) == 1 + Occurrences(left, c) + Occurrences(right, c)
  {
    var open := "(" + name + " ";
    NoOccurrences(name, c);
    OccurrencesAppend("(", name, c);
    OccurrencesAppend("(" + name, " ", c);
    Single('(', c);
    Single(' ', c);
    Single(')', c);
    assert Occurrences(open, c) + Occurrences(")", c) == 1;
    assert [left, right][1..] == [right];
    assert Join([left, right]) == left + " " + right;
    OccurrencesAppend(left, " ", c);
    OccurrencesAppend(left + " ", right, c);
    Wrapped(open, left, ")", c);
    Wrapped(open, left + " " + right, ")", c);
    assert Parenthesize(name, [left]) == open + left + ")";
    assert Parenthesize(name, [left, right]) == open + (left + " " + right) + ")";
  }

  lemma Single(x: char, c: char)
    ensures Occurrences([x], c) == if x == c then 1 else 0
  {
    assert [x][1..] == [];
  }

  lemma Wrapped(a: string, b: string, d: string, c: char)
    ensures Occurrences(a + b + d, c) == Occurrences(a, c) + Occurrences(b, c) + Occurrences(d, c)
  {
    OccurrencesAppend(a, b, c);
    OccurrencesAppend(a + b, d, c);
  }

  /**
   * Every compound node renders as one pair of parentheses around its
   * operator and its operands: with parenthesis-free lexemes and literals, a
   * rendering has exactly one `(` and one `)` per compound node.
   */
  lemma {:induction false} ParenthesesPerNode(e: Expr, numText: real -> string, c: char)
    requires ParenFree(e, numText) && (c == '(' || c == ')')
    ensures Occurrences(AstPrint(e, numText), c) == Compounds(e)
  {
    match e
    case Binary(left, operator, right) =>
      ParenthesesPerNode(left, numText, c);
      ParenthesesPerNode(right, numText, c);
      ParenthesizeCounts(operator.lexeme, AstPrint(left, numText), AstPrint(right, numText), c);
    case Grouping(inner) =>
      ParenthesesPerNode(inner, numText, c);
      ParenthesizeCounts("group", AstPrint(inner, numText), "", c);
    case Literal(value) =>
      NoOccurrences(LiteralText(value, numText), c);
    case Unary(operator, right) =>
      ParenthesesPerNode(right, numText, c);
      ParenthesizeCounts(operator.lexeme, AstPrint(right, numText), "", c);
  }

  /** The rendering of a compound node is parenthesized and starts with its operator or `group`. */
  lemma CompoundShape(e: Expr, numText: real -> string)
    requires !e.Literal?
    ensures var s := AstPrint(e, numText);
      var name := if e.Grouping? then "group" else e.operator.lexeme;
      && |s| >= |name| + 3 && s[0] == '(' && s[|s| - 1] == ')'
      && s[1..|name| + 1] == name && s[|name| + 1] == ' '
  {
    var name := if e.Grouping? then "group" else e.operator.lexeme;
    var parts := match e
      case Binary(l, _, r) => [AstPrint(l, numText), AstPrint(r, numText)]
      case Grouping(g) => [AstPrint(g, numText)]
      case Unary(_, r) => [AstPrint(r, numText)];
    var s := AstPrint(e, numText);
    assert s == "(" + name + " " + Join(parts) + ")";
    assert s == ("(" + name) + (" " + Join(parts) + ")");
    assert s[..|name| + 1] == "(" + name;
  }

  /** The sample tree of the module's `__main__` block. */
  lemma SampleRendering(numText: real -> string)
    requires numText(123.0) == "123" && numText(45.87) == "45.87"
    ensures AstPrint(Binary(Unary(Token(Minus, "-", NilVal, 1), Literal(NumVal(123.0))),
                            Token(Star, "*", NilVal, 1),
                            Grouping(Literal(NumVal(45.87)))), numText)
         == "(* (- 123) (group 45.87))"
  {
    var minus := Unary(Token(Minus, "-", NilVal, 1), Literal(NumVal(123.0)));
    var group := Grouping(Literal(NumVal(45.87)));
    SampleOperands(numText);
    SampleJoin();
    assert AstPrint(Binary(minus, Token(Star, "*", NilVal, 1), group), numText)
      == Parenthesize("*", ["(- 123)", "(group 45.87)"]);
  }

  lemma SampleOperands(numText: real -> string)
    requires numText(123.0) == "123" && numText(45.87) == "45.87"
    ensures AstPrint(Unary(Token(Minus, "-", NilVal, 1), Literal(NumVal(123.0))), numText) == "(- 123)"
    ensures AstPrint(Grouping(Literal(NumVal(45.87))), numText) == "(group 45.87)"
  {
    assert AstPrint(Literal(NumVal(123.0)), numText) == "123";
    assert AstPrint(Literal(NumVal(45.87)), numText) == "45.87";
  }

  lemma SampleJoin()
    ensures Parenthesize("*", ["(- 123)", "(group 45.87)"]) == "(* (- 123) (group 45.87))"
  {
    assert Join(["(- 123)", "(group 45.87)"]) == "(- 123) (group 45.87)";
  }
}
