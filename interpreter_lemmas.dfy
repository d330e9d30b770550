/**
 * Properties of the evaluator: Python's equality as an equivalence, the
 * operators that are each other's negation, evaluation order, and what
 * parsed token sequences evaluate to.
 */
module InterpreterLemmas {
  import opened Wrappers
  import opened Values
  import opened Tokens
  import opened Expressions
  import opened Parsing
  import opened ParsingExamples
  import opened Interpreter

  /** Python's `==` on runtime values is an equivalence relation. */
  lemma EqualsIsEquivalence(a: Value, b: Value, c: Value)
    ensures PyEquals(a, a)
    ensures PyEquals(a, b) ==> PyEquals(b, a)
    ensures PyEquals(a, b) && PyEquals(b, c) ==> PyEquals(a, c)
  {
  }

  /** `nil` equals only `nil`, a string only an equal string; `true == 1` and `false == 0` hold. */
  lemma EqualsAcrossKinds(v: Value, s: string)
    ensures PyEquals(NilVal, v) <==> v.NilVal?
    ensures PyEquals(StrVal(s), v) <==> v == StrVal(s)
    ensures PyEquals(BoolVal(true), NumVal(1.0)) && PyEquals(BoolVal(false), NumVal(0.0))
  {
  }

  /** For every pair of values, `!=` is the negation of `==`. */
  lemma NotEqualNegatesEqual(ne: Token, eq: Token, a: Value, b: Value)
    requires ne.tokenType == BangEqual && eq.tokenType == EqualEqual
    ensures BinaryOp(eq, a, b).Success? && BinaryOp(ne, a, b).Success?
    ensures BinaryOp(ne, a, b).value == BoolVal(!BinaryOp(eq, a, b).value.b)
  {
  }

  /** `!!v` is the truthiness of `v`. */
  lemma DoubleBang(bang: Token, v: Value)
    requires bang.tokenType == Bang
    ensures UnaryOp(bang, UnaryOp(bang, v)) == BoolVal(IsTruthy(v))
  {
  }

  /** `--v` is `float(v)` for a number or boolean `v`, and `nil` otherwise. */
  lemma DoubleMinus(minus: Token, v: Value)
    requires minus.tokenType == Minus
    ensures UnaryOp(minus, UnaryOp(minus, v)) == if IsNumber(v) then NumVal(AsNumber(v)) else NilVal
  {
  }

  /** An expression without divisions never faults. */
  lemma {:induction false} NoDivisionNoFault(e: Expr)
    requires forall op: Token :: !DividesWith(e, op)
    ensures Evaluate(e).Success?
  {
    if Evaluate(e).Failure? {
      assert DividesWith(e, Evaluate(e).error.operator);
    }
  }

  /** The left operand is evaluated first: when it faults, the right operand is never looked at. */
  lemma LeftFaultFirst(left: Expr, op: Token, right: Expr)
    requires Evaluate(left).Failure?
    ensures Evaluate(Binary(left, op, right)) == Evaluate(left)
  {
  }

  /** Both operands divide by zero: the fault names the left one's `/` token. */
  lemma LeftDivisionReported(a: Token, s1: Token, z1: Token, op: Token, b: Token, s2: Token, z2: Token)
    requires a.literal.NumVal? && b.literal.NumVal? && z1.literal == NumVal(0.0) && z2.literal == NumVal(0.0)
    requires s1.tokenType == Slash && s2.tokenType == Slash
    ensures Evaluate(Binary(Binary(Literal(a.literal), s1, Literal(z1.literal)), op,
                            Binary(Literal(b.literal), s2, Literal(z2.literal))))
      == Failure(ZeroDivisionError(s1))
  {
    var left := Binary(Literal(a.literal), s1, Literal(z1.literal));
    assert Evaluate(left) == BinaryOp(s1, a.literal, z1.literal);
  }

  /** `x - y - z` as tokens parses and evaluates to `(x - y) - z`. */
  lemma SubtractionChain(a: Token, m1: Token, b: Token, m2: Token, c: Token, eof: Token)
    requires a.tokenType == Number && b.tokenType == Number && c.tokenType == Number && eof.tokenType == Eof
    requires a.literal.NumVal? && b.literal.NumVal? && c.literal.NumVal?
    requires m1.tokenType == Minus && m2.tokenType == Minus
    ensures var p := ParseExpression([a, m1, b, m2, c, eof], 0);
      p.Parsed? && Evaluate(p.value) == Success(NumVal((a.literal.n - b.literal.n) - c.literal.n))
  {
    FoldsLeft(a, m1, b, m2, c, eof);
    var left := Binary(Literal(a.literal), m1, Literal(b.literal));
    assert Evaluate(left) == Success(NumVal(a.literal.n - b.literal.n));
  }

  /** `1 + 2 * 3` as tokens parses and evaluates to 7, not to the 9 of `(1 + 2) * 3`. */
  lemma SumOfProduct(a: Token, plus: Token, b: Token, star: Token, c: Token, eof: Token)
    requires a.tokenType == Number && b.tokenType == Number && c.tokenType == Number && eof.tokenType == Eof
    requires a.literal == NumVal(1.0) && b.literal == NumVal(2.0) && c.literal == NumVal(3.0)
    requires plus.tokenType == Plus && star.tokenType == Star
    ensures var p := ParseExpression([a, plus, b, star, c, eof], 0);
      p.Parsed? && Evaluate(p.value) == Success(NumVal(7.0))
  {
    NestsRight(a, plus, b, star, c, eof);
    var right := Binary(Literal(b.literal), star, Literal(c.literal));
    assert Evaluate(right) == Success(NumVal(6.0));
  }
}
