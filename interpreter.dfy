/**
 * The expression evaluator of src/pylox/interpreter.py.
 *
 * The Python visitor dispatches on the node class and then matches the
 * operator type together with the Python classes of the operand values.
 * Python's `bool` is a subclass of `int`, so every `int() | float()`
 * pattern also accepts `True` and `False`, which then count as 1 and 0.
 */
module Interpreter {
  import opened Wrappers
  import opened Values
  import opened Tokens
  import opened Expressions

  /** The one exception evaluation raises: `ZeroDivisionError` from float division, at its `/` token. */
  datatype RuntimeFault = ZeroDivisionError(operator: Token)

  /** The class pattern `int() | float()`: a number or a boolean. */
  predicate IsNumber(v: Value)
  {
    v.NumVal? || v.BoolVal?
  }

  /** `float(v)` on such a value. */
  function AsNumber(v: Value): real
    requires IsNumber(v)
  {
    match v
    case NumVal(n) => n
    case BoolVal(b) => if b then 1.0 else 0.0
  }

  /** Python's `left == right` on two values: numbers and booleans numerically, strings by content, `None` only with `None`. */
  predicate PyEquals(a: Value, b: Value)
  {
    if IsNumber(a) && IsNumber(b) then AsNumber(a) == AsNumber(b) else a == b
  }

  /** Lox truthiness: `nil` and `false` are false, every other value (0 and "" included) is true. */
  predicate IsTruthy(v: Value)
  {
    !(v.NilVal? || v == BoolVal(false))
  }

  predicate IsArithmetic(tt: TokenType)
  {
    tt.Minus? || tt.Slash? || tt.Star? || tt.Plus?
  }

  predicate IsComparison(tt: TokenType)
  {
    tt.Greater? || tt.GreaterEqual? || tt.Less? || tt.LessEqual?
  }

  /** `visit_unary_expr` once its operand is evaluated. */
  function UnaryOp(op: Token, right: Value): (r: Value)
    ensures r.NumVal? <==> op.tokenType == Minus && IsNumber(right)
    ensures r.NumVal? ==> r.n == -AsNumber(right)
    ensures r.BoolVal? <==> op.tokenType == Bang
    ensures op.tokenType == Bang ==> r == BoolVal(!IsTruthy(right))
    ensures !r.StrVal?
  {
    if op.tokenType == Minus && IsNumber(right) then NumVal(-AsNumber(right))
    else if op.tokenType == Bang then
      match right
      case NilVal => BoolVal(true)
      case BoolVal(b) => BoolVal(!b)
      case _ => BoolVal(false)
    else NilVal
  }

  /** `visit_binary_expr` once both operands are evaluated. */
  function BinaryOp(op: Token, left: Value, right: Value): (r: Result<Value, RuntimeFault>)
    ensures r.Failure? <==> op.tokenType == Slash && IsNumber(left) && IsNumber(right) && AsNumber(right) == 0.0
    ensures r.Failure? ==> r.error == ZeroDivisionError(op)
    ensures r.Success? && r.value.NumVal? <==>
      IsArithmetic(op.tokenType) && IsNumber(left) && IsNumber(right) && r.Success?
    ensures r.Success? && r.value.StrVal? <==> op.tokenType == Plus && left.StrVal? && right.StrVal?
    ensures r.Success? && r.value.StrVal? ==> r.value.s == left.s + right.s
    ensures r.Success? && r.value.BoolVal? <==>
      (IsComparison(op.tokenType) && IsNumber(left) && IsNumber(right))
      || op.tokenType == EqualEqual || op.tokenType == BangEqual
    ensures op.tokenType == EqualEqual ==> r == Success(BoolVal(PyEquals(left, right)))
    ensures op.tokenType == BangEqual ==> r == Success(BoolVal(!PyEquals(left, right)))
  {
    var tt := op.tokenType;
    var numbers := IsNumber(left) && IsNumber(right);
    if tt == Minus && numbers then Success(NumVal(AsNumber(left) - AsNumber(right)))
    else if tt == Slash && numbers then
      if AsNumber(right) == 0.0 then Failure(ZeroDivisionError(op))
      else Success(NumVal(AsNumber(left) / AsNumber(right)))
    else if tt == Star && numbers then Success(NumVal(AsNumber(left) * AsNumber(right)))
    else if tt == Plus && numbers then Success(NumVal(AsNumber(left) + AsNumber(right)))
    else if tt == Plus && left.StrVal? && right.StrVal? then Success(StrVal(left.s + right.s))
    else if tt == Greater && numbers then Success(BoolVal(AsNumber(left) > AsNumber(right)))
    else if tt == GreaterEqual && numbers then Success(BoolVal(AsNumber(left) >= AsNumber(right)))
    else if tt == Less && numbers then Success(BoolVal(AsNumber(left) < AsNumber(right)))
    else if tt == LessEqual && numbers then Success(BoolVal(AsNumber(left) <= AsNumber(right)))
    else if tt == BangEqual then
      if left.NilVal? && right.NilVal? then Success(BoolVal(false)) else Success(BoolVal(!PyEquals(left, right)))
    else if tt == EqualEqual then
      if left.NilVal? && right.NilVal? then Success(BoolVal(true)) else Success(BoolVal(PyEquals(left, right)))
    else Success(NilVal)
  }

  /** `e` holds a division whose operator is `op`. */
  predicate DividesWith(e: Expr, op: Token)
  {
    match e
    case Binary(left, operator, right) =>
      (operator == op && op.tokenType == Slash) || DividesWith(left, op) || DividesWith(right, op)
    case Grouping(inner) => DividesWith(inner, op)
    case Literal(_) => false
    case Unary(_, right) => DividesWith(right, op)
  }

  /**
   * `evaluate`: the value of `e`, or the first fault raised. Operands are
   * evaluated left before right, and both before the operator is applied.
   */
  function Evaluate(e: Expr): (r: Result<Value, RuntimeFault>)
    ensures r.Failure? ==> DividesWith(e, r.error.operator)
  {
    match e
    case Literal(v) => Success(v)
    case Grouping(inner) => Evaluate(inner)
    case Unary(op, right) =>
      var rv := Evaluate(right);
      if rv.Failure? then rv else Success(UnaryOp(op, rv.value))
    case Binary(left, op, right) =>
      var lv := Evaluate(left);
      if lv.Failure? then lv
      else
        var rv := Evaluate(right);
        if rv.Failure? then rv else BinaryOp(op, lv.value, rv.value)
  }
}
