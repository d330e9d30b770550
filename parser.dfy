/**
 * The recursive-descent parser of src/pylox/parser.py.
 *
 * The grammar it implements, one function per rule:
 *
 *   statement  -> "print" expression ";" | expression ";"
 *   expression -> equality
 *   equality   -> comparison ( ( "!=" | "==" ) comparison )*
 *   comparison -> term ( ( ">" | ">=" | "<" | "<=" ) term )*
 *   term       -> factor ( ( "-" | "+" ) factor )*
 *   factor     -> unary ( ( "/" | "*" ) unary )*
 *   unary      -> ( "!" | "-" ) unary | primary
 *   primary    -> "false" | "true" | "nil" | NUMBER | STRING | "(" expression ")"
 *
 * The pure functions below describe each rule on a token sequence and a
 * cursor; the `Parser` class performs them step by step on its cursor field
 * and every method is proved to end in the state the functions describe.
 */
module Parsing {
  import opened Wrappers
  import opened Values
  import opened Tokens
  import opened Expressions
  import opened Statements

  /** The `RuntimeError(message)` every parse failure raises. */
  datatype ParseError = RuntimeError(message: string)

  /** The outcome of one rule: a value and the cursor after it, or the error and the cursor where it was raised. */
  datatype Parse<T> = Parsed(value: T, pos: nat) | Failed(error: ParseError, pos: nat)

  /** A token list as the scanner hands it over: never empty, EOF last. */
  predicate ValidTokens(ts: seq<Token>)
  {
    |ts| > 0 && ts[|ts| - 1].tokenType == Eof
  }

  /** A cursor on a valid token list. */
  predicate Within(ts: seq<Token>, pos: nat)
  {
    ValidTokens(ts) && pos < |ts|
  }

  /** `is_at_end`: the cursor is on an EOF token. */
  predicate AtEnd(ts: seq<Token>, pos: nat)
    requires pos < |ts|
  {
    ts[pos].tokenType == Eof
  }

  /** A rule never moves the cursor back nor past the last token, and consumes a token when it succeeds. */
  predicate Advances<T>(ts: seq<Token>, pos: nat, r: Parse<T>)
  {
    pos <= r.pos < |ts| && (r.Parsed? ==> pos < r.pos)
  }

  /** The four binary precedence levels, loosest first. */
  datatype Level = Equality | Comparison | Term | Factor

  /** Used to order the mutually recursive rules for termination. */
  function Rank(l: Level): nat
  {
    match l
    case Equality => 5
    case Comparison => 4
    case Term => 3
    case Factor => 2
  }

  /** The operators of a level. */
  predicate IsOperator(l: Level, tt: TokenType)
  {
    match l
    case Equality => tt.BangEqual? || tt.EqualEqual?
    case Comparison => tt.Greater? || tt.GreaterEqual? || tt.Less? || tt.LessEqual?
    case Term => tt.Minus? || tt.Plus?
    case Factor => tt.Slash? || tt.Star?
  }

  /** `check`: false at the end, otherwise whether the current token has type `tt`. */
  predicate Check(ts: seq<Token>, pos: nat, tt: TokenType)
    requires pos < |ts|
  {
    !AtEnd(ts, pos) && ts[pos].tokenType == tt
  }

  /** `consume`: the current token if it has type `tt`, otherwise a `RuntimeError(message)`. */
  function Consume(ts: seq<Token>, pos: nat, tt: TokenType, message: string): (r: Parse<Token>)
    requires Within(ts, pos)
    ensures Advances(ts, pos, r)
    ensures r.Parsed? <==> Check(ts, pos, tt)
    ensures r.Parsed? ==> r.value == ts[pos] && r.pos == pos + 1
    ensures r.Failed? ==> r == Failed(RuntimeError(message), pos)
  {
    if Check(ts, pos, tt) then Parsed(ts[pos], pos + 1) else Failed(RuntimeError(message), pos)
  }

  /** `expression`. */
  function ParseExpression(ts: seq<Token>, pos: nat): (r: Parse<Expr>)
    requires Within(ts, pos)
    ensures Advances(ts, pos, r)
    decreases |ts| - pos, 6, 0
  {
    ParseBinary(ts, Equality, pos)
  }

  /** `equality`, `comparison`, `term` and `factor`: an operand, then a left-associated run of `l`'s operators. */
  function ParseBinary(ts: seq<Token>, l: Level, pos: nat): (r: Parse<Expr>)
    requires Within(ts, pos)
    ensures Advances(ts, pos, r)
    decreases |ts| - pos, Rank(l), 1
  {
    var first := ParseOperand(ts, l, pos);
    if first.Failed? then first else Fold(ts, l, first.value, first.pos)
  }

  /** The rule one level tighter than `l`. */
  function ParseOperand(ts: seq<Token>, l: Level, pos: nat): (r: Parse<Expr>)
    requires Within(ts, pos)
    ensures Advances(ts, pos, r)
    decreases |ts| - pos, Rank(l), 0
  {
    match l
    case Equality => ParseBinary(ts, Comparison, pos)
    case Comparison => ParseBinary(ts, Term, pos)
    case Term => ParseBinary(ts, Factor, pos)
    case Factor => ParseUnary(ts, pos)
  }

  /** The `while True` loop of a level: while the current token is one of its operators, fold one more operand into `left`. */
  function Fold(ts: seq<Token>, l: Level, left: Expr, pos: nat): (r: Parse<Expr>)
    requires Within(ts, pos)
    ensures pos <= r.pos < |ts|
    decreases |ts| - pos, Rank(l), 2
  {
    if IsOperator(l, ts[pos].tokenType) then
      var right := ParseOperand(ts, l, pos + 1);
      if right.Failed? then right else Fold(ts, l, Binary(left, ts[pos], right.value), right.pos)
    else
      Parsed(left, pos)
  }

  /** `unary`. */
  function ParseUnary(ts: seq<Token>, pos: nat): (r: Parse<Expr>)
    requires Within(ts, pos)
    ensures Advances(ts, pos, r)
    decreases |ts| - pos, 1, 0
  {
    var tt := ts[pos].tokenType;
    if tt == Bang || tt == Minus then
      var right := ParseUnary(ts, pos + 1);
      if right.Failed? then right else Parsed(Unary(ts[pos], right.value), right.pos)
    else
      ParsePrimary(ts, pos)
  }

  /** `primary`. */
  function ParsePrimary(ts: seq<Token>, pos: nat): (r: Parse<Expr>)
    requires Within(ts, pos)
    ensures Advances(ts, pos, r)
    decreases |ts| - pos, 0, 0
  {
    var tt := ts[pos].tokenType;
    if tt == False then Parsed(Literal(BoolVal(false)), pos + 1)
    else if tt == True then Parsed(Literal(BoolVal(true)), pos + 1)
    else if tt == Nil then Parsed(Literal(NilVal), pos + 1)
    else if tt == Number || tt == String then Parsed(Literal(ts[pos].literal), pos + 1)
    else if tt == LeftParen then
      var inner := ParseExpression(ts, pos + 1);
      if inner.Failed? then inner
      else
        var close := Consume(ts, inner.pos, RightParen, "Expected ')' after expression");
        if close.Failed? then Failed(close.error, close.pos) else Parsed(Grouping(inner.value), close.pos)
    else Failed(RuntimeError("No token found"), pos)
  }

  /** `print_statement` and `expression_statement` after their expression: the closing `;`. */
  function Terminate(ts: seq<Token>, e: Parse<Expr>, isPrint: bool): (r: Parse<Stmt>)
    requires ValidTokens(ts) && e.pos < |ts|
    ensures e.pos <= r.pos < |ts|
  {
    if e.Failed? then Failed(e.error, e.pos)
    else
      var semi := Consume(ts, e.pos, Semicolon, if isPrint then "Expect `;` after value" else "Expect `;` after expression");
      if semi.Failed? then Failed(semi.error, semi.pos)
      else if isPrint then Parsed(PrintStmt(e.value), semi.pos)
      else Parsed(ExpressionStmt(e.value), semi.pos)
  }

  /** `statement`. */
  function ParseStatement(ts: seq<Token>, pos: nat): (r: Parse<Stmt>)
    requires Within(ts, pos)
    ensures Advances(ts, pos, r)
  {
    if ts[pos].tokenType == Print then Terminate(ts, ParseExpression(ts, pos + 1), true)
    else Terminate(ts, ParseExpression(ts, pos), false)
  }

  /** `parse`: statements until the end; the first failure ends the whole parse. */
  function ParseProgram(ts: seq<Token>, pos: nat): (r: Parse<seq<Stmt>>)
    requires Within(ts, pos)
    ensures pos <= r.pos < |ts|
    ensures r.Parsed? ==> AtEnd(ts, r.pos)
    decreases |ts| - pos
  {
    if AtEnd(ts, pos) then Parsed([], pos)
    else
      var s := ParseStatement(ts, pos);
      if s.Failed? then Failed(s.error, s.pos)
      else PrependStmt(s.value, ParseProgram(ts, s.pos))
  }

  /** Puts `s` in front of the statements a later parse produced. */
  function PrependStmt(s: Stmt, rest: Parse<seq<Stmt>>): Parse<seq<Stmt>>
  {
    if rest.Failed? then rest else Parsed([s] + rest.value, rest.pos)
  }

  /** The token `tokens[current - 1]` names: Python's index -1 is the last token. */
  function Previous(ts: seq<Token>, pos: nat): Token
    requires Within(ts, pos)
  {
    if pos == 0 then ts[|ts| - 1] else ts[pos - 1]
  }

  /** The keywords at which `synchronize` stops. */
  predicate StartsStatement(tt: TokenType)
  {
    tt == Class || tt == Fun || tt == Var || tt == For || tt == If || tt == While || tt == Print || tt == Return
  }

  /** The two cases in which `synchronize` returns without moving. */
  predicate Stops(previous: Token, token: Token)
  {
    previous.tokenType == Semicolon || StartsStatement(token.tokenType)
  }

  /** The first EOF token at or after `pos`. */
  function NextEof(ts: seq<Token>, pos: nat): (r: nat)
    requires Within(ts, pos)
    ensures pos <= r < |ts| && AtEnd(ts, r)
    ensures forall i | pos <= i < r :: !AtEnd(ts, i)
    decreases |ts| - pos
  {
    if AtEnd(ts, pos) then pos else NextEof(ts, pos + 1)
  }

  /**
   * Where `synchronize` leaves the cursor. It reads the previous and the
   * current token once, before its loop, so the loop either returns at once
   * or advances all the way to the end.
   */
  function SynchronizeTarget(ts: seq<Token>, pos: nat): (r: nat)
    requires Within(ts, pos)
    ensures pos <= r < |ts|
    ensures r == pos || (AtEnd(ts, r) && forall i | pos <= i < r :: !AtEnd(ts, i))
    ensures r == pos <==> AtEnd(ts, pos) || Stops(Previous(ts, pos), ts[pos])
    ensures r != pos ==> r == NextEof(ts, pos)
  {
    if AtEnd(ts, pos) || Stops(Previous(ts, pos), ts[pos]) then pos
    else NextEof(ts, pos)
  }

  /** A parse outcome as a method reports it: the value, or the error raised. */
  function AsResult<T>(p: Parse<T>): Result<T, ParseError>
  {
    if p.Parsed? then Success(p.value) else Failure(p.error)
  }

  class Parser {
    const tokens: seq<Token>
    var current: nat

    ghost predicate Valid()
      reads this
    {
      Within(tokens, current)
    }

    /** The method ended where `p` says, with `p`'s value or error. */
    ghost predicate Yields<T>(r: Result<T, ParseError>, p: Parse<T>)
      reads this
    {
      current == p.pos && r == AsResult(p)
    }

    constructor (tokens: seq<Token>)
      requires ValidTokens(tokens)
      ensures Valid() && this.tokens == tokens && current == 0
    {
      this.tokens := tokens;
      current := 0;
    }

    /** `peek`. */
    function Peek(): Token
      reads this
      requires Valid()
    {
      tokens[current]
    }

    /** `is_at_end`. */
    predicate IsAtEnd()
      reads this
      requires Valid()
    {
      Peek().tokenType == Eof
    }

    /** `advance`: step past the current token unless it is EOF, and return the token before the cursor. */
    method Advance() returns (t: Token)
      requires Valid()
      modifies this`current
      ensures Valid()
      ensures current == if AtEnd(tokens, old(current)) then old(current) else old(current) + 1
      ensures t == Previous(tokens, current)
    {
      if !IsAtEnd() {
        current := current + 1;
      }
      t := Previous(tokens, current);
    }

    /** `consume`. */
    method ConsumeToken(tt: TokenType, message: string) returns (r: Result<Token, ParseError>)
      requires Valid()
      modifies this`current
      ensures Valid() && Yields(r, Consume(tokens, old(current), tt, message))
    {
      if Check(tokens, current, tt) {
        var t := Advance();
        r := Success(t);
      } else {
        r := Failure(RuntimeError(message));
      }
    }

    /** `expression`. */
    method Expression() returns (r: Result<Expr, ParseError>)
      requires Valid()
      modifies this`current
      ensures Valid() && Yields(r, ParseExpression(tokens, old(current)))
      decreases |tokens| - current, 6, 0
    {
      r := BinaryLevel(Equality);
    }

    /** `equality`, `comparison`, `term` and `factor`, which differ only in their operators and their operand rule. */
    method BinaryLevel(l: Level) returns (r: Result<Expr, ParseError>)
      requires Valid()
      modifies this`current
      ensures Valid() && Yields(r, ParseBinary(tokens, l, old(current)))
      decreases |tokens| - current, Rank(l), 1
    {
      ghost var goal := ParseBinary(tokens, l, current);
      var first := Operand(l);
      if first.Failure? {
        return first;
      }
      var expr := first.value;
      while IsOperator(l, tokens[current].tokenType)
        invariant Valid()
        invariant Fold(tokens, l, expr, current) == goal
        decreases |tokens| - current
      {
        var operator := tokens[current];
        var _ := Advance();
        var right := Operand(l);
        if right.Failure? {
          return right;
        }
        expr := Binary(expr, operator, right.value);
      }
      r := Success(expr);
    }

    /** The rule each level method calls for its operands. */
    method Operand(l: Level) returns (r: Result<Expr, ParseError>)
      requires Valid()
      modifies this`current
      ensures Valid() && Yields(r, ParseOperand(tokens, l, old(current)))
      decreases |tokens| - current, Rank(l), 0
    {
      match l {
        case Equality => r := BinaryLevel(Comparison);
        case Comparison => r := BinaryLevel(Term);
        case Term => r := BinaryLevel(Factor);
        case Factor => r := Unary();
      }
    }

    /** `unary`. */
    method Unary() returns (r: Result<Expr, ParseError>)
      requires Valid()
      modifies this`current
      ensures Valid() && Yields(r, ParseUnary(tokens, old(current)))
      decreases |tokens| - current, 1, 0
    {
      var token := tokens[current];
      if token.tokenType == Bang || token.tokenType == Minus {
        var _ := Advance();
        var right := Unary();
        if right.Failure? {
          return right;
        }
        r := Success(Expressions.Unary(token, right.value));
      } else {
        r := Primary();
      }
    }

    /** `primary`. */
    method Primary() returns (r: Result<Expr, ParseError>)
      requires Valid()
      modifies this`current
      ensures Valid() && Yields(r, ParsePrimary(tokens, old(current)))
      decreases |tokens| - current, 0, 0
    {
      var token := tokens[current];
      var tt := token.tokenType;
      if tt == False || tt == True || tt == Nil || tt == Number || tt == String {
        var literal := if tt == False then BoolVal(false) else if tt == True then BoolVal(true)
          else if tt == Nil then NilVal else token.literal;
        var _ := Advance();
        r := Success(Literal(literal));
      } else if tt == LeftParen {
        var _ := Advance();
        var inner := Expression();
        if inner.Failure? {
          return inner;
        }
        var close := ConsumeToken(RightParen, "Expected ')' after expression");
        if close.Failure? {
          return Failure(close.error);
        }
        r := Success(Grouping(inner.value));
      } else {
        r := Failure(RuntimeError("No token found"));
      }
    }

    /** `statement`, with `print_statement` and `expression_statement`. */
    method Statement() returns (r: Result<Stmt, ParseError>)
      requires Valid()
      modifies this`current
      ensures Valid() && Yields(r, ParseStatement(tokens, old(current)))
    {
      if tokens[current].tokenType == Print {
        var _ := Advance();
        r := PrintStatement();
      } else {
        r := ExpressionStatement();
      }
    }

    /** `print_statement`. */
    method PrintStatement() returns (r: Result<Stmt, ParseError>)
      requires Valid()
      modifies this`current
      ensures Valid() && Yields(r, Terminate(tokens, ParseExpression(tokens, old(current)), true))
    {
      var value := Expression();
      if value.Failure? {
        return Failure(value.error);
      }
      var semi := ConsumeToken(Semicolon, "Expect `;` after value");
      if semi.Failure? {
        return Failure(semi.error);
      }
      r := Success(PrintStmt(value.value));
    }

    /** `expression_statement`. */
    method ExpressionStatement() returns (r: Result<Stmt, ParseError>)
      requires Valid()
      modifies this`current
      ensures Valid() && Yields(r, Terminate(tokens, ParseExpression(tokens, old(current)), false))
    {
      var expr := Expression();
      if expr.Failure? {
        return Failure(expr.error);
      }
      var semi := ConsumeToken(Semicolon, "Expect `;` after expression");
      if semi.Failure? {
        return Failure(semi.error);
      }
      r := Success(ExpressionStmt(expr.value));
    }

    /** `synchronize`. */
    method Synchronize()
      requires Valid()
      modifies this`current
      ensures Valid() && current == SynchronizeTarget(tokens, old(current))
    {
      var previous := Previous(tokens, current);
      var token := tokens[current];
      ghost var start := current;
      while !IsAtEnd()
        invariant Valid() && NextEof(tokens, current) == NextEof(tokens, start)
        invariant current == start || !Stops(previous, token)
        decreases |tokens| - current
      {
        if previous.tokenType == Semicolon {
          return;
        }
        if StartsStatement(token.tokenType) {
          return;
        }
        var _ := Advance();
      }
    }

    /** `parse`: the statements up to EOF (the Python method builds this list but does not return it). */
    method Parse() returns (r: Result<seq<Stmt>, ParseError>)
      requires Valid()
      modifies this`current
      ensures Valid() && Yields(r, ParseProgram(tokens, old(current)))
    {
      ghost var goal := ParseProgram(tokens, current);
      var statements: seq<Stmt> := [];
      PrependNothing(goal);
      while !IsAtEnd()
        invariant Valid()
        invariant goal == PrependAll(statements, ParseProgram(tokens, current))
        decreases |tokens| - current
      {
        var s := Statement();
        if s.Failure? {
          return Failure(s.error);
        }
        PrependOne(statements, s.value, ParseProgram(tokens, current));
        statements := statements + [s.value];
      }
      PrependToEnd(statements, current);
      r := Success(statements);
    }
  }

  /** Puts `ss` in front of the statements a later parse produced. */
  function PrependAll(ss: seq<Stmt>, rest: Parse<seq<Stmt>>): Parse<seq<Stmt>>
  {
    if rest.Failed? then rest else Parsed(ss + rest.value, rest.pos)
  }

  lemma PrependNothing(rest: Parse<seq<Stmt>>)
    ensures PrependAll([], rest) == rest
  {
    if rest.Parsed? {
      assert [] + rest.value == rest.value;
    }
  }

  lemma PrependOne(ss: seq<Stmt>, s: Stmt, rest: Parse<seq<Stmt>>)
    ensures PrependAll(ss, PrependStmt(s, rest)) == PrependAll(ss + [s], rest)
  {
    if rest.Parsed? {
      assert ss + ([s] + rest.value) == (ss + [s]) + rest.value;
    }
  }

  lemma PrependToEnd(ss: seq<Stmt>, pos: nat)
    ensures PrependAll(ss, Parsed([], pos)) == Parsed(ss, pos)
  {
    assert ss + [] == ss;
  }
}
