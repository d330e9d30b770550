/**
 * Consequences of the parser characterization for small token sequences:
 * left folding within a level, precedence between levels, the shape the
 * parser tests expect, and the two statement forms.
 */
module ParsingExamples {
  import opened Values
  import opened Tokens
  import opened Expressions
  import opened Statements
  import opened Parsing
  import opened ParsingLemmas

  /** A binary operator token. */
  predicate IsBinaryOperator(t: Token)
  {
    0 <= OpLevel(t.tokenType)
  }

  /** A NUMBER token spells the literal of its value. */
  lemma NumberOperand(ts: seq<Token>, i: nat)
    requires i < |ts| && ts[i].tokenType == Number
    ensures var l := Literal(ts[i].literal); Canonical(l) && Prec(l) == 4 && Width(l) == 1 && Spells(ts, i, l)
  {
  }

  /** With the second operator no tighter than the first, `a op1 b op2 c` groups as `(a op1 b) op2 c`, as `1 - 2 - 3` does. */
  lemma {:induction false} FoldsLeft(a: Token, op1: Token, b: Token, op2: Token, c: Token, eof: Token)
    requires a.tokenType == Number && b.tokenType == Number && c.tokenType == Number && eof.tokenType == Eof
    requires IsBinaryOperator(op2) && OpLevel(op2.tokenType) <= OpLevel(op1.tokenType)
    ensures ParseExpression([a, op1, b, op2, c, eof], 0)
      == Parsed(Binary(Binary(Literal(a.literal), op1, Literal(b.literal)), op2, Literal(c.literal)), 5)
  {
    var ts := [a, op1, b, op2, c, eof];
    var left := Binary(Literal(a.literal), op1, Literal(b.literal));
    var e := Binary(left, op2, Literal(c.literal));
    BelowUnary(op1);
    NumberOperand(ts, 0);
    NumberOperand(ts, 2);
    NumberOperand(ts, 4);
    assert Canonical(left) && Spells(ts, 0, left);
    assert Canonical(e) && Spells(ts, 0, e);
    SpelledExpression(ts, 0, e);
  }

  /** With the second operator tighter than the first, `a op1 b op2 c` groups as `a op1 (b op2 c)`, as `1 + 2 * 3` does. */
  lemma {:induction false} NestsRight(a: Token, op1: Token, b: Token, op2: Token, c: Token, eof: Token)
    requires a.tokenType == Number && b.tokenType == Number && c.tokenType == Number && eof.tokenType == Eof
    requires IsBinaryOperator(op1) && OpLevel(op1.tokenType) < OpLevel(op2.tokenType)
    ensures ParseExpression([a, op1, b, op2, c, eof], 0)
      == Parsed(Binary(Literal(a.literal), op1, Binary(Literal(b.literal), op2, Literal(c.literal))), 5)
  {
    var ts := [a, op1, b, op2, c, eof];
    var right := Binary(Literal(b.literal), op2, Literal(c.literal));
    var e := Binary(Literal(a.literal), op1, right);
    BelowUnary(op2);
    NumberOperand(ts, 0);
    NumberOperand(ts, 2);
    NumberOperand(ts, 4);
    assert Canonical(right) && Spells(ts, 2, right);
    assert Canonical(e) && Spells(ts, 0, e);
    SpelledExpression(ts, 0, e);
  }

  /** The operators the parser tests generate. */
  predicate IsTestOperator(t: Token)
  {
    t.tokenType.Plus? || t.tokenType.Minus? || t.tokenType.Slash? || t.tokenType.Star?
  }

  /** `<int> <op> <int>` parses to a `Binary` with operator `op`. */
  lemma BinaryOfTwoNumbers(a: Token, op: Token, b: Token, eof: Token)
    requires a.tokenType == Number && b.tokenType == Number && eof.tokenType == Eof && IsTestOperator(op)
    ensures ParseExpression([a, op, b, eof], 0) == Parsed(Binary(Literal(a.literal), op, Literal(b.literal)), 3)
  {
    var ts := [a, op, b, eof];
    var e := Binary(Literal(a.literal), op, Literal(b.literal));
    assert OpLevel(op.tokenType) == 2 || OpLevel(op.tokenType) == 3;
    NumberOperand(ts, 0);
    NumberOperand(ts, 2);
    assert Canonical(e) && Spells(ts, 0, e);
    SpelledExpression(ts, 0, e);
  }

  /**
   * The same tokens as a whole program: without a closing `;` the
   * expression statement fails at the EOF token, so `parse` raises instead
   * of returning a `Binary`.
   */
  lemma ProgramNeedsSemicolon(a: Token, op: Token, b: Token, eof: Token)
    requires a.tokenType == Number && b.tokenType == Number && eof.tokenType == Eof && IsTestOperator(op)
    ensures ParseProgram([a, op, b, eof], 0) == Failed(RuntimeError("Expect `;` after expression"), 3)
  {
    var ts := [a, op, b, eof];
    BinaryOfTwoNumbers(a, op, b, eof);
    assert !AtEnd(ts, 0) && ts[0].tokenType != Print;
    assert !Check(ts, 3, Semicolon);
  }

  /**
   * The tokens from `pos` to `q` spell statement `s`: `print` exactly for a
   * print statement, then its expression in parser normal form, then `;`.
   */
  predicate StatementSpelled(ts: seq<Token>, pos: nat, s: Stmt, q: nat)
    requires pos < |ts|
  {
    var start := if s.PrintStmt? then pos + 1 else pos;
    var semi := start + Width(s.expression);
    && (s.PrintStmt? <==> ts[pos].tokenType == Print)
    && Canonical(s.expression) && Spells(ts, start, s.expression)
    && semi < |ts| && ts[semi].tokenType == Semicolon && q == semi + 1
  }

  /** The closing `;` of a statement whose expression ended at `q`. */
  lemma TerminateStep(ts: seq<Token>, e: Expr, q: nat, isPrint: bool)
    requires ValidTokens(ts) && q < |ts|
    ensures Terminate(ts, Parsed(e, q), isPrint).Parsed? <==> ts[q].tokenType == Semicolon
    ensures ts[q].tokenType == Semicolon ==>
      Terminate(ts, Parsed(e, q), isPrint) == Parsed(if isPrint then PrintStmt(e) else ExpressionStmt(e), q + 1)
  {
  }

  /** A `;` ends every level. */
  lemma SemicolonStops(ts: seq<Token>, q: nat)
    requires q < |ts| && ts[q].tokenType == Semicolon
    ensures StopsAt(ts, q, 0)
  {
  }

  /** What `statement` returns, read off the tokens. */
  lemma ParsedStatement(ts: seq<Token>, pos: nat)
    requires Within(ts, pos)
    ensures var r := ParseStatement(ts, pos); r.Parsed? ==> StatementSpelled(ts, pos, r.value, r.pos)
  {
    var isPrint := ts[pos].tokenType == Print;
    var start := if isPrint then pos + 1 else pos;
    assert start < |ts|;
    var e := ParseExpression(ts, start);
    ParsedExpression(ts, start);
    if e.Parsed? {
      TerminateStep(ts, e.value, e.pos, isPrint);
    }
  }

  /** Spelled statements are what `statement` returns. */
  lemma SpelledStatement(ts: seq<Token>, pos: nat, s: Stmt, q: nat)
    requires Within(ts, pos) && StatementSpelled(ts, pos, s, q)
    ensures ParseStatement(ts, pos) == Parsed(s, q)
  {
    var start := if s.PrintStmt? then pos + 1 else pos;
    var semi := start + Width(s.expression);
    SemicolonStops(ts, semi);
    SpelledExpression(ts, start, s.expression);
    TerminateStep(ts, s.expression, semi, s.PrintStmt?);
  }

  /** `statement` returns `s` and stops at `q` exactly when the tokens from `pos` to `q` spell `s`. */
  lemma StatementParses(ts: seq<Token>, pos: nat, s: Stmt, q: nat)
    requires Within(ts, pos)
    ensures ParseStatement(ts, pos) == Parsed(s, q) <==> StatementSpelled(ts, pos, s, q)
  {
    ParsedStatement(ts, pos);
    if StatementSpelled(ts, pos, s, q) {
      SpelledStatement(ts, pos, s, q);
    }
  }
}
