/**
 * What the parser of src/pylox/parser.py accepts, stated independently of
 * its code: a successful expression parse is exactly a tree in parser
 * normal form (`Canonical`) whose tokens (`Spells`) run from the cursor to a
 * token that is not an operator of the level being parsed or a tighter one.
 */
module ParsingLemmas {
  import opened Values
  import opened Tokens
  import opened Expressions
  import opened Statements
  import opened Parsing

  // ---------------------------------------------------------------------------
  // Levels as numbers: 0 equality, 1 comparison, 2 term, 3 factor, 4 unary.

  function LevelOf(k: nat): Level
    requires k < 4
  {
    if k == 0 then Equality else if k == 1 then Comparison else if k == 2 then Term else Factor
  }

  /** The level of a binary operator, or -1 for any other token type. */
  function OpLevel(tt: TokenType): int
  {
    match tt
    case BangEqual | EqualEqual => 0
    case Greater | GreaterEqual | Less | LessEqual => 1
    case Minus | Plus => 2
    case Slash | Star => 3
    case _ => -1
  }

  lemma OperatorLevel(k: nat, tt: TokenType)
    requires k < 4
    ensures IsOperator(LevelOf(k), tt) <==> OpLevel(tt) == k
  {
  }

  /** A token of a looser level, or no operator at all, ends the loop of level `k`. */
  lemma NotOperator(t: Token, k: nat)
    requires k < 4 && OpLevel(t.tokenType) < k
    ensures !IsOperator(LevelOf(k), t.tokenType)
  {
    OperatorLevel(k, t.tokenType);
  }

  lemma IsLevelOperator(t: Token, k: nat)
    requires k < 4 && OpLevel(t.tokenType) == k
    ensures IsOperator(LevelOf(k), t.tokenType)
  {
    OperatorLevel(k, t.tokenType);
  }

  /** The rule for level `k`. */
  function ParseLevel(ts: seq<Token>, k: nat, pos: nat): (r: Parse<Expr>)
    requires Within(ts, pos) && k <= 4
    ensures Advances(ts, pos, r)
  {
    if k == 4 then ParseUnary(ts, pos) else ParseBinary(ts, LevelOf(k), pos)
  }

  // ---------------------------------------------------------------------------
  // Parser normal form.

  /** How tightly an expression binds: its operator's level, or 4 for a unary, literal or grouping. */
  function Prec(e: Expr): int
  {
    if e.Binary? then OpLevel(e.operator.tokenType) else 4
  }

  /**
   * The trees the parser builds: binary operators chain to the left within a
   * level and nest tighter levels on the right; a unary operator applies to
   * a unary, literal or grouping.
   */
  predicate Canonical(e: Expr)
  {
    match e
    case Binary(left, operator, right) =>
      var k := OpLevel(operator.tokenType);
      && 0 <= k && Prec(left) >= k && Prec(right) > k
      && Canonical(left) && Canonical(right)
    case Grouping(inner) => Canonical(inner)
    case Literal(_) => true
    case Unary(operator, right) =>
      && (operator.tokenType == Bang || operator.tokenType == Minus)
      && !right.Binary? && Canonical(right)
  }

  /** The number of tokens that spell `e`. */
  function Width(e: Expr): nat
  {
    match e
    case Binary(left, _, right) => Width(left) + 1 + Width(right)
    case Grouping(inner) => Width(inner) + 2
    case Literal(_) => 1
    case Unary(_, right) => 1 + Width(right)
  }

  /** A token `primary` turns into `Literal(v)`. */
  predicate SpellsLiteral(t: Token, v: Value)
  {
    || (t.tokenType == False && v == BoolVal(false))
    || (t.tokenType == True && v == BoolVal(true))
    || (t.tokenType == Nil && v == NilVal)
    || ((t.tokenType == Number || t.tokenType == String) && t.literal == v)
  }

  /** The tokens from `pos` on spell `e`: its operators are those tokens, its groupings are parenthesized. */
  predicate Spells(ts: seq<Token>, pos: nat, e: Expr)
    decreases e
  {
    pos + Width(e) <= |ts| &&
    match e
    case Binary(left, operator, right) =>
      Spells(ts, pos, left) && ts[pos + Width(left)] == operator && Spells(ts, pos + Width(left) + 1, right)
    case Grouping(inner) =>
      ts[pos].tokenType == LeftParen && Spells(ts, pos + 1, inner) && ts[pos + 1 + Width(inner)].tokenType == RightParen
    case Literal(v) => SpellsLiteral(ts[pos], v)
    case Unary(operator, right) => ts[pos] == operator && Spells(ts, pos + 1, right)
  }

  /** The token at `q` is not an operator of level `k` or tighter, so a level-`k` rule ends there. */
  predicate StopsAt(ts: seq<Token>, q: nat, k: nat)
  {
    q < |ts| && OpLevel(ts[q].tokenType) < k
  }

  // ---------------------------------------------------------------------------
  // One step of each rule.

  /** A level rule is its operand rule followed by its loop. */
  lemma LevelStep(ts: seq<Token>, k: nat, pos: nat)
    requires Within(ts, pos) && k < 4
    ensures var first := ParseLevel(ts, k + 1, pos);
      ParseLevel(ts, k, pos) == if first.Failed? then first else Fold(ts, LevelOf(k), first.value, first.pos)
  {
    assert ParseOperand(ts, LevelOf(k), pos) == ParseLevel(ts, k + 1, pos);
  }

  /** The loop of a level ends at once on a token that is not one of its operators. */
  lemma FoldStops(ts: seq<Token>, k: nat, acc: Expr, q: nat)
    requires Within(ts, q) && k < 4 && !IsOperator(LevelOf(k), ts[q].tokenType)
    ensures Fold(ts, LevelOf(k), acc, q) == Parsed(acc, q)
  {
  }

  /** On one of its operators, the loop of a level parses an operand and folds it in. */
  lemma FoldStep(ts: seq<Token>, k: nat, acc: Expr, q: nat, right: Expr, q2: nat)
    requires Within(ts, q) && k < 4 && IsOperator(LevelOf(k), ts[q].tokenType)
    requires ParseLevel(ts, k + 1, q + 1) == Parsed(right, q2)
    ensures Fold(ts, LevelOf(k), acc, q) == Fold(ts, LevelOf(k), Binary(acc, ts[q], right), q2)
  {
    assert ParseOperand(ts, LevelOf(k), q + 1) == ParseLevel(ts, k + 1, q + 1);
  }

  /** `unary` on `!` or `-` applies the operator to the unary that follows. */
  lemma UnaryStep(ts: seq<Token>, pos: nat, right: Expr, q: nat)
    requires Within(ts, pos) && (ts[pos].tokenType == Bang || ts[pos].tokenType == Minus)
    requires ParseUnary(ts, pos + 1) == Parsed(right, q)
    ensures ParseUnary(ts, pos) == Parsed(Unary(ts[pos], right), q)
  {
  }

  /** `unary` on any other token is `primary`. */
  lemma PrimaryStep(ts: seq<Token>, pos: nat)
    requires Within(ts, pos) && ts[pos].tokenType != Bang && ts[pos].tokenType != Minus
    ensures ParseUnary(ts, pos) == ParsePrimary(ts, pos)
  {
  }

  /** `primary` on a literal token. */
  lemma LiteralStep(ts: seq<Token>, pos: nat, v: Value)
    requires Within(ts, pos) && SpellsLiteral(ts[pos], v)
    ensures ParsePrimary(ts, pos) == Parsed(Literal(v), pos + 1)
  {
  }

  /** `primary` on `(` groups the expression that follows when a `)` closes it. */
  lemma GroupingStep(ts: seq<Token>, pos: nat, inner: Expr, close: nat)
    requires Within(ts, pos) && ts[pos].tokenType == LeftParen
    requires ParseExpression(ts, pos + 1) == Parsed(inner, close) && Check(ts, close, RightParen)
    ensures ParsePrimary(ts, pos) == Parsed(Grouping(inner), close + 1)
  {
  }

  // ---------------------------------------------------------------------------
  // Spelled canonical trees parse back.

  /** A canonical tree of level `k` or tighter, spelled at `pos` and followed by a stop for level `k`. */
  predicate Spelled(ts: seq<Token>, k: nat, pos: nat, e: Expr)
  {
    ValidTokens(ts) && k <= 4 && Canonical(e) && Prec(e) >= k && Spells(ts, pos, e) && StopsAt(ts, pos + Width(e), k)
  }

  /** A canonical chain of level-`k` operators, spelled at `pos` and followed by a stop for level `k + 1`. */
  predicate Chain(ts: seq<Token>, k: nat, pos: nat, e: Expr)
  {
    ValidTokens(ts) && k < 4 && Canonical(e) && e.Binary? && Prec(e) == k && Spells(ts, pos, e)
    && StopsAt(ts, pos + Width(e), k + 1)
  }

  /** A canonical tree spelled at `pos` and followed by a stop for level `k` is what the level-`k` rule returns. */
  lemma {:induction false} ParsesSpelled(ts: seq<Token>, k: nat, pos: nat, e: Expr)
    requires Spelled(ts, k, pos, e)
    ensures ParseLevel(ts, k, pos) == Parsed(e, pos + Width(e))
    decreases Width(e), 1, 4 - k
  {
    if k == 4 {
      ParsesSpelledUnary(ts, pos, e);
    } else {
      if Prec(e) > k {
        LevelStep(ts, k, pos);
        ParsesSpelled(ts, k + 1, pos, e);
      } else {
        FoldChain(ts, k, pos, e);
      }
      NotOperator(ts[pos + Width(e)], k);
      FoldStops(ts, k, e, pos + Width(e));
    }
  }

  /** Parsing a level-`k` chain reaches the state where the loop of its level holds the whole chain. */
  lemma {:induction false} FoldChain(ts: seq<Token>, k: nat, pos: nat, e: Expr)
    requires Chain(ts, k, pos, e)
    ensures ParseLevel(ts, k, pos) == Fold(ts, LevelOf(k), e, pos + Width(e))
    decreases Width(e), 0, 1
  {
    LastOperand(ts, k, pos, e);
    assert Spells(ts, pos, e.left) && ts[pos + Width(e.left)] == e.operator;
    if Prec(e.left) == k {
      FoldChain(ts, k, pos, e.left);
    } else {
      LevelStep(ts, k, pos);
      ParsesSpelled(ts, k + 1, pos, e.left);
    }
  }

  /** The last operator and operand of a chain are folded last. */
  lemma {:induction false} LastOperand(ts: seq<Token>, k: nat, pos: nat, e: Expr)
    requires Chain(ts, k, pos, e)
    ensures Fold(ts, LevelOf(k), e.left, pos + Width(e.left)) == Fold(ts, LevelOf(k), e, pos + Width(e))
    decreases Width(e), 0, 0
  {
    var q := pos + Width(e.left);
    assert ts[q] == e.operator && Spells(ts, q + 1, e.right);
    ParsesSpelled(ts, k + 1, q + 1, e.right);
    IsLevelOperator(e.operator, k);
    FoldStep(ts, k, e.left, q, e.right, q + 1 + Width(e.right));
    assert Binary(e.left, ts[q], e.right) == e;
  }

  /** The unary level: unary operators, literals and groupings. */
  lemma {:induction false} ParsesSpelledUnary(ts: seq<Token>, pos: nat, e: Expr)
    requires Spelled(ts, 4, pos, e)
    ensures ParseUnary(ts, pos) == Parsed(e, pos + Width(e))
    decreases Width(e), 0, 1
  {
    match e
    case Unary(_, _) => ParsesSpelledNegation(ts, pos, e);
    case Literal(v) =>
      PrimaryStep(ts, pos);
      LiteralStep(ts, pos, v);
    case Grouping(_) => ParsesSpelledGrouping(ts, pos, e);
  }

  lemma {:induction false} ParsesSpelledNegation(ts: seq<Token>, pos: nat, e: Expr)
    requires Spelled(ts, 4, pos, e) && e.Unary?
    ensures ParseUnary(ts, pos) == Parsed(e, pos + Width(e))
    decreases Width(e), 0, 0
  {
    NegationParts(ts, pos, e);
    ParsesSpelledUnary(ts, pos + 1, e.right);
    UnaryStep(ts, pos, e.right, pos + Width(e));
  }

  /** The operand of a spelled unary operator is spelled right after it. */
  lemma NegationParts(ts: seq<Token>, pos: nat, e: Expr)
    requires Spelled(ts, 4, pos, e) && e.Unary?
    ensures Spelled(ts, 4, pos + 1, e.right) && pos + Width(e) == pos + 1 + Width(e.right)
    ensures ts[pos].tokenType == Bang || ts[pos].tokenType == Minus
    ensures Unary(ts[pos], e.right) == e
  {
  }

  lemma {:induction false} ParsesSpelledGrouping(ts: seq<Token>, pos: nat, e: Expr)
    requires Spelled(ts, 4, pos, e) && e.Grouping?
    ensures ParseUnary(ts, pos) == Parsed(e, pos + Width(e))
    decreases Width(e), 0, 0
  {
    var close := pos + 1 + Width(e.expression);
    GroupingParts(ts, pos, e);
    ParsesSpelled(ts, 0, pos + 1, e.expression);
    ExpressionLevel(ts, pos + 1);
    PrimaryStep(ts, pos);
    GroupingStep(ts, pos, e.expression, close);
  }

  /** The inside of a spelled grouping is spelled between its parentheses. */
  lemma GroupingParts(ts: seq<Token>, pos: nat, e: Expr)
    requires Spelled(ts, 4, pos, e) && e.Grouping?
    ensures var close := pos + 1 + Width(e.expression);
      && Spelled(ts, 0, pos + 1, e.expression) && Check(ts, close, RightParen)
      && ts[pos].tokenType == LeftParen && close + 1 == pos + Width(e) && Grouping(e.expression) == e
  {
    var inner := e.expression;
    var close := pos + 1 + Width(inner);
    assert Spells(ts, pos + 1, inner) && ts[close].tokenType == RightParen;
    CanonicalPrec(inner);
    ClosingStops(ts[close]);
  }

  lemma CanonicalPrec(e: Expr)
    requires Canonical(e)
    ensures Prec(e) >= 0
  {
  }

  lemma ClosingStops(t: Token)
    requires t.tokenType == RightParen
    ensures OpLevel(t.tokenType) == -1
  {
  }

  lemma ExpressionLevel(ts: seq<Token>, pos: nat)
    requires Within(ts, pos)
    ensures ParseExpression(ts, pos) == ParseLevel(ts, 0, pos)
  {
  }

  // ---------------------------------------------------------------------------
  // What the parser returns is a spelled canonical tree.

  /** A successful level-`k` parse from `pos` returns a spelled canonical tree and ends right after its tokens. */
  predicate SoundParse(ts: seq<Token>, k: nat, pos: nat, r: Parse<Expr>)
  {
    r.Parsed? ==> Spelled(ts, k, pos, r.value) && r.pos == pos + Width(r.value)
  }

  /** The state of the loop of level `k`: `acc` is a spelled canonical tree from `start` to `q`. */
  predicate Folding(ts: seq<Token>, k: nat, start: nat, acc: Expr, q: nat)
  {
    && ValidTokens(ts) && k < 4 && Canonical(acc) && Prec(acc) >= k && Spells(ts, start, acc)
    && q == start + Width(acc) && StopsAt(ts, q, k + 1)
  }

  lemma FoldFails(ts: seq<Token>, k: nat, acc: Expr, q: nat)
    requires Within(ts, q) && k < 4 && IsOperator(LevelOf(k), ts[q].tokenType)
    requires ParseLevel(ts, k + 1, q + 1).Failed?
    ensures Fold(ts, LevelOf(k), acc, q).Failed?
  {
    assert ParseOperand(ts, LevelOf(k), q + 1) == ParseLevel(ts, k + 1, q + 1);
  }

  /** The loop starts with the operand it was handed. */
  lemma StartFolding(ts: seq<Token>, k: nat, start: nat, first: Expr, q: nat)
    requires k < 4 && Spelled(ts, k + 1, start, first) && q == start + Width(first)
    ensures Folding(ts, k, start, first, q)
  {
    assert Canonical(first) && Prec(first) >= k + 1 && Spells(ts, start, first) && StopsAt(ts, q, k + 1);
  }

  /** One more operator and operand keep the loop's state. */
  lemma ExtendFolding(ts: seq<Token>, k: nat, start: nat, acc: Expr, q: nat, op: Token, right: Expr, q2: nat)
    requires Folding(ts, k, start, acc, q) && ts[q] == op && OpLevel(op.tokenType) == k
    requires Spelled(ts, k + 1, q + 1, right) && q2 == q + 1 + Width(right)
    ensures Folding(ts, k, start, Binary(acc, op, right), q2)
  {
    assert Canonical(acc) && Prec(acc) >= k && Spells(ts, start, acc) && q == start + Width(acc);
    assert Canonical(right) && Prec(right) >= k + 1 && Spells(ts, q + 1, right) && StopsAt(ts, q2, k + 1);
    var e := Binary(acc, op, right);
    assert Canonical(e) && Prec(e) == k;
    assert Spells(ts, start, e);
  }

  /** When the loop ends, its tree is spelled and followed by a stop for its level. */
  lemma EndFolding(ts: seq<Token>, k: nat, start: nat, acc: Expr, q: nat)
    requires Folding(ts, k, start, acc, q) && !IsOperator(LevelOf(k), ts[q].tokenType)
    ensures Spelled(ts, k, start, acc)
  {
    assert Canonical(acc) && Prec(acc) >= k && Spells(ts, start, acc) && q == start + Width(acc);
    OperatorLevel(k, ts[q].tokenType);
    assert StopsAt(ts, q, k);
  }

  /** The loop of level `k` only builds spelled canonical trees. */
  lemma {:induction false} FoldSound(ts: seq<Token>, k: nat, start: nat, acc: Expr, q: nat)
    requires Folding(ts, k, start, acc, q)
    ensures SoundParse(ts, k, start, Fold(ts, LevelOf(k), acc, q))
    decreases |ts| - q, 0, 2
  {
    if IsOperator(LevelOf(k), ts[q].tokenType) {
      FoldSoundOperator(ts, k, start, acc, q);
    } else {
      FoldStops(ts, k, acc, q);
      EndFolding(ts, k, start, acc, q);
    }
  }

  lemma {:induction false} FoldSoundOperator(ts: seq<Token>, k: nat, start: nat, acc: Expr, q: nat)
    requires Folding(ts, k, start, acc, q) && IsOperator(LevelOf(k), ts[q].tokenType)
    ensures SoundParse(ts, k, start, Fold(ts, LevelOf(k), acc, q))
    decreases |ts| - q, 0, 1
  {
    OperatorLevel(k, ts[q].tokenType);
    OperatorNotLast(ts, q);
    var right := ParseLevel(ts, k + 1, q + 1);
    ParsedIsSpelled(ts, k + 1, q + 1);
    if right.Parsed? {
      FoldSoundStep(ts, k, start, acc, q, right.value, right.pos);
    } else {
      FoldFails(ts, k, acc, q);
    }
  }

  lemma {:induction false} FoldSoundStep(ts: seq<Token>, k: nat, start: nat, acc: Expr, q: nat, right: Expr, q2: nat)
    requires Folding(ts, k, start, acc, q) && IsOperator(LevelOf(k), ts[q].tokenType) && OpLevel(ts[q].tokenType) == k
    requires ParseLevel(ts, k + 1, q + 1) == Parsed(right, q2) && Spelled(ts, k + 1, q + 1, right) && q2 == q + 1 + Width(right)
    ensures SoundParse(ts, k, start, Fold(ts, LevelOf(k), acc, q))
    decreases |ts| - q, 0, 0
  {
    FoldStep(ts, k, acc, q, right, q2);
    ExtendFolding(ts, k, start, acc, q, ts[q], right, q2);
    FoldSound(ts, k, start, Binary(acc, ts[q], right), q2);
  }

  /** An operator token is never the final EOF. */
  lemma OperatorNotLast(ts: seq<Token>, q: nat)
    requires Within(ts, q) && 0 <= OpLevel(ts[q].tokenType)
    ensures q + 1 < |ts|
  {
  }

  /** Every rule of a level only builds spelled canonical trees. */
  lemma {:induction false} ParsedIsSpelled(ts: seq<Token>, k: nat, pos: nat)
    requires Within(ts, pos) && k <= 4
    ensures SoundParse(ts, k, pos, ParseLevel(ts, k, pos))
    decreases |ts| - pos, 4 - k, 2
  {
    if k == 4 {
      UnarySound(ts, pos);
    } else {
      LevelStep(ts, k, pos);
      var first := ParseLevel(ts, k + 1, pos);
      ParsedIsSpelled(ts, k + 1, pos);
      if first.Parsed? {
        StartFolding(ts, k, pos, first.value, first.pos);
        FoldSound(ts, k, pos, first.value, first.pos);
      }
    }
  }

  lemma UnaryFails(ts: seq<Token>, pos: nat)
    requires Within(ts, pos) && (ts[pos].tokenType == Bang || ts[pos].tokenType == Minus)
    requires ParseUnary(ts, pos + 1).Failed?
    ensures ParseUnary(ts, pos).Failed?
  {
  }

  /** A unary operator in front of a spelled unary spells the unary expression. */
  lemma NegationBuilt(ts: seq<Token>, pos: nat, right: Expr, q: nat)
    requires pos < |ts| && (ts[pos].tokenType == Bang || ts[pos].tokenType == Minus)
    requires Spelled(ts, 4, pos + 1, right) && q == pos + 1 + Width(right)
    ensures Spelled(ts, 4, pos, Unary(ts[pos], right)) && q == pos + Width(Unary(ts[pos], right))
  {
    assert Canonical(right) && Prec(right) >= 4 && Spells(ts, pos + 1, right) && StopsAt(ts, q, 4);
    assert Canonical(Unary(ts[pos], right)) && Spells(ts, pos, Unary(ts[pos], right));
  }

  lemma {:induction false} UnarySound(ts: seq<Token>, pos: nat)
    requires Within(ts, pos)
    ensures SoundParse(ts, 4, pos, ParseUnary(ts, pos))
    decreases |ts| - pos, 0, 1
  {
    if ts[pos].tokenType == Bang || ts[pos].tokenType == Minus {
      var right := ParseUnary(ts, pos + 1);
      UnarySound(ts, pos + 1);
      if right.Parsed? {
        UnaryStep(ts, pos, right.value, right.pos);
        NegationBuilt(ts, pos, right.value, right.pos);
      } else {
        UnaryFails(ts, pos);
      }
    } else {
      PrimaryStep(ts, pos);
      PrimarySound(ts, pos);
    }
  }

  /** A literal token followed by any token spells the literal. */
  lemma LiteralBuilt(ts: seq<Token>, pos: nat, v: Value)
    requires ValidTokens(ts) && pos + 1 < |ts| && SpellsLiteral(ts[pos], v)
    ensures Spelled(ts, 4, pos, Literal(v)) && pos + 1 == pos + Width(Literal(v))
  {
    assert Spells(ts, pos, Literal(v)) && StopsAt(ts, pos + 1, 4);
  }

  /** A spelled expression in parentheses spells the grouping. */
  lemma GroupingBuilt(ts: seq<Token>, pos: nat, inner: Expr, close: nat)
    requires pos < |ts| && ts[pos].tokenType == LeftParen
    requires Spelled(ts, 0, pos + 1, inner) && close == pos + 1 + Width(inner)
    requires close + 1 < |ts| && ts[close].tokenType == RightParen
    ensures Spelled(ts, 4, pos, Grouping(inner))
    ensures close + 1 == pos + Width(Grouping(inner))
  {
    assert Canonical(inner) && Spells(ts, pos + 1, inner);
    assert Spells(ts, pos, Grouping(inner));
    BelowUnary(ts[close + 1]);
  }

  /** No operator is tighter than the unary level. */
  lemma BelowUnary(t: Token)
    ensures OpLevel(t.tokenType) < 4
  {
  }

  lemma GroupingFails(ts: seq<Token>, pos: nat)
    requires Within(ts, pos) && ts[pos].tokenType == LeftParen
    requires var inner := ParseExpression(ts, pos + 1); inner.Failed? || !Check(ts, inner.pos, RightParen)
    ensures ParsePrimary(ts, pos).Failed?
  {
  }

  /** `primary` raises "No token found" on a token that starts no primary expression. */
  lemma PrimaryNoToken(ts: seq<Token>, pos: nat)
    requires Within(ts, pos) && !(ts[pos].tokenType in {False, True, Nil, Number, String, LeftParen})
    ensures ParsePrimary(ts, pos) == Failed(RuntimeError("No token found"), pos)
  {
  }

  /** `primary` raises "Expected ')' after expression" where a grouped expression is not followed by `)`. */
  lemma PrimaryUnclosed(ts: seq<Token>, pos: nat)
    requires Within(ts, pos) && ts[pos].tokenType == LeftParen
    ensures var inner := ParseExpression(ts, pos + 1);
      inner.Parsed? && !Check(ts, inner.pos, RightParen) ==>
        ParsePrimary(ts, pos) == Failed(RuntimeError("Expected ')' after expression"), inner.pos)
  {
  }

  lemma {:induction false} PrimarySound(ts: seq<Token>, pos: nat)
    requires Within(ts, pos)
    ensures SoundParse(ts, 4, pos, ParsePrimary(ts, pos))
    decreases |ts| - pos, 0, 0
  {
    var r := ParsePrimary(ts, pos);
    var tt := ts[pos].tokenType;
    if tt == False || tt == True || tt == Nil || tt == Number || tt == String {
      var v := if tt == False then BoolVal(false) else if tt == True then BoolVal(true)
        else if tt == Nil then NilVal else ts[pos].literal;
      assert SpellsLiteral(ts[pos], v) && r == Parsed(Literal(v), pos + 1);
      LiteralBuilt(ts, pos, v);
    } else if tt == LeftParen {
      var inner := ParseExpression(ts, pos + 1);
      ExpressionLevel(ts, pos + 1);
      ParsedIsSpelled(ts, 0, pos + 1);
      if inner.Parsed? && Check(ts, inner.pos, RightParen) {
        GroupingStep(ts, pos, inner.value, inner.pos);
        GroupingBuilt(ts, pos, inner.value, inner.pos);
      } else {
        GroupingFails(ts, pos);
      }
    } else {
      assert r.Failed?;
    }
  }

  // ---------------------------------------------------------------------------
  // Both directions together.

  /** A successful `expression` returns a tree in parser normal form, spelled by the tokens it consumed, followed by a token that is not a binary operator. */
  lemma ParsedExpression(ts: seq<Token>, pos: nat)
    requires Within(ts, pos)
    ensures var r := ParseExpression(ts, pos);
      r.Parsed? ==> Canonical(r.value) && Spells(ts, pos, r.value) && r.pos == pos + Width(r.value) && StopsAt(ts, r.pos, 0)
  {
    ExpressionLevel(ts, pos);
    ParsedIsSpelled(ts, 0, pos);
  }

  /** A tree in parser normal form, spelled at `pos` and followed by a token that is not a binary operator, is what `expression` returns. */
  lemma SpelledExpression(ts: seq<Token>, pos: nat, e: Expr)
    requires ValidTokens(ts) && Canonical(e) && Spells(ts, pos, e) && StopsAt(ts, pos + Width(e), 0)
    ensures ParseExpression(ts, pos) == Parsed(e, pos + Width(e))
  {
    CanonicalPrec(e);
    ParsesSpelled(ts, 0, pos, e);
    ExpressionLevel(ts, pos);
  }

  /**
   * `expression` from `pos` returns `e` and stops at `q` exactly when `e` is
   * in parser normal form, the tokens from `pos` to `q` spell it, and the
   * token at `q` is not a binary operator.
   */
  lemma ExpressionParses(ts: seq<Token>, pos: nat, e: Expr, q: nat)
    requires Within(ts, pos)
    ensures ParseExpression(ts, pos) == Parsed(e, q) <==>
      Canonical(e) && Spells(ts, pos, e) && q == pos + Width(e) && StopsAt(ts, q, 0)
  {
    ParsedExpression(ts, pos);
    if Canonical(e) && Spells(ts, pos, e) && q == pos + Width(e) && StopsAt(ts, q, 0) {
      SpelledExpression(ts, pos, e);
    }
  }
}
