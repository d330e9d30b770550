/**
 * What `parse` and `synchronize` do over a whole token list: a program is
 * the statements spelled one after another up to the first EOF, and the
 * first statement that fails decides the failure.
 */
module ProgramLemmas {
  import opened Tokens
  import opened Statements
  import opened Parsing

  /**
   * `c` cuts the tokens into the statements `ss`: statement `i` is parsed
   * from `c[i]`, which is not on EOF, and ends at `c[i + 1]`.
   */
  ghost predicate StatementCuts(ts: seq<Token>, ss: seq<Stmt>, c: seq<nat>)
  {
    ValidTokens(ts) && |c| == |ss| + 1 && c[|ss|] < |ts|
    && forall i | 0 <= i < |ss| ::
         c[i] < |ts| && !AtEnd(ts, c[i]) && ParseStatement(ts, c[i]) == Parsed(ss[i], c[i + 1])
  }

  /** Dropping the first statement leaves a cut of the rest. */
  lemma CutsTail(ts: seq<Token>, ss: seq<Stmt>, c: seq<nat>)
    requires StatementCuts(ts, ss, c) && |ss| > 0
    ensures StatementCuts(ts, ss[1..], c[1..])
  {
    forall i | 0 <= i < |ss| - 1
      ensures c[1..][i] < |ts| && !AtEnd(ts, c[1..][i])
      ensures ParseStatement(ts, c[1..][i]) == Parsed(ss[1..][i], c[1..][i + 1])
    {
      assert c[1..][i] == c[i + 1] && c[1..][i + 1] == c[i + 2] && ss[1..][i] == ss[i + 1];
    }
  }

  /** A statement in front of a cut of the rest is a cut of both. */
  lemma CutsCons(ts: seq<Token>, s: Stmt, ss: seq<Stmt>, pos: nat, c: seq<nat>)
    requires StatementCuts(ts, ss, c) && pos < |ts| && !AtEnd(ts, pos)
    requires ParseStatement(ts, pos) == Parsed(s, c[0])
    ensures StatementCuts(ts, [s] + ss, [pos] + c)
  {
    var ss', c' := [s] + ss, [pos] + c;
    forall i | 0 <= i < |ss'|
      ensures c'[i] < |ts| && !AtEnd(ts, c'[i]) && ParseStatement(ts, c'[i]) == Parsed(ss'[i], c'[i + 1])
    {
      if i > 0 {
        assert c'[i] == c[i - 1] && c'[i + 1] == c[i] && ss'[i] == ss[i - 1];
      }
    }
  }

  /** A program that parses is cut into its statements, ending on the first EOF. */
  lemma {:induction false} ProgramCuts(ts: seq<Token>, pos: nat) returns (c: seq<nat>)
    requires Within(ts, pos) && ParseProgram(ts, pos).Parsed?
    ensures var r := ParseProgram(ts, pos);
      StatementCuts(ts, r.value, c) && c[0] == pos && c[|r.value|] == r.pos && AtEnd(ts, r.pos)
    decreases |ts| - pos
  {
    if AtEnd(ts, pos) {
      c := [pos];
    } else {
      var s := ParseStatement(ts, pos);
      var rest := ParseProgram(ts, s.pos);
      var c' := ProgramCuts(ts, s.pos);
      CutsCons(ts, s.value, rest.value, pos, c');
      c := [pos] + c';
    }
  }

  /** Statements cut one after another up to an EOF are what `parse` returns. */
  lemma {:induction false} CutsProgram(ts: seq<Token>, ss: seq<Stmt>, c: seq<nat>)
    requires StatementCuts(ts, ss, c) && AtEnd(ts, c[|ss|])
    ensures ParseProgram(ts, c[0]) == Parsed(ss, c[|ss|])
    decreases |ss|
  {
    if |ss| > 0 {
      CutsTail(ts, ss, c);
      CutsProgram(ts, ss[1..], c[1..]);
      assert [ss[0]] + ss[1..] == ss;
    }
  }

  /** A program that fails is cut into the statements before the first failing one, whose failure it reports. */
  lemma {:induction false} ProgramFailureCuts(ts: seq<Token>, pos: nat) returns (ss: seq<Stmt>, c: seq<nat>)
    requires Within(ts, pos) && ParseProgram(ts, pos).Failed?
    ensures StatementCuts(ts, ss, c) && c[0] == pos && !AtEnd(ts, c[|ss|])
    ensures var f := ParseStatement(ts, c[|ss|]);
      f.Failed? && ParseProgram(ts, pos) == Failed(f.error, f.pos)
    decreases |ts| - pos
  {
    var s := ParseStatement(ts, pos);
    if s.Failed? {
      ss, c := [], [pos];
    } else {
      var ss', c' := ProgramFailureCuts(ts, s.pos);
      CutsCons(ts, s.value, ss', pos, c');
      ss, c := [s.value] + ss', [pos] + c';
      assert c[|ss|] == c'[|ss'|];
    }
  }

  /** Statements cut one after another and then a failing statement: `parse` raises that statement's error. */
  lemma {:induction false} CutsFailure(ts: seq<Token>, ss: seq<Stmt>, c: seq<nat>)
    requires StatementCuts(ts, ss, c) && !AtEnd(ts, c[|ss|]) && ParseStatement(ts, c[|ss|]).Failed?
    ensures var f := ParseStatement(ts, c[|ss|]);
      ParseProgram(ts, c[0]) == Failed(f.error, f.pos)
    decreases |ss|
  {
    if |ss| > 0 {
      CutsTail(ts, ss, c);
      CutsFailure(ts, ss[1..], c[1..]);
    }
  }

  /** `parse` yields `ss` ending at `q` if and only if `ss` are the statements spelled from `pos` to the first EOF `q`. */
  lemma ProgramParses(ts: seq<Token>, pos: nat, ss: seq<Stmt>, q: nat)
    requires Within(ts, pos)
    ensures ParseProgram(ts, pos) == Parsed(ss, q) <==>
      exists c :: StatementCuts(ts, ss, c) && c[0] == pos && c[|ss|] == q && AtEnd(ts, q)
  {
    if ParseProgram(ts, pos) == Parsed(ss, q) {
      var c := ProgramCuts(ts, pos);
      assert StatementCuts(ts, ss, c) && c[0] == pos && c[|ss|] == q && AtEnd(ts, q);
    }
    if exists c :: StatementCuts(ts, ss, c) && c[0] == pos && c[|ss|] == q && AtEnd(ts, q) {
      var c :| StatementCuts(ts, ss, c) && c[0] == pos && c[|ss|] == q && AtEnd(ts, q);
      CutsProgram(ts, ss, c);
    }
  }

  /**
   * `parse` raises `e` at `q` if and only if some statements are spelled from
   * `pos` and the statement after them, not on EOF, raises `e` at `q`.
   */
  lemma ProgramFails(ts: seq<Token>, pos: nat, e: ParseError, q: nat)
    requires Within(ts, pos)
    ensures ParseProgram(ts, pos) == Failed(e, q) <==>
      exists ss, c :: StatementCuts(ts, ss, c) && c[0] == pos && !AtEnd(ts, c[|ss|])
        && ParseStatement(ts, c[|ss|]) == Failed(e, q)
  {
    if ParseProgram(ts, pos) == Failed(e, q) {
      var ss, c := ProgramFailureCuts(ts, pos);
      assert StatementCuts(ts, ss, c) && c[0] == pos && !AtEnd(ts, c[|ss|]) && ParseStatement(ts, c[|ss|]) == Failed(e, q);
    }
    if exists ss, c :: StatementCuts(ts, ss, c) && c[0] == pos && !AtEnd(ts, c[|ss|])
        && ParseStatement(ts, c[|ss|]) == Failed(e, q) {
      var ss, c :| StatementCuts(ts, ss, c) && c[0] == pos && !AtEnd(ts, c[|ss|])
        && ParseStatement(ts, c[|ss|]) == Failed(e, q);
      CutsFailure(ts, ss, c);
    }
  }

  /**
   * At cursor 0 `tokens[current - 1]` is the last token, an EOF, never a
   * `;`: `synchronize` there stays only on a statement keyword (or EOF) and
   * otherwise runs to the first EOF.
   */
  lemma SynchronizeAtStart(ts: seq<Token>)
    requires ValidTokens(ts)
    ensures SynchronizeTarget(ts, 0) == if StartsStatement(ts[0].tokenType) then 0 else NextEof(ts, 0)
  {
  }

  /** After a `;` `synchronize` never moves; after any other token it stays only on a keyword or EOF. */
  lemma SynchronizeAfter(ts: seq<Token>, pos: nat)
    requires Within(ts, pos) && pos > 0
    ensures ts[pos - 1].tokenType == Semicolon ==> SynchronizeTarget(ts, pos) == pos
    ensures ts[pos - 1].tokenType != Semicolon && !StartsStatement(ts[pos].tokenType) && !AtEnd(ts, pos)
      ==> SynchronizeTarget(ts, pos) > pos && AtEnd(ts, SynchronizeTarget(ts, pos))
  {
  }
}
