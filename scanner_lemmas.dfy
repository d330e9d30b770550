/**
 * Properties of the scanner of src/pylox/scanner.py, stated about the pure
 * functions of module Scanning and so, through the postconditions of its
 * methods, about the class `Scanner`.
 */
module ScanningLemmas {
  import opened Wrappers
  import opened Values
  import opened Tokens
  import opened Scanning

  /**
   * What every token but EOF looks like: a NUMBER lexeme is a decimal literal
   * and carries its value, a STRING lexeme is quoted and carries the text
   * between the quotes, and every other token carries no literal.
   */
  predicate WellFormedToken(t: Token)
  {
    && t.tokenType != Eof
    && (t.tokenType == Number ==> IsDecimal(t.lexeme) && t.literal == NumVal(DecimalValue(t.lexeme)))
    && (t.tokenType == String ==>
          && 2 <= |t.lexeme| && t.lexeme[0] == '"' && t.lexeme[|t.lexeme| - 1] == '"'
          && t.literal == StrVal(t.lexeme[1..|t.lexeme| - 1]))
    && (t.tokenType != Number && t.tokenType != String ==> t.literal == NilVal)
  }

  /** The number of newline characters in `src[i..j]`. */
  function LineBreaks(src: string, i: nat, j: nat): nat
    requires i <= j <= |src|
    decreases j - i
  {
    if i == j then 0 else (if src[i] == '\n' then 1 else 0) + LineBreaks(src, i + 1, j)
  }

  /** Newlines are counted piecewise. */
  lemma {:induction false} LineBreaksSplit(src: string, i: nat, j: nat, k: nat)
    requires i <= j <= k <= |src|
    ensures LineBreaks(src, i, k) == LineBreaks(src, i, j) + LineBreaks(src, j, k)
    decreases j - i
  {
    if i < j {
      LineBreaksSplit(src, i + 1, j, k);
    }
  }

  /** A stretch without newline characters counts no lines. */
  lemma {:induction false} NoLineBreaks(src: string, a: nat, b: nat)
    requires a <= b <= |src|
    requires forall k :: a <= k < b ==> src[k] != '\n'
    ensures LineBreaks(src, a, b) == 0
    decreases b - a
  {
    if a < b {
      NoLineBreaks(src, a + 1, b);
    }
  }

  // ---------------------------------------------------------------------------
  // The methods `string`, `number` and `identifier`.

  /** A string token ends at a closing quote. */
  lemma {:induction false} StringStepEnd(src: string, start: nat, pos: nat, line: nat)
    requires start < pos <= |src|
    ensures var s := StringStep(src, start, pos, line);
      s.Emit? ==> s.stop >= pos + 1 && src[s.stop - 1] == '"'
    decreases |src| - pos
  {
    if PeekAt(src, pos) != '"' && pos < |src| {
      var p := if src[pos] == '\n' then pos + 1 else pos;
      var l := if src[pos] == '\n' then line + 1 else line;
      if p < |src| {
        assert StringStep(src, start, pos, line) == StringStep(src, start, p + 1, l);
        StringStepEnd(src, start, p + 1, l);
      }
    }
  }

  /** A string token carries the text between its quotes. */
  lemma {:induction false} StringStepToken(src: string, start: nat, pos: nat, line: nat)
    requires start < pos <= |src|
    ensures var s := StringStep(src, start, pos, line);
      s.Emit? ==> s.stop >= 2 + start && s.token == Token(String, src[start..s.stop], StrVal(src[start + 1..s.stop - 1]), s.line)
    decreases |src| - pos
  {
    if PeekAt(src, pos) != '"' && pos < |src| {
      var p := if src[pos] == '\n' then pos + 1 else pos;
      var l := if src[pos] == '\n' then line + 1 else line;
      if p < |src| {
        assert StringStep(src, start, pos, line) == StringStep(src, start, p + 1, l);
        StringStepToken(src, start, p + 1, l);
      }
    }
  }

  /** A string step raises only at the end of the source, and never emits nothing. */
  lemma {:induction false} StringStepRaise(src: string, start: nat, pos: nat, line: nat)
    requires start < pos <= |src|
    ensures var s := StringStep(src, start, pos, line);
      (s.Raise? ==> s.stop == |src|) && !s.Skip?
    decreases |src| - pos
  {
    if PeekAt(src, pos) != '"' && pos < |src| {
      var p := if src[pos] == '\n' then pos + 1 else pos;
      var l := if src[pos] == '\n' then line + 1 else line;
      if p < |src| {
        assert StringStep(src, start, pos, line) == StringStep(src, start, p + 1, l);
        StringStepRaise(src, start, p + 1, l);
      }
    }
  }

  /**
   * Every quote the string loop passes over sits right after a newline: it
   * is the character `next(self)` consumes after a counted newline.
   */
  lemma {:induction false} StringStepQuotes(src: string, start: nat, pos: nat, line: nat)
    requires start < pos <= |src|
    ensures var s := StringStep(src, start, pos, line);
      var last := if s.Emit? then s.stop - 1 else |src|;
      forall k | pos <= k < last && src[k] == '"' :: pos < k && src[k - 1] == '\n'
    decreases |src| - pos
  {
    if PeekAt(src, pos) != '"' && pos < |src| {
      var p := if src[pos] == '\n' then pos + 1 else pos;
      var l := if src[pos] == '\n' then line + 1 else line;
      if p < |src| {
        assert StringStep(src, start, pos, line) == StringStep(src, start, p + 1, l);
        StringStepQuotes(src, start, p + 1, l);
      }
    }
  }

  /** An unterminated string raises ParsingError, or IndexError when a newline ends the source. */
  lemma {:induction false} StringStepError(src: string, start: nat, pos: nat, line: nat)
    requires start < pos <= |src|
    ensures var s := StringStep(src, start, pos, line);
      s.Raise? ==> s.error == ParsingError("Unterminated string") || (s.error == IndexError && src[|src| - 1] == '\n')
    decreases |src| - pos
  {
    if PeekAt(src, pos) != '"' && pos < |src| {
      var p := if src[pos] == '\n' then pos + 1 else pos;
      var l := if src[pos] == '\n' then line + 1 else line;
      if p < |src| {
        assert StringStep(src, start, pos, line) == StringStep(src, start, p + 1, l);
        StringStepError(src, start, p + 1, l);
      }
    }
  }

  /**
   * A string literal runs from its opening quote to the first quote the loop
   * looks at: every quote before it follows a newline, which the loop counted
   * and consumed together with that quote. Its token carries the text between
   * the quotes. It raises only at the end of the source: "Unterminated string",
   * or IndexError when the source ends in a newline inside the string.
   */
  lemma StringStepShape(src: string, start: nat, pos: nat, line: nat)
    requires start < pos <= |src| && src[start] == '"'
    ensures var s := StringStep(src, start, pos, line);
      && (s.Emit? ==>
            && s.stop >= pos + 1 && src[s.stop - 1] == '"'
            && s.token == Token(String, src[start..s.stop], StrVal(src[start + 1..s.stop - 1]), s.line)
            && forall k | pos <= k < s.stop - 1 && src[k] == '"' :: pos < k && src[k - 1] == '\n')
      && (s.Raise? ==>
            && s.stop == |src|
            && (forall k | pos <= k < |src| && src[k] == '"' :: pos < k && src[k - 1] == '\n')
            && (s.error == ParsingError("Unterminated string") || (s.error == IndexError && src[|src| - 1] == '\n')))
      && !s.Skip?
  {
    StringStepEnd(src, start, pos, line);
    StringStepToken(src, start, pos, line);
    StringStepRaise(src, start, pos, line);
    StringStepQuotes(src, start, pos, line);
    StringStepError(src, start, pos, line);
  }

  /** The line a string literal ends on counts no more newlines than the literal holds. */
  lemma {:induction false} StringStepLine(src: string, start: nat, pos: nat, line: nat)
    requires start < pos <= |src|
    ensures var s := StringStep(src, start, pos, line);
      s.line <= line + LineBreaks(src, pos, s.stop)
    decreases |src| - pos
  {
    if PeekAt(src, pos) != '"' && pos < |src| {
      var p := if src[pos] == '\n' then pos + 1 else pos;
      var l := if src[pos] == '\n' then line + 1 else line;
      if p < |src| {
        var s := StringStep(src, start, pos, line);
        assert s == StringStep(src, start, p + 1, l);
        StringStepLine(src, start, p + 1, l);
        LineBreaksSplit(src, pos, p + 1, s.stop);
      }
    }
  }

  /** `number` raises exactly when the source ends in a `.` right after the digits. */
  lemma NumberStepRaises(src: string, start: nat, line: nat)
    requires start < |src| && IsDigit(src[start])
    ensures var s := NumberStep(src, start, line);
      && !s.Skip?
      && (s.Raise? <==> DigitsEnd(src, start + 1) == |src| - 1 && src[|src| - 1] == '.')
      && (s.Raise? ==> s.error == IndexError)
  {
  }

  /** A nonempty run of digits is a decimal literal. */
  lemma DigitsAreDecimal(src: string, a: nat, b: nat)
    requires a < b <= |src|
    requires forall k :: a <= k < b ==> IsDigit(src[k])
    ensures IsDecimal(src[a..b])
  {
    var t := src[a..b];
    assert forall k :: 0 <= k < |t| ==> t[k] == src[a + k];
  }

  /** Digits, one `.`, and digits again are a decimal literal. */
  lemma FractionIsDecimal(src: string, a: nat, d: nat, b: nat)
    requires a < d && d + 1 < b <= |src| && src[d] == '.'
    requires forall k :: a <= k < b && k != d ==> IsDigit(src[k])
    ensures IsDecimal(src[a..b])
  {
    var t := src[a..b];
    assert forall k :: 0 <= k < |t| ==> t[k] == src[a + k];
  }

  /** Reading a numeral inside the source is reading it as a string of its own. */
  lemma {:induction false} MantissaSlice(src: string, i: nat, k: nat, j: nat, m: nat, e: nat, dotted: bool)
    requires i <= k <= j <= |src|
    ensures Mantissa(src, k, j, m, e, dotted) == Mantissa(src[i..j], k - i, j - i, m, e, dotted)
    decreases j - k
  {
    if k < j {
      assert src[i..j][k - i] == src[k];
      MantissaSlice(src, i, k + 1, j, if src[k] == '.' then m else m * 10 + DigitValue(src[k]),
        if src[k] != '.' && dotted then e + 1 else e, dotted || src[k] == '.');
    }
  }

  /** A NUMBER lexeme is a decimal literal, and its token carries its value. */
  lemma NumberStepToken(src: string, start: nat, line: nat)
    requires start < |src| && IsDigit(src[start])
    ensures var s := NumberStep(src, start, line);
      s.Emit? ==>
        && s.token == Token(Number, src[start..s.stop], NumVal(DecimalValue(src[start..s.stop])), line)
        && IsDecimal(src[start..s.stop])
  {
    var s := NumberStep(src, start, line);
    MantissaSlice(src, start, start, s.stop, 0, 0, false);
    var i := DigitsEnd(src, start + 1);
    if s.Emit? {
      if s.stop > i {
        FractionIsDecimal(src, start, i, s.stop);
      } else {
        DigitsAreDecimal(src, start, s.stop);
      }
    }
  }

  /**
   * A NUMBER token is as long as it can be: no digit follows it, and when it
   * has no `.` the character after it is not a `.` followed by a digit.
   */
  lemma NumberStepMaximal(src: string, start: nat, line: nat)
    requires start < |src| && IsDigit(src[start])
    ensures var s := NumberStep(src, start, line);
      s.Emit? ==>
        && (s.stop == |src| || !IsDigit(src[s.stop]))
        && ('.' !in src[start..s.stop] && s.stop < |src| && src[s.stop] == '.' ==>
              s.stop + 1 < |src| && !IsDigit(src[s.stop + 1]))
  {
    var s := NumberStep(src, start, line);
    var i := DigitsEnd(src, start + 1);
    if s.Emit? && s.stop > i {
      assert src[start..s.stop][i - start] == '.';
    }
  }

  /**
   * An identifier token is the longest run of identifier characters, and it
   * is a keyword's token exactly when that run is a reserved word.
   */
  lemma IdentifierStepShape(src: string, start: nat, line: nat)
    requires start < |src| && IsIdentifierChar(src[start])
    ensures var s := IdentifierStep(src, start, line);
      && s.Emit?
      && s.token == Token(KeywordType(src[start..s.stop]), src[start..s.stop], NilVal, line)
      && (forall k :: start <= k < s.stop ==> IsIdentifierChar(src[k]))
      && (s.stop == |src| || !IsIdentifierChar(src[s.stop]))
  {
  }

  // ---------------------------------------------------------------------------
  // One call of `scan_token`.

  /** The reserved words' token types are neither literals nor EOF. */
  lemma KeywordTypeNotLiteral(text: string)
    ensures KeywordType(text) !in {Number, String, Eof}
  {
  }

  /** The characters `scan_token` has a case for. */
  predicate Recognized(c: char)
  {
    c in "(){},.-+;*!=<>/ \r\t\n\"" || IsDigit(c) || IsIdentifierChar(c)
  }

  /**
   * The cases of the match of `scan_token`: which characters select the
   * literal cases and the newline case, and that the operator cases emit
   * neither a literal nor EOF.
   */
  lemma ActionClasses(c: char)
    ensures ActionFor(c) == Quote <==> c == '"'
    ensures ActionFor(c) == LineBreak <==> c == '\n'
    ensures ActionFor(c) == Digit <==> IsDigit(c)
    ensures ActionFor(c) == Letter <==> IsIdentifierChar(c)
    ensures ActionFor(c) == Unknown <==> !Recognized(c)
    ensures ActionFor(c).Single? ==> ActionFor(c).tt !in {Number, String, Eof}
    ensures ActionFor(c).Pair? ==> ActionFor(c).one !in {Number, String, Eof} && ActionFor(c).two !in {Number, String, Eof}
  {
  }

  /** The token of one step is the text it consumed, on the line the step ended on. */
  lemma StepLexeme(src: string, pos: nat, line: nat)
    requires pos < |src|
    ensures var s := TokenStep(src, pos, line);
      s.Emit? ==> s.token.lexeme == src[pos..s.stop] && s.token.line == s.line
  {
    if ActionFor(src[pos]) == Quote {
      ActionClasses(src[pos]);
      StringStepShape(src, pos, pos + 1, line);
    }
  }

  /** A quoted lexeme carrying the text between its quotes is a well-formed STRING token. */
  lemma QuotedWellFormed(src: string, start: nat, stop: nat, token: Token)
    requires start + 2 <= stop <= |src| && src[start] == '"' && src[stop - 1] == '"'
    requires token.tokenType == String && token.lexeme == src[start..stop]
    requires token.literal == StrVal(src[start + 1..stop - 1])
    ensures WellFormedToken(token)
  {
    var t := src[start..stop];
    var inner := t[1..|t| - 1];
    assert forall k :: 0 <= k < |inner| ==> inner[k] == src[start + 1 + k];
    assert inner == src[start + 1..stop - 1];
  }

  lemma StringWellFormed(src: string, pos: nat, line: nat)
    requires pos < |src| && src[pos] == '"'
    ensures var s := StringStep(src, pos, pos + 1, line);
      s.Emit? ==> WellFormedToken(s.token)
  {
    var s := StringStep(src, pos, pos + 1, line);
    StringStepShape(src, pos, pos + 1, line);
    if s.Emit? {
      QuotedWellFormed(src, pos, s.stop, s.token);
    }
  }

  lemma IdentifierWellFormed(src: string, pos: nat, line: nat)
    requires pos < |src| && IsIdentifierChar(src[pos])
    ensures WellFormedToken(IdentifierStep(src, pos, line).token)
  {
    KeywordTypeNotLiteral(src[pos..IdentifierEnd(src, pos + 1)]);
  }

  lemma OperatorWellFormed(src: string, pos: nat, line: nat)
    requires pos < |src|
    requires !ActionFor(src[pos]).Quote? && !ActionFor(src[pos]).Digit? && !ActionFor(src[pos]).Letter?
    ensures var s := TokenStep(src, pos, line);
      s.Emit? ==> WellFormedToken(s.token)
  {
    ActionClasses(src[pos]);
  }

  /** The token of one step is well formed. */
  lemma StepWellFormed(src: string, pos: nat, line: nat)
    requires pos < |src|
    ensures var s := TokenStep(src, pos, line);
      s.Emit? ==> WellFormedToken(s.token)
  {
    match ActionFor(src[pos])
    case Quote =>
      ActionClasses(src[pos]);
      StringWellFormed(src, pos, line);
    case Digit =>
      ActionClasses(src[pos]);
      NumberStepToken(src, pos, line);
    case Letter =>
      ActionClasses(src[pos]);
      IdentifierWellFormed(src, pos, line);
    case _ =>
      OperatorWellFormed(src, pos, line);
  }

  /** Both of the above. */
  lemma StepToken(src: string, pos: nat, line: nat)
    requires pos < |src|
    ensures var s := TokenStep(src, pos, line);
      s.Emit? ==> s.token.lexeme == src[pos..s.stop] && s.token.line == s.line && WellFormedToken(s.token)
  {
    StepLexeme(src, pos, line);
    StepWellFormed(src, pos, line);
  }

  /** A run of digits holds no newline. */
  lemma {:induction false} DigitsNoLineBreaks(src: string, a: nat, b: nat)
    requires a <= b <= |src|
    requires forall k :: a <= k < b ==> IsDigit(src[k])
    ensures LineBreaks(src, a, b) == 0
    decreases b - a
  {
    if a < b {
      DigitsNoLineBreaks(src, a + 1, b);
    }
  }

  /** A run of identifier characters holds no newline. */
  lemma {:induction false} LettersNoLineBreaks(src: string, a: nat, b: nat)
    requires a <= b <= |src|
    requires forall k :: a <= k < b ==> IsIdentifierChar(src[k])
    ensures LineBreaks(src, a, b) == 0
    decreases b - a
  {
    if a < b {
      LettersNoLineBreaks(src, a + 1, b);
    }
  }

  /** Digits, a `.`, and digits again hold no newline. */
  lemma FractionNoLineBreaks(src: string, a: nat, d: nat, b: nat)
    requires a <= d < b <= |src| && src[d] == '.'
    requires forall k :: a <= k < d ==> IsDigit(src[k])
    requires forall k :: d + 1 <= k < b ==> IsDigit(src[k])
    ensures LineBreaks(src, a, b) == 0
  {
    DigitsNoLineBreaks(src, a, d);
    DigitsNoLineBreaks(src, d + 1, b);
    assert LineBreaks(src, d, b) == LineBreaks(src, d + 1, b);
    LineBreaksSplit(src, a, d, b);
  }

  /** A number literal holds no newline. */
  lemma NumberNoNewline(src: string, start: nat, line: nat)
    requires start < |src| && IsDigit(src[start])
    ensures LineBreaks(src, start, NumberStep(src, start, line).stop) == 0
  {
    var i := DigitsEnd(src, start + 1);
    var stop := NumberStep(src, start, line).stop;
    assert forall k :: start <= k < i ==> IsDigit(src[k]);
    if stop == i {
      DigitsNoLineBreaks(src, start, i);
    } else {
      assert src[i] == '.' && stop == DigitsEnd(src, i + 1);
      FractionNoLineBreaks(src, start, i, stop);
    }
  }

  lemma StringLine(src: string, pos: nat, line: nat)
    requires pos < |src| && src[pos] == '"'
    ensures var s := StringStep(src, pos, pos + 1, line);
      s.line <= line + LineBreaks(src, pos, s.stop)
  {
    StringStepLine(src, pos, pos + 1, line);
  }

  lemma IdentifierLine(src: string, pos: nat, line: nat)
    requires pos < |src| && IsIdentifierChar(src[pos])
    ensures LineBreaks(src, pos, IdentifierStep(src, pos, line).stop) == 0
  {
    var stop := IdentifierEnd(src, pos + 1);
    assert forall k :: pos <= k < stop ==> IsIdentifierChar(src[k]);
    LettersNoLineBreaks(src, pos, stop);
  }

  lemma SlashLine(src: string, pos: nat, line: nat)
    requires pos < |src| && ActionFor(src[pos]) == SlashOrComment
    ensures var s := TokenStep(src, pos, line);
      s.line == line + LineBreaks(src, pos, s.stop)
  {
    assert src[pos] == '/';
    var s := TokenStep(src, pos, line);
    if NextIsAt(src, pos + 1, '/') {
      assert s.stop == CommentEnd(src, pos + 2);
      assert forall k :: pos <= k < s.stop ==> src[k] != '\n';
      NoLineBreaks(src, pos, s.stop);
    } else {
      assert LineBreaks(src, pos, pos + 1) == 0;
    }
  }

  lemma ShortLine(src: string, pos: nat, line: nat)
    requires pos < |src|
    requires var a := ActionFor(src[pos]); !a.Quote? && !a.Digit? && !a.Letter? && !a.SlashOrComment?
    ensures var s := TokenStep(src, pos, line);
      s.line == line + LineBreaks(src, pos, s.stop)
  {
    ActionClasses(src[pos]);
    var s := TokenStep(src, pos, line);
    assert LineBreaks(src, s.stop, s.stop) == 0;
  }

  /**
   * The line after one step: the start line plus the newlines it consumed,
   * except inside a string literal, where a newline can be consumed without
   * being counted.
   */
  lemma StepLine(src: string, pos: nat, line: nat)
    requires pos < |src|
    ensures var s := TokenStep(src, pos, line);
      && s.line <= line + LineBreaks(src, pos, s.stop)
      && (src[pos] != '"' ==> s.line == line + LineBreaks(src, pos, s.stop))
  {
    match ActionFor(src[pos])
    case Quote =>
      ActionClasses(src[pos]);
      StringLine(src, pos, line);
    case Digit =>
      ActionClasses(src[pos]);
      NumberNoNewline(src, pos, line);
    case Letter =>
      ActionClasses(src[pos]);
      IdentifierLine(src, pos, line);
    case SlashOrComment =>
      SlashLine(src, pos, line);
    case _ =>
      ShortLine(src, pos, line);
  }

  /**
   * `!`, `=`, `<` and `>` take a directly following `=` into one
   * two-character token, and otherwise are a one-character token.
   */
  lemma OperatorPairs(src: string, pos: nat, line: nat)
    requires pos < |src| && src[pos] in "!=<>"
    ensures var s := TokenStep(src, pos, line);
      var two := pos + 1 < |src| && src[pos + 1] == '=';
      && s.Emit? && s.stop == (if two then pos + 2 else pos + 1) && s.line == line
      && s.token.lexeme == src[pos..s.stop] && s.token.literal == NilVal
      && (src[pos] == '!' ==> s.token.tokenType == if two then BangEqual else Bang)
      && (src[pos] == '=' ==> s.token.tokenType == if two then EqualEqual else Equal)
      && (src[pos] == '<' ==> s.token.tokenType == if two then LessEqual else Less)
      && (src[pos] == '>' ==> s.token.tokenType == if two then GreaterEqual else Greater)
  {
    var c := src[pos];
    assert ActionFor(c) == if c == '!' then Pair(Bang, BangEqual) else if c == '=' then Pair(Equal, EqualEqual)
      else if c == '<' then Pair(Less, LessEqual) else Pair(Greater, GreaterEqual);
  }

  /** A `/` not followed by another `/` is a SLASH token. */
  lemma LoneSlash(src: string, pos: nat, line: nat)
    requires pos < |src| && src[pos] == '/' && !(pos + 1 < |src| && src[pos + 1] == '/')
    ensures TokenStep(src, pos, line) == Emit(Token(Slash, "/", NilVal, line), pos + 1, line)
  {
    assert src[pos..pos + 1] == "/";
  }

  /** `scan_token` raises "Unexpected character" exactly on a character it has no case for. */
  lemma StepUnexpected(src: string, pos: nat, line: nat)
    requires pos < |src|
    ensures var s := TokenStep(src, pos, line);
      s == Raise(ParsingError("Unexpected character: " + [src[pos]]), pos + 1, line) <==> !Recognized(src[pos])
  {
    ActionClasses(src[pos]);
    match ActionFor(src[pos])
    case Quote => StringStepShape(src, pos, pos + 1, line);
    case Digit => NumberStepRaises(src, pos, line);
    case _ =>
  }

  // ---------------------------------------------------------------------------
  // The loop of `scan_tokens`.

  /**
   * The tokens of a finished scan: when it returned, they end in the one EOF
   * token, on the last line, and the source was read to its end; every other
   * token is well formed.
   */
  predicate EofLast(src: string, r: Scanned)
  {
    && (r.error.None? ==> r.stop == |src| && |r.tokens| > 0 && r.tokens[|r.tokens| - 1] == EofToken(r.line))
    && (forall i :: 0 <= i < |r.tokens| && (r.error.Some? || i < |r.tokens| - 1) ==> WellFormedToken(r.tokens[i]))
  }

  lemma {:induction false} ScanFromEofLast(src: string, start: nat, pos: nat, line: nat)
    requires pos <= |src|
    ensures EofLast(src, ScanFrom(src, start, pos, line))
    decreases |src| - pos
  {
    if pos < |src| {
      var s := TokenStep(src, pos, line);
      assert ScanFrom(src, start, pos, line) == ScanTokenAt(src, pos, line);
      if !s.Raise? {
        StepToken(src, pos, line);
        ScanFromEofLast(src, pos, s.stop, s.line);
      }
    }
  }

  /** The lines of `ts` lie between `lo` and `hi` and never decrease. */
  predicate LinesOrdered(ts: seq<Token>, lo: nat, hi: nat)
  {
    && (forall i :: 0 <= i < |ts| ==> lo <= ts[i].line <= hi)
    && (forall i, j :: 0 <= i < j < |ts| ==> ts[i].line <= ts[j].line)
  }

  /** A scan's tokens are in line order, from its first line to the line it ends on. */
  lemma {:induction false} ScanFromLines(src: string, start: nat, pos: nat, line: nat)
    requires pos <= |src|
    ensures var r := ScanFrom(src, start, pos, line);
      line <= r.line && LinesOrdered(r.tokens, line, r.line)
    decreases |src| - pos
  {
    if pos < |src| {
      var s := TokenStep(src, pos, line);
      assert ScanFrom(src, start, pos, line) == ScanTokenAt(src, pos, line);
      if !s.Raise? {
        StepToken(src, pos, line);
        ScanFromLines(src, pos, s.stop, s.line);
      }
    }
  }

  /**
   * The line a scan ends on is its first line plus at most the newlines it
   * read, and exactly that many when it read no string literal.
   */
  lemma {:induction false} ScanFromLineCount(src: string, start: nat, pos: nat, line: nat)
    requires pos <= |src|
    ensures var r := ScanFrom(src, start, pos, line);
      && r.line <= line + LineBreaks(src, pos, r.stop)
      && ((forall k :: pos <= k < r.stop ==> src[k] != '"') ==> r.line == line + LineBreaks(src, pos, r.stop))
    decreases |src| - pos
  {
    if pos < |src| {
      var s := TokenStep(src, pos, line);
      assert ScanFrom(src, start, pos, line) == ScanTokenAt(src, pos, line);
      StepLine(src, pos, line);
      if !s.Raise? {
        ScanFromLineCount(src, pos, s.stop, s.line);
        LineBreaksSplit(src, pos, s.stop, ScanFrom(src, pos, s.stop, s.line).stop);
      }
    }
  }

  /**
   * Token `i` of `ts` is the text of `src` at `at[i]`, at or after `pos`, and
   * the tokens do not overlap and come in the order of the source.
   */
  predicate InSourceOrder(src: string, pos: nat, ts: seq<Token>, at: seq<nat>)
  {
    && |at| == |ts|
    && (forall i :: 0 <= i < |ts| ==>
          pos <= at[i] && at[i] + |ts[i].lexeme| <= |src| && src[at[i]..at[i] + |ts[i].lexeme|] == ts[i].lexeme)
    && (forall i :: 0 <= i < |ts| - 1 ==> at[i] + |ts[i].lexeme| <= at[i + 1])
  }

  /** A token for `src[pos..stop]` before tokens that start at `stop` or later. */
  lemma ConsInSourceOrder(src: string, pos: nat, stop: nat, t: Token, ts: seq<Token>, at: seq<nat>)
    requires pos <= stop <= |src| && t.lexeme == src[pos..stop]
    requires InSourceOrder(src, stop, ts, at)
    ensures InSourceOrder(src, pos, [t] + ts, [pos] + at)
  {
    var ts', at' := [t] + ts, [pos] + at;
    forall i | 0 <= i < |ts'|
      ensures pos <= at'[i] && at'[i] + |ts'[i].lexeme| <= |src| && src[at'[i]..at'[i] + |ts'[i].lexeme|] == ts'[i].lexeme
    {
      if i > 0 {
        assert ts'[i] == ts[i - 1] && at'[i] == at[i - 1];
      }
    }
    forall i | 0 <= i < |ts'| - 1
      ensures at'[i] + |ts'[i].lexeme| <= at'[i + 1]
    {
      if i > 0 {
        assert ts'[i] == ts[i - 1] && at'[i + 1] == at[i];
      }
    }
  }

  /** Tokens that start at `stop` or later start at `pos <= stop` or later. */
  lemma WidenInSourceOrder(src: string, pos: nat, stop: nat, ts: seq<Token>, at: seq<nat>)
    requires pos <= stop && InSourceOrder(src, stop, ts, at)
    ensures InSourceOrder(src, pos, ts, at)
  {
  }

  /** The lexemes of a scan are pieces of the source, in order. */
  lemma {:induction false} ScanFromInSourceOrder(src: string, start: nat, pos: nat, line: nat) returns (at: seq<nat>)
    requires pos <= |src|
    ensures InSourceOrder(src, pos, ScanFrom(src, start, pos, line).tokens, at)
    decreases |src| - pos
  {
    if pos == |src| {
      return [pos];
    }
    var s := TokenStep(src, pos, line);
    assert ScanFrom(src, start, pos, line) == ScanTokenAt(src, pos, line);
    if s.Raise? {
      return [];
    }
    StepToken(src, pos, line);
    var rest := ScanFromInSourceOrder(src, pos, s.stop, s.line);
    var ts := ScanFrom(src, pos, s.stop, s.line).tokens;
    if s.Emit? {
      assert ScanFrom(src, start, pos, line).tokens == [s.token] + ts;
      ConsInSourceOrder(src, pos, s.stop, s.token, ts, rest);
      at := [pos] + rest;
    } else {
      assert ScanFrom(src, start, pos, line).tokens == [] + ts == ts;
      WidenInSourceOrder(src, pos, s.stop, ts, rest);
      at := rest;
    }
  }

  /** A comment, up to the newline that ends it, adds no token and counts no line. */
  lemma CommentSkipped(src: string, start: nat, pos: nat, line: nat)
    requires pos + 1 < |src| && src[pos] == '/' && src[pos + 1] == '/'
    ensures ScanFrom(src, start, pos, line) == ScanFrom(src, pos, CommentEnd(src, pos + 2), line)
  {
    assert TokenStep(src, pos, line) == Skip(CommentEnd(src, pos + 2), line);
    assert ScanFrom(src, start, pos, line) == ScanTokenAt(src, pos, line);
    assert [] + ScanFrom(src, pos, CommentEnd(src, pos + 2), line).tokens == ScanFrom(src, pos, CommentEnd(src, pos + 2), line).tokens;
  }

  // ---------------------------------------------------------------------------
  // `Scanner(source).scan_tokens()`.

  /**
   * The token list of a scan that returns: exactly one EOF token, last, on
   * the last line; well-formed tokens before it; lines in order from 1 to
   * one more than the newlines of the source, and exactly that when the
   * source holds no string literal.
   */
  lemma ScanTokensShape(src: string)
    ensures Scan(src).Success? ==>
      var ts := Scan(src).value;
      && |ts| > 0 && ts[|ts| - 1].tokenType == Eof
      && (forall i :: 0 <= i < |ts| - 1 ==> WellFormedToken(ts[i]))
      && LinesOrdered(ts, 1, 1 + LineBreaks(src, 0, |src|))
      && ('"' !in src ==> ts[|ts| - 1].line == 1 + LineBreaks(src, 0, |src|))
  {
    var r := ScanFrom(src, 0, 0, 1);
    ScanFromEofLast(src, 0, 0, 1);
    ScanFromLines(src, 0, 0, 1);
    ScanFromLineCount(src, 0, 0, 1);
    if r.error.None? && '"' !in src {
      assert forall k :: 0 <= k < |src| ==> src[k] != '"';
    }
  }

  /** The lexemes of the tokens a scan returns are pieces of the source, in order. */
  lemma ScanInSourceOrder(src: string) returns (at: seq<nat>)
    requires Scan(src).Success?
    ensures InSourceOrder(src, 0, Scan(src).value, at)
  {
    at := ScanFromInSourceOrder(src, 0, 0, 1);
  }

  /** The scan of an empty source is the EOF token alone. */
  lemma ScanEmpty()
    ensures Scan("") == Success([EofToken(1)])
  {
  }

  /** `!=` is one token, not `!` and `=`. */
  lemma ScanBangEqual()
    ensures Scan("!=") == Success([Token(BangEqual, "!=", NilVal, 1), EofToken(1)])
  {
    var src := "!=";
    assert TokenStep(src, 0, 1) == AddTokenAt(src, 0, 2, BangEqual, NilVal, 1);
    assert src[0..2] == "!=";
    assert ScanFrom(src, 0, 0, 1) == ScanTokenAt(src, 0, 1);
    assert [Token(BangEqual, "!=", NilVal, 1)] + [EofToken(1)] == [Token(BangEqual, "!=", NilVal, 1), EofToken(1)];
  }

  /** `exit` is a reserved word. */
  lemma ScanExit()
    ensures Scan("exit") == Success([Token(Exit, "exit", NilVal, 1), EofToken(1)])
  {
    var src := "exit";
    assert IdentifierEnd(src, 1) == 4;
    assert src[0..4] == "exit";
    assert TokenStep(src, 0, 1) == AddTokenAt(src, 0, 4, Exit, NilVal, 1);
    assert ScanFrom(src, 0, 0, 1) == ScanTokenAt(src, 0, 1);
    assert [Token(Exit, "exit", NilVal, 1)] + [EofToken(1)] == [Token(Exit, "exit", NilVal, 1), EofToken(1)];
  }

  /**
   * Inside a string a newline is counted and the character after it is
   * consumed unseen: the second of two newlines is not counted.
   */
  lemma ScanStringTwoNewlines()
    ensures Scan("\"\n\n\"") == Success([Token(String, "\"\n\n\"", StrVal("\n\n"), 2), EofToken(2)])
  {
    var src := "\"\n\n\"";
    assert StringStep(src, 0, 3, 2) == AddTokenAt(src, 0, 4, String, StrVal(src[1..3]), 2);
    assert StringStep(src, 0, 1, 1) == StringStep(src, 0, 3, 2);
    assert src[0..4] == "\"\n\n\"" && src[1..3] == "\n\n";
    assert TokenStep(src, 0, 1) == AddTokenAt(src, 0, 4, String, StrVal("\n\n"), 2);
    assert ScanFrom(src, 0, 0, 1) == ScanTokenAt(src, 0, 1);
    assert [Token(String, "\"\n\n\"", StrVal("\n\n"), 2)] + [EofToken(2)]
        == [Token(String, "\"\n\n\"", StrVal("\n\n"), 2), EofToken(2)];
  }

  /** For the same reason a quote right after a counted newline does not close the string. */
  lemma ScanQuoteAfterNewline()
    ensures Scan("\"\n\"") == Failure(ParsingError("Unterminated string"))
  {
    var src := "\"\n\"";
    assert StringStep(src, 0, 1, 1) == StringStep(src, 0, 3, 2);
    assert ScanFrom(src, 0, 0, 1) == ScanTokenAt(src, 0, 1);
  }

  /** A source ending in digits and a `.` raises IndexError, from `next_next`. */
  lemma ScanTrailingDot()
    ensures Scan("12.") == Failure(IndexError)
  {
  }

  /** A `.` not followed by a digit ends a number: in `12.x` the number is `12`. */
  lemma NumberBeforeDot()
    ensures TokenStep("12.x", 0, 1) == Emit(Token(Number, "12", NumVal(12.0), 1), 2, 1)
  {
    var src := "12.x";
    assert DigitsEnd(src, 1) == 2 && PeekNextAt(src, 2) == Success('x');
    assert src[0..2] == "12" && NumeralValue(src, 0, 2) == 12.0;
  }

  /** A number with a fraction is one token carrying its exact value. */
  lemma ScanFraction()
    ensures Scan("12.5") == Success([Token(Number, "12.5", NumVal(12.5), 1), EofToken(1)])
  {
    var src := "12.5";
    assert DigitsEnd(src, 1) == 2 && DigitsEnd(src, 3) == 4;
    assert NumeralValue(src, 0, 4) == 12.5;
    assert src[0..4] == "12.5";
    assert TokenStep(src, 0, 1) == AddTokenAt(src, 0, 4, Number, NumVal(12.5), 1);
    assert ScanFrom(src, 0, 0, 1) == ScanTokenAt(src, 0, 1);
    assert [Token(Number, "12.5", NumVal(12.5), 1)] + [EofToken(1)] == [Token(Number, "12.5", NumVal(12.5), 1), EofToken(1)];
  }

  /** A character no case matches aborts the scan. */
  lemma ScanUnexpected()
    ensures Scan("@") == Failure(ParsingError("Unexpected character: @"))
  {
    assert "Unexpected character: " + ['@'] == "Unexpected character: @";
    assert TokenStep("@", 0, 1) == Raise(ParsingError("Unexpected character: @"), 1, 1);
    assert ScanFrom("@", 0, 0, 1) == ScanTokenAt("@", 0, 1);
  }

  /** An identifier does not go on into digits: `a1` is an identifier and a number. */
  lemma ScanLetterDigit()
    ensures Scan("a1") == Success([Token(Identifier, "a", NilVal, 1), Token(Number, "1", NumVal(1.0), 1), EofToken(1)])
  {
    var src := "a1";
    assert IdentifierEnd(src, 1) == 1 && src[0..1] == "a";
    assert TokenStep(src, 0, 1) == AddTokenAt(src, 0, 1, Identifier, NilVal, 1);
    assert DigitsEnd(src, 2) == 2 && src[1..2] == "1" && NumeralValue(src, 1, 2) == 1.0;
    assert TokenStep(src, 1, 1) == AddTokenAt(src, 1, 2, Number, NumVal(1.0), 1);
    assert ScanFrom(src, 1, 1, 1) == ScanTokenAt(src, 1, 1);
    assert ScanFrom(src, 0, 0, 1) == ScanTokenAt(src, 0, 1);
    assert [Token(Identifier, "a", NilVal, 1)] + ([Token(Number, "1", NumVal(1.0), 1)] + [EofToken(1)])
        == [Token(Identifier, "a", NilVal, 1), Token(Number, "1", NumVal(1.0), 1), EofToken(1)];
  }
}
