/**
 * The scanner of src/pylox/scanner.py.
 *
 * The first half of the module describes one scan as pure functions over the
 * source text and a (start, current, line) window: `TokenStep` is one call of
 * `scan_token`, `ScanFrom` the loop of `scan_tokens`. The class `Scanner` is
 * the imperative scanner itself, with the same fields as the Python object;
 * each of its methods is proved to change its fields exactly as the pure
 * function for that step says.
 *
 * Errors are raised, not recorded: a `ParsingError` for an unterminated string
 * or an unexpected character, and Python's `IndexError` where the code indexes
 * one character past the end of the source. Either aborts the scan.
 */
module Scanning {
  import opened Wrappers
  import opened Values
  import opened Tokens

  /** `KEYWORDS.get(text, TokenType.IDENTIFIER)`: the reserved words, `exit` among them, and their token types. */
  function KeywordType(text: string): TokenType
  {
    match text
    case "and" => And
    case "class" => Class
    case "else" => Else
    case "false" => False
    case "for" => For
    case "fun" => Fun
    case "if" => If
    case "nil" => Nil
    case "or" => Or
    case "print" => Print
    case "return" => Return
    case "super" => Super
    case "this" => This
    case "true" => True
    case "var" => Var
    case "while" => While
    case "exit" => Exit
    case _ => Identifier
  }

  /** What aborts a scan. */
  datatype ScanError =
    | ParsingError(message: string)  // raised by `string` and `scan_token`
    | IndexError                     // `source[i]` with i == len(source)

  /** `str.isnumeric`, restricted to ASCII. */
  predicate IsDigit(c: char) { '0' <= c <= '9' }

  /** `str.isidentifier` on one character, restricted to ASCII: a letter or `_` (not a digit). */
  predicate IsIdentifierChar(c: char) { 'a' <= c <= 'z' || 'A' <= c <= 'Z' || c == '_' }

  // ---------------------------------------------------------------------------
  // The cursor primitives, on a source and a position.

  /** The `next` property: the character at `pos`, or `'\0'` at the end. */
  function PeekAt(src: string, pos: nat): char
  {
    if pos < |src| then src[pos] else '\0'
  }

  /**
   * The `next_next` property. Its guard is `current + 1 > len(source)`, so on
   * the last character it indexes `source[len(source)]` and raises.
   */
  function PeekNextAt(src: string, pos: nat): (r: Result<char, ScanError>)
    requires pos <= |src|
    ensures r.Failure? <==> pos + 1 == |src|
    ensures r.Failure? ==> r.error == IndexError
    ensures r.Success? ==> r.value == PeekAt(src, pos + 1)
  {
    if pos + 1 > |src| then Success('\0')
    else if pos + 1 < |src| then Success(src[pos + 1])
    else Failure(IndexError)
  }

  /** Whether `next_is(expected)` matches (and so consumes) the character at `pos`. */
  predicate NextIsAt(src: string, pos: nat, expected: char)
  {
    pos < |src| && src[pos] == expected
  }

  // ---------------------------------------------------------------------------
  // The three character loops.

  /** Where a `while self.next.isnumeric()` loop started at `pos` stops. */
  function DigitsEnd(src: string, pos: nat): (end: nat)
    requires pos <= |src|
    ensures pos <= end <= |src|
    ensures forall k :: pos <= k < end ==> IsDigit(src[k])
    ensures end == |src| || !IsDigit(src[end])
    decreases |src| - pos
  {
    if IsDigit(PeekAt(src, pos)) then DigitsEnd(src, pos + 1) else pos
  }

  /** Where the loop of `identifier` started at `pos` stops. */
  function IdentifierEnd(src: string, pos: nat): (end: nat)
    requires pos <= |src|
    ensures pos <= end <= |src|
    ensures forall k :: pos <= k < end ==> IsIdentifierChar(src[k])
    ensures end == |src| || !IsIdentifierChar(src[end])
    decreases |src| - pos
  {
    if IsIdentifierChar(PeekAt(src, pos)) then IdentifierEnd(src, pos + 1) else pos
  }

  /** Where the comment loop started at `pos` stops: at the next newline, which it leaves, or at the end. */
  function CommentEnd(src: string, pos: nat): (end: nat)
    requires pos <= |src|
    ensures pos <= end <= |src|
    ensures forall k :: pos <= k < end ==> src[k] != '\n'
    ensures end == |src| || src[end] == '\n'
    decreases |src| - pos
  {
    if PeekAt(src, pos) != '\n' && pos < |src| then CommentEnd(src, pos + 1) else pos
  }

  // ---------------------------------------------------------------------------
  // Number literals: `float(text)` on the digits of a NUMBER lexeme, exactly.

  function DigitValue(c: char): nat
  {
    if IsDigit(c) then c as int - '0' as int else 0
  }

  function Pow10(n: nat): (p: nat)
    ensures p > 0
  {
    if n == 0 then 1 else 10 * Pow10(n - 1)
  }

  /**
   * The numeral `t[i..j]` read left to right into its digits' value
   * `mantissa` and the number `scale` of digits after its `.` (`dotted` once
   * the `.` was read).
   */
  function Mantissa(t: string, i: nat, j: nat, mantissa: nat, scale: nat, dotted: bool): (nat, nat)
    requires i <= j <= |t|
    decreases j - i
  {
    if i == j then (mantissa, scale)
    else if t[i] == '.' then Mantissa(t, i + 1, j, mantissa, scale, true)
    else Mantissa(t, i + 1, j, mantissa * 10 + DigitValue(t[i]), if dotted then scale + 1 else scale, dotted)
  }

  /** `float(text)` on the numeral `text == t[i..j]`, as an exact rational. */
  function NumeralValue(t: string, i: nat, j: nat): real
    requires i <= j <= |t|
  {
    var (m, e) := Mantissa(t, i, j, 0, 0, false);
    m as real / Pow10(e) as real
  }

  /** `float(text)` on a NUMBER lexeme. */
  function DecimalValue(t: string): real
  {
    NumeralValue(t, 0, |t|)
  }

  /** The shape of every NUMBER lexeme: digits, then at most one `.` that has a digit on each side. */
  predicate IsDecimal(t: string)
  {
    && |t| > 0 && IsDigit(t[0]) && IsDigit(t[|t| - 1])
    && (forall k :: 0 <= k < |t| ==> IsDigit(t[k]) || t[k] == '.')
    && (forall j, k :: 0 <= j < k < |t| && t[j] == '.' ==> t[k] != '.')
  }

  // ---------------------------------------------------------------------------
  // One call of `scan_token`.

  /**
   * What one step of the scanner did: appended a token, appended nothing, or
   * raised. `stop` is `current` and `line` is `line` afterwards (at the moment
   * of raising, for Raise).
   */
  datatype Step =
    | Emit(token: Token, stop: nat, line: nat)
    | Skip(stop: nat, line: nat)
    | Raise(error: ScanError, stop: nat, line: nat)

  /** The tokens step `s` appends: its token when it emitted one. */
  function Emitted(s: Step): seq<Token>
  {
    if s.Emit? then [s.token] else []
  }

  /** `add_token` with the window [start, stop). */
  function AddTokenAt(src: string, start: nat, stop: nat, tt: TokenType, literal: Value, line: nat): (s: Step)
    requires start <= stop <= |src|
  {
    Emit(Token(tt, src[start..stop], literal, line), stop, line)
  }

  /**
   * The method `string`, entered with the opening quote at `start` and the
   * cursor at `pos`. Inside the loop `next_is("\n")` consumes a newline and
   * counts it, and `next(self)` then consumes one more character whatever it
   * is (raising IndexError at the end of the source).
   */
  function StringStep(src: string, start: nat, pos: nat, line: nat): (s: Step)
    requires start < pos <= |src|
    ensures pos <= s.stop <= |src| && line <= s.line
    decreases |src| - pos
  {
    if PeekAt(src, pos) != '"' && pos < |src| then
      var p := if src[pos] == '\n' then pos + 1 else pos;
      var l := if src[pos] == '\n' then line + 1 else line;
      if p >= |src| then Raise(IndexError, p, l)
      else StringStep(src, start, p + 1, l)
    else if pos >= |src| then Raise(ParsingError("Unterminated string"), pos, line)
    else AddTokenAt(src, start, pos + 1, String, StrVal(src[start + 1..pos]), line)
  }

  /** One turn of the loop of `string`: a newline is counted, then one more character is consumed. */
  lemma StringStepInside(src: string, start: nat, pos: nat, line: nat)
    requires start < pos < |src| && src[pos] != '"'
    ensures var p := if src[pos] == '\n' then pos + 1 else pos;
            var l := if src[pos] == '\n' then line + 1 else line;
            StringStep(src, start, pos, line) == if p >= |src| then Raise(IndexError, p, l) else StringStep(src, start, p + 1, l)
  {
  }

  /**
   * The method `number`, entered with the first digit at `start`. A `.` is
   * taken only when a digit follows it; asking for the character after a `.`
   * that ends the source raises IndexError.
   */
  function NumberStep(src: string, start: nat, line: nat): (s: Step)
    requires start < |src| && IsDigit(src[start])
    ensures start < s.stop <= |src| && s.line == line
  {
    var i := DigitsEnd(src, start + 1);
    if PeekAt(src, i) == '.' then
      match PeekNextAt(src, i)
      case Failure(e) => Raise(e, i, line)
      case Success(c) =>
        var j := DigitsEnd(src, if IsDigit(c) then i + 1 else i);
        AddTokenAt(src, start, j, Number, NumVal(NumeralValue(src, start, j)), line)
    else
      var j := DigitsEnd(src, i);
      AddTokenAt(src, start, j, Number, NumVal(NumeralValue(src, start, j)), line)
  }

  /** The method `identifier`, entered with the first identifier character at `start`. */
  function IdentifierStep(src: string, start: nat, line: nat): (s: Step)
    requires start < |src| && IsIdentifierChar(src[start])
    ensures start < s.stop <= |src| && s.line == line
  {
    var stop := IdentifierEnd(src, start + 1);
    AddTokenAt(src, start, stop, KeywordType(src[start..stop]), NilVal, line)
  }

  /** What the match of `scan_token` does with the character it consumed. */
  datatype Action =
    | Single(tt: TokenType)                    // a one-character token
    | Pair(one: TokenType, two: TokenType)     // `one`, or `two` when `=` follows
    | SlashOrComment                           // `/`, or a comment when `/` follows
    | Blank                                    // space, carriage return, tab
    | LineBreak                                // `\n`, which counts a line
    | Quote                                    // a string literal
    | Digit                                    // `isnumeric`: a number literal
    | Letter                                   // `isidentifier`: an identifier or keyword
    | Unknown                                  // raises "Unexpected character"

  /** The case of the match of `scan_token` that selects character `c`. */
  function ActionFor(c: char): Action
  {
    match c
    case '(' => Single(LeftParen)
    case ')' => Single(RightParen)
    case '{' => Single(LeftBrace)
    case '}' => Single(RightBrace)
    case ',' => Single(Comma)
    case '.' => Single(Dot)
    case '-' => Single(Minus)
    case '+' => Single(Plus)
    case ';' => Single(Semicolon)
    case '*' => Single(Star)
    case '!' => Pair(Bang, BangEqual)
    case '=' => Pair(Equal, EqualEqual)
    case '<' => Pair(Less, LessEqual)
    case '>' => Pair(Greater, GreaterEqual)
    case '/' => SlashOrComment
    case ' ' => Blank
    case '\r' => Blank
    case '\t' => Blank
    case '\n' => LineBreak
    case '"' => Quote
    case _ =>
      if IsDigit(c) then Digit
      else if IsIdentifierChar(c) then Letter
      else Unknown
  }

  /** One call of `scan_token` with `start == current == start` and the given line. */
  function TokenStep(src: string, start: nat, line: nat): (s: Step)
    requires start < |src|
    ensures start < s.stop <= |src| && line <= s.line
  {
    var c := src[start];
    var cur := start + 1;
    match ActionFor(c)
    case Single(tt) => AddTokenAt(src, start, cur, tt, NilVal, line)
    case Pair(one, two) =>
      if NextIsAt(src, cur, '=') then AddTokenAt(src, start, cur + 1, two, NilVal, line)
      else AddTokenAt(src, start, cur, one, NilVal, line)
    case SlashOrComment =>
      if NextIsAt(src, cur, '/') then Skip(CommentEnd(src, cur + 1), line)
      else AddTokenAt(src, start, cur, Slash, NilVal, line)
    case Blank => Skip(cur, line)
    case LineBreak => Skip(cur, line + 1)
    case Quote => StringStep(src, start, cur, line)
    case Digit => NumberStep(src, start, line)
    case Letter => IdentifierStep(src, start, line)
    case Unknown => Raise(ParsingError("Unexpected character: " + [c]), cur, line)
  }

  // ---------------------------------------------------------------------------
  // The loop of `scan_tokens`.

  /**
   * The scanner's state when `scan_tokens` returns or raises: the tokens it
   * appended (ending in EOF when it returns), its `start`, `current` and
   * `line`, and the error it raised, if any.
   */
  datatype Scanned = Scanned(tokens: seq<Token>, start: nat, stop: nat, line: nat, error: Option<ScanError>)

  /** The EOF token `scan_tokens` appends last. */
  function EofToken(line: nat): Token
  {
    Token(Eof, "", NilVal, line)
  }

  /** Scan `s` run on a scanner that already held the tokens `ts`. */
  function Prepend(ts: seq<Token>, s: Scanned): Scanned
  {
    s.(tokens := ts + s.tokens)
  }

  lemma PrependPrepend(a: seq<Token>, b: seq<Token>, s: Scanned)
    ensures Prepend(a, Prepend(b, s)) == Prepend(a + b, s)
  {
    assert a + (b + s.tokens) == (a + b) + s.tokens;
  }

  /** `scan_tokens` run on a scanner whose window is (start, pos) and whose line is `line`. */
  function ScanFrom(src: string, start: nat, pos: nat, line: nat): (r: Scanned)
    requires pos <= |src|
    ensures pos <= r.stop <= |src|
    decreases |src| - pos, 1
  {
    if pos >= |src| then Scanned([EofToken(line)], start, pos, line, None)
    else ScanTokenAt(src, pos, line)
  }

  /** One turn of the loop of `scan_tokens` at `pos` (`start = current; scan_token()`), then the rest of the loop. */
  function ScanTokenAt(src: string, pos: nat, line: nat): (r: Scanned)
    requires pos < |src|
    ensures pos < r.stop <= |src|
    decreases |src| - pos, 0
  {
    var s := TokenStep(src, pos, line);
    if s.Raise? then Scanned([], pos, s.stop, s.line, Some(s.error))
    else Prepend(Emitted(s), ScanFrom(src, pos, s.stop, s.line))
  }

  /** `Scanner(source).scan_tokens()`: the token list it returns, or the error it raises. */
  function Scan(src: string): (r: Result<seq<Token>, ScanError>)
  {
    var s := ScanFrom(src, 0, 0, 1);
    if s.error.Some? then Failure(s.error.value) else Success(s.tokens)
  }

  // ---------------------------------------------------------------------------
  // The imperative scanner.

  class Scanner {
    const source: string
    var tokens: seq<Token>
    var start: nat
    var current: nat
    var line: nat

    ghost predicate Valid()
      reads this
    {
      start <= current <= |source|
    }

    constructor (source: string)
      ensures Valid() && this.source == source
      ensures tokens == [] && start == 0 && current == 0 && line == 1
    {
      this.source := source;
      tokens := [];
      start := 0;
      current := 0;
      line := 1;
    }

    /** The scanner's fields after it performed step `s`, given its tokens before and what it returned. */
    ghost predicate Performed(s: Step, before: seq<Token>, o: Outcome<ScanError>)
      reads this
    {
      && current == s.stop && line == s.line
      && tokens == before + Emitted(s)
      && o == (if s.Raise? then Fail(s.error) else Pass)
    }

    /** `__next__`: the character under the cursor, consumed; IndexError at the end. */
    method Next() returns (r: Result<char, ScanError>)
      requires Valid()
      modifies this`current
      ensures Valid()
      ensures old(current) < |source| ==> r == Success(source[old(current)]) && current == old(current) + 1
      ensures old(current) >= |source| ==> r == Failure(IndexError) && current == old(current)
    {
      if current >= |source| {
        return Failure(IndexError);
      }
      r := Success(source[current]);
      current := current + 1;
    }

    predicate IsAtEnd()
      reads this
    {
      current >= |source|
    }

    /** `add_token`: appends a token for the window [start, current) on the current line. */
    method AddToken(tt: TokenType, literal: Value)
      requires Valid()
      modifies this`tokens
      ensures tokens == old(tokens) + [Token(tt, source[start..current], literal, line)]
    {
      tokens := tokens + [Token(tt, source[start..current], literal, line)];
    }

    /** `next_is`: consumes the character under the cursor exactly when it is `expected`. */
    method NextIs(expected: char) returns (b: bool)
      requires Valid()
      modifies this`current
      ensures Valid()
      ensures b == NextIsAt(source, old(current), expected)
      ensures current == old(current) + (if b then 1 else 0)
    {
      if IsAtEnd() {
        return false;
      }
      if source[current] != expected {
        return false;
      }
      current := current + 1;
      return true;
    }

    /** The `next` property. */
    function Peek(): (c: char)
      reads this
      ensures c == PeekAt(source, current)
    {
      if IsAtEnd() then '\0' else source[current]
    }

    /** The `next_next` property. */
    function PeekNext(): (r: Result<char, ScanError>)
      reads this
      requires Valid()
      ensures r == PeekNextAt(source, current)
    {
      if current + 1 > |source| then Success('\0')
      else if current + 1 < |source| then Success(source[current + 1])
      else Failure(IndexError)
    }

    /** The method `string`, called right after the opening quote was consumed. */
    method ScanString() returns (o: Outcome<ScanError>)
      requires Valid() && current == start + 1 && current <= |source|
      modifies this`current, this`line, this`tokens
      ensures Valid() && start == old(start)
      ensures Performed(StringStep(source, start, old(current), old(line)), old(tokens), o)
    {
      while Peek() != '"' && !IsAtEnd()
        invariant Valid() && start < current && tokens == old(tokens)
        invariant StringStep(source, start, current, line) == StringStep(source, start, old(current), old(line))
        decreases |source| - current
      {
        var turn := StringTurn();
        if turn.Fail? {
          return turn;
        }
      }
      ghost var last := StringStep(source, start, current, line);
      if IsAtEnd() {
        assert last == Raise(ParsingError("Unterminated string"), current, line);
        return Fail(ParsingError("Unterminated string"));
      }
      assert last == AddTokenAt(source, start, current + 1, String, StrVal(source[start + 1..current]), line);
      var quote := Next();
      AddToken(String, StrVal(source[start + 1..current - 1]));
      return Pass;
    }

    /** One turn of the loop of `string`: `next_is("\n")`, then `next(self)`. */
    method StringTurn() returns (o: Outcome<ScanError>)
      requires Valid() && start < current < |source| && source[current] != '"'
      modifies this`current, this`line
      ensures Valid() && old(current) < current
      ensures o.Fail? ==> o.error == IndexError && StringStep(source, start, old(current), old(line)) == Raise(IndexError, current, line)
      ensures o.Pass? ==> StringStep(source, start, current, line) == StringStep(source, start, old(current), old(line))
    {
      ghost var pos, was := current, line;
      StringStepInside(source, start, pos, was);
      var newline := NextIs('\n');
      if newline {
        line := line + 1;
      }
      assert current == (if source[pos] == '\n' then pos + 1 else pos);
      assert line == (if source[pos] == '\n' then was + 1 else was);
      var c := Next();
      if c.Failure? {
        return Fail(c.error);
      }
      return Pass;
    }

    /** The loop `while self.next.isnumeric(): next(self)` of `number`. */
    method SkipDigits()
      requires Valid()
      modifies this`current
      ensures Valid() && current == DigitsEnd(source, old(current))
    {
      while IsDigit(Peek())
        invariant Valid() && old(current) <= current
        invariant DigitsEnd(source, current) == DigitsEnd(source, old(current))
        decreases |source| - current
      {
        var digit := Next();
      }
    }

    /** The method `number`, called right after the first digit was consumed. */
    method ScanNumber() returns (o: Outcome<ScanError>)
      requires Valid() && current == start + 1 && start < |source| && IsDigit(source[start])
      modifies this`current, this`tokens
      ensures Valid() && start == old(start)
      ensures Performed(NumberStep(source, start, old(line)), old(tokens), o)
    {
      SkipDigits();
      if Peek() == '.' {
        var after := PeekNext();
        if after.Failure? {
          return Fail(after.error);
        }
        if IsDigit(after.value) {
          var dot := Next();
        }
      }
      SkipDigits();
      AddToken(Number, NumVal(NumeralValue(source, start, current)));
      return Pass;
    }

    /** The method `identifier`, called right after the first identifier character was consumed. */
    method ScanIdentifier() returns (o: Outcome<ScanError>)
      requires Valid() && current == start + 1 && start < |source| && IsIdentifierChar(source[start])
      modifies this`current, this`tokens
      ensures Valid() && start == old(start)
      ensures Performed(IdentifierStep(source, start, old(line)), old(tokens), o)
    {
      while IsIdentifierChar(Peek())
        invariant Valid() && start < current && tokens == old(tokens)
        invariant IdentifierEnd(source, current) == IdentifierEnd(source, start + 1)
        decreases |source| - current
      {
        var c := Next();
      }
      var text := source[start..current];
      AddToken(KeywordType(text), NilVal);
      return Pass;
    }

    /** The loop of the `//` case of `scan_token`: up to the next newline, which it leaves. */
    method SkipComment()
      requires Valid()
      modifies this`current
      ensures Valid() && current == CommentEnd(source, old(current))
    {
      while Peek() != '\n' && !IsAtEnd()
        invariant Valid() && old(current) <= current
        invariant CommentEnd(source, current) == CommentEnd(source, old(current))
        decreases |source| - current
      {
        var skipped := Next();
      }
    }

    /** The method `scan_token`, called with an empty window that is not at the end. */
    method ScanToken() returns (o: Outcome<ScanError>)
      requires Valid() && start == current && current < |source|
      modifies this`current, this`line, this`tokens
      ensures Valid() && start == old(start)
      ensures Performed(TokenStep(source, old(current), old(line)), old(tokens), o)
    {
      var next := Next();
      var c := next.value;
      o := Pass;
      match ActionFor(c)
      case Single(tt) => AddToken(tt, NilVal);
      case Pair(one, two) =>
        var eq := NextIs('=');
        AddToken(if eq then two else one, NilVal);
      case SlashOrComment =>
        var comment := NextIs('/');
        if comment {
          SkipComment();
        } else {
          AddToken(Slash, NilVal);
        }
      case Blank =>
      case LineBreak =>
        line := line + 1;
      case Quote =>
        o := ScanString();
      case Digit =>
        o := ScanNumber();
      case Letter =>
        o := ScanIdentifier();
      case Unknown =>
        o := Fail(ParsingError("Unexpected character: " + [c]));
    }

    /**
     * The scanner's fields once a scan `s` has run on a scanner whose tokens
     * were `before`, and what `scan_tokens` gave back: the token list, or the
     * error it raised.
     */
    ghost predicate Finished(s: Scanned, before: seq<Token>, r: Result<seq<Token>, ScanError>)
      reads this
    {
      && tokens == before + s.tokens
      && start == s.start && current == s.stop && line == s.line
      && r == (if s.error.Some? then Failure(s.error.value) else Success(tokens))
    }

    /**
     * What the loop of `scan_tokens` keeps: the tokens so far followed by the
     * rest of the scan is the whole scan `goal` started with the tokens `before`.
     */
    ghost predicate Toward(goal: Scanned, before: seq<Token>)
      reads this
      requires Valid()
    {
      Prepend(tokens, ScanFrom(source, start, current, line)) == Prepend(before, goal)
    }

    /** One turn of the loop of `scan_tokens`: how the scan still to come shrinks. */
    method ScanOnce(ghost goal: Scanned, ghost before: seq<Token>) returns (o: Outcome<ScanError>)
      requires Valid() && current < |source| && Toward(goal, before)
      modifies this`start, this`current, this`line, this`tokens
      ensures Valid() && current > old(current)
      ensures o.Fail? ==> Finished(goal, before, Failure(o.error))
      ensures o.Pass? ==> Toward(goal, before)
    {
      ghost var was := tokens;
      ghost var s := TokenStep(source, current, line);
      assert ScanFrom(source, start, current, line) == ScanTokenAt(source, current, line);
      start := current;
      o := ScanToken();
      if o.Pass? {
        PrependPrepend(was, Emitted(s), ScanFrom(source, start, current, line));
      } else {
        assert was + [] == was;
      }
    }

    /** The method `scan_tokens`: the token list it returns, or the error it raises. */
    method ScanTokens() returns (r: Result<seq<Token>, ScanError>)
      requires Valid()
      modifies this`start, this`current, this`line, this`tokens
      ensures Valid() && Finished(ScanFrom(source, old(start), old(current), old(line)), old(tokens), r)
    {
      ghost var goal := ScanFrom(source, start, current, line);
      while !IsAtEnd()
        invariant Valid() && Toward(goal, old(tokens))
        decreases |source| - current
      {
        var o := ScanOnce(goal, old(tokens));
        if o.Fail? {
          return Failure(o.error);
        }
      }
      assert Prepend(tokens, Scanned([EofToken(line)], start, current, line, None)) == Prepend(old(tokens), goal);
      tokens := tokens + [EofToken(line)];
      return Success(tokens);
    }
  }

  /** `Scanner(source).scan_tokens()` on a fresh scanner, as the interpreter's driver calls it. */
  method ScanSource(source: string) returns (r: Result<seq<Token>, ScanError>)
    ensures r == Scan(source)
  {
    var scanner := new Scanner(source);
    r := scanner.ScanTokens();
    assert [] + ScanFrom(source, 0, 0, 1).tokens == ScanFrom(source, 0, 0, 1).tokens;
  }
}
