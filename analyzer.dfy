/**
 * The LexicalAnalyzer object: its token and error tables, the analyze method
 * that fills them in one left-to-right pass with a running line and column,
 * and the two getters. The method follows the source's loop statement by
 * statement and is proved to leave exactly the tables of `Analysis(input)`.
 */
module Analyzer {
  import opened Chars
  import opened Positions
  import opened Tokens
  import opened Scanner
  import opened Guarantees

  class LexicalAnalyzer {
    var tokens: seq<Token>
    var errors: seq<ScanError>
    /** The text of the last call to Analyze. */
    ghost var source: string

    /** The tables hold the scan of `source`. */
    ghost predicate Valid()
      reads this
    {
      tokens == Analysis(source).tokens && errors == Analysis(source).errors
    }

    /** A new analyzer has empty tables, which are the scan of the empty text. */
    constructor()
      ensures Valid() && source == [] && tokens == [] && errors == []
    {
      tokens := [];
      errors := [];
      source := [];
    }

    /**
     * Scans `input` from scratch. The tables are cleared and refilled with the
     * tokens and errors of `Analysis(input)`, in source order.
     */
    method Analyze(input: string)
      modifies this
      ensures Valid() && source == input
      ensures tokens == Analysis(input).tokens && errors == Analysis(input).errors
    {
      tokens := [];
      errors := [];
      source := input;

      var line := 1;
      var column := 1;
      var pos := 0;
      var counter := 1;
      ghost var scan := Analysis(input);

      while pos < |input|
        invariant pos <= |input| && source == input
        invariant line == LineAt(input, pos) && column == ColumnAt(input, pos)
        invariant Run(input, State(pos, counter, tokens, errors)) == scan
        decreases |input| - pos
      {
        ghost var s0 := State(pos, counter, tokens, errors);
        assert Run(input, s0) == Run(input, Step(input, s0));
        pos, line, column, counter := ScanUnit(input, pos, line, column, counter);
      }
    }

    /**
     * One pass of the loop body at `start`: whitespace, a comment, a word or
     * the punctuation switch, tried in that order.
     */
    method ScanUnit(input: string, start: nat, line: int, column: int, counter: int)
      returns (pos: nat, line': int, column': int, counter': int)
      requires start < |input|
      requires line == LineAt(input, start) && column == ColumnAt(input, start)
      modifies this
      ensures State(pos, counter', tokens, errors)
        == Step(input, State(start, counter, old(tokens), old(errors)))
      ensures pos <= |input| && line' == LineAt(input, pos) && column' == ColumnAt(input, pos)
      ensures source == old(source)
    {
      ghost var s0 := State(start, counter, tokens, errors);
      var current := input[start];
      counter' := counter;
      line' := line;
      if IsWhitespace(current) {
        if current == '\n' {
          line' := line + 1;
          column' := 1;
        } else {
          StepRight(input, start);
          column' := column + 1;
        }
        pos := start + 1;
        assert Lex(input, s0.pos, s0.counter, s0.tokens) == Lexed(pos, Nothing, counter);
      } else if current == '/' && start + 1 < |input| && input[start + 1] == '*' {
        pos, line', column' := ScanComment(input, start, line, column, counter);
      } else if IsLetterOrDigit(current) {
        pos, column', counter' := ScanWord(input, start, line, column, counter);
      } else {
        pos, column' := ScanSymbol(input, start, line, column, counter);
      }
    }

    /**
     * The comment case of the loop, at an opening at `start`: skips to just
     * after the first close, or to the end of the text, reporting the comment
     * as unclosed at its opening's position in that case.
     */
    method ScanComment(input: string, start: nat, line: int, column: int, ghost counter: int)
      returns (pos: nat, line': int, column': int)
      requires start < |input| && !IsWhitespace(input[start]) && OpensComment(input, start)
      requires line == LineAt(input, start) && column == ColumnAt(input, start)
      modifies this
      ensures State(pos, counter, tokens, errors)
        == Step(input, State(start, counter, old(tokens), old(errors)))
      ensures line' == LineAt(input, pos) && column' == ColumnAt(input, pos)
      ensures source == old(source)
    {
      ghost var s0 := State(start, counter, tokens, errors);
      var commentStartLine := line;
      var commentStartColumn := column;
      var closed;
      pos, line', column', closed := SkipComment(input, start, line, column);
      if !closed {
        assert Lex(input, s0.pos, s0.counter, s0.tokens) == Lexed(pos, Report(UnclosedComment(commentStartLine, commentStartColumn)), counter);
        errors := errors + [UnclosedComment(commentStartLine, commentStartColumn)];
      } else {
        assert Lex(input, s0.pos, s0.counter, s0.tokens) == Lexed(pos, Nothing, counter);
      }
    }

    /**
     * The word case of the loop, at a letter or digit at `start`: reads the
     * word, then reports it as too long or invalid, or appends its keyword or
     * Identifier token, numbering a new Identifier with the counter.
     */
    method ScanWord(input: string, start: nat, line: int, column: int, counter: int)
      returns (pos: nat, column': int, counter': int)
      requires start < |input| && IsLetterOrDigit(input[start]) && !IsWhitespace(input[start])
      requires !OpensComment(input, start)
      requires line == LineAt(input, start) && column == ColumnAt(input, start)
      modifies this
      ensures State(pos, counter', tokens, errors)
        == Step(input, State(start, counter, old(tokens), old(errors)))
      ensures line == LineAt(input, pos) && column' == ColumnAt(input, pos)
      ensures source == old(source)
    {
      ghost var s0 := State(start, counter, tokens, errors);
      counter' := counter;
      var startColumn := column;
      var word;
      word, pos, column' := ReadWord(input, start, column);
      if |word| > MaxIdentifierLength {
        errors := errors + [IdentifierTooLong(line, startColumn)];
        assert Lex(input, s0.pos, s0.counter, s0.tokens) == Lexed(pos, Report(IdentifierTooLong(line, startColumn)), counter');
      } else if !IsValidIdentifier(word) {
        errors := errors + [InvalidIdentifier(word, line, startColumn)];
        assert Lex(input, s0.pos, s0.counter, s0.tokens) == Lexed(pos, Report(InvalidIdentifier(word, line, startColumn)), counter');
      } else {
        var upperWord := Upper(word);
        if upperWord in Booleans {
          tokens := tokens + [Token(Boolean, upperWord, line, startColumn, 0)];
          assert Lex(input, s0.pos, s0.counter, s0.tokens) == Lexed(pos, Emit(Token(Boolean, upperWord, line, startColumn, 0)), counter');
        } else if upperWord in Operators {
          tokens := tokens + [Token(Operator, upperWord, line, startColumn, NoValue)];
          assert Lex(input, s0.pos, s0.counter, s0.tokens) == Lexed(pos, Emit(Token(Operator, upperWord, line, startColumn, NoValue)), counter');
        } else {
          var valueOfToken := Lookup(tokens, word);
          if valueOfToken.Some? {
            tokens := tokens + [Token(Identifier, word, line, startColumn, valueOfToken.value)];
            assert Lex(input, s0.pos, s0.counter, s0.tokens) == Lexed(pos, Emit(Token(Identifier, word, line, startColumn, valueOfToken.value)), counter');
          } else {
            tokens := tokens + [Token(Identifier, word, line, startColumn, counter')];
            counter' := counter' + 1;
            assert Lex(input, s0.pos, s0.counter, s0.tokens) == Lexed(pos, Emit(Token(Identifier, word, line, startColumn, s0.counter)), counter');
          }
        }
      }
      assert State(pos, counter', tokens, errors) == Step(input, s0);
    }

    /**
     * The punctuation switch of the loop, at any other character at `start`:
     * a Pipe unless the last token is already one, ":=", "(" and ")" as tokens,
     * and a lone ':' or any other character as an error.
     */
    method ScanSymbol(input: string, start: nat, line: int, column: int, ghost counter: int)
      returns (pos: nat, column': int)
      requires start < |input| && !IsWhitespace(input[start]) && !IsLetterOrDigit(input[start])
      requires !OpensComment(input, start)
      requires line == LineAt(input, start) && column == ColumnAt(input, start)
      modifies this
      ensures State(pos, counter, tokens, errors)
        == Step(input, State(start, counter, old(tokens), old(errors)))
      ensures line == LineAt(input, pos) && column' == ColumnAt(input, pos)
      ensures source == old(source)
    {
      var current := input[start];
      if current == '|' {
        if !(|tokens| > 0 && tokens[|tokens| - 1].HasName("|")) {
          tokens := tokens + [Token(Pipe, "|", line, column, NoValue)];
        }
        StepRight(input, start);
        pos, column' := start + 1, column + 1;
      } else if current == ':' {
        if start + 1 < |input| && input[start + 1] == '=' {
          tokens := tokens + [Token(Assign, ":=", line, column, NoValue)];
          StepRight(input, start);
          StepRight(input, start + 1);
          pos, column' := start + 2, column + 2;
        } else {
          errors := errors + [InvalidColon(line, column)];
          StepRight(input, start);
          pos, column' := start + 1, column + 1;
        }
      } else if current == '(' {
        tokens := tokens + [Token(LParen, "(", line, column, NoValue)];
        StepRight(input, start);
        pos, column' := start + 1, column + 1;
      } else if current == ')' {
        tokens := tokens + [Token(RParen, ")", line, column, NoValue)];
        StepRight(input, start);
        pos, column' := start + 1, column + 1;
      } else {
        errors := errors + [UnexpectedCharacter(current, line, column)];
        StepRight(input, start);
        pos, column' := start + 1, column + 1;
      }
    }

    /** The tokens of the last scan; every one has the shape its kind calls for. */
    method GetTokens() returns (r: seq<Token>)
      requires Valid()
      ensures r == Analysis(source).tokens
      ensures forall t :: t in r ==> WellShaped(t)
    {
      TokensAreWellShaped(source);
      r := tokens;
    }

    /** The errors of the last scan, in source order. */
    method GetErrors() returns (r: seq<ScanError>)
      requires Valid()
      ensures r == Analysis(source).errors
      ensures forall i, j :: 0 <= i < j < |r| ==> Before(r[i].line, r[i].column, r[j].line, r[j].column)
    {
      ResultsInSourceOrder(source);
      r := errors;
    }
  }

  /**
   * The comment loop, entered at an opening at `start` with the position of
   * that opening. It stops after the first close, or at the end of the text
   * when there is none, and keeps the line and column of where it stops.
   */
  method SkipComment(input: string, start: nat, line: int, column: int)
    returns (pos: nat, line': int, column': int, closed: bool)
    requires OpensComment(input, start)
    requires line == LineAt(input, start) && column == ColumnAt(input, start)
    ensures closed <==> FindClose(input, start + 2).Some?
    ensures closed ==> pos == FindClose(input, start + 2).value + 2
    ensures !closed ==> pos == |input|
    ensures pos <= |input| && line' == LineAt(input, pos) && column' == ColumnAt(input, pos)
  {
    pos := start + 2;
    line' := line;
    column' := column + 2;
    closed := false;
    while pos < |input|
      invariant start + 2 <= pos <= |input| && !closed
      invariant line' == LineAt(input, pos) && column' == ColumnAt(input, pos)
      invariant FindClose(input, start + 2) == FindClose(input, pos)
      decreases |input| - pos
    {
      if input[pos] == '*' && pos + 1 < |input| && input[pos + 1] == '/' {
        pos := pos + 2;
        column' := column' + 2;
        closed := true;
        break;
      }
      if input[pos] == '\n' {
        line' := line' + 1;
        column' := 1;
      } else {
        column' := column' + 1;
      }
      pos := pos + 1;
    }
  }

  /**
   * The word loop, entered at a letter or digit at `start` with its column:
   * it collects the longest run of letters, digits and '_' and stops after it.
   */
  method ReadWord(input: string, start: nat, column: int) returns (word: string, pos: nat, column': int)
    requires start < |input| && column == ColumnAt(input, start)
    ensures pos == WordEnd(input, start) && word == input[start..pos]
    ensures LineAt(input, pos) == LineAt(input, start) && column' == ColumnAt(input, pos)
  {
    word := "";
    pos := start;
    column' := column;
    while pos < |input| && IsWordChar(input[pos])
      invariant start <= pos <= |input| && word == input[start..pos]
      invariant WordEnd(input, pos) == WordEnd(input, start)
      invariant LineAt(input, pos) == LineAt(input, start) && column' == ColumnAt(input, pos)
      decreases |input| - pos
    {
      word := word + [input[pos]];
      pos := pos + 1;
      column' := column' + 1;
    }
  }
}
