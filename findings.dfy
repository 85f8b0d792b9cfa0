/**
 * The '|' case of the punctuation switch decides whether to add a Pipe by
 * looking at the last token emitted so far. The source asks the token list
 * for its last element without checking that there is one, so a '|' met
 * before any token has been emitted throws instead of scanning. This module
 * models the loop as written, with the throw as None, and relates it to the
 * model, which emits the Pipe there.
 */
module Findings {
  import opened Chars
  import opened Positions
  import opened Tokens
  import opened Scanner

  /**
   * The check of the '|' case as written: None where `getLast` throws on the
   * empty list, otherwise whether a Pipe is added.
   */
  function PipeCheckAsWritten(tokens: seq<Token>): Option<bool> {
    if tokens == [] then None else Some(!tokens[|tokens| - 1].HasName("|"))
  }

  /** The punctuation switch as written: None where the '|' case throws. */
  function LexSymbolAsWritten(input: string, pos: nat, counter: int, tokens: seq<Token>): Option<Lexed>
    requires pos < |input|
  {
    if input[pos] == '|' then
      match PipeCheckAsWritten(tokens)
      case None => None
      case Some(add) =>
        if add then Some(Lexed(pos + 1, Emit(Token(Pipe, "|", LineAt(input, pos), ColumnAt(input, pos), NoValue)), counter))
        else Some(Lexed(pos + 1, Nothing, counter))
    else Some(LexSymbol(input, pos, counter, tokens))
  }

  /**
   * One pass of the loop as written. Only the switch differs from the model:
   * it throws exactly at a '|' with no token emitted yet, and wherever it does
   * not throw it does what the model does.
   */
  function LexAsWritten(input: string, pos: nat, counter: int, tokens: seq<Token>): (r: Option<Lexed>)
    requires pos < |input|
    ensures r.None? <==> input[pos] == '|' && tokens == []
    ensures r.Some? ==> r.value == Lex(input, pos, counter, tokens)
  {
    var c := input[pos];
    if IsWhitespace(c) || OpensComment(input, pos) || IsLetterOrDigit(c) then Some(Lex(input, pos, counter, tokens))
    else LexSymbolAsWritten(input, pos, counter, tokens)
  }

  /** The rest of the loop as written from `s`: None if some pass throws. */
  function RunAsWritten(input: string, s: State): Option<State>
    requires s.pos <= |input|
    decreases |input| - s.pos
  {
    if s.pos == |input| then Some(s)
    else
      match LexAsWritten(input, s.pos, s.counter, s.tokens)
      case None => None
      case Some(u) => RunAsWritten(input, State(u.next, u.counter, s.tokens + Emitted(u.outcome), s.errors + Reported(u.outcome)))
  }

  /**
   * From any state, the loop as written throws exactly when no token has been
   * emitted yet and the model's next token is a Pipe; otherwise both end in
   * the same state.
   */
  lemma {:induction false} RunAsWrittenAgrees(input: string, s: State)
    requires s.pos <= |input|
    ensures var r := Run(input, s);
      RunAsWritten(input, s) == if s.tokens == [] && |r.tokens| > 0 && r.tokens[0].kind == Pipe then None else Some(r)
    decreases |input| - s.pos
  {
    if s.pos < |input| {
      var n := Step(input, s);
      var r := Run(input, n);
      assert Run(input, s) == r;
      if input[s.pos] == '|' && s.tokens == [] {
        assert !IsWhitespace('|') && !IsLetterOrDigit('|');
        assert n.tokens == [Token(Pipe, "|", LineAt(input, s.pos), ColumnAt(input, s.pos), NoValue)];
        assert r.tokens[0] == n.tokens[0];
      } else {
        RunAsWrittenAgrees(input, n);
        if s.tokens == [] && n.tokens != [] {
          var u := Lex(input, s.pos, s.counter, s.tokens);
          assert n.tokens == [u.outcome.token];
          assert u.outcome.token.kind != Pipe by {
            var c := input[s.pos];
            if !IsWhitespace(c) && !OpensComment(input, s.pos) && IsLetterOrDigit(c) {
              assert u == LexWord(input, s.pos, s.counter, s.tokens);
            }
          }
          assert r.tokens[0] == n.tokens[0];
        }
      }
    }
  }

  /**
   * A whole scan as written throws exactly when the model's first token is a
   * Pipe, and otherwise yields the model's tokens and errors.
   */
  lemma AsWrittenThrowsExactly(input: string)
    ensures RunAsWritten(input, Start()).None? <==>
      |Analysis(input).tokens| > 0 && Analysis(input).tokens[0].kind == Pipe
    ensures RunAsWritten(input, Start()).Some? ==> RunAsWritten(input, Start()).value == Analysis(input)
  {
    RunAsWrittenAgrees(input, Start());
  }

  /** The input "|": the source throws, the model scans one Pipe. */
  lemma LonePipeThrows()
    ensures RunAsWritten("|", Start()) == None
    ensures Analysis("|").tokens == [Token(Pipe, "|", 1, 1, NoValue)] && Analysis("|").errors == []
  {
    AsWrittenThrowsExactly("|");
    assert !IsWhitespace('|') && !IsLetterOrDigit('|');
    assert Step("|", Start()) == State(1, 1, [Token(Pipe, "|", 1, 1, NoValue)], []);
  }

  /** With the check guarded, an input that starts with '|' starts with a Pipe at line 1, column 1. */
  lemma LeadingPipeIsEmitted(input: string)
    requires |input| > 0 && input[0] == '|'
    ensures |Analysis(input).tokens| > 0
    ensures Analysis(input).tokens[0] == Token(Pipe, "|", 1, 1, NoValue)
  {
    assert !IsWhitespace('|') && !IsLetterOrDigit('|');
    var s1 := Step(input, Start());
    assert s1.tokens == [Token(Pipe, "|", 1, 1, NoValue)];
    assert Analysis(input) == Run(input, s1);
  }
}
