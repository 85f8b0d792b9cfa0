/**
 * The scanning algorithm of LexicalAnalyzer.analyze as pure functions. `Lex`
 * reads one lexical unit at an offset and says where the next unit starts and
 * what the unit yields: nothing, one token or one error. `Run` applies it
 * until the input is used up, and `Analysis` is the result of a whole scan.
 */
module Scanner {
  import opened Chars
  import opened Positions
  import opened Tokens

  // A comment close, star then slash, starts at offset `k`.
  predicate ClosesAt(s: string, k: nat) {
    k + 1 < |s| && s[k] == '*' && s[k + 1] == '/'
  }

  // A comment opening, slash then star, starts at offset `k`.
  predicate OpensComment(s: string, k: nat) {
    k + 1 < |s| && s[k] == '/' && s[k + 1] == '*'
  }

  // The first comment close at or after offset `i`, if any.
  function FindClose(s: string, i: nat): (r: Option<nat>)
    requires i <= |s|
    ensures r.Some? ==> i <= r.value && ClosesAt(s, r.value)
    ensures r.Some? ==> forall k :: i <= k < r.value ==> !ClosesAt(s, k)
    ensures r.None? ==> forall k :: i <= k < |s| ==> !ClosesAt(s, k)
    decreases |s| - i
  {
    if i == |s| then None
    else if ClosesAt(s, i) then Some(i)
    else FindClose(s, i + 1)
  }

  /** The end of the longest run of letters, digits and '_' starting at offset `i`. */
  function WordEnd(s: string, i: nat): (e: nat)
    requires i <= |s|
    ensures i <= e <= |s|
    ensures forall k :: i <= k < e ==> IsWordChar(s[k])
    ensures e == |s| || !IsWordChar(s[e])
    decreases |s| - i
  {
    if i < |s| && IsWordChar(s[i]) then WordEnd(s, i + 1) else i
  }

  /**
   * The token for a word that passed the identifier pattern, and the next
   * value of the identifier counter. Keywords are recognised on the upper-case
   * form and recorded in it. Any other word is an Identifier that keeps its own
   * casing and takes the value of the first earlier Identifier with the same
   * name, or else the counter, which then moves on.
   */
  function Classify(word: string, line: int, column: int, tokens: seq<Token>, counter: int): (r: (Token, int))
    requires IsValidIdentifier(word)
    ensures r.0.line == line && r.0.column == column
    ensures r.0.kind in {Identifier, Boolean, Operator}
  {
    var upper := Upper(word);
    if upper in Booleans then (Token(Boolean, upper, line, column, 0), counter)
    else if upper in Operators then (Token(Operator, upper, line, column, NoValue), counter)
    else
      match Lookup(tokens, word)
      case Some(v) => (Token(Identifier, word, line, column, v), counter)
      case None => (Token(Identifier, word, line, column, counter), counter + 1)
  }

  /**
   * What Classify promises: keywords are recognised in any casing and recorded
   * upper-case with the counter untouched; any other word is an Identifier
   * with its own casing that reuses the value of the first earlier Identifier
   * of that name, or else takes the counter, which moves on by one.
   */
  lemma ClassifySound(word: string, line: int, column: int, tokens: seq<Token>, counter: int)
    requires IsValidIdentifier(word)
    ensures var r := Classify(word, line, column, tokens, counter);
      && (r.0.kind == Boolean <==> Upper(word) in Booleans)
      && (r.0.kind == Operator <==> Upper(word) in Operators)
      && (r.0.kind != Identifier ==> r.0.name == Upper(word) && r.1 == counter)
      && (r.0.kind == Identifier ==> r.0.name == word)
      && (r.0.kind == Identifier && word in IdentNames(tokens) ==>
            r.1 == counter && exists j :: FirstNamedFrom(tokens, word, 0, j) && tokens[j].value == r.0.value)
      && (r.0.kind == Identifier && word !in IdentNames(tokens) ==> r.0.value == counter && r.1 == counter + 1)
  {
    var upper := Upper(word);
    if upper !in Booleans && upper !in Operators {
      match Lookup(tokens, word)
      case Some(v) =>
        var j :| FirstNamedFrom(tokens, word, 0, j) && tokens[j].value == v;
        assert word in IdentNames(tokens) by {
          assert tokens[j].kind == Identifier && tokens[j].name == word;
        }
      case None =>
    }
  }

  /** What one lexical unit yields. */
  datatype Outcome = Nothing | Emit(token: Token) | Report(error: ScanError)

  /** Where the next unit starts, what this one yields, and the counter after it. */
  datatype Lexed = Lexed(next: nat, outcome: Outcome, counter: int)

  /**
   * One pass of the main loop of analyze, at offset `pos`, after `tokens` have
   * been emitted and with the identifier counter at `counter`. The tests come in
   * the source's order: whitespace, comment, word, then the punctuation switch.
   */
  function Lex(input: string, pos: nat, counter: int, tokens: seq<Token>): (u: Lexed)
    requires pos < |input|
    ensures pos < u.next <= |input|
  {
    var c := input[pos];
    if IsWhitespace(c) then Lexed(pos + 1, Nothing, counter)
    else if OpensComment(input, pos) then
      match FindClose(input, pos + 2)
      case Some(k) => Lexed(k + 2, Nothing, counter)
      case None => Lexed(|input|, Report(UnclosedComment(LineAt(input, pos), ColumnAt(input, pos))), counter)
    else if IsLetterOrDigit(c) then LexWord(input, pos, counter, tokens)
    else LexSymbol(input, pos, counter, tokens)
  }

  /**
   * A unit that starts with a letter or digit: the maximal run of letters,
   * digits and '_' is checked for length, then against the identifier pattern,
   * and only then classified.
   */
  function LexWord(input: string, pos: nat, counter: int, tokens: seq<Token>): (u: Lexed)
    requires pos < |input| && IsLetterOrDigit(input[pos])
    ensures pos < u.next <= |input|
    ensures u.next == WordEnd(input, pos)
  {
    var line := LineAt(input, pos);
    var column := ColumnAt(input, pos);
    var e := WordEnd(input, pos);
    var word := input[pos..e];
    if |word| > MaxIdentifierLength then Lexed(e, Report(IdentifierTooLong(line, column)), counter)
    else if !IsValidIdentifier(word) then Lexed(e, Report(InvalidIdentifier(word, line, column)), counter)
    else
      var r := Classify(word, line, column, tokens, counter);
      Lexed(e, Emit(r.0), r.1)
  }

  /** A unit that is no whitespace, comment or word: the punctuation switch. */
  function LexSymbol(input: string, pos: nat, counter: int, tokens: seq<Token>): (u: Lexed)
    requires pos < |input|
    ensures u.next == pos + 1 || (u.next == pos + 2 && input[pos] == ':')
    ensures u.next == pos + 2 <==> input[pos] == ':' && pos + 1 < |input| && input[pos + 1] == '='
    ensures u.next <= |input| && u.counter == counter
  {
    var c := input[pos];
    var line := LineAt(input, pos);
    var column := ColumnAt(input, pos);
    if c == '|' then
      // The source calls tokens.getLast() here, which throws when no token has
      // been emitted yet; the model emits the Pipe in that case.
      if |tokens| > 0 && tokens[|tokens| - 1].HasName("|") then Lexed(pos + 1, Nothing, counter)
      else Lexed(pos + 1, Emit(Token(Pipe, "|", line, column, NoValue)), counter)
    else if c == ':' then
      if pos + 1 < |input| && input[pos + 1] == '=' then
        Lexed(pos + 2, Emit(Token(Assign, ":=", line, column, NoValue)), counter)
      else Lexed(pos + 1, Report(InvalidColon(line, column)), counter)
    else if c == '(' then Lexed(pos + 1, Emit(Token(LParen, "(", line, column, NoValue)), counter)
    else if c == ')' then Lexed(pos + 1, Emit(Token(RParen, ")", line, column, NoValue)), counter)
    else Lexed(pos + 1, Report(UnexpectedCharacter(c, line, column)), counter)
  }

  /** The scan state between two units: offset, counter and the two result lists. */
  datatype State = State(pos: nat, counter: int, tokens: seq<Token>, errors: seq<ScanError>)

  function Emitted(o: Outcome): seq<Token> {
    if o.Emit? then [o.token] else []
  }

  function Reported(o: Outcome): seq<ScanError> {
    if o.Report? then [o.error] else []
  }

  /** One unit: the lists grow by at most one entry each, and only at the end. */
  function Step(input: string, s: State): (r: State)
    requires s.pos < |input|
    ensures s.pos < r.pos <= |input|
    ensures |r.tokens| + |r.errors| <= |s.tokens| + |s.errors| + 1
  {
    var u := Lex(input, s.pos, s.counter, s.tokens);
    State(u.next, u.counter, s.tokens + Emitted(u.outcome), s.errors + Reported(u.outcome))
  }

  /**
   * The rest of the scan from `s`. It reaches the end of the input, and only
   * appends to the two lists.
   */
  function Run(input: string, s: State): (r: State)
    requires s.pos <= |input|
    ensures r.pos == |input|
    ensures s.tokens <= r.tokens && s.errors <= r.errors
    decreases |input| - s.pos
  {
    if s.pos == |input| then s else Run(input, Step(input, s))
  }

  /** The state analyze starts from: nothing emitted, counter at 1. */
  function Start(): State {
    State(0, 1, [], [])
  }

  /** The tokens and errors of a whole scan of `input`. */
  function Analysis(input: string): State {
    Run(input, Start())
  }
}
