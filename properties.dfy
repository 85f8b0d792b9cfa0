/**
 * What a scan guarantees about its two result lists, proved from one
 * invariant that every unit keeps.
 */
module ScanProperties {
  import opened Chars
  import opened Positions
  import opened Tokens
  import opened Scanner

  /**
   * No word runs into offset `k`: the run of word characters (letters, digits
   * and '_') that ends just before `k` holds no letter or digit. A word starts
   * only on a letter or digit and the word loop reads to the end of the run,
   * so such a run is a row of '_' units, each an error of its own.
   */
  ghost predicate NoWordBefore(input: string, k: int)
    decreases k
  {
    0 <= k <= |input|
    && (k == 0 || (!IsLetterOrDigit(input[k - 1]) && (input[k - 1] == '_' ==> NoWordBefore(input, k - 1))))
  }

  /**
   * Offset `k` of `input` is where a unit can start: the end of the input, a
   * character no word contains, or a word character that no word runs into.
   */
  ghost predicate UnitBoundary(input: string, k: int) {
    0 <= k <= |input|
    && (k == |input| || !IsWordChar(input[k]) || NoWordBefore(input, k))
  }

  /** A word starts at offset `k`: it is not the tail of a word that starts earlier. */
  ghost predicate WordStart(input: string, k: int) {
    0 <= k < |input| && NoWordBefore(input, k)
  }

  /** Token `t` is backed by the source text starting at offset `k`, and sits at its position. */
  ghost predicate TokenAt(input: string, t: Token, k: int) {
    0 <= k < |input| && t.line == LineAt(input, k) && t.column == ColumnAt(input, k)
    && (t.kind == Identifier ==>
          WordStart(input, k) && k + |t.name| == WordEnd(input, k) && input[k..k + |t.name|] == t.name)
    && (t.kind in {Boolean, Operator} ==>
          WordStart(input, k) && k + |t.name| == WordEnd(input, k) && Upper(input[k..k + |t.name|]) == t.name)
    && (t.kind == Assign ==> k + 1 < |input| && input[k] == ':' && input[k + 1] == '=')
    && (t.kind == Pipe ==> input[k] == '|')
    && (t.kind == LParen ==> input[k] == '(')
    && (t.kind == RParen ==> input[k] == ')')
  }

  /** Error `e` describes the discarded unit starting at offset `k`, and sits at its position. */
  ghost predicate ErrorAt(input: string, e: ScanError, k: int) {
    0 <= k < |input| && e.line == LineAt(input, k) && e.column == ColumnAt(input, k)
    && (e.UnclosedComment? ==>
          OpensComment(input, k) && forall j :: k + 2 <= j < |input| ==> !ClosesAt(input, j))
    && (e.IdentifierTooLong? ==>
          WordStart(input, k) && IsLetterOrDigit(input[k]) && WordEnd(input, k) - k > MaxIdentifierLength)
    && (e.InvalidIdentifier? ==>
          WordStart(input, k) && IsLetterOrDigit(input[k])
          && WordEnd(input, k) == k + |e.word| && input[k..k + |e.word|] == e.word
          && |e.word| <= MaxIdentifierLength && !IsValidIdentifier(e.word))
    && (e.InvalidColon? ==>
          input[k] == ':' && !(k + 1 < |input| && input[k + 1] == '='))
    && (e.UnexpectedCharacter? ==>
          input[k] == e.ch && !IsWhitespace(e.ch) && !IsLetterOrDigit(e.ch) && !OpensComment(input, k)
          && e.ch != '|' && e.ch != ':' && e.ch != '(' && e.ch != ')'
          && (e.ch == '_' ==> NoWordBefore(input, k)))
  }

  /** Token `t` is backed by the text at some offset below `bound`. */
  ghost predicate TokenBacked(input: string, t: Token, bound: int) {
    exists k :: 0 <= k < bound && TokenAt(input, t, k)
  }

  ghost predicate ErrorBacked(input: string, e: ScanError, bound: int) {
    exists k :: 0 <= k < bound && ErrorAt(input, e, k)
  }

  ghost predicate TokensBacked(input: string, tokens: seq<Token>, bound: int) {
    forall i :: 0 <= i < |tokens| ==> TokenBacked(input, tokens[i], bound)
  }

  ghost predicate ErrorsBacked(input: string, errors: seq<ScanError>, bound: int) {
    forall i :: 0 <= i < |errors| ==> ErrorBacked(input, errors[i], bound)
  }

  ghost predicate TokensInOrder(tokens: seq<Token>) {
    forall i, j :: 0 <= i < j < |tokens| ==>
      Before(tokens[i].line, tokens[i].column, tokens[j].line, tokens[j].column)
  }

  ghost predicate ErrorsInOrder(errors: seq<ScanError>) {
    forall i, j :: 0 <= i < j < |errors| ==>
      Before(errors[i].line, errors[i].column, errors[j].line, errors[j].column)
  }

  ghost predicate AllWellShaped(tokens: seq<Token>) {
    forall i :: 0 <= i < |tokens| ==> WellShaped(tokens[i])
  }

  ghost predicate NoAdjacentPipes(tokens: seq<Token>) {
    forall i :: 0 <= i < |tokens| - 1 ==> !(tokens[i].kind == Pipe && tokens[i + 1].kind == Pipe)
  }

  /** An unclosed comment ends the scan: it is the last error and every token comes before it. */
  ghost predicate UnclosedIsFinal(input: string, s: State) {
    forall i :: 0 <= i < |s.errors| && s.errors[i].UnclosedComment? ==>
      s.pos == |input| && i == |s.errors| - 1
      && forall j :: 0 <= j < |s.tokens| ==>
           Before(s.tokens[j].line, s.tokens[j].column, s.errors[i].line, s.errors[i].column)
  }

  /** What holds of the scan state between any two units. */
  ghost predicate Inv(input: string, s: State) {
    s.pos <= |input|
    && UnitBoundary(input, s.pos)
    && s.counter == |IdentNames(s.tokens)| + 1
    && IdentifierTable(s.tokens)
    && AllWellShaped(s.tokens)
    && NoAdjacentPipes(s.tokens)
    && TokensBacked(input, s.tokens, s.pos)
    && ErrorsBacked(input, s.errors, s.pos)
    && TokensInOrder(s.tokens)
    && ErrorsInOrder(s.errors)
    && UnclosedIsFinal(input, s)
    && |s.tokens| + |s.errors| <= s.pos
  }

  /** A word unit: a token that passes the checks, or exactly one error. */
  lemma LexWordSound(input: string, pos: nat, counter: int, tokens: seq<Token>)
    requires WordStart(input, pos) && IsLetterOrDigit(input[pos])
    requires IdentifierTable(tokens) && counter == |IdentNames(tokens)| + 1
    ensures var u := LexWord(input, pos, counter, tokens);
      && (u.outcome.Emit? ==>
            WellShaped(u.outcome.token) && TokenAt(input, u.outcome.token, pos)
            && NumberedAfter(tokens, u.outcome.token) && u.outcome.token.kind != Pipe
            && u.counter == counter + (if u.outcome.token.kind == Identifier && u.outcome.token.name !in IdentNames(tokens) then 1 else 0))
      && (u.outcome.Report? ==> ErrorAt(input, u.outcome.error, pos) && !u.outcome.error.UnclosedComment?)
      && (!u.outcome.Emit? ==> u.counter == counter)
      && !u.outcome.Nothing?
      && u.next == WordEnd(input, pos)
  {
    WordErrorSound(input, pos, counter, tokens);
    var word := input[pos..WordEnd(input, pos)];
    if |word| <= MaxIdentifierLength && IsValidIdentifier(word) {
      ClassifiedWordSound(input, pos, counter, tokens);
    }
  }

  /** A word unit's error, when there is one, describes the word at its offset. */
  lemma WordErrorSound(input: string, pos: nat, counter: int, tokens: seq<Token>)
    requires WordStart(input, pos) && IsLetterOrDigit(input[pos])
    ensures var u := LexWord(input, pos, counter, tokens);
      u.outcome.Report? ==> ErrorAt(input, u.outcome.error, pos) && !u.outcome.error.UnclosedComment?
  {
    var u := LexWord(input, pos, counter, tokens);
    var e := WordEnd(input, pos);
    var word := input[pos..e];
    var line, column := LineAt(input, pos), ColumnAt(input, pos);
    if |word| > MaxIdentifierLength {
      assert u.outcome == Report(IdentifierTooLong(line, column));
    } else if !IsValidIdentifier(word) {
      assert u.outcome == Report(InvalidIdentifier(word, line, column));
    }
  }

  /** A word that passes both checks becomes a sound, correctly numbered token. */
  lemma ClassifiedWordSound(input: string, pos: nat, counter: int, tokens: seq<Token>)
    requires WordStart(input, pos) && IsValidIdentifier(input[pos..WordEnd(input, pos)])
    requires IdentifierTable(tokens) && counter == |IdentNames(tokens)| + 1
    ensures var word := input[pos..WordEnd(input, pos)];
      var r := Classify(word, LineAt(input, pos), ColumnAt(input, pos), tokens, counter);
      && WellShaped(r.0) && TokenAt(input, r.0, pos)
      && NumberedAfter(tokens, r.0) && r.0.kind != Pipe
      && r.1 == counter + (if r.0.kind == Identifier && r.0.name !in IdentNames(tokens) then 1 else 0)
  {
    var e := WordEnd(input, pos);
    var word := input[pos..e];
    ClassifyShape(word, LineAt(input, pos), ColumnAt(input, pos), tokens, counter);
    ClassifyNumbered(word, LineAt(input, pos), ColumnAt(input, pos), tokens, counter);
  }

  /** Classify yields a well-shaped word token spelling the word. */
  lemma ClassifyShape(word: string, line: int, column: int, tokens: seq<Token>, counter: int)
    requires IsValidIdentifier(word) && line >= 1 && column >= 1
    requires IdentifierTable(tokens) && counter >= 1
    ensures var r := Classify(word, line, column, tokens, counter);
      && WellShaped(r.0) && r.0.kind in {Identifier, Boolean, Operator}
      && (r.0.kind == Identifier ==> r.0.name == word)
      && (r.0.kind != Identifier ==> r.0.name == Upper(word))
  {
    var r := Classify(word, line, column, tokens, counter);
    ClassifySound(word, line, column, tokens, counter);
    if r.0.kind == Identifier && word in IdentNames(tokens) {
      var j :| FirstNamedFrom(tokens, word, 0, j) && tokens[j].value == r.0.value;
      assert tokens[j].kind == Identifier;
    }
  }

  /** Classify numbers an Identifier as the table demands and moves the counter only for a new name. */
  lemma ClassifyNumbered(word: string, line: int, column: int, tokens: seq<Token>, counter: int)
    requires IsValidIdentifier(word)
    requires IdentifierTable(tokens) && counter == |IdentNames(tokens)| + 1
    ensures var r := Classify(word, line, column, tokens, counter);
      && NumberedAfter(tokens, r.0)
      && r.1 == counter + (if r.0.kind == Identifier && r.0.name !in IdentNames(tokens) then 1 else 0)
  {
    var r := Classify(word, line, column, tokens, counter);
    ClassifySound(word, line, column, tokens, counter);
    if r.0.kind == Identifier && word in IdentNames(tokens) {
      var j :| FirstNamedFrom(tokens, word, 0, j) && tokens[j].value == r.0.value;
    }
  }

  /** Every unit yields nothing, one sound token, or one sound error. */
  lemma LexSound(input: string, pos: nat, counter: int, tokens: seq<Token>)
    requires pos < |input| && UnitBoundary(input, pos)
    requires IdentifierTable(tokens) && AllWellShaped(tokens) && counter == |IdentNames(tokens)| + 1
    ensures UnitBoundary(input, Lex(input, pos, counter, tokens).next)
    ensures var u := Lex(input, pos, counter, tokens);
      && (u.outcome.Emit? ==>
            WellShaped(u.outcome.token) && TokenAt(input, u.outcome.token, pos)
            && NumberedAfter(tokens, u.outcome.token)
            && u.counter == counter + (if u.outcome.token.kind == Identifier && u.outcome.token.name !in IdentNames(tokens) then 1 else 0)
            && (u.outcome.token.kind == Pipe ==> |tokens| == 0 || tokens[|tokens| - 1].kind != Pipe))
      && (u.outcome.Report? ==>
            ErrorAt(input, u.outcome.error, pos) && (u.outcome.error.UnclosedComment? ==> u.next == |input|))
      && (!u.outcome.Emit? ==> u.counter == counter)
  {
    var c := input[pos];
    if IsWhitespace(c) {
    } else if OpensComment(input, pos) {
      var f := FindClose(input, pos + 2);
      if f.Some? {
        assert input[f.value + 1] == '/';
      }
    } else if IsLetterOrDigit(c) {
      LexWordSound(input, pos, counter, tokens);
    } else if c == '|' && |tokens| > 0 {
      PipeNameIsPipeKind(tokens[|tokens| - 1]);
    }
  }

  /**
   * Which units yield nothing, and what kind of entry every other unit
   * yields. Whitespace yields nothing; a comment yields nothing exactly when
   * it is closed, and an unclosed-comment error otherwise; a '|' yields
   * nothing exactly when the last token is named "|", and a Pipe otherwise;
   * `:=` is an Assign, a lone ':' a colon error, '(' and ')' their tokens, and
   * any other character that starts no word an unexpected-character error.
   * Every other unit yields exactly one entry. A closed comment ends just
   * after its first close, an unclosed one at the end of the input, a word at
   * the end of its run of word characters, and a symbol after one character,
   * or two for `:=`.
   */
  lemma LexYields(input: string, pos: nat, counter: int, tokens: seq<Token>)
    requires pos < |input|
    ensures var u := Lex(input, pos, counter, tokens);
      var c := input[pos];
      var symbol := !IsWhitespace(c) && !OpensComment(input, pos) && !IsLetterOrDigit(c);
      && (IsWhitespace(c) ==> u.outcome.Nothing? && u.next == pos + 1)
      && (!IsWhitespace(c) && OpensComment(input, pos) ==>
            (u.outcome.Nothing? <==> FindClose(input, pos + 2).Some?)
            && (!u.outcome.Nothing? ==> u.outcome.Report? && u.outcome.error.UnclosedComment?)
            && (FindClose(input, pos + 2).Some? ==> u.next == FindClose(input, pos + 2).value + 2)
            && (FindClose(input, pos + 2).None? ==> u.next == |input|))
      && (!IsWhitespace(c) && !OpensComment(input, pos) && IsLetterOrDigit(c) ==> u.next == WordEnd(input, pos))
      && (symbol ==>
            (u.next == pos + 2 <==> c == ':' && pos + 1 < |input| && input[pos + 1] == '=')
            && (u.next != pos + 2 ==> u.next == pos + 1))
      && (!IsWhitespace(c) && !OpensComment(input, pos) ==>
            (u.outcome.Nothing? <==> c == '|' && |tokens| > 0 && tokens[|tokens| - 1].HasName("|")))
      && (symbol && c == '|' && !u.outcome.Nothing? ==> u.outcome.Emit? && u.outcome.token.kind == Pipe)
      && (symbol && c == ':' ==>
            (u.outcome.Emit? <==> pos + 1 < |input| && input[pos + 1] == '=')
            && (u.outcome.Emit? ==> u.outcome.token.kind == Assign && u.next == pos + 2)
            && (!u.outcome.Emit? ==> u.outcome.Report? && u.outcome.error.InvalidColon?))
      && (symbol && c == '(' ==> u.outcome.Emit? && u.outcome.token.kind == LParen)
      && (symbol && c == ')' ==> u.outcome.Emit? && u.outcome.token.kind == RParen)
      && (symbol && c != '|' && c != ':' && c != '(' && c != ')' ==>
            u.outcome.Report? && u.outcome.error.UnexpectedCharacter?)
  {
  }

  lemma BackedComesBefore(input: string, tokens: seq<Token>, errors: seq<ScanError>, pos: nat)
    requires pos < |input|
    requires TokensBacked(input, tokens, pos) && ErrorsBacked(input, errors, pos)
    ensures forall j :: 0 <= j < |tokens| ==>
      Before(tokens[j].line, tokens[j].column, LineAt(input, pos), ColumnAt(input, pos))
    ensures forall j :: 0 <= j < |errors| ==>
      Before(errors[j].line, errors[j].column, LineAt(input, pos), ColumnAt(input, pos))
  {
    forall j | 0 <= j < |tokens|
      ensures Before(tokens[j].line, tokens[j].column, LineAt(input, pos), ColumnAt(input, pos))
    {
      assert TokenBacked(input, tokens[j], pos);
      var k :| 0 <= k < pos && TokenAt(input, tokens[j], k);
      PositionAdvances(input, k, pos);
    }
    forall j | 0 <= j < |errors|
      ensures Before(errors[j].line, errors[j].column, LineAt(input, pos), ColumnAt(input, pos))
    {
      assert ErrorBacked(input, errors[j], pos);
      var k :| 0 <= k < pos && ErrorAt(input, errors[j], k);
      PositionAdvances(input, k, pos);
    }
  }

  lemma EmitKeepsShapes(tokens: seq<Token>, t: Token)
    requires AllWellShaped(tokens) && NoAdjacentPipes(tokens) && WellShaped(t)
    requires t.kind == Pipe ==> |tokens| == 0 || tokens[|tokens| - 1].kind != Pipe
    ensures AllWellShaped(tokens + [t]) && NoAdjacentPipes(tokens + [t])
  {
    var r := tokens + [t];
    assert r[|tokens|] == t;
    assert forall i :: 0 <= i < |tokens| ==> r[i] == tokens[i];
  }

  lemma EmitKeepsBacked(input: string, tokens: seq<Token>, errors: seq<ScanError>, t: Token, pos: nat, next: nat)
    requires pos < next <= |input|
    requires TokensBacked(input, tokens, pos) && ErrorsBacked(input, errors, pos) && TokensInOrder(tokens)
    requires TokenAt(input, t, pos)
    ensures TokensBacked(input, tokens + [t], next) && TokensInOrder(tokens + [t])
  {
    var r := tokens + [t];
    var n := |tokens|;
    BackedComesBefore(input, tokens, errors, pos);
    assert r[n] == t;
    assert forall i :: 0 <= i < n ==> r[i] == tokens[i];
    forall i | 0 <= i < |r| ensures TokenBacked(input, r[i], next) {
      if i < n {
        assert TokenBacked(input, tokens[i], pos);
        var k :| 0 <= k < pos && TokenAt(input, tokens[i], k);
        assert r[i] == tokens[i];
      } else {
        assert TokenAt(input, r[i], pos);
      }
    }
  }

  lemma ReportKeepsBacked(input: string, tokens: seq<Token>, errors: seq<ScanError>, e: ScanError, pos: nat, next: nat)
    requires pos < next <= |input|
    requires TokensBacked(input, tokens, pos) && ErrorsBacked(input, errors, pos) && ErrorsInOrder(errors)
    requires ErrorAt(input, e, pos)
    ensures ErrorsBacked(input, errors + [e], next) && ErrorsInOrder(errors + [e])
  {
    var r := errors + [e];
    var n := |errors|;
    BackedComesBefore(input, tokens, errors, pos);
    assert r[n] == e;
    assert forall i :: 0 <= i < n ==> r[i] == errors[i];
    forall i | 0 <= i < |r| ensures ErrorBacked(input, r[i], next) {
      if i < n {
        assert ErrorBacked(input, errors[i], pos);
        var k :| 0 <= k < pos && ErrorAt(input, errors[i], k);
        assert r[i] == errors[i];
      } else {
        assert ErrorAt(input, r[i], pos);
      }
    }
  }

  lemma BackedWidens(input: string, tokens: seq<Token>, errors: seq<ScanError>, pos: nat, next: nat)
    requires pos <= next
    requires TokensBacked(input, tokens, pos) && ErrorsBacked(input, errors, pos)
    ensures TokensBacked(input, tokens, next) && ErrorsBacked(input, errors, next)
  {
    forall i | 0 <= i < |tokens| ensures TokenBacked(input, tokens[i], next) {
      assert TokenBacked(input, tokens[i], pos);
      var k :| 0 <= k < pos && TokenAt(input, tokens[i], k);
    }
    forall i | 0 <= i < |errors| ensures ErrorBacked(input, errors[i], next) {
      assert ErrorBacked(input, errors[i], pos);
      var k :| 0 <= k < pos && ErrorAt(input, errors[i], k);
    }
  }

  lemma StepEmitKeepsInv(input: string, s: State, t: Token, r: State)
    requires Inv(input, s) && s.pos < |input|
    requires s.pos < r.pos <= |input| && r.tokens == s.tokens + [t] && r.errors == s.errors
    requires UnitBoundary(input, r.pos)
    requires WellShaped(t) && TokenAt(input, t, s.pos) && NumberedAfter(s.tokens, t)
    requires r.counter == s.counter + (if t.kind == Identifier && t.name !in IdentNames(s.tokens) then 1 else 0)
    requires t.kind == Pipe ==> |s.tokens| == 0 || s.tokens[|s.tokens| - 1].kind != Pipe
    ensures Inv(input, r)
  {
    EmitKeepsTable(s, t, r);
    EmitKeepsScan(input, s, t, r);
  }

  /** The table half of StepEmitKeepsInv: numbering, counter and token shapes. */
  lemma EmitKeepsTable(s: State, t: Token, r: State)
    requires IdentifierTable(s.tokens) && AllWellShaped(s.tokens) && NoAdjacentPipes(s.tokens)
    requires s.counter == |IdentNames(s.tokens)| + 1
    requires r.tokens == s.tokens + [t]
    requires WellShaped(t) && NumberedAfter(s.tokens, t)
    requires r.counter == s.counter + (if t.kind == Identifier && t.name !in IdentNames(s.tokens) then 1 else 0)
    requires t.kind == Pipe ==> |s.tokens| == 0 || s.tokens[|s.tokens| - 1].kind != Pipe
    ensures r.counter == |IdentNames(r.tokens)| + 1
    ensures IdentifierTable(r.tokens) && AllWellShaped(r.tokens) && NoAdjacentPipes(r.tokens)
  {
    AppendKeepsTable(s.tokens, t);
    AppendNamesCount(s.tokens, t, r.tokens);
    EmitKeepsShapes(s.tokens, t);
  }

  /** The text half of StepEmitKeepsInv: backing, order, and the unclosed comment last. */
  lemma EmitKeepsScan(input: string, s: State, t: Token, r: State)
    requires Inv(input, s) && s.pos < |input|
    requires s.pos < r.pos <= |input| && r.tokens == s.tokens + [t] && r.errors == s.errors
    requires TokenAt(input, t, s.pos)
    ensures TokensBacked(input, r.tokens, r.pos) && ErrorsBacked(input, r.errors, r.pos)
    ensures TokensInOrder(r.tokens) && ErrorsInOrder(r.errors)
    ensures UnclosedIsFinal(input, r) && |r.tokens| + |r.errors| <= r.pos
  {
    EmitKeepsBacked(input, s.tokens, s.errors, t, s.pos, r.pos);
    BackedWidens(input, s.tokens, s.errors, s.pos, r.pos);
    assert forall i :: 0 <= i < |s.errors| ==> !s.errors[i].UnclosedComment?;
  }

  lemma StepReportKeepsInv(input: string, s: State, e: ScanError, r: State)
    requires Inv(input, s) && s.pos < |input|
    requires s.pos < r.pos <= |input| && r.tokens == s.tokens && r.errors == s.errors + [e]
    requires UnitBoundary(input, r.pos)
    requires r.counter == s.counter
    requires ErrorAt(input, e, s.pos) && (e.UnclosedComment? ==> r.pos == |input|)
    ensures Inv(input, r)
  {
    ReportKeepsBacked(input, s.tokens, s.errors, e, s.pos, r.pos);
    BackedWidens(input, s.tokens, s.errors, s.pos, r.pos);
    BackedComesBefore(input, s.tokens, s.errors, s.pos);
    assert forall i :: 0 <= i < |s.errors| ==> !s.errors[i].UnclosedComment?;
    assert r.errors[|s.errors|] == e;
  }

  lemma StepKeepsInv(input: string, s: State)
    requires Inv(input, s) && s.pos < |input|
    ensures Inv(input, Step(input, s))
  {
    var u := Lex(input, s.pos, s.counter, s.tokens);
    var r := Step(input, s);
    LexSound(input, s.pos, s.counter, s.tokens);
    match u.outcome
    case Nothing =>
      assert r.tokens == s.tokens && r.errors == s.errors;
      BackedWidens(input, s.tokens, s.errors, s.pos, r.pos);
      assert forall i :: 0 <= i < |s.errors| ==> !s.errors[i].UnclosedComment?;
    case Emit(t) =>
      StepEmitKeepsInv(input, s, t, r);
    case Report(e) =>
      StepReportKeepsInv(input, s, e, r);
  }

  lemma {:induction false} RunKeepsInv(input: string, s: State)
    requires Inv(input, s)
    ensures Inv(input, Run(input, s))
    decreases |input| - s.pos
  {
    if s.pos < |input| {
      StepKeepsInv(input, s);
      RunKeepsInv(input, Step(input, s));
    }
  }

  /** The invariant holds of every complete scan. */
  lemma AnalysisInv(input: string)
    ensures Inv(input, Analysis(input))
  {
    assert IdentNames([]) == {};
    RunKeepsInv(input, Start());
  }

}
