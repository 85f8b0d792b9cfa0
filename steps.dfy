/**
 * One unit of a scan over an input with no line break, as a lemma per kind of
 * unit. Each takes the state `s` before the unit and the state `r` after it,
 * requires `r` to be what the unit adds to `s`, and concludes
 * `Run(input, s) == Run(input, r)`, so a whole scan of a concrete input is a
 * chain of these facts. The input is known through `Spells(input, text)`, and
 * what the unit needs of the characters is asked of `text`.
 */
module ScanSteps {
  import opened Chars
  import opened Positions
  import opened Tokens
  import opened Scanner

  /**
   * `input` has the characters of `text`, stated character by character, so
   * that a fact about a scan of `input` does not invite the solver to evaluate
   * the scan of a literal from end to end.
   */
  predicate Spells(input: string, text: string) {
    |input| == |text| && forall k :: 0 <= k < |text| ==> input[k] == text[k]
  }

  /** Spelling `text` is being equal to it. */
  lemma SpellsSame(input: string, text: string)
    requires Spells(input, text)
    ensures input == text
  {
  }

  /** On an input without a line break, offset `i` is at line 1, column `i + 1`. */
  lemma {:induction false} OnFirstLine(s: string, i: nat)
    requires i <= |s| && '\n' !in s
    ensures LineAt(s, i) == 1 && ColumnAt(s, i) == i + 1
  {
    if i > 0 {
      assert s[i - 1] in s;
      OnFirstLine(s, i - 1);
    }
  }

  /** A run of word characters from `i` to `e` that nothing extends ends at `e`. */
  lemma {:induction false} WordEndIs(s: string, i: nat, e: nat)
    requires i <= e <= |s|
    requires forall k :: i <= k < e ==> IsWordChar(s[k])
    requires e == |s| || !IsWordChar(s[e])
    ensures WordEnd(s, i) == e
    decreases e - i
  {
    if i < e {
      WordEndIs(s, i + 1, e);
    }
  }

  /** The first close at or after `i` is at `e` when no '*' comes between. */
  lemma {:induction false} FindCloseIs(s: string, i: nat, e: nat)
    requires i <= e && ClosesAt(s, e)
    requires forall k :: i <= k < e ==> s[k] != '*'
    ensures FindClose(s, i) == Some(e)
    decreases e - i
  {
    if i < e {
      FindCloseIs(s, i + 1, e);
    }
  }

  /** No close at or after `i` when no '*' follows. */
  lemma {:induction false} FindCloseNone(s: string, i: nat)
    requires i <= |s|
    requires forall k :: i <= k < |s| ==> s[k] != '*'
    ensures FindClose(s, i) == None
    decreases |s| - i
  {
    if i < |s| {
      FindCloseNone(s, i + 1);
    }
  }

  /** The state after a unit at `s.pos` that consumes up to `next`. */
  function After(s: State, next: nat, counter: int, emitted: seq<Token>, reported: seq<ScanError>): State {
    State(next, counter, s.tokens + emitted, s.errors + reported)
  }

  /** Step `s` to `r` and record that the rest of the scan is unchanged. */
  lemma StepTo(input: string, s: State, r: State)
    requires s.pos < |input| && Step(input, s) == r
    ensures Run(input, s) == Run(input, r)
  {
  }

  /** A whitespace character: skipped. */
  lemma BlankUnit(input: string, text: string, s: State, p: nat, r: State)
    requires Spells(input, text) && s.pos == p
    requires p < |text| && IsWhitespace(text[p])
    requires r == After(s, p + 1, s.counter, [], [])
    ensures Run(input, s) == Run(input, r)
  {
    SpellsSame(input, text);
    StepTo(input, s, r);
  }

  /** A comment opened at `p` and first closed at `e`: skipped up to its close. */
  lemma CommentUnit(input: string, text: string, s: State, p: nat, e: nat, r: State)
    requires Spells(input, text) && s.pos == p
    requires p + 2 <= e && OpensComment(text, p) && ClosesAt(text, e) && (forall k :: p + 2 <= k < e ==> text[k] != '*')
    requires r == After(s, e + 2, s.counter, [], [])
    ensures Run(input, s) == Run(input, r)
  {
    SpellsSame(input, text);
    FindCloseIs(input, p + 2, e);
    StepTo(input, s, r);
  }

  /** A comment opened at `p` with no '*' after it: an unclosed-comment error, and the scan ends. */
  lemma UnclosedUnit(input: string, text: string, s: State, p: nat, r: State)
    requires Spells(input, text) && s.pos == p
    requires '\n' !in text && OpensComment(text, p)
    requires forall k :: p + 2 <= k < |text| ==> text[k] != '*'
    requires r == After(s, |text|, s.counter, [], [UnclosedComment(1, p + 1)])
    ensures Run(input, s) == Run(input, r)
  {
    SpellsSame(input, text);
    OnFirstLine(input, p);
    FindCloseNone(input, p + 2);
    StepTo(input, s, r);
  }

  /** The word `w` stands at `p` and no word character follows it. */
  predicate WordAt(input: string, p: nat, w: string) {
    0 < |w| && p + |w| <= |input| && (forall k :: 0 <= k < |w| ==> input[p + k] == w[k])
    && (p + |w| == |input| || !IsWordChar(input[p + |w|]))
  }

  /** A word that stands at `p` and is made of word characters is the one the scanner reads there. */
  lemma WordSlice(input: string, p: nat, w: string)
    requires WordAt(input, p, w) && forall k :: 0 <= k < |w| ==> IsWordChar(w[k])
    ensures WordEnd(input, p) == p + |w| && input[p..p + |w|] == w
  {
    forall k | p <= k < p + |w| ensures IsWordChar(input[k]) {
      assert input[p + (k - p)] == w[k - p];
    }
    assert input[p..p + |w|] == w;
    WordEndIs(input, p, p + |w|);
  }

  /**
   * Whether `w` is a keyword in some casing. No keyword is longer than five
   * characters, and the length is tested first so that a long literal word is
   * never upper-cased by the solver.
   */
  predicate IsKeyword(w: string) {
    |w| <= 5 && (Upper(w) in Booleans || Upper(w) in Operators)
  }

  /** A word that is no keyword upper-cases to no keyword. */
  lemma NotKeyword(w: string)
    requires !IsKeyword(w)
    ensures Upper(w) !in Booleans && Upper(w) !in Operators
  {
    if |w| > 5 {
      assert |Upper(w)| > 5;
    }
  }

  /** A word that passes both checks and classifies as `t`, with counter `counter` after it. */
  lemma ClassifiedUnit(input: string, s: State, p: nat, w: string, t: Token, counter: int)
    requires s.pos == p
    requires '\n' !in input && WordAt(input, p, w) && IsValidIdentifier(w)
    requires Classify(w, 1, p + 1, s.tokens, s.counter) == (t, counter)
    ensures Run(input, s) == Run(input, After(s, p + |w|, counter, [t], []))
  {
    OnFirstLine(input, p);
    WordSlice(input, p, w);
    assert IsLetterOrDigit(input[p]) && !IsWhitespace(input[p]) && !OpensComment(input, p);
    assert Lex(input, p, s.counter, s.tokens) == Lexed(p + |w|, Emit(t), counter);
    StepTo(input, s, After(s, p + |w|, counter, [t], []));
  }

  /** A word that upper-cases letter by letter to a keyword is a valid identifier spelling it. */
  lemma KeywordSpelling(w: string, name: string)
    requires name in Booleans || name in Operators
    requires |name| == |w| && forall k :: 0 <= k < |w| ==> name[k] == ToUpper(w[k])
    ensures Upper(w) == name && IsValidIdentifier(w)
  {
    assert forall k :: 0 <= k < |name| ==> 'A' <= name[k] <= 'Z';
    forall k | 0 <= k < |w| ensures IsAsciiLetter(w[k]) {
      assert 'A' <= ToUpper(w[k]) <= 'Z';
    }
  }

  /** A keyword in some casing: a Boolean or Operator token named upper-case. */
  lemma KeywordUnit(input: string, text: string, s: State, p: nat, w: string, kind: TokenType, name: string, value: int, r: State)
    requires Spells(input, text) && s.pos == p
    requires '\n' !in text && WordAt(text, p, w)
    requires |name| == |w| && forall k :: 0 <= k < |w| ==> name[k] == ToUpper(w[k])
    requires (kind == Boolean && value == 0 && name in Booleans)
      || (kind == Operator && value == NoValue && name in Operators)
    requires r == After(s, p + |w|, s.counter, [Token(kind, name, 1, p + 1, value)], [])
    ensures Run(input, s) == Run(input, r)
  {
    SpellsSame(input, text);
    KeywordSpelling(w, name);
    ClassifiedUnit(input, s, p, w, Token(kind, name, 1, p + 1, value), s.counter);
  }

  /** An identifier whose name no earlier Identifier has: it takes the counter. */
  lemma NewNameUnit(input: string, text: string, s: State, p: nat, w: string, r: State)
    requires Spells(input, text) && s.pos == p
    requires '\n' !in text && WordAt(text, p, w) && IsValidIdentifier(w)
    requires !IsKeyword(w)
    requires forall j :: 0 <= j < |s.tokens| ==> !IsIdentNamed(s.tokens[j], w)
    requires r == After(s, p + |w|, s.counter + 1, [Token(Identifier, w, 1, p + 1, s.counter)], [])
    ensures Run(input, s) == Run(input, r)
  {
    SpellsSame(input, text);
    NotKeyword(w);
    ClassifiedUnit(input, s, p, w, Token(Identifier, w, 1, p + 1, s.counter), s.counter + 1);
  }

  /** The lookup finds the first Identifier with the name. */
  lemma LookupFirst(tokens: seq<Token>, w: string, j: nat)
    requires FirstNamedFrom(tokens, w, 0, j)
    ensures Lookup(tokens, w) == Some(tokens[j].value)
  {
    var v := Lookup(tokens, w);
    assert v.Some?;
    var j' :| FirstNamedFrom(tokens, w, 0, j') && tokens[j'].value == v.value;
    assert j' == j;
  }

  /** An identifier whose name the earlier token `j` was the first to have: it takes that value. */
  lemma SeenNameUnit(input: string, text: string, s: State, p: nat, w: string, j: nat, r: State)
    requires Spells(input, text) && s.pos == p
    requires '\n' !in text && WordAt(text, p, w) && IsValidIdentifier(w)
    requires !IsKeyword(w)
    requires FirstNamedFrom(s.tokens, w, 0, j)
    requires r == After(s, p + |w|, s.counter, [Token(Identifier, w, 1, p + 1, s.tokens[j].value)], [])
    ensures Run(input, s) == Run(input, r)
  {
    SpellsSame(input, text);
    NotKeyword(w);
    LookupFirst(s.tokens, w, j);
    ClassifiedUnit(input, s, p, w, Token(Identifier, w, 1, p + 1, s.tokens[j].value), s.counter);
  }

  /** A word of up to 16 characters that fails the identifier pattern. */
  lemma BadWordUnit(input: string, text: string, s: State, p: nat, w: string, r: State)
    requires Spells(input, text) && s.pos == p
    requires '\n' !in text && WordAt(text, p, w) && IsLetterOrDigit(w[0])
    requires (forall k :: 0 <= k < |w| ==> IsWordChar(w[k])) && |w| <= MaxIdentifierLength && !IsValidIdentifier(w)
    requires r == After(s, p + |w|, s.counter, [], [InvalidIdentifier(w, 1, p + 1)])
    ensures Run(input, s) == Run(input, r)
  {
    SpellsSame(input, text);
    OnFirstLine(input, p);
    WordSlice(input, p, w);
    StepTo(input, s, r);
  }

  /** A word of more than 16 characters. */
  lemma LongWordUnit(input: string, text: string, s: State, p: nat, w: string, r: State)
    requires Spells(input, text) && s.pos == p
    requires '\n' !in text && WordAt(text, p, w) && IsLetterOrDigit(w[0])
    requires (forall k :: 0 <= k < |w| ==> IsWordChar(w[k])) && |w| > MaxIdentifierLength
    requires r == After(s, p + |w|, s.counter, [], [IdentifierTooLong(1, p + 1)])
    ensures Run(input, s) == Run(input, r)
  {
    SpellsSame(input, text);
    OnFirstLine(input, p);
    WordSlice(input, p, w);
    StepTo(input, s, r);
  }

  /** A ":=": an Assign token. */
  lemma AssignUnit(input: string, text: string, s: State, p: nat, r: State)
    requires Spells(input, text) && s.pos == p
    requires '\n' !in text && p + 1 < |text| && text[p] == ':' && text[p + 1] == '='
    requires r == After(s, p + 2, s.counter, [Token(Assign, ":=", 1, p + 1, NoValue)], [])
    ensures Run(input, s) == Run(input, r)
  {
    SpellsSame(input, text);
    OnFirstLine(input, p);
    StepTo(input, s, r);
  }

  /** A ':' not followed by '=': an invalid-colon error. */
  lemma ColonUnit(input: string, text: string, s: State, p: nat, r: State)
    requires Spells(input, text) && s.pos == p
    requires '\n' !in text && p < |text| && text[p] == ':'
    requires !(p + 1 < |text| && text[p + 1] == '=')
    requires r == After(s, p + 1, s.counter, [], [InvalidColon(1, p + 1)])
    ensures Run(input, s) == Run(input, r)
  {
    SpellsSame(input, text);
    OnFirstLine(input, p);
    StepTo(input, s, r);
  }

  /** A '|' after a last token that is not a Pipe (or before any token): a Pipe token. */
  lemma PipeUnit(input: string, text: string, s: State, p: nat, r: State)
    requires Spells(input, text) && s.pos == p
    requires '\n' !in text && p < |text| && text[p] == '|'
    requires |s.tokens| == 0 || !s.tokens[|s.tokens| - 1].HasName("|")
    requires r == After(s, p + 1, s.counter, [Token(Pipe, "|", 1, p + 1, NoValue)], [])
    ensures Run(input, s) == Run(input, r)
  {
    SpellsSame(input, text);
    OnFirstLine(input, p);
    StepTo(input, s, r);
  }

  /** A '|' right after a Pipe token: skipped. */
  lemma RepeatedPipeUnit(input: string, text: string, s: State, p: nat, r: State)
    requires Spells(input, text) && s.pos == p
    requires p < |text| && text[p] == '|'
    requires |s.tokens| > 0 && s.tokens[|s.tokens| - 1].HasName("|")
    requires r == After(s, p + 1, s.counter, [], [])
    ensures Run(input, s) == Run(input, r)
  {
    SpellsSame(input, text);
    StepTo(input, s, r);
  }

  /** A '(': an LParen token. */
  lemma OpenUnit(input: string, text: string, s: State, p: nat, r: State)
    requires Spells(input, text) && s.pos == p
    requires '\n' !in text && p < |text| && text[p] == '('
    requires r == After(s, p + 1, s.counter, [Token(LParen, "(", 1, p + 1, NoValue)], [])
    ensures Run(input, s) == Run(input, r)
  {
    SpellsSame(input, text);
    OnFirstLine(input, p);
    StepTo(input, s, r);
  }

  /** A ')': an RParen token. */
  lemma CloseUnit(input: string, text: string, s: State, p: nat, r: State)
    requires Spells(input, text) && s.pos == p
    requires '\n' !in text && p < |text| && text[p] == ')'
    requires r == After(s, p + 1, s.counter, [Token(RParen, ")", 1, p + 1, NoValue)], [])
    ensures Run(input, s) == Run(input, r)
  {
    SpellsSame(input, text);
    OnFirstLine(input, p);
    StepTo(input, s, r);
  }

  /** A character that starts no unit: an unexpected-character error. */
  lemma StrayUnit(input: string, text: string, s: State, p: nat, r: State)
    requires Spells(input, text) && s.pos == p
    requires '\n' !in text && p < |text|
    requires !IsWhitespace(text[p]) && !IsLetterOrDigit(text[p]) && !OpensComment(text, p)
    requires text[p] != '|' && text[p] != ':' && text[p] != '(' && text[p] != ')'
    requires r == After(s, p + 1, s.counter, [], [UnexpectedCharacter(text[p], 1, p + 1)])
    ensures Run(input, s) == Run(input, r)
  {
    SpellsSame(input, text);
    OnFirstLine(input, p);
    StepTo(input, s, r);
  }

  /** At the end of the input the rest of the scan is the state itself. */
  lemma EndOfInput(input: string, s: State)
    requires s.pos == |input|
    ensures Run(input, s) == s
  {
  }
}
