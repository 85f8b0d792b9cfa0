/**
 * The guarantees of a complete scan, stated over the two result lists of
 * `Analysis(input)`.
 */
module Guarantees {
  import opened Chars
  import opened Positions
  import opened Tokens
  import opened Scanner
  import opened ScanProperties

  /** Every token and every error has line >= 1 and column >= 1. */
  lemma PositionsArePositive(input: string)
    ensures forall t :: t in Analysis(input).tokens ==> t.line >= 1 && t.column >= 1
    ensures forall e :: e in Analysis(input).errors ==> e.line >= 1 && e.column >= 1
  {
    var a := Analysis(input);
    AnalysisInv(input);
    forall e | e in a.errors ensures e.line >= 1 && e.column >= 1 {
      var i :| 0 <= i < |a.errors| && a.errors[i] == e;
      assert ErrorBacked(input, a.errors[i], |input|);
    }
  }

  /**
   * Every token stands at the position of its first character, and that text
   * is its lexeme: the original casing for an Identifier, the same word up to
   * case for a keyword, the literal ":=", "|", "(" or ")" otherwise. A word
   * token starts where a word starts (the run of letters, digits and '_'
   * before it holds no letter or digit) and covers that run from there to
   * its end.
   */
  lemma TokensMatchSource(input: string)
    ensures forall i :: 0 <= i < |Analysis(input).tokens| ==>
      TokenBacked(input, Analysis(input).tokens[i], |input|)
  {
    AnalysisInv(input);
  }

  /**
   * Every error stands at the position of the unit it discards and describes
   * it: an unclosed comment at its opening with no close after it; a word longer
   * than 16 characters; an invalid word of at most 16 characters, quoted (from
   * where the word starts to the end of its run of letters, digits and '_');
   * a ':' not followed by '='; any other character, quoted, where a '_' is
   * reported only when no word runs into it.
   */
  lemma ErrorsMatchSource(input: string)
    ensures forall i :: 0 <= i < |Analysis(input).errors| ==>
      ErrorBacked(input, Analysis(input).errors[i], |input|)
  {
    AnalysisInv(input);
  }

  /** Both lists are in source order: positions strictly increase. */
  lemma ResultsInSourceOrder(input: string)
    ensures forall i, j :: 0 <= i < j < |Analysis(input).tokens| ==>
      Before(Analysis(input).tokens[i].line, Analysis(input).tokens[i].column,
             Analysis(input).tokens[j].line, Analysis(input).tokens[j].column)
    ensures forall i, j :: 0 <= i < j < |Analysis(input).errors| ==>
      Before(Analysis(input).errors[i].line, Analysis(input).errors[i].column,
             Analysis(input).errors[j].line, Analysis(input).errors[j].column)
  {
    AnalysisInv(input);
  }

  /**
   * Token kinds and lexemes: Identifier, Boolean and Operator lexemes are 1 to
   * 16 ASCII letters; Boolean lexemes are TRUE or FALSE with value 0; Operator
   * lexemes are OR, XOR, AND or NOT with value -1; an Identifier is no keyword
   * in any casing and has a value of at least 1; the other kinds carry their
   * literal text and value -1.
   */
  lemma TokensAreWellShaped(input: string)
    ensures forall t :: t in Analysis(input).tokens ==> WellShaped(t)
    ensures forall t :: t in Analysis(input).tokens && t.kind in {Identifier, Boolean, Operator} ==>
      IsValidIdentifier(t.name)
  {
    var a := Analysis(input);
    AnalysisInv(input);
    forall t | t in a.tokens && t.kind in {Identifier, Boolean, Operator} ensures IsValidIdentifier(t.name) {
      WordTokenIsLetters(t);
    }
  }

  /** No two consecutive tokens are both Pipes, and `equals("|")` picks out exactly the Pipes. */
  lemma PipesCollapse(input: string)
    ensures forall i :: 0 <= i < |Analysis(input).tokens| - 1 ==>
      !(Analysis(input).tokens[i].kind == Pipe && Analysis(input).tokens[i + 1].kind == Pipe)
    ensures forall t :: t in Analysis(input).tokens ==> (t.HasName("|") <==> t.kind == Pipe)
  {
    var a := Analysis(input);
    AnalysisInv(input);
    forall t | t in a.tokens ensures t.HasName("|") <==> t.kind == Pipe {
      PipeNameIsPipeKind(t);
    }
  }

  /** All Identifier tokens with the same, case-sensitive name carry the same value. */
  lemma SameNameSameValue(input: string)
    ensures forall i, j ::
      0 <= i < |Analysis(input).tokens| && 0 <= j < |Analysis(input).tokens|
      && IsIdentNamed(Analysis(input).tokens[i], Analysis(input).tokens[j].name)
      && Analysis(input).tokens[j].kind == Identifier
      ==> Analysis(input).tokens[i].value == Analysis(input).tokens[j].value
  {
    AnalysisInv(input);
  }

  /** Identifier tokens with different names carry different values. */
  lemma DistinctNamesDistinctValues(input: string)
    ensures forall i, j ::
      0 <= i < |Analysis(input).tokens| && 0 <= j < |Analysis(input).tokens|
      && Analysis(input).tokens[i].kind == Identifier && Analysis(input).tokens[j].kind == Identifier
      && Analysis(input).tokens[i].name != Analysis(input).tokens[j].name
      ==> Analysis(input).tokens[i].value != Analysis(input).tokens[j].value
  {
    AnalysisInv(input);
  }

  /**
   * The values are exactly 1..k for k distinct names, given in order of first
   * appearance: the n-th new name gets n.
   */
  lemma ValuesNumberFirstAppearances(input: string)
    ensures var tokens := Analysis(input).tokens;
      && (forall i :: 0 <= i < |tokens| && tokens[i].kind == Identifier && tokens[i].name !in IdentNames(tokens[..i])
            ==> tokens[i].value == |IdentNames(tokens[..i])| + 1)
      && (forall i :: 0 <= i < |tokens| && tokens[i].kind == Identifier
            ==> 1 <= tokens[i].value <= |IdentNames(tokens)|)
      && (forall v :: 1 <= v <= |IdentNames(tokens)| ==> HasValue(tokens, v))
  {
    AnalysisInv(input);
  }

  /** Each unit consumes at least one character and yields at most one entry. */
  lemma OutputBoundedByInput(input: string)
    ensures |Analysis(input).tokens| + |Analysis(input).errors| <= |input|
  {
    AnalysisInv(input);
  }

  /** An unclosed comment is the last thing reported, after every token. */
  lemma UnclosedCommentEndsScan(input: string)
    ensures forall i :: 0 <= i < |Analysis(input).errors| && Analysis(input).errors[i].UnclosedComment? ==>
      i == |Analysis(input).errors| - 1
      && forall j :: 0 <= j < |Analysis(input).tokens| ==>
           Before(Analysis(input).tokens[j].line, Analysis(input).tokens[j].column,
                  Analysis(input).errors[i].line, Analysis(input).errors[i].column)
  {
    AnalysisInv(input);
  }

  /** No text backs both a token and an error. */
  lemma TokenAndErrorDiffer(input: string, t: Token, e: ScanError, k: int)
    requires WellShaped(t) && TokenAt(input, t, k)
    ensures !ErrorAt(input, e, k)
  {
    if t.kind in {Identifier, Boolean, Operator} {
      WordTokenText(input, t, k);
      assert !ErrorAt(input, e, k);
    } else {
      assert input[k] in {':', '|', '(', ')'};
      assert !ErrorAt(input, e, k);
    }
  }

  /**
   * The text behind a word token is a word of 1 to 16 letters, that no word
   * runs into and that no letter, digit or `_` follows.
   */
  lemma WordTokenText(input: string, t: Token, k: int)
    requires WellShaped(t) && TokenAt(input, t, k) && t.kind in {Identifier, Boolean, Operator}
    ensures var w := input[k..WordEnd(input, k)];
      WordStart(input, k) && IsValidIdentifier(w) && IsAsciiLetter(input[k])
      && (t.kind == Identifier ==> w == t.name)
  {
    var e := WordEnd(input, k);
    assert e == k + |t.name|;
    var w := input[k..e];
    if t.kind == Identifier {
      assert w == t.name && IsValidIdentifier(t.name);
    } else {
      assert Upper(w) == t.name;
      WordTokenIsLettersAt(w, t.name);
    }
    assert w[0] == input[k];
  }

  /**
   * The tail of a word backs neither a token nor an error: at an offset that
   * holds a word character and that a word runs into (`b` at 1 in `ab`, `b`
   * at 2 in `a_b`, `_` at 1 in `a_b`), there is no entry at all.
   */
  lemma WordTailBacksNothing(input: string, k: int, t: Token, e: ScanError)
    requires 0 <= k < |input| && IsWordChar(input[k]) && !NoWordBefore(input, k)
    ensures !TokenAt(input, t, k)
    ensures !ErrorAt(input, e, k)
  {
  }

  /** Both probes of a word's tail, one with an inner '_', back nothing. */
  lemma WordTailExamples()
    ensures !TokenAt("a_b", Token(Identifier, "b", 1, 3, 1), 2)
    ensures !ErrorAt("ab_1c", InvalidIdentifier("1c", 1, 4), 3)
    ensures !ErrorAt("a_b", UnexpectedCharacter('_', 1, 2), 1)
  {
    assert !NoWordBefore("a_b", 1) by { assert IsLetterOrDigit("a_b"[0]); }
    WordTailBacksNothing("a_b", 2, Token(Identifier, "b", 1, 3, 1), UnexpectedCharacter('_', 1, 2));
    WordTailBacksNothing("a_b", 1, Token(Identifier, "b", 1, 3, 1), UnexpectedCharacter('_', 1, 2));
    assert !NoWordBefore("ab_1c", 2) by { assert IsLetterOrDigit("ab_1c"[1]); }
    WordTailBacksNothing("ab_1c", 3, Token(Identifier, "b", 1, 3, 1), InvalidIdentifier("1c", 1, 4));
  }

  /** A word whose upper-case form is a keyword is made of 1 to 16 letters. */
  lemma WordTokenIsLettersAt(w: string, name: string)
    requires Upper(w) == name && (name in Booleans || name in Operators)
    ensures IsValidIdentifier(w)
  {
    assert name == "TRUE" || name == "FALSE" || name == "OR" || name == "XOR" || name == "AND" || name == "NOT";
    forall i | 0 <= i < |w| ensures IsAsciiLetter(w[i]) {
      assert IsAsciiLetter(name[i]) && name[i] == ToUpper(w[i]);
    }
  }

  /** Every unit yields at most one entry: no token shares its position with an error. */
  lemma OneEntryPerPosition(input: string)
    ensures forall i, j :: 0 <= i < |Analysis(input).tokens| && 0 <= j < |Analysis(input).errors| ==>
      Analysis(input).tokens[i].line != Analysis(input).errors[j].line
      || Analysis(input).tokens[i].column != Analysis(input).errors[j].column
  {
    var a := Analysis(input);
    AnalysisInv(input);
    forall i, j | 0 <= i < |a.tokens| && 0 <= j < |a.errors|
      ensures a.tokens[i].line != a.errors[j].line || a.tokens[i].column != a.errors[j].column
    {
      assert TokenBacked(input, a.tokens[i], |input|);
      assert ErrorBacked(input, a.errors[j], |input|);
      var k1 :| 0 <= k1 < |input| && TokenAt(input, a.tokens[i], k1);
      var k2 :| 0 <= k2 < |input| && ErrorAt(input, a.errors[j], k2);
      assert WellShaped(a.tokens[i]);
      TokenAndErrorDiffer(input, a.tokens[i], a.errors[j], k1);
      assert k1 != k2;
      if k1 < k2 {
        PositionAdvances(input, k1, k2);
      } else {
        PositionAdvances(input, k2, k1);
      }
    }
  }

  /**
   * The trailing-paren branch of the word case cannot fire: a scanned word
   * never ends with ')'.
   */
  lemma WordNeverEndsWithParen(input: string, pos: nat)
    requires pos < |input| && IsLetterOrDigit(input[pos])
    ensures var e := WordEnd(input, pos); pos < e && input[e - 1] != ')'
  {
  }
}
