/**
 * The inputs of the repository's unit tests (src/test/java/LexicalAnalyzerTest.java),
 * scanned by the model. `Scan<Name>` states the whole result of one test's
 * input. `Scan<Name>Run` proves it for any `input` that spells that text, as
 * the chain of its units, and `Scan<Name>Unit<k>` is unit k: one call of the
 * matching lemma of `ScanSteps`, taken apart so that the solver never has to
 * hold more than one step of the scan at a time.
 */
module Scenarios {
  import opened Tokens
  import opened Scanner
  import opened ScanSteps

  /**
   * An Identifier, an Assign and a Boolean, and no error: the outcome the test
   * at LexicalAnalyzerTest.java:10-20 checks.
   */
  lemma ScanSimpleAssignment()
    ensures Analysis("x := TRUE").tokens == [Token(Identifier, "x", 1, 1, 1), Token(Assign, ":=", 1, 3, -1), Token(Boolean, "TRUE", 1, 6, 0)]
    ensures Analysis("x := TRUE").errors == []
  {
    assert Spells(SimpleAssignmentText, SimpleAssignmentText);
    ScanSimpleAssignmentRun(SimpleAssignmentText);
  }

  const SimpleAssignmentText := "x := TRUE"

  lemma ScanSimpleAssignmentRun(input: string)
    requires Spells(input, SimpleAssignmentText) && '\n' !in SimpleAssignmentText
    ensures Analysis(input) == State(9, 2, [Token(Identifier, "x", 1, 1, 1), Token(Assign, ":=", 1, 3, -1), Token(Boolean, "TRUE", 1, 6, 0)], [])
  {
    ScanSimpleAssignmentUnit1(input);
    ScanSimpleAssignmentUnit2(input);
    ScanSimpleAssignmentUnit3(input);
    ScanSimpleAssignmentUnit4(input);
    ScanSimpleAssignmentUnit5(input);
    EndOfInput(input, State(9, 2, [Token(Identifier, "x", 1, 1, 1), Token(Assign, ":=", 1, 3, -1), Token(Boolean, "TRUE", 1, 6, 0)], []));
  }

  lemma ScanSimpleAssignmentUnit1(input: string)
    requires Spells(input, SimpleAssignmentText) && '\n' !in SimpleAssignmentText
    ensures Run(input, State(0, 1, [], [])) == Run(input, State(1, 2, [Token(Identifier, "x", 1, 1, 1)], []))
  {
    NewNameUnit(input, SimpleAssignmentText, State(0, 1, [], []), 0, "x", State(1, 2, [Token(Identifier, "x", 1, 1, 1)], []));
  }

  lemma ScanSimpleAssignmentUnit2(input: string)
    requires Spells(input, SimpleAssignmentText) && '\n' !in SimpleAssignmentText
    ensures Run(input, State(1, 2, [Token(Identifier, "x", 1, 1, 1)], [])) == Run(input, State(2, 2, [Token(Identifier, "x", 1, 1, 1)], []))
  {
    BlankUnit(input, SimpleAssignmentText, State(1, 2, [Token(Identifier, "x", 1, 1, 1)], []), 1, State(2, 2, [Token(Identifier, "x", 1, 1, 1)], []));
  }

  lemma ScanSimpleAssignmentUnit3(input: string)
    requires Spells(input, SimpleAssignmentText) && '\n' !in SimpleAssignmentText
    ensures Run(input, State(2, 2, [Token(Identifier, "x", 1, 1, 1)], [])) == Run(input, State(4, 2, [Token(Identifier, "x", 1, 1, 1), Token(Assign, ":=", 1, 3, -1)], []))
  {
    AssignUnit(input, SimpleAssignmentText, State(2, 2, [Token(Identifier, "x", 1, 1, 1)], []), 2, State(4, 2, [Token(Identifier, "x", 1, 1, 1), Token(Assign, ":=", 1, 3, -1)], []));
  }

  lemma ScanSimpleAssignmentUnit4(input: string)
    requires Spells(input, SimpleAssignmentText) && '\n' !in SimpleAssignmentText
    ensures Run(input, State(4, 2, [Token(Identifier, "x", 1, 1, 1), Token(Assign, ":=", 1, 3, -1)], [])) == Run(input, State(5, 2, [Token(Identifier, "x", 1, 1, 1), Token(Assign, ":=", 1, 3, -1)], []))
  {
    BlankUnit(input, SimpleAssignmentText, State(4, 2, [Token(Identifier, "x", 1, 1, 1), Token(Assign, ":=", 1, 3, -1)], []), 4, State(5, 2, [Token(Identifier, "x", 1, 1, 1), Token(Assign, ":=", 1, 3, -1)], []));
  }

  lemma ScanSimpleAssignmentUnit5(input: string)
    requires Spells(input, SimpleAssignmentText) && '\n' !in SimpleAssignmentText
    ensures Run(input, State(5, 2, [Token(Identifier, "x", 1, 1, 1), Token(Assign, ":=", 1, 3, -1)], [])) == Run(input, State(9, 2, [Token(Identifier, "x", 1, 1, 1), Token(Assign, ":=", 1, 3, -1), Token(Boolean, "TRUE", 1, 6, 0)], []))
  {
    KeywordUnit(input, SimpleAssignmentText, State(5, 2, [Token(Identifier, "x", 1, 1, 1), Token(Assign, ":=", 1, 3, -1)], []), 5, "TRUE", Boolean, "TRUE", 0, State(9, 2, [Token(Identifier, "x", 1, 1, 1), Token(Assign, ":=", 1, 3, -1), Token(Boolean, "TRUE", 1, 6, 0)], []));
  }

  /**
   * Three assignments joined by Pipes: thirteen tokens, a Pipe fourth and an
   * Assign tenth, and no error (LexicalAnalyzerTest.java:22-32). The later a
   * and b reuse the values 1 and 2 of their first occurrences.
   */
  lemma ScanMultipleExpressions()
    ensures Analysis("a := TRUE | b := " + "FALSE | c := a AND " + "b").tokens == [Token(Identifier, "a", 1, 1, 1), Token(Assign, ":=", 1, 3, -1), Token(Boolean, "TRUE", 1, 6, 0), Token(Pipe, "|", 1, 11, -1), Token(Identifier, "b", 1, 13, 2), Token(Assign, ":=", 1, 15, -1), Token(Boolean, "FALSE", 1, 18, 0), Token(Pipe, "|", 1, 24, -1), Token(Identifier, "c", 1, 26, 3), Token(Assign, ":=", 1, 28, -1), Token(Identifier, "a", 1, 31, 1), Token(Operator, "AND", 1, 33, -1), Token(Identifier, "b", 1, 37, 2)]
    ensures Analysis("a := TRUE | b := " + "FALSE | c := a AND " + "b").errors == []
  {
    assert Spells(MultipleExpressionsText, MultipleExpressionsText);
    ScanMultipleExpressionsRun(MultipleExpressionsText);
  }

  const MultipleExpressionsText := "a := TRUE | b := " + "FALSE | c := a AND " + "b"

  lemma ScanMultipleExpressionsRun(input: string)
    requires Spells(input, MultipleExpressionsText) && '\n' !in MultipleExpressionsText
    ensures Analysis(input) == State(37, 4, [Token(Identifier, "a", 1, 1, 1), Token(Assign, ":=", 1, 3, -1), Token(Boolean, "TRUE", 1, 6, 0), Token(Pipe, "|", 1, 11, -1), Token(Identifier, "b", 1, 13, 2), Token(Assign, ":=", 1, 15, -1), Token(Boolean, "FALSE", 1, 18, 0), Token(Pipe, "|", 1, 24, -1), Token(Identifier, "c", 1, 26, 3), Token(Assign, ":=", 1, 28, -1), Token(Identifier, "a", 1, 31, 1), Token(Operator, "AND", 1, 33, -1), Token(Identifier, "b", 1, 37, 2)], [])
  {
    ScanMultipleExpressionsUnit1(input);
    ScanMultipleExpressionsUnit2(input);
    ScanMultipleExpressionsUnit3(input);
    ScanMultipleExpressionsUnit4(input);
    ScanMultipleExpressionsUnit5(input);
    ScanMultipleExpressionsUnit6(input);
    ScanMultipleExpressionsUnit7(input);
    ScanMultipleExpressionsUnit8(input);
    ScanMultipleExpressionsUnit9(input);
    ScanMultipleExpressionsUnit10(input);
    ScanMultipleExpressionsUnit11(input);
    ScanMultipleExpressionsUnit12(input);
    ScanMultipleExpressionsUnit13(input);
    ScanMultipleExpressionsUnit14(input);
    ScanMultipleExpressionsUnit15(input);
    ScanMultipleExpressionsUnit16(input);
    ScanMultipleExpressionsUnit17(input);
    ScanMultipleExpressionsUnit18(input);
    ScanMultipleExpressionsUnit19(input);
    ScanMultipleExpressionsUnit20(input);
    ScanMultipleExpressionsUnit21(input);
    ScanMultipleExpressionsUnit22(input);
    ScanMultipleExpressionsUnit23(input);
    ScanMultipleExpressionsUnit24(input);
    ScanMultipleExpressionsUnit25(input);
    EndOfInput(input, State(37, 4, [Token(Identifier, "a", 1, 1, 1), Token(Assign, ":=", 1, 3, -1), Token(Boolean, "TRUE", 1, 6, 0), Token(Pipe, "|", 1, 11, -1), Token(Identifier, "b", 1, 13, 2), Token(Assign, ":=", 1, 15, -1), Token(Boolean, "FALSE", 1, 18, 0), Token(Pipe, "|", 1, 24, -1), Token(Identifier, "c", 1, 26, 3), Token(Assign, ":=", 1, 28, -1), Token(Identifier, "a", 1, 31, 1), Token(Operator, "AND", 1, 33, -1), Token(Identifier, "b", 1, 37, 2)], []));
  }

  lemma ScanMultipleExpressionsUnit1(input: string)
    requires Spells(input, MultipleExpressionsText) && '\n' !in MultipleExpressionsText
    ensures Run(input, State(0, 1, [], [])) == Run(input, State(1, 2, [Token(Identifier, "a", 1, 1, 1)], []))
  {
    NewNameUnit(input, MultipleExpressionsText, State(0, 1, [], []), 0, "a", State(1, 2, [Token(Identifier, "a", 1, 1, 1)], []));
  }

  lemma ScanMultipleExpressionsUnit2(input: string)
    requires Spells(input, MultipleExpressionsText) && '\n' !in MultipleExpressionsText
    ensures Run(input, State(1, 2, [Token(Identifier, "a", 1, 1, 1)], [])) == Run(input, State(2, 2, [Token(Identifier, "a", 1, 1, 1)], []))
  {
    BlankUnit(input, MultipleExpressionsText, State(1, 2, [Token(Identifier, "a", 1, 1, 1)], []), 1, State(2, 2, [Token(Identifier, "a", 1, 1, 1)], []));
  }

  lemma ScanMultipleExpressionsUnit3(input: string)
    requires Spells(input, MultipleExpressionsText) && '\n' !in MultipleExpressionsText
    ensures Run(input, State(2, 2, [Token(Identifier, "a", 1, 1, 1)], [])) == Run(input, State(4, 2, [Token(Identifier, "a", 1, 1, 1), Token(Assign, ":=", 1, 3, -1)], []))
  {
    AssignUnit(input, MultipleExpressionsText, State(2, 2, [Token(Identifier, "a", 1, 1, 1)], []), 2, State(4, 2, [Token(Identifier, "a", 1, 1, 1), Token(Assign, ":=", 1, 3, -1)], []));
  }

  lemma ScanMultipleExpressionsUnit4(input: string)
    requires Spells(input, MultipleExpressionsText) && '\n' !in MultipleExpressionsText
    ensures Run(input, State(4, 2, [Token(Identifier, "a", 1, 1, 1), Token(Assign, ":=", 1, 3, -1)], [])) == Run(input, State(5, 2, [Token(Identifier, "a", 1, 1, 1), Token(Assign, ":=", 1, 3, -1)], []))
  {
    BlankUnit(input, MultipleExpressionsText, State(4, 2, [Token(Identifier, "a", 1, 1, 1), Token(Assign, ":=", 1, 3, -1)], []), 4, State(5, 2, [Token(Identifier, "a", 1, 1, 1), Token(Assign, ":=", 1, 3, -1)], []));
  }

  lemma ScanMultipleExpressionsUnit5(input: string)
    requires Spells(input, MultipleExpressionsText) && '\n' !in MultipleExpressionsText
    ensures Run(input, State(5, 2, [Token(Identifier, "a", 1, 1, 1), Token(Assign, ":=", 1, 3, -1)], [])) == Run(input, State(9, 2, [Token(Identifier, "a", 1, 1, 1), Token(Assign, ":=", 1, 3, -1), Token(Boolean, "TRUE", 1, 6, 0)], []))
  {
    KeywordUnit(input, MultipleExpressionsText, State(5, 2, [Token(Identifier, "a", 1, 1, 1), Token(Assign, ":=", 1, 3, -1)], []), 5, "TRUE", Boolean, "TRUE", 0, State(9, 2, [Token(Identifier, "a", 1, 1, 1), Token(Assign, ":=", 1, 3, -1), Token(Boolean, "TRUE", 1, 6, 0)], []));
  }

  lemma ScanMultipleExpressionsUnit6(input: string)
    requires Spells(input, MultipleExpressionsText) && '\n' !in MultipleExpressionsText
    ensures Run(input, State(9, 2, [Token(Identifier, "a", 1, 1, 1), Token(Assign, ":=", 1, 3, -1), Token(Boolean, "TRUE", 1, 6, 0)], [])) == Run(input, State(10, 2, [Token(Identifier, "a", 1, 1, 1), Token(Assign, ":=", 1, 3, -1), Token(Boolean, "TRUE", 1, 6, 0)], []))
  {
    BlankUnit(input, MultipleExpressionsText, State(9, 2, [Token(Identifier, "a", 1, 1, 1), Token(Assign, ":=", 1, 3, -1), Token(Boolean, "TRUE", 1, 6, 0)], []), 9, State(10, 2, [Token(Identifier, "a", 1, 1, 1), Token(Assign, ":=", 1, 3, -1), Token(Boolean, "TRUE", 1, 6, 0)], []));
  }

  lemma ScanMultipleExpressionsUnit7(input: string)
    requires Spells(input, MultipleExpressionsText) && '\n' !in MultipleExpressionsText
    ensures Run(input, State(10, 2, [Token(Identifier, "a", 1, 1, 1), Token(Assign, ":=", 1, 3, -1), Token(Boolean, "TRUE", 1, 6, 0)], [])) == Run(input, State(11, 2, [Token(Identifier, "a", 1, 1, 1), Token(Assign, ":=", 1, 3, -1), Token(Boolean, "TRUE", 1, 6, 0), Token(Pipe, "|", 1, 11, -1)], []))
  {
    PipeUnit(input, MultipleExpressionsText, State(10, 2, [Token(Identifier, "a", 1, 1, 1), Token(Assign, ":=", 1, 3, -1), Token(Boolean, "TRUE", 1, 6, 0)], []), 10, State(11, 2, [Token(Identifier, "a", 1, 1, 1), Token(Assign, ":=", 1, 3, -1), Token(Boolean, "TRUE", 1, 6, 0), Token(Pipe, "|", 1, 11, -1)], []));
  }

  lemma ScanMultipleExpressionsUnit8(input: string)
    requires Spells(input, MultipleExpressionsText) && '\n' !in MultipleExpressionsText
    ensures Run(input, State(11, 2, [Token(Identifier, "a", 1, 1, 1), Token(Assign, ":=", 1, 3, -1), Token(Boolean, "TRUE", 1, 6, 0), Token(Pipe, "|", 1, 11, -1)], [])) == Run(input, State(12, 2, [Token(Identifier, "a", 1, 1, 1), Token(Assign, ":=", 1, 3, -1), Token(Boolean, "TRUE", 1, 6, 0), Token(Pipe, "|", 1, 11, -1)], []))
  {
    BlankUnit(input, MultipleExpressionsText, State(11, 2, [Token(Identifier, "a", 1, 1, 1), Token(Assign, ":=", 1, 3, -1), Token(Boolean, "TRUE", 1, 6, 0), Token(Pipe, "|", 1, 11, -1)], []), 11, State(12, 2, [Token(Identifier, "a", 1, 1, 1), Token(Assign, ":=", 1, 3, -1), Token(Boolean, "TRUE", 1, 6, 0), Token(Pipe, "|", 1, 11, -1)], []));
  }

  lemma ScanMultipleExpressionsUnit9(input: string)
    requires Spells(input, MultipleExpressionsText) && '\n' !in MultipleExpressionsText
    ensures Run(input, State(12, 2, [Token(Identifier, "a", 1, 1, 1), Token(Assign, ":=", 1, 3, -1), Token(Boolean, "TRUE", 1, 6, 0), Token(Pipe, "|", 1, 11, -1)], [])) == Run(input, State(13, 3, [Token(Identifier, "a", 1, 1, 1), Token(Assign, ":=", 1, 3, -1), Token(Boolean, "TRUE", 1, 6, 0), Token(Pipe, "|", 1, 11, -1), Token(Identifier, "b", 1, 13, 2)], []))
  {
    NewNameUnit(input, MultipleExpressionsText, State(12, 2, [Token(Identifier, "a", 1, 1, 1), Token(Assign, ":=", 1, 3, -1), Token(Boolean, "TRUE", 1, 6, 0), Token(Pipe, "|", 1, 11, -1)], []), 12, "b", State(13, 3, [Token(Identifier, "a", 1, 1, 1), Token(Assign, ":=", 1, 3, -1), Token(Boolean, "TRUE", 1, 6, 0), Token(Pipe, "|", 1, 11, -1), Token(Identifier, "b", 1, 13, 2)], []));
  }

  lemma ScanMultipleExpressionsUnit10(input: string)
    requires Spells(input, MultipleExpressionsText) && '\n' !in MultipleExpressionsText
    ensures Run(input, State(13, 3, [Token(Identifier, "a", 1, 1, 1), Token(Assign, ":=", 1, 3, -1), Token(Boolean, "TRUE", 1, 6, 0), Token(Pipe, "|", 1, 11, -1), Token(Identifier, "b", 1, 13, 2)], [])) == Run(input, State(14, 3, [Token(Identifier, "a", 1, 1, 1), Token(Assign, ":=", 1, 3, -1), Token(Boolean, "TRUE", 1, 6, 0), Token(Pipe, "|", 1, 11, -1), Token(Identifier, "b", 1, 13, 2)], []))
  {
    BlankUnit(input, MultipleExpressionsText, State(13, 3, [Token(Identifier, "a", 1, 1, 1), Token(Assign, ":=", 1, 3, -1), Token(Boolean, "TRUE", 1, 6, 0), Token(Pipe, "|", 1, 11, -1), Token(Identifier, "b", 1, 13, 2)], []), 13, State(14, 3, [Token(Identifier, "a", 1, 1, 1), Token(Assign, ":=", 1, 3, -1), Token(Boolean, "TRUE", 1, 6, 0), Token(Pipe, "|", 1, 11, -1), Token(Identifier, "b", 1, 13, 2)], []));
  }

  lemma ScanMultipleExpressionsUnit11(input: string)
    requires Spells(input, MultipleExpressionsText) && '\n' !in MultipleExpressionsText
    ensures Run(input, State(14, 3, [Token(Identifier, "a", 1, 1, 1), Token(Assign, ":=", 1, 3, -1), Token(Boolean, "TRUE", 1, 6, 0), Token(Pipe, "|", 1, 11, -1), Token(Identifier, "b", 1, 13, 2)], [])) == Run(input, State(16, 3, [Token(Identifier, "a", 1, 1, 1), Token(Assign, ":=", 1, 3, -1), Token(Boolean, "TRUE", 1, 6, 0), Token(Pipe, "|", 1, 11, -1), Token(Identifier, "b", 1, 13, 2), Token(Assign, ":=", 1, 15, -1)], []))
  {
    AssignUnit(input, MultipleExpressionsText, State(14, 3, [Token(Identifier, "a", 1, 1, 1), Token(Assign, ":=", 1, 3, -1), Token(Boolean, "TRUE", 1, 6, 0), Token(Pipe, "|", 1, 11, -1), Token(Identifier, "b", 1, 13, 2)], []), 14, State(16, 3, [Token(Identifier, "a", 1, 1, 1), Token(Assign, ":=", 1, 3, -1), Token(Boolean, "TRUE", 1, 6, 0), Token(Pipe, "|", 1, 11, -1), Token(Identifier, "b", 1, 13, 2), Token(Assign, ":=", 1, 15, -1)], []));
  }

  lemma ScanMultipleExpressionsUnit12(input: string)
    requires Spells(input, MultipleExpressionsText) && '\n' !in MultipleExpressionsText
    ensures Run(input, State(16, 3, [Token(Identifier, "a", 1, 1, 1), Token(Assign, ":=", 1, 3, -1), Token(Boolean, "TRUE", 1, 6, 0), Token(Pipe, "|", 1, 11, -1), Token(Identifier, "b", 1, 13, 2), Token(Assign, ":=", 1, 15, -1)], [])) == Run(input, State(17, 3, [Token(Identifier, "a", 1, 1, 1), Token(Assign, ":=", 1, 3, -1), Token(Boolean, "TRUE", 1, 6, 0), Token(Pipe, "|", 1, 11, -1), Token(Identifier, "b", 1, 13, 2), Token(Assign, ":=", 1, 15, -1)], []))
  {
    BlankUnit(input, MultipleExpressionsText, State(16, 3, [Token(Identifier, "a", 1, 1, 1), Token(Assign, ":=", 1, 3, -1), Token(Boolean, "TRUE", 1, 6, 0), Token(Pipe, "|", 1, 11, -1), Token(Identifier, "b", 1, 13, 2), Token(Assign, ":=", 1, 15, -1)], []), 16, State(17, 3, [Token(Identifier, "a", 1, 1, 1), Token(Assign, ":=", 1, 3, -1), Token(Boolean, "TRUE", 1, 6, 0), Token(Pipe, "|", 1, 11, -1), Token(Identifier, "b", 1, 13, 2), Token(Assign, ":=", 1, 15, -1)], []));
  }

  lemma ScanMultipleExpressionsUnit13(input: string)
    requires Spells(input, MultipleExpressionsText) && '\n' !in MultipleExpressionsText
    ensures Run(input, State(17, 3, [Token(Identifier, "a", 1, 1, 1), Token(Assign, ":=", 1, 3, -1), Token(Boolean, "TRUE", 1, 6, 0), Token(Pipe, "|", 1, 11, -1), Token(Identifier, "b", 1, 13, 2), Token(Assign, ":=", 1, 15, -1)], [])) == Run(input, State(22, 3, [Token(Identifier, "a", 1, 1, 1), Token(Assign, ":=", 1, 3, -1), Token(Boolean, "TRUE", 1, 6, 0), Token(Pipe, "|", 1, 11, -1), Token(Identifier, "b", 1, 13, 2), Token(Assign, ":=", 1, 15, -1), Token(Boolean, "FALSE", 1, 18, 0)], []))
  {
    KeywordUnit(input, MultipleExpressionsText, State(17, 3, [Token(Identifier, "a", 1, 1, 1), Token(Assign, ":=", 1, 3, -1), Token(Boolean, "TRUE", 1, 6, 0), Token(Pipe, "|", 1, 11, -1), Token(Identifier, "b", 1, 13, 2), Token(Assign, ":=", 1, 15, -1)], []), 17, "FALSE", Boolean, "FALSE", 0, State(22, 3, [Token(Identifier, "a", 1, 1, 1), Token(Assign, ":=", 1, 3, -1), Token(Boolean, "TRUE", 1, 6, 0), Token(Pipe, "|", 1, 11, -1), Token(Identifier, "b", 1, 13, 2), Token(Assign, ":=", 1, 15, -1), Token(Boolean, "FALSE", 1, 18, 0)], []));
  }

  lemma ScanMultipleExpressionsUnit14(input: string)
    requires Spells(input, MultipleExpressionsText) && '\n' !in MultipleExpressionsText
    ensures Run(input, State(22, 3, [Token(Identifier, "a", 1, 1, 1), Token(Assign, ":=", 1, 3, -1), Token(Boolean, "TRUE", 1, 6, 0), Token(Pipe, "|", 1, 11, -1), Token(Identifier, "b", 1, 13, 2), Token(Assign, ":=", 1, 15, -1), Token(Boolean, "FALSE", 1, 18, 0)], [])) == Run(input, State(23, 3, [Token(Identifier, "a", 1, 1, 1), Token(Assign, ":=", 1, 3, -1), Token(Boolean, "TRUE", 1, 6, 0), Token(Pipe, "|", 1, 11, -1), Token(Identifier, "b", 1, 13, 2), Token(Assign, ":=", 1, 15, -1), Token(Boolean, "FALSE", 1, 18, 0)], []))
  {
    BlankUnit(input, MultipleExpressionsText, State(22, 3, [Token(Identifier, "a", 1, 1, 1), Token(Assign, ":=", 1, 3, -1), Token(Boolean, "TRUE", 1, 6, 0), Token(Pipe, "|", 1, 11, -1), Token(Identifier, "b", 1, 13, 2), Token(Assign, ":=", 1, 15, -1), Token(Boolean, "FALSE", 1, 18, 0)], []), 22, State(23, 3, [Token(Identifier, "a", 1, 1, 1), Token(Assign, ":=", 1, 3, -1), Token(Boolean, "TRUE", 1, 6, 0), Token(Pipe, "|", 1, 11, -1), Token(Identifier, "b", 1, 13, 2), Token(Assign, ":=", 1, 15, -1), Token(Boolean, "FALSE", 1, 18, 0)], []));
  }

  lemma ScanMultipleExpressionsUnit15(input: string)
    requires Spells(input, MultipleExpressionsText) && '\n' !in MultipleExpressionsText
    ensures Run(input, State(23, 3, [Token(Identifier, "a", 1, 1, 1), Token(Assign, ":=", 1, 3, -1), Token(Boolean, "TRUE", 1, 6, 0), Token(Pipe, "|", 1, 11, -1), Token(Identifier, "b", 1, 13, 2), Token(Assign, ":=", 1, 15, -1), Token(Boolean, "FALSE", 1, 18, 0)], [])) == Run(input, State(24, 3, [Token(Identifier, "a", 1, 1, 1), Token(Assign, ":=", 1, 3, -1), Token(Boolean, "TRUE", 1, 6, 0), Token(Pipe, "|", 1, 11, -1), Token(Identifier, "b", 1, 13, 2), Token(Assign, ":=", 1, 15, -1), Token(Boolean, "FALSE", 1, 18, 0), Token(Pipe, "|", 1, 24, -1)], []))
  {
    PipeUnit(input, MultipleExpressionsText, State(23, 3, [Token(Identifier, "a", 1, 1, 1), Token(Assign, ":=", 1, 3, -1), Token(Boolean, "TRUE", 1, 6, 0), Token(Pipe, "|", 1, 11, -1), Token(Identifier, "b", 1, 13, 2), Token(Assign, ":=", 1, 15, -1), Token(Boolean, "FALSE", 1, 18, 0)], []), 23, State(24, 3, [Token(Identifier, "a", 1, 1, 1), Token(Assign, ":=", 1, 3, -1), Token(Boolean, "TRUE", 1, 6, 0), Token(Pipe, "|", 1, 11, -1), Token(Identifier, "b", 1, 13, 2), Token(Assign, ":=", 1, 15, -1), Token(Boolean, "FALSE", 1, 18, 0), Token(Pipe, "|", 1, 24, -1)], []));
  }

  lemma ScanMultipleExpressionsUnit16(input: string)
    requires Spells(input, MultipleExpressionsText) && '\n' !in MultipleExpressionsText
    ensures Run(input, State(24, 3, [Token(Identifier, "a", 1, 1, 1), Token(Assign, ":=", 1, 3, -1), Token(Boolean, "TRUE", 1, 6, 0), Token(Pipe, "|", 1, 11, -1), Token(Identifier, "b", 1, 13, 2), Token(Assign, ":=", 1, 15, -1), Token(Boolean, "FALSE", 1, 18, 0), Token(Pipe, "|", 1, 24, -1)], [])) == Run(input, State(25, 3, [Token(Identifier, "a", 1, 1, 1), Token(Assign, ":=", 1, 3, -1), Token(Boolean, "TRUE", 1, 6, 0), Token(Pipe, "|", 1, 11, -1), Token(Identifier, "b", 1, 13, 2), Token(Assign, ":=", 1, 15, -1), Token(Boolean, "FALSE", 1, 18, 0), Token(Pipe, "|", 1, 24, -1)], []))
  {
    BlankUnit(input, MultipleExpressionsText, State(24, 3, [Token(Identifier, "a", 1, 1, 1), Token(Assign, ":=", 1, 3, -1), Token(Boolean, "TRUE", 1, 6, 0), Token(Pipe, "|", 1, 11, -1), Token(Identifier, "b", 1, 13, 2), Token(Assign, ":=", 1, 15, -1), Token(Boolean, "FALSE", 1, 18, 0), Token(Pipe, "|", 1, 24, -1)], []), 24, State(25, 3, [Token(Identifier, "a", 1, 1, 1), Token(Assign, ":=", 1, 3, -1), Token(Boolean, "TRUE", 1, 6, 0), Token(Pipe, "|", 1, 11, -1), Token(Identifier, "b", 1, 13, 2), Token(Assign, ":=", 1, 15, -1), Token(Boolean, "FALSE", 1, 18, 0), Token(Pipe, "|", 1, 24, -1)], []));
  }

  lemma ScanMultipleExpressionsUnit17(input: string)
    requires Spells(input, MultipleExpressionsText) && '\n' !in MultipleExpressionsText
    ensures Run(input, State(25, 3, [Token(Identifier, "a", 1, 1, 1), Token(Assign, ":=", 1, 3, -1), Token(Boolean, "TRUE", 1, 6, 0), Token(Pipe, "|", 1, 11, -1), Token(Identifier, "b", 1, 13, 2), Token(Assign, ":=", 1, 15, -1), Token(Boolean, "FALSE", 1, 18, 0), Token(Pipe, "|", 1, 24, -1)], [])) == Run(input, State(26, 4, [Token(Identifier, "a", 1, 1, 1), Token(Assign, ":=", 1, 3, -1), Token(Boolean, "TRUE", 1, 6, 0), Token(Pipe, "|", 1, 11, -1), Token(Identifier, "b", 1, 13, 2), Token(Assign, ":=", 1, 15, -1), Token(Boolean, "FALSE", 1, 18, 0), Token(Pipe, "|", 1, 24, -1), Token(Identifier, "c", 1, 26, 3)], []))
  {
    NewNameUnit(input, MultipleExpressionsText, State(25, 3, [Token(Identifier, "a", 1, 1, 1), Token(Assign, ":=", 1, 3, -1), Token(Boolean, "TRUE", 1, 6, 0), Token(Pipe, "|", 1, 11, -1), Token(Identifier, "b", 1, 13, 2), Token(Assign, ":=", 1, 15, -1), Token(Boolean, "FALSE", 1, 18, 0), Token(Pipe, "|", 1, 24, -1)], []), 25, "c", State(26, 4, [Token(Identifier, "a", 1, 1, 1), Token(Assign, ":=", 1, 3, -1), Token(Boolean, "TRUE", 1, 6, 0), Token(Pipe, "|", 1, 11, -1), Token(Identifier, "b", 1, 13, 2), Token(Assign, ":=", 1, 15, -1), Token(Boolean, "FALSE", 1, 18, 0), Token(Pipe, "|", 1, 24, -1), Token(Identifier, "c", 1, 26, 3)], []));
  }

  lemma ScanMultipleExpressionsUnit18(input: string)
    requires Spells(input, MultipleExpressionsText) && '\n' !in MultipleExpressionsText
    ensures Run(input, State(26, 4, [Token(Identifier, "a", 1, 1, 1), Token(Assign, ":=", 1, 3, -1), Token(Boolean, "TRUE", 1, 6, 0), Token(Pipe, "|", 1, 11, -1), Token(Identifier, "b", 1, 13, 2), Token(Assign, ":=", 1, 15, -1), Token(Boolean, "FALSE", 1, 18, 0), Token(Pipe, "|", 1, 24, -1), Token(Identifier, "c", 1, 26, 3)], [])) == Run(input, State(27, 4, [Token(Identifier, "a", 1, 1, 1), Token(Assign, ":=", 1, 3, -1), Token(Boolean, "TRUE", 1, 6, 0), Token(Pipe, "|", 1, 11, -1), Token(Identifier, "b", 1, 13, 2), Token(Assign, ":=", 1, 15, -1), Token(Boolean, "FALSE", 1, 18, 0), Token(Pipe, "|", 1, 24, -1), Token(Identifier, "c", 1, 26, 3)], []))
  {
    BlankUnit(input, MultipleExpressionsText, State(26, 4, [Token(Identifier, "a", 1, 1, 1), Token(Assign, ":=", 1, 3, -1), Token(Boolean, "TRUE", 1, 6, 0), Token(Pipe, "|", 1, 11, -1), Token(Identifier, "b", 1, 13, 2), Token(Assign, ":=", 1, 15, -1), Token(Boolean, "FALSE", 1, 18, 0), Token(Pipe, "|", 1, 24, -1), Token(Identifier, "c", 1, 26, 3)], []), 26, State(27, 4, [Token(Identifier, "a", 1, 1, 1), Token(Assign, ":=", 1, 3, -1), Token(Boolean, "TRUE", 1, 6, 0), Token(Pipe, "|", 1, 11, -1), Token(Identifier, "b", 1, 13, 2), Token(Assign, ":=", 1, 15, -1), Token(Boolean, "FALSE", 1, 18, 0), Token(Pipe, "|", 1, 24, -1), Token(Identifier, "c", 1, 26, 3)], []));
  }

  lemma ScanMultipleExpressionsUnit19(input: string)
    requires Spells(input, MultipleExpressionsText) && '\n' !in MultipleExpressionsText
    ensures Run(input, State(27, 4, [Token(Identifier, "a", 1, 1, 1), Token(Assign, ":=", 1, 3, -1), Token(Boolean, "TRUE", 1, 6, 0), Token(Pipe, "|", 1, 11, -1), Token(Identifier, "b", 1, 13, 2), Token(Assign, ":=", 1, 15, -1), Token(Boolean, "FALSE", 1, 18, 0), Token(Pipe, "|", 1, 24, -1), Token(Identifier, "c", 1, 26, 3)], [])) == Run(input, State(29, 4, [Token(Identifier, "a", 1, 1, 1), Token(Assign, ":=", 1, 3, -1), Token(Boolean, "TRUE", 1, 6, 0), Token(Pipe, "|", 1, 11, -1), Token(Identifier, "b", 1, 13, 2), Token(Assign, ":=", 1, 15, -1), Token(Boolean, "FALSE", 1, 18, 0), Token(Pipe, "|", 1, 24, -1), Token(Identifier, "c", 1, 26, 3), Token(Assign, ":=", 1, 28, -1)], []))
  {
    AssignUnit(input, MultipleExpressionsText, State(27, 4, [Token(Identifier, "a", 1, 1, 1), Token(Assign, ":=", 1, 3, -1), Token(Boolean, "TRUE", 1, 6, 0), Token(Pipe, "|", 1, 11, -1), Token(Identifier, "b", 1, 13, 2), Token(Assign, ":=", 1, 15, -1), Token(Boolean, "FALSE", 1, 18, 0), Token(Pipe, "|", 1, 24, -1), Token(Identifier, "c", 1, 26, 3)], []), 27, State(29, 4, [Token(Identifier, "a", 1, 1, 1), Token(Assign, ":=", 1, 3, -1), Token(Boolean, "TRUE", 1, 6, 0), Token(Pipe, "|", 1, 11, -1), Token(Identifier, "b", 1, 13, 2), Token(Assign, ":=", 1, 15, -1), Token(Boolean, "FALSE", 1, 18, 0), Token(Pipe, "|", 1, 24, -1), Token(Identifier, "c", 1, 26, 3), Token(Assign, ":=", 1, 28, -1)], []));
  }

  lemma ScanMultipleExpressionsUnit20(input: string)
    requires Spells(input, MultipleExpressionsText) && '\n' !in MultipleExpressionsText
    ensures Run(input, State(29, 4, [Token(Identifier, "a", 1, 1, 1), Token(Assign, ":=", 1, 3, -1), Token(Boolean, "TRUE", 1, 6, 0), Token(Pipe, "|", 1, 11, -1), Token(Identifier, "b", 1, 13, 2), Token(Assign, ":=", 1, 15, -1), Token(Boolean, "FALSE", 1, 18, 0), Token(Pipe, "|", 1, 24, -1), Token(Identifier, "c", 1, 26, 3), Token(Assign, ":=", 1, 28, -1)], [])) == Run(input, State(30, 4, [Token(Identifier, "a", 1, 1, 1), Token(Assign, ":=", 1, 3, -1), Token(Boolean, "TRUE", 1, 6, 0), Token(Pipe, "|", 1, 11, -1), Token(Identifier, "b", 1, 13, 2), Token(Assign, ":=", 1, 15, -1), Token(Boolean, "FALSE", 1, 18, 0), Token(Pipe, "|", 1, 24, -1), Token(Identifier, "c", 1, 26, 3), Token(Assign, ":=", 1, 28, -1)], []))
  {
    BlankUnit(input, MultipleExpressionsText, State(29, 4, [Token(Identifier, "a", 1, 1, 1), Token(Assign, ":=", 1, 3, -1), Token(Boolean, "TRUE", 1, 6, 0), Token(Pipe, "|", 1, 11, -1), Token(Identifier, "b", 1, 13, 2), Token(Assign, ":=", 1, 15, -1), Token(Boolean, "FALSE", 1, 18, 0), Token(Pipe, "|", 1, 24, -1), Token(Identifier, "c", 1, 26, 3), Token(Assign, ":=", 1, 28, -1)], []), 29, State(30, 4, [Token(Identifier, "a", 1, 1, 1), Token(Assign, ":=", 1, 3, -1), Token(Boolean, "TRUE", 1, 6, 0), Token(Pipe, "|", 1, 11, -1), Token(Identifier, "b", 1, 13, 2), Token(Assign, ":=", 1, 15, -1), Token(Boolean, "FALSE", 1, 18, 0), Token(Pipe, "|", 1, 24, -1), Token(Identifier, "c", 1, 26, 3), Token(Assign, ":=", 1, 28, -1)], []));
  }

  lemma ScanMultipleExpressionsUnit21(input: string)
    requires Spells(input, MultipleExpressionsText) && '\n' !in MultipleExpressionsText
    ensures Run(input, State(30, 4, [Token(Identifier, "a", 1, 1, 1), Token(Assign, ":=", 1, 3, -1), Token(Boolean, "TRUE", 1, 6, 0), Token(Pipe, "|", 1, 11, -1), Token(Identifier, "b", 1, 13, 2), Token(Assign, ":=", 1, 15, -1), Token(Boolean, "FALSE", 1, 18, 0), Token(Pipe, "|", 1, 24, -1), Token(Identifier, "c", 1, 26, 3), Token(Assign, ":=", 1, 28, -1)], [])) == Run(input, State(31, 4, [Token(Identifier, "a", 1, 1, 1), Token(Assign, ":=", 1, 3, -1), Token(Boolean, "TRUE", 1, 6, 0), Token(Pipe, "|", 1, 11, -1), Token(Identifier, "b", 1, 13, 2), Token(Assign, ":=", 1, 15, -1), Token(Boolean, "FALSE", 1, 18, 0), Token(Pipe, "|", 1, 24, -1), Token(Identifier, "c", 1, 26, 3), Token(Assign, ":=", 1, 28, -1), Token(Identifier, "a", 1, 31, 1)], []))
  {
    SeenNameUnit(input, MultipleExpressionsText, State(30, 4, [Token(Identifier, "a", 1, 1, 1), Token(Assign, ":=", 1, 3, -1), Token(Boolean, "TRUE", 1, 6, 0), Token(Pipe, "|", 1, 11, -1), Token(Identifier, "b", 1, 13, 2), Token(Assign, ":=", 1, 15, -1), Token(Boolean, "FALSE", 1, 18, 0), Token(Pipe, "|", 1, 24, -1), Token(Identifier, "c", 1, 26, 3), Token(Assign, ":=", 1, 28, -1)], []), 30, "a", 0, State(31, 4, [Token(Identifier, "a", 1, 1, 1), Token(Assign, ":=", 1, 3, -1), Token(Boolean, "TRUE", 1, 6, 0), Token(Pipe, "|", 1, 11, -1), Token(Identifier, "b", 1, 13, 2), Token(Assign, ":=", 1, 15, -1), Token(Boolean, "FALSE", 1, 18, 0), Token(Pipe, "|", 1, 24, -1), Token(Identifier, "c", 1, 26, 3), Token(Assign, ":=", 1, 28, -1), Token(Identifier, "a", 1, 31, 1)], []));
  }

  lemma ScanMultipleExpressionsUnit22(input: string)
    requires Spells(input, MultipleExpressionsText) && '\n' !in MultipleExpressionsText
    ensures Run(input, State(31, 4, [Token(Identifier, "a", 1, 1, 1), Token(Assign, ":=", 1, 3, -1), Token(Boolean, "TRUE", 1, 6, 0), Token(Pipe, "|", 1, 11, -1), Token(Identifier, "b", 1, 13, 2), Token(Assign, ":=", 1, 15, -1), Token(Boolean, "FALSE", 1, 18, 0), Token(Pipe, "|", 1, 24, -1), Token(Identifier, "c", 1, 26, 3), Token(Assign, ":=", 1, 28, -1), Token(Identifier, "a", 1, 31, 1)], [])) == Run(input, State(32, 4, [Token(Identifier, "a", 1, 1, 1), Token(Assign, ":=", 1, 3, -1), Token(Boolean, "TRUE", 1, 6, 0), Token(Pipe, "|", 1, 11, -1), Token(Identifier, "b", 1, 13, 2), Token(Assign, ":=", 1, 15, -1), Token(Boolean, "FALSE", 1, 18, 0), Token(Pipe, "|", 1, 24, -1), Token(Identifier, "c", 1, 26, 3), Token(Assign, ":=", 1, 28, -1), Token(Identifier, "a", 1, 31, 1)], []))
  {
    BlankUnit(input, MultipleExpressionsText, State(31, 4, [Token(Identifier, "a", 1, 1, 1), Token(Assign, ":=", 1, 3, -1), Token(Boolean, "TRUE", 1, 6, 0), Token(Pipe, "|", 1, 11, -1), Token(Identifier, "b", 1, 13, 2), Token(Assign, ":=", 1, 15, -1), Token(Boolean, "FALSE", 1, 18, 0), Token(Pipe, "|", 1, 24, -1), Token(Identifier, "c", 1, 26, 3), Token(Assign, ":=", 1, 28, -1), Token(Identifier, "a", 1, 31, 1)], []), 31, State(32, 4, [Token(Identifier, "a", 1, 1, 1), Token(Assign, ":=", 1, 3, -1), Token(Boolean, "TRUE", 1, 6, 0), Token(Pipe, "|", 1, 11, -1), Token(Identifier, "b", 1, 13, 2), Token(Assign, ":=", 1, 15, -1), Token(Boolean, "FALSE", 1, 18, 0), Token(Pipe, "|", 1, 24, -1), Token(Identifier, "c", 1, 26, 3), Token(Assign, ":=", 1, 28, -1), Token(Identifier, "a", 1, 31, 1)], []));
  }

  lemma ScanMultipleExpressionsUnit23(input: string)
    requires Spells(input, MultipleExpressionsText) && '\n' !in MultipleExpressionsText
    ensures Run(input, State(32, 4, [Token(Identifier, "a", 1, 1, 1), Token(Assign, ":=", 1, 3, -1), Token(Boolean, "TRUE", 1, 6, 0), Token(Pipe, "|", 1, 11, -1), Token(Identifier, "b", 1, 13, 2), Token(Assign, ":=", 1, 15, -1), Token(Boolean, "FALSE", 1, 18, 0), Token(Pipe, "|", 1, 24, -1), Token(Identifier, "c", 1, 26, 3), Token(Assign, ":=", 1, 28, -1), Token(Identifier, "a", 1, 31, 1)], [])) == Run(input, State(35, 4, [Token(Identifier, "a", 1, 1, 1), Token(Assign, ":=", 1, 3, -1), Token(Boolean, "TRUE", 1, 6, 0), Token(Pipe, "|", 1, 11, -1), Token(Identifier, "b", 1, 13, 2), Token(Assign, ":=", 1, 15, -1), Token(Boolean, "FALSE", 1, 18, 0), Token(Pipe, "|", 1, 24, -1), Token(Identifier, "c", 1, 26, 3), Token(Assign, ":=", 1, 28, -1), Token(Identifier, "a", 1, 31, 1), Token(Operator, "AND", 1, 33, -1)], []))
  {
    KeywordUnit(input, MultipleExpressionsText, State(32, 4, [Token(Identifier, "a", 1, 1, 1), Token(Assign, ":=", 1, 3, -1), Token(Boolean, "TRUE", 1, 6, 0), Token(Pipe, "|", 1, 11, -1), Token(Identifier, "b", 1, 13, 2), Token(Assign, ":=", 1, 15, -1), Token(Boolean, "FALSE", 1, 18, 0), Token(Pipe, "|", 1, 24, -1), Token(Identifier, "c", 1, 26, 3), Token(Assign, ":=", 1, 28, -1), Token(Identifier, "a", 1, 31, 1)], []), 32, "AND", Operator, "AND", NoValue, State(35, 4, [Token(Identifier, "a", 1, 1, 1), Token(Assign, ":=", 1, 3, -1), Token(Boolean, "TRUE", 1, 6, 0), Token(Pipe, "|", 1, 11, -1), Token(Identifier, "b", 1, 13, 2), Token(Assign, ":=", 1, 15, -1), Token(Boolean, "FALSE", 1, 18, 0), Token(Pipe, "|", 1, 24, -1), Token(Identifier, "c", 1, 26, 3), Token(Assign, ":=", 1, 28, -1), Token(Identifier, "a", 1, 31, 1), Token(Operator, "AND", 1, 33, -1)], []));
  }

  lemma ScanMultipleExpressionsUnit24(input: string)
    requires Spells(input, MultipleExpressionsText) && '\n' !in MultipleExpressionsText
    ensures Run(input, State(35, 4, [Token(Identifier, "a", 1, 1, 1), Token(Assign, ":=", 1, 3, -1), Token(Boolean, "TRUE", 1, 6, 0), Token(Pipe, "|", 1, 11, -1), Token(Identifier, "b", 1, 13, 2), Token(Assign, ":=", 1, 15, -1), Token(Boolean, "FALSE", 1, 18, 0), Token(Pipe, "|", 1, 24, -1), Token(Identifier, "c", 1, 26, 3), Token(Assign, ":=", 1, 28, -1), Token(Identifier, "a", 1, 31, 1), Token(Operator, "AND", 1, 33, -1)], [])) == Run(input, State(36, 4, [Token(Identifier, "a", 1, 1, 1), Token(Assign, ":=", 1, 3, -1), Token(Boolean, "TRUE", 1, 6, 0), Token(Pipe, "|", 1, 11, -1), Token(Identifier, "b", 1, 13, 2), Token(Assign, ":=", 1, 15, -1), Token(Boolean, "FALSE", 1, 18, 0), Token(Pipe, "|", 1, 24, -1), Token(Identifier, "c", 1, 26, 3), Token(Assign, ":=", 1, 28, -1), Token(Identifier, "a", 1, 31, 1), Token(Operator, "AND", 1, 33, -1)], []))
  {
    BlankUnit(input, MultipleExpressionsText, State(35, 4, [Token(Identifier, "a", 1, 1, 1), Token(Assign, ":=", 1, 3, -1), Token(Boolean, "TRUE", 1, 6, 0), Token(Pipe, "|", 1, 11, -1), Token(Identifier, "b", 1, 13, 2), Token(Assign, ":=", 1, 15, -1), Token(Boolean, "FALSE", 1, 18, 0), Token(Pipe, "|", 1, 24, -1), Token(Identifier, "c", 1, 26, 3), Token(Assign, ":=", 1, 28, -1), Token(Identifier, "a", 1, 31, 1), Token(Operator, "AND", 1, 33, -1)], []), 35, State(36, 4, [Token(Identifier, "a", 1, 1, 1), Token(Assign, ":=", 1, 3, -1), Token(Boolean, "TRUE", 1, 6, 0), Token(Pipe, "|", 1, 11, -1), Token(Identifier, "b", 1, 13, 2), Token(Assign, ":=", 1, 15, -1), Token(Boolean, "FALSE", 1, 18, 0), Token(Pipe, "|", 1, 24, -1), Token(Identifier, "c", 1, 26, 3), Token(Assign, ":=", 1, 28, -1), Token(Identifier, "a", 1, 31, 1), Token(Operator, "AND", 1, 33, -1)], []));
  }

  lemma ScanMultipleExpressionsUnit25(input: string)
    requires Spells(input, MultipleExpressionsText) && '\n' !in MultipleExpressionsText
    ensures Run(input, State(36, 4, [Token(Identifier, "a", 1, 1, 1), Token(Assign, ":=", 1, 3, -1), Token(Boolean, "TRUE", 1, 6, 0), Token(Pipe, "|", 1, 11, -1), Token(Identifier, "b", 1, 13, 2), Token(Assign, ":=", 1, 15, -1), Token(Boolean, "FALSE", 1, 18, 0), Token(Pipe, "|", 1, 24, -1), Token(Identifier, "c", 1, 26, 3), Token(Assign, ":=", 1, 28, -1), Token(Identifier, "a", 1, 31, 1), Token(Operator, "AND", 1, 33, -1)], [])) == Run(input, State(37, 4, [Token(Identifier, "a", 1, 1, 1), Token(Assign, ":=", 1, 3, -1), Token(Boolean, "TRUE", 1, 6, 0), Token(Pipe, "|", 1, 11, -1), Token(Identifier, "b", 1, 13, 2), Token(Assign, ":=", 1, 15, -1), Token(Boolean, "FALSE", 1, 18, 0), Token(Pipe, "|", 1, 24, -1), Token(Identifier, "c", 1, 26, 3), Token(Assign, ":=", 1, 28, -1), Token(Identifier, "a", 1, 31, 1), Token(Operator, "AND", 1, 33, -1), Token(Identifier, "b", 1, 37, 2)], []))
  {
    SeenNameUnit(input, MultipleExpressionsText, State(36, 4, [Token(Identifier, "a", 1, 1, 1), Token(Assign, ":=", 1, 3, -1), Token(Boolean, "TRUE", 1, 6, 0), Token(Pipe, "|", 1, 11, -1), Token(Identifier, "b", 1, 13, 2), Token(Assign, ":=", 1, 15, -1), Token(Boolean, "FALSE", 1, 18, 0), Token(Pipe, "|", 1, 24, -1), Token(Identifier, "c", 1, 26, 3), Token(Assign, ":=", 1, 28, -1), Token(Identifier, "a", 1, 31, 1), Token(Operator, "AND", 1, 33, -1)], []), 36, "b", 4, State(37, 4, [Token(Identifier, "a", 1, 1, 1), Token(Assign, ":=", 1, 3, -1), Token(Boolean, "TRUE", 1, 6, 0), Token(Pipe, "|", 1, 11, -1), Token(Identifier, "b", 1, 13, 2), Token(Assign, ":=", 1, 15, -1), Token(Boolean, "FALSE", 1, 18, 0), Token(Pipe, "|", 1, 24, -1), Token(Identifier, "c", 1, 26, 3), Token(Assign, ":=", 1, 28, -1), Token(Identifier, "a", 1, 31, 1), Token(Operator, "AND", 1, 33, -1), Token(Identifier, "b", 1, 37, 2)], []));
  }

  /**
   * Twelve tokens, an LParen third and an RParen seventh, and no error
   * (LexicalAnalyzerTest.java:34-44).
   */
  lemma ScanParentheses()
    ensures Analysis("x := (TRUE OR " + "FALSE) AND (NOT " + "TRUE)").tokens == [Token(Identifier, "x", 1, 1, 1), Token(Assign, ":=", 1, 3, -1), Token(LParen, "(", 1, 6, -1), Token(Boolean, "TRUE", 1, 7, 0), Token(Operator, "OR", 1, 12, -1), Token(Boolean, "FALSE", 1, 15, 0), Token(RParen, ")", 1, 20, -1), Token(Operator, "AND", 1, 22, -1), Token(LParen, "(", 1, 26, -1), Token(Operator, "NOT", 1, 27, -1), Token(Boolean, "TRUE", 1, 31, 0), Token(RParen, ")", 1, 35, -1)]
    ensures Analysis("x := (TRUE OR " + "FALSE) AND (NOT " + "TRUE)").errors == []
  {
    assert Spells(ParenthesesText, ParenthesesText);
    ScanParenthesesRun(ParenthesesText);
  }

  const ParenthesesText := "x := (TRUE OR " + "FALSE) AND (NOT " + "TRUE)"

  lemma ScanParenthesesRun(input: string)
    requires Spells(input, ParenthesesText) && '\n' !in ParenthesesText
    ensures Analysis(input) == State(35, 2, [Token(Identifier, "x", 1, 1, 1), Token(Assign, ":=", 1, 3, -1), Token(LParen, "(", 1, 6, -1), Token(Boolean, "TRUE", 1, 7, 0), Token(Operator, "OR", 1, 12, -1), Token(Boolean, "FALSE", 1, 15, 0), Token(RParen, ")", 1, 20, -1), Token(Operator, "AND", 1, 22, -1), Token(LParen, "(", 1, 26, -1), Token(Operator, "NOT", 1, 27, -1), Token(Boolean, "TRUE", 1, 31, 0), Token(RParen, ")", 1, 35, -1)], [])
  {
    ScanParenthesesUnit1(input);
    ScanParenthesesUnit2(input);
    ScanParenthesesUnit3(input);
    ScanParenthesesUnit4(input);
    ScanParenthesesUnit5(input);
    ScanParenthesesUnit6(input);
    ScanParenthesesUnit7(input);
    ScanParenthesesUnit8(input);
    ScanParenthesesUnit9(input);
    ScanParenthesesUnit10(input);
    ScanParenthesesUnit11(input);
    ScanParenthesesUnit12(input);
    ScanParenthesesUnit13(input);
    ScanParenthesesUnit14(input);
    ScanParenthesesUnit15(input);
    ScanParenthesesUnit16(input);
    ScanParenthesesUnit17(input);
    ScanParenthesesUnit18(input);
    ScanParenthesesUnit19(input);
    EndOfInput(input, State(35, 2, [Token(Identifier, "x", 1, 1, 1), Token(Assign, ":=", 1, 3, -1), Token(LParen, "(", 1, 6, -1), Token(Boolean, "TRUE", 1, 7, 0), Token(Operator, "OR", 1, 12, -1), Token(Boolean, "FALSE", 1, 15, 0), Token(RParen, ")", 1, 20, -1), Token(Operator, "AND", 1, 22, -1), Token(LParen, "(", 1, 26, -1), Token(Operator, "NOT", 1, 27, -1), Token(Boolean, "TRUE", 1, 31, 0), Token(RParen, ")", 1, 35, -1)], []));
  }

  lemma ScanParenthesesUnit1(input: string)
    requires Spells(input, ParenthesesText) && '\n' !in ParenthesesText
    ensures Run(input, State(0, 1, [], [])) == Run(input, State(1, 2, [Token(Identifier, "x", 1, 1, 1)], []))
  {
    NewNameUnit(input, ParenthesesText, State(0, 1, [], []), 0, "x", State(1, 2, [Token(Identifier, "x", 1, 1, 1)], []));
  }

  lemma ScanParenthesesUnit2(input: string)
    requires Spells(input, ParenthesesText) && '\n' !in ParenthesesText
    ensures Run(input, State(1, 2, [Token(Identifier, "x", 1, 1, 1)], [])) == Run(input, State(2, 2, [Token(Identifier, "x", 1, 1, 1)], []))
  {
    BlankUnit(input, ParenthesesText, State(1, 2, [Token(Identifier, "x", 1, 1, 1)], []), 1, State(2, 2, [Token(Identifier, "x", 1, 1, 1)], []));
  }

  lemma ScanParenthesesUnit3(input: string)
    requires Spells(input, ParenthesesText) && '\n' !in ParenthesesText
    ensures Run(input, State(2, 2, [Token(Identifier, "x", 1, 1, 1)], [])) == Run(input, State(4, 2, [Token(Identifier, "x", 1, 1, 1), Token(Assign, ":=", 1, 3, -1)], []))
  {
    AssignUnit(input, ParenthesesText, State(2, 2, [Token(Identifier, "x", 1, 1, 1)], []), 2, State(4, 2, [Token(Identifier, "x", 1, 1, 1), Token(Assign, ":=", 1, 3, -1)], []));
  }

  lemma ScanParenthesesUnit4(input: string)
    requires Spells(input, ParenthesesText) && '\n' !in ParenthesesText
    ensures Run(input, State(4, 2, [Token(Identifier, "x", 1, 1, 1), Token(Assign, ":=", 1, 3, -1)], [])) == Run(input, State(5, 2, [Token(Identifier, "x", 1, 1, 1), Token(Assign, ":=", 1, 3, -1)], []))
  {
    BlankUnit(input, ParenthesesText, State(4, 2, [Token(Identifier, "x", 1, 1, 1), Token(Assign, ":=", 1, 3, -1)], []), 4, State(5, 2, [Token(Identifier, "x", 1, 1, 1), Token(Assign, ":=", 1, 3, -1)], []));
  }

  lemma ScanParenthesesUnit5(input: string)
    requires Spells(input, ParenthesesText) && '\n' !in ParenthesesText
    ensures Run(input, State(5, 2, [Token(Identifier, "x", 1, 1, 1), Token(Assign, ":=", 1, 3, -1)], [])) == Run(input, State(6, 2, [Token(Identifier, "x", 1, 1, 1), Token(Assign, ":=", 1, 3, -1), Token(LParen, "(", 1, 6, -1)], []))
  {
    OpenUnit(input, ParenthesesText, State(5, 2, [Token(Identifier, "x", 1, 1, 1), Token(Assign, ":=", 1, 3, -1)], []), 5, State(6, 2, [Token(Identifier, "x", 1, 1, 1), Token(Assign, ":=", 1, 3, -1), Token(LParen, "(", 1, 6, -1)], []));
  }

  lemma ScanParenthesesUnit6(input: string)
    requires Spells(input, ParenthesesText) && '\n' !in ParenthesesText
    ensures Run(input, State(6, 2, [Token(Identifier, "x", 1, 1, 1), Token(Assign, ":=", 1, 3, -1), Token(LParen, "(", 1, 6, -1)], [])) == Run(input, State(10, 2, [Token(Identifier, "x", 1, 1, 1), Token(Assign, ":=", 1, 3, -1), Token(LParen, "(", 1, 6, -1), Token(Boolean, "TRUE", 1, 7, 0)], []))
  {
    KeywordUnit(input, ParenthesesText, State(6, 2, [Token(Identifier, "x", 1, 1, 1), Token(Assign, ":=", 1, 3, -1), Token(LParen, "(", 1, 6, -1)], []), 6, "TRUE", Boolean, "TRUE", 0, State(10, 2, [Token(Identifier, "x", 1, 1, 1), Token(Assign, ":=", 1, 3, -1), Token(LParen, "(", 1, 6, -1), Token(Boolean, "TRUE", 1, 7, 0)], []));
  }

  lemma ScanParenthesesUnit7(input: string)
    requires Spells(input, ParenthesesText) && '\n' !in ParenthesesText
    ensures Run(input, State(10, 2, [Token(Identifier, "x", 1, 1, 1), Token(Assign, ":=", 1, 3, -1), Token(LParen, "(", 1, 6, -1), Token(Boolean, "TRUE", 1, 7, 0)], [])) == Run(input, State(11, 2, [Token(Identifier, "x", 1, 1, 1), Token(Assign, ":=", 1, 3, -1), Token(LParen, "(", 1, 6, -1), Token(Boolean, "TRUE", 1, 7, 0)], []))
  {
    BlankUnit(input, ParenthesesText, State(10, 2, [Token(Identifier, "x", 1, 1, 1), Token(Assign, ":=", 1, 3, -1), Token(LParen, "(", 1, 6, -1), Token(Boolean, "TRUE", 1, 7, 0)], []), 10, State(11, 2, [Token(Identifier, "x", 1, 1, 1), Token(Assign, ":=", 1, 3, -1), Token(LParen, "(", 1, 6, -1), Token(Boolean, "TRUE", 1, 7, 0)], []));
  }

  lemma ScanParenthesesUnit8(input: string)
    requires Spells(input, ParenthesesText) && '\n' !in ParenthesesText
    ensures Run(input, State(11, 2, [Token(Identifier, "x", 1, 1, 1), Token(Assign, ":=", 1, 3, -1), Token(LParen, "(", 1, 6, -1), Token(Boolean, "TRUE", 1, 7, 0)], [])) == Run(input, State(13, 2, [Token(Identifier, "x", 1, 1, 1), Token(Assign, ":=", 1, 3, -1), Token(LParen, "(", 1, 6, -1), Token(Boolean, "TRUE", 1, 7, 0), Token(Operator, "OR", 1, 12, -1)], []))
  {
    KeywordUnit(input, ParenthesesText, State(11, 2, [Token(Identifier, "x", 1, 1, 1), Token(Assign, ":=", 1, 3, -1), Token(LParen, "(", 1, 6, -1), Token(Boolean, "TRUE", 1, 7, 0)], []), 11, "OR", Operator, "OR", NoValue, State(13, 2, [Token(Identifier, "x", 1, 1, 1), Token(Assign, ":=", 1, 3, -1), Token(LParen, "(", 1, 6, -1), Token(Boolean, "TRUE", 1, 7, 0), Token(Operator, "OR", 1, 12, -1)], []));
  }

  lemma ScanParenthesesUnit9(input: string)
    requires Spells(input, ParenthesesText) && '\n' !in ParenthesesText
    ensures Run(input, State(13, 2, [Token(Identifier, "x", 1, 1, 1), Token(Assign, ":=", 1, 3, -1), Token(LParen, "(", 1, 6, -1), Token(Boolean, "TRUE", 1, 7, 0), Token(Operator, "OR", 1, 12, -1)], [])) == Run(input, State(14, 2, [Token(Identifier, "x", 1, 1, 1), Token(Assign, ":=", 1, 3, -1), Token(LParen, "(", 1, 6, -1), Token(Boolean, "TRUE", 1, 7, 0), Token(Operator, "OR", 1, 12, -1)], []))
  {
    BlankUnit(input, ParenthesesText, State(13, 2, [Token(Identifier, "x", 1, 1, 1), Token(Assign, ":=", 1, 3, -1), Token(LParen, "(", 1, 6, -1), Token(Boolean, "TRUE", 1, 7, 0), Token(Operator, "OR", 1, 12, -1)], []), 13, State(14, 2, [Token(Identifier, "x", 1, 1, 1), Token(Assign, ":=", 1, 3, -1), Token(LParen, "(", 1, 6, -1), Token(Boolean, "TRUE", 1, 7, 0), Token(Operator, "OR", 1, 12, -1)], []));
  }

  lemma ScanParenthesesUnit10(input: string)
    requires Spells(input, ParenthesesText) && '\n' !in ParenthesesText
    ensures Run(input, State(14, 2, [Token(Identifier, "x", 1, 1, 1), Token(Assign, ":=", 1, 3, -1), Token(LParen, "(", 1, 6, -1), Token(Boolean, "TRUE", 1, 7, 0), Token(Operator, "OR", 1, 12, -1)], [])) == Run(input, State(19, 2, [Token(Identifier, "x", 1, 1, 1), Token(Assign, ":=", 1, 3, -1), Token(LParen, "(", 1, 6, -1), Token(Boolean, "TRUE", 1, 7, 0), Token(Operator, "OR", 1, 12, -1), Token(Boolean, "FALSE", 1, 15, 0)], []))
  {
    KeywordUnit(input, ParenthesesText, State(14, 2, [Token(Identifier, "x", 1, 1, 1), Token(Assign, ":=", 1, 3, -1), Token(LParen, "(", 1, 6, -1), Token(Boolean, "TRUE", 1, 7, 0), Token(Operator, "OR", 1, 12, -1)], []), 14, "FALSE", Boolean, "FALSE", 0, State(19, 2, [Token(Identifier, "x", 1, 1, 1), Token(Assign, ":=", 1, 3, -1), Token(LParen, "(", 1, 6, -1), Token(Boolean, "TRUE", 1, 7, 0), Token(Operator, "OR", 1, 12, -1), Token(Boolean, "FALSE", 1, 15, 0)], []));
  }

  lemma ScanParenthesesUnit11(input: string)
    requires Spells(input, ParenthesesText) && '\n' !in ParenthesesText
    ensures Run(input, State(19, 2, [Token(Identifier, "x", 1, 1, 1), Token(Assign, ":=", 1, 3, -1), Token(LParen, "(", 1, 6, -1), Token(Boolean, "TRUE", 1, 7, 0), Token(Operator, "OR", 1, 12, -1), Token(Boolean, "FALSE", 1, 15, 0)], [])) == Run(input, State(20, 2, [Token(Identifier, "x", 1, 1, 1), Token(Assign, ":=", 1, 3, -1), Token(LParen, "(", 1, 6, -1), Token(Boolean, "TRUE", 1, 7, 0), Token(Operator, "OR", 1, 12, -1), Token(Boolean, "FALSE", 1, 15, 0), Token(RParen, ")", 1, 20, -1)], []))
  {
    CloseUnit(input, ParenthesesText, State(19, 2, [Token(Identifier, "x", 1, 1, 1), Token(Assign, ":=", 1, 3, -1), Token(LParen, "(", 1, 6, -1), Token(Boolean, "TRUE", 1, 7, 0), Token(Operator, "OR", 1, 12, -1), Token(Boolean, "FALSE", 1, 15, 0)], []), 19, State(20, 2, [Token(Identifier, "x", 1, 1, 1), Token(Assign, ":=", 1, 3, -1), Token(LParen, "(", 1, 6, -1), Token(Boolean, "TRUE", 1, 7, 0), Token(Operator, "OR", 1, 12, -1), Token(Boolean, "FALSE", 1, 15, 0), Token(RParen, ")", 1, 20, -1)], []));
  }

  lemma ScanParenthesesUnit12(input: string)
    requires Spells(input, ParenthesesText) && '\n' !in ParenthesesText
    ensures Run(input, State(20, 2, [Token(Identifier, "x", 1, 1, 1), Token(Assign, ":=", 1, 3, -1), Token(LParen, "(", 1, 6, -1), Token(Boolean, "TRUE", 1, 7, 0), Token(Operator, "OR", 1, 12, -1), Token(Boolean, "FALSE", 1, 15, 0), Token(RParen, ")", 1, 20, -1)], [])) == Run(input, State(21, 2, [Token(Identifier, "x", 1, 1, 1), Token(Assign, ":=", 1, 3, -1), Token(LParen, "(", 1, 6, -1), Token(Boolean, "TRUE", 1, 7, 0), Token(Operator, "OR", 1, 12, -1), Token(Boolean, "FALSE", 1, 15, 0), Token(RParen, ")", 1, 20, -1)], []))
  {
    BlankUnit(input, ParenthesesText, State(20, 2, [Token(Identifier, "x", 1, 1, 1), Token(Assign, ":=", 1, 3, -1), Token(LParen, "(", 1, 6, -1), Token(Boolean, "TRUE", 1, 7, 0), Token(Operator, "OR", 1, 12, -1), Token(Boolean, "FALSE", 1, 15, 0), Token(RParen, ")", 1, 20, -1)], []), 20, State(21, 2, [Token(Identifier, "x", 1, 1, 1), Token(Assign, ":=", 1, 3, -1), Token(LParen, "(", 1, 6, -1), Token(Boolean, "TRUE", 1, 7, 0), Token(Operator, "OR", 1, 12, -1), Token(Boolean, "FALSE", 1, 15, 0), Token(RParen, ")", 1, 20, -1)], []));
  }

  lemma ScanParenthesesUnit13(input: string)
    requires Spells(input, ParenthesesText) && '\n' !in ParenthesesText
    ensures Run(input, State(21, 2, [Token(Identifier, "x", 1, 1, 1), Token(Assign, ":=", 1, 3, -1), Token(LParen, "(", 1, 6, -1), Token(Boolean, "TRUE", 1, 7, 0), Token(Operator, "OR", 1, 12, -1), Token(Boolean, "FALSE", 1, 15, 0), Token(RParen, ")", 1, 20, -1)], [])) == Run(input, State(24, 2, [Token(Identifier, "x", 1, 1, 1), Token(Assign, ":=", 1, 3, -1), Token(LParen, "(", 1, 6, -1), Token(Boolean, "TRUE", 1, 7, 0), Token(Operator, "OR", 1, 12, -1), Token(Boolean, "FALSE", 1, 15, 0), Token(RParen, ")", 1, 20, -1), Token(Operator, "AND", 1, 22, -1)], []))
  {
    KeywordUnit(input, ParenthesesText, State(21, 2, [Token(Identifier, "x", 1, 1, 1), Token(Assign, ":=", 1, 3, -1), Token(LParen, "(", 1, 6, -1), Token(Boolean, "TRUE", 1, 7, 0), Token(Operator, "OR", 1, 12, -1), Token(Boolean, "FALSE", 1, 15, 0), Token(RParen, ")", 1, 20, -1)], []), 21, "AND", Operator, "AND", NoValue, State(24, 2, [Token(Identifier, "x", 1, 1, 1), Token(Assign, ":=", 1, 3, -1), Token(LParen, "(", 1, 6, -1), Token(Boolean, "TRUE", 1, 7, 0), Token(Operator, "OR", 1, 12, -1), Token(Boolean, "FALSE", 1, 15, 0), Token(RParen, ")", 1, 20, -1), Token(Operator, "AND", 1, 22, -1)], []));
  }

  lemma ScanParenthesesUnit14(input: string)
    requires Spells(input, ParenthesesText) && '\n' !in ParenthesesText
    ensures Run(input, State(24, 2, [Token(Identifier, "x", 1, 1, 1), Token(Assign, ":=", 1, 3, -1), Token(LParen, "(", 1, 6, -1), Token(Boolean, "TRUE", 1, 7, 0), Token(Operator, "OR", 1, 12, -1), Token(Boolean, "FALSE", 1, 15, 0), Token(RParen, ")", 1, 20, -1), Token(Operator, "AND", 1, 22, -1)], [])) == Run(input, State(25, 2, [Token(Identifier, "x", 1, 1, 1), Token(Assign, ":=", 1, 3, -1), Token(LParen, "(", 1, 6, -1), Token(Boolean, "TRUE", 1, 7, 0), Token(Operator, "OR", 1, 12, -1), Token(Boolean, "FALSE", 1, 15, 0), Token(RParen, ")", 1, 20, -1), Token(Operator, "AND", 1, 22, -1)], []))
  {
    BlankUnit(input, ParenthesesText, State(24, 2, [Token(Identifier, "x", 1, 1, 1), Token(Assign, ":=", 1, 3, -1), Token(LParen, "(", 1, 6, -1), Token(Boolean, "TRUE", 1, 7, 0), Token(Operator, "OR", 1, 12, -1), Token(Boolean, "FALSE", 1, 15, 0), Token(RParen, ")", 1, 20, -1), Token(Operator, "AND", 1, 22, -1)], []), 24, State(25, 2, [Token(Identifier, "x", 1, 1, 1), Token(Assign, ":=", 1, 3, -1), Token(LParen, "(", 1, 6, -1), Token(Boolean, "TRUE", 1, 7, 0), Token(Operator, "OR", 1, 12, -1), Token(Boolean, "FALSE", 1, 15, 0), Token(RParen, ")", 1, 20, -1), Token(Operator, "AND", 1, 22, -1)], []));
  }

  lemma ScanParenthesesUnit15(input: string)
    requires Spells(input, ParenthesesText) && '\n' !in ParenthesesText
    ensures Run(input, State(25, 2, [Token(Identifier, "x", 1, 1, 1), Token(Assign, ":=", 1, 3, -1), Token(LParen, "(", 1, 6, -1), Token(Boolean, "TRUE", 1, 7, 0), Token(Operator, "OR", 1, 12, -1), Token(Boolean, "FALSE", 1, 15, 0), Token(RParen, ")", 1, 20, -1), Token(Operator, "AND", 1, 22, -1)], [])) == Run(input, State(26, 2, [Token(Identifier, "x", 1, 1, 1), Token(Assign, ":=", 1, 3, -1), Token(LParen, "(", 1, 6, -1), Token(Boolean, "TRUE", 1, 7, 0), Token(Operator, "OR", 1, 12, -1), Token(Boolean, "FALSE", 1, 15, 0), Token(RParen, ")", 1, 20, -1), Token(Operator, "AND", 1, 22, -1), Token(LParen, "(", 1, 26, -1)], []))
  {
    OpenUnit(input, ParenthesesText, State(25, 2, [Token(Identifier, "x", 1, 1, 1), Token(Assign, ":=", 1, 3, -1), Token(LParen, "(", 1, 6, -1), Token(Boolean, "TRUE", 1, 7, 0), Token(Operator, "OR", 1, 12, -1), Token(Boolean, "FALSE", 1, 15, 0), Token(RParen, ")", 1, 20, -1), Token(Operator, "AND", 1, 22, -1)], []), 25, State(26, 2, [Token(Identifier, "x", 1, 1, 1), Token(Assign, ":=", 1, 3, -1), Token(LParen, "(", 1, 6, -1), Token(Boolean, "TRUE", 1, 7, 0), Token(Operator, "OR", 1, 12, -1), Token(Boolean, "FALSE", 1, 15, 0), Token(RParen, ")", 1, 20, -1), Token(Operator, "AND", 1, 22, -1), Token(LParen, "(", 1, 26, -1)], []));
  }

  lemma ScanParenthesesUnit16(input: string)
    requires Spells(input, ParenthesesText) && '\n' !in ParenthesesText
    ensures Run(input, State(26, 2, [Token(Identifier, "x", 1, 1, 1), Token(Assign, ":=", 1, 3, -1), Token(LParen, "(", 1, 6, -1), Token(Boolean, "TRUE", 1, 7, 0), Token(Operator, "OR", 1, 12, -1), Token(Boolean, "FALSE", 1, 15, 0), Token(RParen, ")", 1, 20, -1), Token(Operator, "AND", 1, 22, -1), Token(LParen, "(", 1, 26, -1)], [])) == Run(input, State(29, 2, [Token(Identifier, "x", 1, 1, 1), Token(Assign, ":=", 1, 3, -1), Token(LParen, "(", 1, 6, -1), Token(Boolean, "TRUE", 1, 7, 0), Token(Operator, "OR", 1, 12, -1), Token(Boolean, "FALSE", 1, 15, 0), Token(RParen, ")", 1, 20, -1), Token(Operator, "AND", 1, 22, -1), Token(LParen, "(", 1, 26, -1), Token(Operator, "NOT", 1, 27, -1)], []))
  {
    KeywordUnit(input, ParenthesesText, State(26, 2, [Token(Identifier, "x", 1, 1, 1), Token(Assign, ":=", 1, 3, -1), Token(LParen, "(", 1, 6, -1), Token(Boolean, "TRUE", 1, 7, 0), Token(Operator, "OR", 1, 12, -1), Token(Boolean, "FALSE", 1, 15, 0), Token(RParen, ")", 1, 20, -1), Token(Operator, "AND", 1, 22, -1), Token(LParen, "(", 1, 26, -1)], []), 26, "NOT", Operator, "NOT", NoValue, State(29, 2, [Token(Identifier, "x", 1, 1, 1), Token(Assign, ":=", 1, 3, -1), Token(LParen, "(", 1, 6, -1), Token(Boolean, "TRUE", 1, 7, 0), Token(Operator, "OR", 1, 12, -1), Token(Boolean, "FALSE", 1, 15, 0), Token(RParen, ")", 1, 20, -1), Token(Operator, "AND", 1, 22, -1), Token(LParen, "(", 1, 26, -1), Token(Operator, "NOT", 1, 27, -1)], []));
  }

  lemma ScanParenthesesUnit17(input: string)
    requires Spells(input, ParenthesesText) && '\n' !in ParenthesesText
    ensures Run(input, State(29, 2, [Token(Identifier, "x", 1, 1, 1), Token(Assign, ":=", 1, 3, -1), Token(LParen, "(", 1, 6, -1), Token(Boolean, "TRUE", 1, 7, 0), Token(Operator, "OR", 1, 12, -1), Token(Boolean, "FALSE", 1, 15, 0), Token(RParen, ")", 1, 20, -1), Token(Operator, "AND", 1, 22, -1), Token(LParen, "(", 1, 26, -1), Token(Operator, "NOT", 1, 27, -1)], [])) == Run(input, State(30, 2, [Token(Identifier, "x", 1, 1, 1), Token(Assign, ":=", 1, 3, -1), Token(LParen, "(", 1, 6, -1), Token(Boolean, "TRUE", 1, 7, 0), Token(Operator, "OR", 1, 12, -1), Token(Boolean, "FALSE", 1, 15, 0), Token(RParen, ")", 1, 20, -1), Token(Operator, "AND", 1, 22, -1), Token(LParen, "(", 1, 26, -1), Token(Operator, "NOT", 1, 27, -1)], []))
  {
    BlankUnit(input, ParenthesesText, State(29, 2, [Token(Identifier, "x", 1, 1, 1), Token(Assign, ":=", 1, 3, -1), Token(LParen, "(", 1, 6, -1), Token(Boolean, "TRUE", 1, 7, 0), Token(Operator, "OR", 1, 12, -1), Token(Boolean, "FALSE", 1, 15, 0), Token(RParen, ")", 1, 20, -1), Token(Operator, "AND", 1, 22, -1), Token(LParen, "(", 1, 26, -1), Token(Operator, "NOT", 1, 27, -1)], []), 29, State(30, 2, [Token(Identifier, "x", 1, 1, 1), Token(Assign, ":=", 1, 3, -1), Token(LParen, "(", 1, 6, -1), Token(Boolean, "TRUE", 1, 7, 0), Token(Operator, "OR", 1, 12, -1), Token(Boolean, "FALSE", 1, 15, 0), Token(RParen, ")", 1, 20, -1), Token(Operator, "AND", 1, 22, -1), Token(LParen, "(", 1, 26, -1), Token(Operator, "NOT", 1, 27, -1)], []));
  }

  lemma ScanParenthesesUnit18(input: string)
    requires Spells(input, ParenthesesText) && '\n' !in ParenthesesText
    ensures Run(input, State(30, 2, [Token(Identifier, "x", 1, 1, 1), Token(Assign, ":=", 1, 3, -1), Token(LParen, "(", 1, 6, -1), Token(Boolean, "TRUE", 1, 7, 0), Token(Operator, "OR", 1, 12, -1), Token(Boolean, "FALSE", 1, 15, 0), Token(RParen, ")", 1, 20, -1), Token(Operator, "AND", 1, 22, -1), Token(LParen, "(", 1, 26, -1), Token(Operator, "NOT", 1, 27, -1)], [])) == Run(input, State(34, 2, [Token(Identifier, "x", 1, 1, 1), Token(Assign, ":=", 1, 3, -1), Token(LParen, "(", 1, 6, -1), Token(Boolean, "TRUE", 1, 7, 0), Token(Operator, "OR", 1, 12, -1), Token(Boolean, "FALSE", 1, 15, 0), Token(RParen, ")", 1, 20, -1), Token(Operator, "AND", 1, 22, -1), Token(LParen, "(", 1, 26, -1), Token(Operator, "NOT", 1, 27, -1), Token(Boolean, "TRUE", 1, 31, 0)], []))
  {
    KeywordUnit(input, ParenthesesText, State(30, 2, [Token(Identifier, "x", 1, 1, 1), Token(Assign, ":=", 1, 3, -1), Token(LParen, "(", 1, 6, -1), Token(Boolean, "TRUE", 1, 7, 0), Token(Operator, "OR", 1, 12, -1), Token(Boolean, "FALSE", 1, 15, 0), Token(RParen, ")", 1, 20, -1), Token(Operator, "AND", 1, 22, -1), Token(LParen, "(", 1, 26, -1), Token(Operator, "NOT", 1, 27, -1)], []), 30, "TRUE", Boolean, "TRUE", 0, State(34, 2, [Token(Identifier, "x", 1, 1, 1), Token(Assign, ":=", 1, 3, -1), Token(LParen, "(", 1, 6, -1), Token(Boolean, "TRUE", 1, 7, 0), Token(Operator, "OR", 1, 12, -1), Token(Boolean, "FALSE", 1, 15, 0), Token(RParen, ")", 1, 20, -1), Token(Operator, "AND", 1, 22, -1), Token(LParen, "(", 1, 26, -1), Token(Operator, "NOT", 1, 27, -1), Token(Boolean, "TRUE", 1, 31, 0)], []));
  }

  lemma ScanParenthesesUnit19(input: string)
    requires Spells(input, ParenthesesText) && '\n' !in ParenthesesText
    ensures Run(input, State(34, 2, [Token(Identifier, "x", 1, 1, 1), Token(Assign, ":=", 1, 3, -1), Token(LParen, "(", 1, 6, -1), Token(Boolean, "TRUE", 1, 7, 0), Token(Operator, "OR", 1, 12, -1), Token(Boolean, "FALSE", 1, 15, 0), Token(RParen, ")", 1, 20, -1), Token(Operator, "AND", 1, 22, -1), Token(LParen, "(", 1, 26, -1), Token(Operator, "NOT", 1, 27, -1), Token(Boolean, "TRUE", 1, 31, 0)], [])) == Run(input, State(35, 2, [Token(Identifier, "x", 1, 1, 1), Token(Assign, ":=", 1, 3, -1), Token(LParen, "(", 1, 6, -1), Token(Boolean, "TRUE", 1, 7, 0), Token(Operator, "OR", 1, 12, -1), Token(Boolean, "FALSE", 1, 15, 0), Token(RParen, ")", 1, 20, -1), Token(Operator, "AND", 1, 22, -1), Token(LParen, "(", 1, 26, -1), Token(Operator, "NOT", 1, 27, -1), Token(Boolean, "TRUE", 1, 31, 0), Token(RParen, ")", 1, 35, -1)], []))
  {
    CloseUnit(input, ParenthesesText, State(34, 2, [Token(Identifier, "x", 1, 1, 1), Token(Assign, ":=", 1, 3, -1), Token(LParen, "(", 1, 6, -1), Token(Boolean, "TRUE", 1, 7, 0), Token(Operator, "OR", 1, 12, -1), Token(Boolean, "FALSE", 1, 15, 0), Token(RParen, ")", 1, 20, -1), Token(Operator, "AND", 1, 22, -1), Token(LParen, "(", 1, 26, -1), Token(Operator, "NOT", 1, 27, -1), Token(Boolean, "TRUE", 1, 31, 0)], []), 34, State(35, 2, [Token(Identifier, "x", 1, 1, 1), Token(Assign, ":=", 1, 3, -1), Token(LParen, "(", 1, 6, -1), Token(Boolean, "TRUE", 1, 7, 0), Token(Operator, "OR", 1, 12, -1), Token(Boolean, "FALSE", 1, 15, 0), Token(RParen, ")", 1, 20, -1), Token(Operator, "AND", 1, 22, -1), Token(LParen, "(", 1, 26, -1), Token(Operator, "NOT", 1, 27, -1), Token(Boolean, "TRUE", 1, 31, 0), Token(RParen, ")", 1, 35, -1)], []));
  }

  /**
   * Three closed comments yield nothing; the seven tokens between them keep
   * the columns of the text (LexicalAnalyzerTest.java:46-54).
   */
  lemma ScanComments()
    ensures Analysis("/* Start */ x := " + "TRUE /* Middle */ | " + "y := FALSE /* End " + "*/").tokens == [Token(Identifier, "x", 1, 13, 1), Token(Assign, ":=", 1, 15, -1), Token(Boolean, "TRUE", 1, 18, 0), Token(Pipe, "|", 1, 36, -1), Token(Identifier, "y", 1, 38, 2), Token(Assign, ":=", 1, 40, -1), Token(Boolean, "FALSE", 1, 43, 0)]
    ensures Analysis("/* Start */ x := " + "TRUE /* Middle */ | " + "y := FALSE /* End " + "*/").errors == []
  {
    assert Spells(CommentsText, CommentsText);
    ScanCommentsRun(CommentsText);
  }

  const CommentsText := "/* Start */ x := " + "TRUE /* Middle */ | " + "y := FALSE /* End " + "*/"

  lemma ScanCommentsRun(input: string)
    requires Spells(input, CommentsText) && '\n' !in CommentsText
    ensures Analysis(input) == State(57, 3, [Token(Identifier, "x", 1, 13, 1), Token(Assign, ":=", 1, 15, -1), Token(Boolean, "TRUE", 1, 18, 0), Token(Pipe, "|", 1, 36, -1), Token(Identifier, "y", 1, 38, 2), Token(Assign, ":=", 1, 40, -1), Token(Boolean, "FALSE", 1, 43, 0)], [])
  {
    ScanCommentsUnit1(input);
    ScanCommentsUnit2(input);
    ScanCommentsUnit3(input);
    ScanCommentsUnit4(input);
    ScanCommentsUnit5(input);
    ScanCommentsUnit6(input);
    ScanCommentsUnit7(input);
    ScanCommentsUnit8(input);
    ScanCommentsUnit9(input);
    ScanCommentsUnit10(input);
    ScanCommentsUnit11(input);
    ScanCommentsUnit12(input);
    ScanCommentsUnit13(input);
    ScanCommentsUnit14(input);
    ScanCommentsUnit15(input);
    ScanCommentsUnit16(input);
    ScanCommentsUnit17(input);
    ScanCommentsUnit18(input);
    ScanCommentsUnit19(input);
    EndOfInput(input, State(57, 3, [Token(Identifier, "x", 1, 13, 1), Token(Assign, ":=", 1, 15, -1), Token(Boolean, "TRUE", 1, 18, 0), Token(Pipe, "|", 1, 36, -1), Token(Identifier, "y", 1, 38, 2), Token(Assign, ":=", 1, 40, -1), Token(Boolean, "FALSE", 1, 43, 0)], []));
  }

  lemma ScanCommentsUnit1(input: string)
    requires Spells(input, CommentsText) && '\n' !in CommentsText
    ensures Run(input, State(0, 1, [], [])) == Run(input, State(11, 1, [], []))
  {
    CommentUnit(input, CommentsText, State(0, 1, [], []), 0, 9, State(11, 1, [], []));
  }

  lemma ScanCommentsUnit2(input: string)
    requires Spells(input, CommentsText) && '\n' !in CommentsText
    ensures Run(input, State(11, 1, [], [])) == Run(input, State(12, 1, [], []))
  {
    BlankUnit(input, CommentsText, State(11, 1, [], []), 11, State(12, 1, [], []));
  }

  lemma ScanCommentsUnit3(input: string)
    requires Spells(input, CommentsText) && '\n' !in CommentsText
    ensures Run(input, State(12, 1, [], [])) == Run(input, State(13, 2, [Token(Identifier, "x", 1, 13, 1)], []))
  {
    NewNameUnit(input, CommentsText, State(12, 1, [], []), 12, "x", State(13, 2, [Token(Identifier, "x", 1, 13, 1)], []));
  }

  lemma ScanCommentsUnit4(input: string)
    requires Spells(input, CommentsText) && '\n' !in CommentsText
    ensures Run(input, State(13, 2, [Token(Identifier, "x", 1, 13, 1)], [])) == Run(input, State(14, 2, [Token(Identifier, "x", 1, 13, 1)], []))
  {
    BlankUnit(input, CommentsText, State(13, 2, [Token(Identifier, "x", 1, 13, 1)], []), 13, State(14, 2, [Token(Identifier, "x", 1, 13, 1)], []));
  }

  lemma ScanCommentsUnit5(input: string)
    requires Spells(input, CommentsText) && '\n' !in CommentsText
    ensures Run(input, State(14, 2, [Token(Identifier, "x", 1, 13, 1)], [])) == Run(input, State(16, 2, [Token(Identifier, "x", 1, 13, 1), Token(Assign, ":=", 1, 15, -1)], []))
  {
    AssignUnit(input, CommentsText, State(14, 2, [Token(Identifier, "x", 1, 13, 1)], []), 14, State(16, 2, [Token(Identifier, "x", 1, 13, 1), Token(Assign, ":=", 1, 15, -1)], []));
  }

  lemma ScanCommentsUnit6(input: string)
    requires Spells(input, CommentsText) && '\n' !in CommentsText
    ensures Run(input, State(16, 2, [Token(Identifier, "x", 1, 13, 1), Token(Assign, ":=", 1, 15, -1)], [])) == Run(input, State(17, 2, [Token(Identifier, "x", 1, 13, 1), Token(Assign, ":=", 1, 15, -1)], []))
  {
    BlankUnit(input, CommentsText, State(16, 2, [Token(Identifier, "x", 1, 13, 1), Token(Assign, ":=", 1, 15, -1)], []), 16, State(17, 2, [Token(Identifier, "x", 1, 13, 1), Token(Assign, ":=", 1, 15, -1)], []));
  }

  lemma ScanCommentsUnit7(input: string)
    requires Spells(input, CommentsText) && '\n' !in CommentsText
    ensures Run(input, State(17, 2, [Token(Identifier, "x", 1, 13, 1), Token(Assign, ":=", 1, 15, -1)], [])) == Run(input, State(21, 2, [Token(Identifier, "x", 1, 13, 1), Token(Assign, ":=", 1, 15, -1), Token(Boolean, "TRUE", 1, 18, 0)], []))
  {
    KeywordUnit(input, CommentsText, State(17, 2, [Token(Identifier, "x", 1, 13, 1), Token(Assign, ":=", 1, 15, -1)], []), 17, "TRUE", Boolean, "TRUE", 0, State(21, 2, [Token(Identifier, "x", 1, 13, 1), Token(Assign, ":=", 1, 15, -1), Token(Boolean, "TRUE", 1, 18, 0)], []));
  }

  lemma ScanCommentsUnit8(input: string)
    requires Spells(input, CommentsText) && '\n' !in CommentsText
    ensures Run(input, State(21, 2, [Token(Identifier, "x", 1, 13, 1), Token(Assign, ":=", 1, 15, -1), Token(Boolean, "TRUE", 1, 18, 0)], [])) == Run(input, State(22, 2, [Token(Identifier, "x", 1, 13, 1), Token(Assign, ":=", 1, 15, -1), Token(Boolean, "TRUE", 1, 18, 0)], []))
  {
    BlankUnit(input, CommentsText, State(21, 2, [Token(Identifier, "x", 1, 13, 1), Token(Assign, ":=", 1, 15, -1), Token(Boolean, "TRUE", 1, 18, 0)], []), 21, State(22, 2, [Token(Identifier, "x", 1, 13, 1), Token(Assign, ":=", 1, 15, -1), Token(Boolean, "TRUE", 1, 18, 0)], []));
  }

  lemma ScanCommentsUnit9(input: string)
    requires Spells(input, CommentsText) && '\n' !in CommentsText
    ensures Run(input, State(22, 2, [Token(Identifier, "x", 1, 13, 1), Token(Assign, ":=", 1, 15, -1), Token(Boolean, "TRUE", 1, 18, 0)], [])) == Run(input, State(34, 2, [Token(Identifier, "x", 1, 13, 1), Token(Assign, ":=", 1, 15, -1), Token(Boolean, "TRUE", 1, 18, 0)], []))
  {
    CommentUnit(input, CommentsText, State(22, 2, [Token(Identifier, "x", 1, 13, 1), Token(Assign, ":=", 1, 15, -1), Token(Boolean, "TRUE", 1, 18, 0)], []), 22, 32, State(34, 2, [Token(Identifier, "x", 1, 13, 1), Token(Assign, ":=", 1, 15, -1), Token(Boolean, "TRUE", 1, 18, 0)], []));
  }

  lemma ScanCommentsUnit10(input: string)
    requires Spells(input, CommentsText) && '\n' !in CommentsText
    ensures Run(input, State(34, 2, [Token(Identifier, "x", 1, 13, 1), Token(Assign, ":=", 1, 15, -1), Token(Boolean, "TRUE", 1, 18, 0)], [])) == Run(input, State(35, 2, [Token(Identifier, "x", 1, 13, 1), Token(Assign, ":=", 1, 15, -1), Token(Boolean, "TRUE", 1, 18, 0)], []))
  {
    BlankUnit(input, CommentsText, State(34, 2, [Token(Identifier, "x", 1, 13, 1), Token(Assign, ":=", 1, 15, -1), Token(Boolean, "TRUE", 1, 18, 0)], []), 34, State(35, 2, [Token(Identifier, "x", 1, 13, 1), Token(Assign, ":=", 1, 15, -1), Token(Boolean, "TRUE", 1, 18, 0)], []));
  }

  lemma ScanCommentsUnit11(input: string)
    requires Spells(input, CommentsText) && '\n' !in CommentsText
    ensures Run(input, State(35, 2, [Token(Identifier, "x", 1, 13, 1), Token(Assign, ":=", 1, 15, -1), Token(Boolean, "TRUE", 1, 18, 0)], [])) == Run(input, State(36, 2, [Token(Identifier, "x", 1, 13, 1), Token(Assign, ":=", 1, 15, -1), Token(Boolean, "TRUE", 1, 18, 0), Token(Pipe, "|", 1, 36, -1)], []))
  {
    PipeUnit(input, CommentsText, State(35, 2, [Token(Identifier, "x", 1, 13, 1), Token(Assign, ":=", 1, 15, -1), Token(Boolean, "TRUE", 1, 18, 0)], []), 35, State(36, 2, [Token(Identifier, "x", 1, 13, 1), Token(Assign, ":=", 1, 15, -1), Token(Boolean, "TRUE", 1, 18, 0), Token(Pipe, "|", 1, 36, -1)], []));
  }

  lemma ScanCommentsUnit12(input: string)
    requires Spells(input, CommentsText) && '\n' !in CommentsText
    ensures Run(input, State(36, 2, [Token(Identifier, "x", 1, 13, 1), Token(Assign, ":=", 1, 15, -1), Token(Boolean, "TRUE", 1, 18, 0), Token(Pipe, "|", 1, 36, -1)], [])) == Run(input, State(37, 2, [Token(Identifier, "x", 1, 13, 1), Token(Assign, ":=", 1, 15, -1), Token(Boolean, "TRUE", 1, 18, 0), Token(Pipe, "|", 1, 36, -1)], []))
  {
    BlankUnit(input, CommentsText, State(36, 2, [Token(Identifier, "x", 1, 13, 1), Token(Assign, ":=", 1, 15, -1), Token(Boolean, "TRUE", 1, 18, 0), Token(Pipe, "|", 1, 36, -1)], []), 36, State(37, 2, [Token(Identifier, "x", 1, 13, 1), Token(Assign, ":=", 1, 15, -1), Token(Boolean, "TRUE", 1, 18, 0), Token(Pipe, "|", 1, 36, -1)], []));
  }

  lemma ScanCommentsUnit13(input: string)
    requires Spells(input, CommentsText) && '\n' !in CommentsText
    ensures Run(input, State(37, 2, [Token(Identifier, "x", 1, 13, 1), Token(Assign, ":=", 1, 15, -1), Token(Boolean, "TRUE", 1, 18, 0), Token(Pipe, "|", 1, 36, -1)], [])) == Run(input, State(38, 3, [Token(Identifier, "x", 1, 13, 1), Token(Assign, ":=", 1, 15, -1), Token(Boolean, "TRUE", 1, 18, 0), Token(Pipe, "|", 1, 36, -1), Token(Identifier, "y", 1, 38, 2)], []))
  {
    NewNameUnit(input, CommentsText, State(37, 2, [Token(Identifier, "x", 1, 13, 1), Token(Assign, ":=", 1, 15, -1), Token(Boolean, "TRUE", 1, 18, 0), Token(Pipe, "|", 1, 36, -1)], []), 37, "y", State(38, 3, [Token(Identifier, "x", 1, 13, 1), Token(Assign, ":=", 1, 15, -1), Token(Boolean, "TRUE", 1, 18, 0), Token(Pipe, "|", 1, 36, -1), Token(Identifier, "y", 1, 38, 2)], []));
  }

  lemma ScanCommentsUnit14(input: string)
    requires Spells(input, CommentsText) && '\n' !in CommentsText
    ensures Run(input, State(38, 3, [Token(Identifier, "x", 1, 13, 1), Token(Assign, ":=", 1, 15, -1), Token(Boolean, "TRUE", 1, 18, 0), Token(Pipe, "|", 1, 36, -1), Token(Identifier, "y", 1, 38, 2)], [])) == Run(input, State(39, 3, [Token(Identifier, "x", 1, 13, 1), Token(Assign, ":=", 1, 15, -1), Token(Boolean, "TRUE", 1, 18, 0), Token(Pipe, "|", 1, 36, -1), Token(Identifier, "y", 1, 38, 2)], []))
  {
    BlankUnit(input, CommentsText, State(38, 3, [Token(Identifier, "x", 1, 13, 1), Token(Assign, ":=", 1, 15, -1), Token(Boolean, "TRUE", 1, 18, 0), Token(Pipe, "|", 1, 36, -1), Token(Identifier, "y", 1, 38, 2)], []), 38, State(39, 3, [Token(Identifier, "x", 1, 13, 1), Token(Assign, ":=", 1, 15, -1), Token(Boolean, "TRUE", 1, 18, 0), Token(Pipe, "|", 1, 36, -1), Token(Identifier, "y", 1, 38, 2)], []));
  }

  lemma ScanCommentsUnit15(input: string)
    requires Spells(input, CommentsText) && '\n' !in CommentsText
    ensures Run(input, State(39, 3, [Token(Identifier, "x", 1, 13, 1), Token(Assign, ":=", 1, 15, -1), Token(Boolean, "TRUE", 1, 18, 0), Token(Pipe, "|", 1, 36, -1), Token(Identifier, "y", 1, 38, 2)], [])) == Run(input, State(41, 3, [Token(Identifier, "x", 1, 13, 1), Token(Assign, ":=", 1, 15, -1), Token(Boolean, "TRUE", 1, 18, 0), Token(Pipe, "|", 1, 36, -1), Token(Identifier, "y", 1, 38, 2), Token(Assign, ":=", 1, 40, -1)], []))
  {
    AssignUnit(input, CommentsText, State(39, 3, [Token(Identifier, "x", 1, 13, 1), Token(Assign, ":=", 1, 15, -1), Token(Boolean, "TRUE", 1, 18, 0), Token(Pipe, "|", 1, 36, -1), Token(Identifier, "y", 1, 38, 2)], []), 39, State(41, 3, [Token(Identifier, "x", 1, 13, 1), Token(Assign, ":=", 1, 15, -1), Token(Boolean, "TRUE", 1, 18, 0), Token(Pipe, "|", 1, 36, -1), Token(Identifier, "y", 1, 38, 2), Token(Assign, ":=", 1, 40, -1)], []));
  }

  lemma ScanCommentsUnit16(input: string)
    requires Spells(input, CommentsText) && '\n' !in CommentsText
    ensures Run(input, State(41, 3, [Token(Identifier, "x", 1, 13, 1), Token(Assign, ":=", 1, 15, -1), Token(Boolean, "TRUE", 1, 18, 0), Token(Pipe, "|", 1, 36, -1), Token(Identifier, "y", 1, 38, 2), Token(Assign, ":=", 1, 40, -1)], [])) == Run(input, State(42, 3, [Token(Identifier, "x", 1, 13, 1), Token(Assign, ":=", 1, 15, -1), Token(Boolean, "TRUE", 1, 18, 0), Token(Pipe, "|", 1, 36, -1), Token(Identifier, "y", 1, 38, 2), Token(Assign, ":=", 1, 40, -1)], []))
  {
    BlankUnit(input, CommentsText, State(41, 3, [Token(Identifier, "x", 1, 13, 1), Token(Assign, ":=", 1, 15, -1), Token(Boolean, "TRUE", 1, 18, 0), Token(Pipe, "|", 1, 36, -1), Token(Identifier, "y", 1, 38, 2), Token(Assign, ":=", 1, 40, -1)], []), 41, State(42, 3, [Token(Identifier, "x", 1, 13, 1), Token(Assign, ":=", 1, 15, -1), Token(Boolean, "TRUE", 1, 18, 0), Token(Pipe, "|", 1, 36, -1), Token(Identifier, "y", 1, 38, 2), Token(Assign, ":=", 1, 40, -1)], []));
  }

  lemma ScanCommentsUnit17(input: string)
    requires Spells(input, CommentsText) && '\n' !in CommentsText
    ensures Run(input, State(42, 3, [Token(Identifier, "x", 1, 13, 1), Token(Assign, ":=", 1, 15, -1), Token(Boolean, "TRUE", 1, 18, 0), Token(Pipe, "|", 1, 36, -1), Token(Identifier, "y", 1, 38, 2), Token(Assign, ":=", 1, 40, -1)], [])) == Run(input, State(47, 3, [Token(Identifier, "x", 1, 13, 1), Token(Assign, ":=", 1, 15, -1), Token(Boolean, "TRUE", 1, 18, 0), Token(Pipe, "|", 1, 36, -1), Token(Identifier, "y", 1, 38, 2), Token(Assign, ":=", 1, 40, -1), Token(Boolean, "FALSE", 1, 43, 0)], []))
  {
    KeywordUnit(input, CommentsText, State(42, 3, [Token(Identifier, "x", 1, 13, 1), Token(Assign, ":=", 1, 15, -1), Token(Boolean, "TRUE", 1, 18, 0), Token(Pipe, "|", 1, 36, -1), Token(Identifier, "y", 1, 38, 2), Token(Assign, ":=", 1, 40, -1)], []), 42, "FALSE", Boolean, "FALSE", 0, State(47, 3, [Token(Identifier, "x", 1, 13, 1), Token(Assign, ":=", 1, 15, -1), Token(Boolean, "TRUE", 1, 18, 0), Token(Pipe, "|", 1, 36, -1), Token(Identifier, "y", 1, 38, 2), Token(Assign, ":=", 1, 40, -1), Token(Boolean, "FALSE", 1, 43, 0)], []));
  }

  lemma ScanCommentsUnit18(input: string)
    requires Spells(input, CommentsText) && '\n' !in CommentsText
    ensures Run(input, State(47, 3, [Token(Identifier, "x", 1, 13, 1), Token(Assign, ":=", 1, 15, -1), Token(Boolean, "TRUE", 1, 18, 0), Token(Pipe, "|", 1, 36, -1), Token(Identifier, "y", 1, 38, 2), Token(Assign, ":=", 1, 40, -1), Token(Boolean, "FALSE", 1, 43, 0)], [])) == Run(input, State(48, 3, [Token(Identifier, "x", 1, 13, 1), Token(Assign, ":=", 1, 15, -1), Token(Boolean, "TRUE", 1, 18, 0), Token(Pipe, "|", 1, 36, -1), Token(Identifier, "y", 1, 38, 2), Token(Assign, ":=", 1, 40, -1), Token(Boolean, "FALSE", 1, 43, 0)], []))
  {
    BlankUnit(input, CommentsText, State(47, 3, [Token(Identifier, "x", 1, 13, 1), Token(Assign, ":=", 1, 15, -1), Token(Boolean, "TRUE", 1, 18, 0), Token(Pipe, "|", 1, 36, -1), Token(Identifier, "y", 1, 38, 2), Token(Assign, ":=", 1, 40, -1), Token(Boolean, "FALSE", 1, 43, 0)], []), 47, State(48, 3, [Token(Identifier, "x", 1, 13, 1), Token(Assign, ":=", 1, 15, -1), Token(Boolean, "TRUE", 1, 18, 0), Token(Pipe, "|", 1, 36, -1), Token(Identifier, "y", 1, 38, 2), Token(Assign, ":=", 1, 40, -1), Token(Boolean, "FALSE", 1, 43, 0)], []));
  }

  lemma ScanCommentsUnit19(input: string)
    requires Spells(input, CommentsText) && '\n' !in CommentsText
    ensures Run(input, State(48, 3, [Token(Identifier, "x", 1, 13, 1), Token(Assign, ":=", 1, 15, -1), Token(Boolean, "TRUE", 1, 18, 0), Token(Pipe, "|", 1, 36, -1), Token(Identifier, "y", 1, 38, 2), Token(Assign, ":=", 1, 40, -1), Token(Boolean, "FALSE", 1, 43, 0)], [])) == Run(input, State(57, 3, [Token(Identifier, "x", 1, 13, 1), Token(Assign, ":=", 1, 15, -1), Token(Boolean, "TRUE", 1, 18, 0), Token(Pipe, "|", 1, 36, -1), Token(Identifier, "y", 1, 38, 2), Token(Assign, ":=", 1, 40, -1), Token(Boolean, "FALSE", 1, 43, 0)], []))
  {
    CommentUnit(input, CommentsText, State(48, 3, [Token(Identifier, "x", 1, 13, 1), Token(Assign, ":=", 1, 15, -1), Token(Boolean, "TRUE", 1, 18, 0), Token(Pipe, "|", 1, 36, -1), Token(Identifier, "y", 1, 38, 2), Token(Assign, ":=", 1, 40, -1), Token(Boolean, "FALSE", 1, 43, 0)], []), 48, 55, State(57, 3, [Token(Identifier, "x", 1, 13, 1), Token(Assign, ":=", 1, 15, -1), Token(Boolean, "TRUE", 1, 18, 0), Token(Pipe, "|", 1, 36, -1), Token(Identifier, "y", 1, 38, 2), Token(Assign, ":=", 1, 40, -1), Token(Boolean, "FALSE", 1, 43, 0)], []));
  }

  /**
   * The word 123var fails the identifier pattern, so the first error is an
   * invalid-identifier report; the test at LexicalAnalyzerTest.java:57-63
   * expects an unexpected-character report instead. The rest of the line still
   * scans.
   */
  lemma ScanInvalidIdentifier()
    ensures Analysis("123var := TRUE").tokens == [Token(Assign, ":=", 1, 8, -1), Token(Boolean, "TRUE", 1, 11, 0)]
    ensures Analysis("123var := TRUE").errors == [InvalidIdentifier("123var", 1, 1)]
  {
    assert Spells(InvalidIdentifierText, InvalidIdentifierText);
    ScanInvalidIdentifierRun(InvalidIdentifierText);
  }

  const InvalidIdentifierText := "123var := TRUE"

  lemma ScanInvalidIdentifierRun(input: string)
    requires Spells(input, InvalidIdentifierText) && '\n' !in InvalidIdentifierText
    ensures Analysis(input) == State(14, 1, [Token(Assign, ":=", 1, 8, -1), Token(Boolean, "TRUE", 1, 11, 0)], [InvalidIdentifier("123var", 1, 1)])
  {
    ScanInvalidIdentifierUnit1(input);
    ScanInvalidIdentifierUnit2(input);
    ScanInvalidIdentifierUnit3(input);
    ScanInvalidIdentifierUnit4(input);
    ScanInvalidIdentifierUnit5(input);
    EndOfInput(input, State(14, 1, [Token(Assign, ":=", 1, 8, -1), Token(Boolean, "TRUE", 1, 11, 0)], [InvalidIdentifier("123var", 1, 1)]));
  }

  lemma ScanInvalidIdentifierUnit1(input: string)
    requires Spells(input, InvalidIdentifierText) && '\n' !in InvalidIdentifierText
    ensures Run(input, State(0, 1, [], [])) == Run(input, State(6, 1, [], [InvalidIdentifier("123var", 1, 1)]))
  {
    BadWordUnit(input, InvalidIdentifierText, State(0, 1, [], []), 0, "123var", State(6, 1, [], [InvalidIdentifier("123var", 1, 1)]));
  }

  lemma ScanInvalidIdentifierUnit2(input: string)
    requires Spells(input, InvalidIdentifierText) && '\n' !in InvalidIdentifierText
    ensures Run(input, State(6, 1, [], [InvalidIdentifier("123var", 1, 1)])) == Run(input, State(7, 1, [], [InvalidIdentifier("123var", 1, 1)]))
  {
    BlankUnit(input, InvalidIdentifierText, State(6, 1, [], [InvalidIdentifier("123var", 1, 1)]), 6, State(7, 1, [], [InvalidIdentifier("123var", 1, 1)]));
  }

  lemma ScanInvalidIdentifierUnit3(input: string)
    requires Spells(input, InvalidIdentifierText) && '\n' !in InvalidIdentifierText
    ensures Run(input, State(7, 1, [], [InvalidIdentifier("123var", 1, 1)])) == Run(input, State(9, 1, [Token(Assign, ":=", 1, 8, -1)], [InvalidIdentifier("123var", 1, 1)]))
  {
    AssignUnit(input, InvalidIdentifierText, State(7, 1, [], [InvalidIdentifier("123var", 1, 1)]), 7, State(9, 1, [Token(Assign, ":=", 1, 8, -1)], [InvalidIdentifier("123var", 1, 1)]));
  }

  lemma ScanInvalidIdentifierUnit4(input: string)
    requires Spells(input, InvalidIdentifierText) && '\n' !in InvalidIdentifierText
    ensures Run(input, State(9, 1, [Token(Assign, ":=", 1, 8, -1)], [InvalidIdentifier("123var", 1, 1)])) == Run(input, State(10, 1, [Token(Assign, ":=", 1, 8, -1)], [InvalidIdentifier("123var", 1, 1)]))
  {
    BlankUnit(input, InvalidIdentifierText, State(9, 1, [Token(Assign, ":=", 1, 8, -1)], [InvalidIdentifier("123var", 1, 1)]), 9, State(10, 1, [Token(Assign, ":=", 1, 8, -1)], [InvalidIdentifier("123var", 1, 1)]));
  }

  lemma ScanInvalidIdentifierUnit5(input: string)
    requires Spells(input, InvalidIdentifierText) && '\n' !in InvalidIdentifierText
    ensures Run(input, State(10, 1, [Token(Assign, ":=", 1, 8, -1)], [InvalidIdentifier("123var", 1, 1)])) == Run(input, State(14, 1, [Token(Assign, ":=", 1, 8, -1), Token(Boolean, "TRUE", 1, 11, 0)], [InvalidIdentifier("123var", 1, 1)]))
  {
    KeywordUnit(input, InvalidIdentifierText, State(10, 1, [Token(Assign, ":=", 1, 8, -1)], [InvalidIdentifier("123var", 1, 1)]), 10, "TRUE", Boolean, "TRUE", 0, State(14, 1, [Token(Assign, ":=", 1, 8, -1), Token(Boolean, "TRUE", 1, 11, 0)], [InvalidIdentifier("123var", 1, 1)]));
  }

  /**
   * A 25-character word is reported as too long at 1:1 and yields no token;
   * Assign and Boolean TRUE follow (LexicalAnalyzerTest.java:65-72).
   */
  lemma ScanLongIdentifier()
    ensures Analysis("very_long_identifier_name " + ":= TRUE").tokens == [Token(Assign, ":=", 1, 27, -1), Token(Boolean, "TRUE", 1, 30, 0)]
    ensures Analysis("very_long_identifier_name " + ":= TRUE").errors == [IdentifierTooLong(1, 1)]
  {
    assert Spells(LongIdentifierText, LongIdentifierText);
    ScanLongIdentifierRun(LongIdentifierText);
  }

  const LongIdentifierText := "very_long_identifier_name " + ":= TRUE"

  lemma ScanLongIdentifierRun(input: string)
    requires Spells(input, LongIdentifierText) && '\n' !in LongIdentifierText
    ensures Analysis(input) == State(33, 1, [Token(Assign, ":=", 1, 27, -1), Token(Boolean, "TRUE", 1, 30, 0)], [IdentifierTooLong(1, 1)])
  {
    ScanLongIdentifierUnit1(input);
    ScanLongIdentifierUnit2(input);
    ScanLongIdentifierUnit3(input);
    ScanLongIdentifierUnit4(input);
    ScanLongIdentifierUnit5(input);
    EndOfInput(input, State(33, 1, [Token(Assign, ":=", 1, 27, -1), Token(Boolean, "TRUE", 1, 30, 0)], [IdentifierTooLong(1, 1)]));
  }

  lemma ScanLongIdentifierUnit1(input: string)
    requires Spells(input, LongIdentifierText) && '\n' !in LongIdentifierText
    ensures Run(input, State(0, 1, [], [])) == Run(input, State(25, 1, [], [IdentifierTooLong(1, 1)]))
  {
    LongWordUnit(input, LongIdentifierText, State(0, 1, [], []), 0, "very_long_identifier_name", State(25, 1, [], [IdentifierTooLong(1, 1)]));
  }

  lemma ScanLongIdentifierUnit2(input: string)
    requires Spells(input, LongIdentifierText) && '\n' !in LongIdentifierText
    ensures Run(input, State(25, 1, [], [IdentifierTooLong(1, 1)])) == Run(input, State(26, 1, [], [IdentifierTooLong(1, 1)]))
  {
    BlankUnit(input, LongIdentifierText, State(25, 1, [], [IdentifierTooLong(1, 1)]), 25, State(26, 1, [], [IdentifierTooLong(1, 1)]));
  }

  lemma ScanLongIdentifierUnit3(input: string)
    requires Spells(input, LongIdentifierText) && '\n' !in LongIdentifierText
    ensures Run(input, State(26, 1, [], [IdentifierTooLong(1, 1)])) == Run(input, State(28, 1, [Token(Assign, ":=", 1, 27, -1)], [IdentifierTooLong(1, 1)]))
  {
    AssignUnit(input, LongIdentifierText, State(26, 1, [], [IdentifierTooLong(1, 1)]), 26, State(28, 1, [Token(Assign, ":=", 1, 27, -1)], [IdentifierTooLong(1, 1)]));
  }

  lemma ScanLongIdentifierUnit4(input: string)
    requires Spells(input, LongIdentifierText) && '\n' !in LongIdentifierText
    ensures Run(input, State(28, 1, [Token(Assign, ":=", 1, 27, -1)], [IdentifierTooLong(1, 1)])) == Run(input, State(29, 1, [Token(Assign, ":=", 1, 27, -1)], [IdentifierTooLong(1, 1)]))
  {
    BlankUnit(input, LongIdentifierText, State(28, 1, [Token(Assign, ":=", 1, 27, -1)], [IdentifierTooLong(1, 1)]), 28, State(29, 1, [Token(Assign, ":=", 1, 27, -1)], [IdentifierTooLong(1, 1)]));
  }

  lemma ScanLongIdentifierUnit5(input: string)
    requires Spells(input, LongIdentifierText) && '\n' !in LongIdentifierText
    ensures Run(input, State(29, 1, [Token(Assign, ":=", 1, 27, -1)], [IdentifierTooLong(1, 1)])) == Run(input, State(33, 1, [Token(Assign, ":=", 1, 27, -1), Token(Boolean, "TRUE", 1, 30, 0)], [IdentifierTooLong(1, 1)]))
  {
    KeywordUnit(input, LongIdentifierText, State(29, 1, [Token(Assign, ":=", 1, 27, -1)], [IdentifierTooLong(1, 1)]), 29, "TRUE", Boolean, "TRUE", 0, State(33, 1, [Token(Assign, ":=", 1, 27, -1), Token(Boolean, "TRUE", 1, 30, 0)], [IdentifierTooLong(1, 1)]));
  }

  /**
   * TRUEE is no keyword, so it becomes a second Identifier and nothing is
   * reported; the test at LexicalAnalyzerTest.java:75-81 expects an error,
   * whose check is commented out in the source.
   */
  lemma ScanInvalidBoolean()
    ensures Analysis("x := TRUEE").tokens == [Token(Identifier, "x", 1, 1, 1), Token(Assign, ":=", 1, 3, -1), Token(Identifier, "TRUEE", 1, 6, 2)]
    ensures Analysis("x := TRUEE").errors == []
  {
    assert Spells(InvalidBooleanText, InvalidBooleanText);
    ScanInvalidBooleanRun(InvalidBooleanText);
  }

  const InvalidBooleanText := "x := TRUEE"

  lemma ScanInvalidBooleanRun(input: string)
    requires Spells(input, InvalidBooleanText) && '\n' !in InvalidBooleanText
    ensures Analysis(input) == State(10, 3, [Token(Identifier, "x", 1, 1, 1), Token(Assign, ":=", 1, 3, -1), Token(Identifier, "TRUEE", 1, 6, 2)], [])
  {
    ScanInvalidBooleanUnit1(input);
    ScanInvalidBooleanUnit2(input);
    ScanInvalidBooleanUnit3(input);
    ScanInvalidBooleanUnit4(input);
    ScanInvalidBooleanUnit5(input);
    EndOfInput(input, State(10, 3, [Token(Identifier, "x", 1, 1, 1), Token(Assign, ":=", 1, 3, -1), Token(Identifier, "TRUEE", 1, 6, 2)], []));
  }

  lemma ScanInvalidBooleanUnit1(input: string)
    requires Spells(input, InvalidBooleanText) && '\n' !in InvalidBooleanText
    ensures Run(input, State(0, 1, [], [])) == Run(input, State(1, 2, [Token(Identifier, "x", 1, 1, 1)], []))
  {
    NewNameUnit(input, InvalidBooleanText, State(0, 1, [], []), 0, "x", State(1, 2, [Token(Identifier, "x", 1, 1, 1)], []));
  }

  lemma ScanInvalidBooleanUnit2(input: string)
    requires Spells(input, InvalidBooleanText) && '\n' !in InvalidBooleanText
    ensures Run(input, State(1, 2, [Token(Identifier, "x", 1, 1, 1)], [])) == Run(input, State(2, 2, [Token(Identifier, "x", 1, 1, 1)], []))
  {
    BlankUnit(input, InvalidBooleanText, State(1, 2, [Token(Identifier, "x", 1, 1, 1)], []), 1, State(2, 2, [Token(Identifier, "x", 1, 1, 1)], []));
  }

  lemma ScanInvalidBooleanUnit3(input: string)
    requires Spells(input, InvalidBooleanText) && '\n' !in InvalidBooleanText
    ensures Run(input, State(2, 2, [Token(Identifier, "x", 1, 1, 1)], [])) == Run(input, State(4, 2, [Token(Identifier, "x", 1, 1, 1), Token(Assign, ":=", 1, 3, -1)], []))
  {
    AssignUnit(input, InvalidBooleanText, State(2, 2, [Token(Identifier, "x", 1, 1, 1)], []), 2, State(4, 2, [Token(Identifier, "x", 1, 1, 1), Token(Assign, ":=", 1, 3, -1)], []));
  }

  lemma ScanInvalidBooleanUnit4(input: string)
    requires Spells(input, InvalidBooleanText) && '\n' !in InvalidBooleanText
    ensures Run(input, State(4, 2, [Token(Identifier, "x", 1, 1, 1), Token(Assign, ":=", 1, 3, -1)], [])) == Run(input, State(5, 2, [Token(Identifier, "x", 1, 1, 1), Token(Assign, ":=", 1, 3, -1)], []))
  {
    BlankUnit(input, InvalidBooleanText, State(4, 2, [Token(Identifier, "x", 1, 1, 1), Token(Assign, ":=", 1, 3, -1)], []), 4, State(5, 2, [Token(Identifier, "x", 1, 1, 1), Token(Assign, ":=", 1, 3, -1)], []));
  }

  lemma ScanInvalidBooleanUnit5(input: string)
    requires Spells(input, InvalidBooleanText) && '\n' !in InvalidBooleanText
    ensures Run(input, State(5, 2, [Token(Identifier, "x", 1, 1, 1), Token(Assign, ":=", 1, 3, -1)], [])) == Run(input, State(10, 3, [Token(Identifier, "x", 1, 1, 1), Token(Assign, ":=", 1, 3, -1), Token(Identifier, "TRUEE", 1, 6, 2)], []))
  {
    NewNameUnit(input, InvalidBooleanText, State(5, 2, [Token(Identifier, "x", 1, 1, 1), Token(Assign, ":=", 1, 3, -1)], []), 5, "TRUEE", State(10, 3, [Token(Identifier, "x", 1, 1, 1), Token(Assign, ":=", 1, 3, -1), Token(Identifier, "TRUEE", 1, 6, 2)], []));
  }

  /**
   * A comment opened at column 11 and never closed: one error at its opening,
   * after the three tokens (LexicalAnalyzerTest.java:84-90).
   */
  lemma ScanUnclosedComment()
    ensures Analysis("x := TRUE /* Unclosed comment").tokens == [Token(Identifier, "x", 1, 1, 1), Token(Assign, ":=", 1, 3, -1), Token(Boolean, "TRUE", 1, 6, 0)]
    ensures Analysis("x := TRUE /* Unclosed comment").errors == [UnclosedComment(1, 11)]
  {
    assert Spells(UnclosedCommentText, UnclosedCommentText);
    ScanUnclosedCommentRun(UnclosedCommentText);
  }

  const UnclosedCommentText := "x := TRUE /* Unclosed comment"

  lemma ScanUnclosedCommentRun(input: string)
    requires Spells(input, UnclosedCommentText) && '\n' !in UnclosedCommentText
    ensures Analysis(input) == State(29, 2, [Token(Identifier, "x", 1, 1, 1), Token(Assign, ":=", 1, 3, -1), Token(Boolean, "TRUE", 1, 6, 0)], [UnclosedComment(1, 11)])
  {
    ScanUnclosedCommentUnit1(input);
    ScanUnclosedCommentUnit2(input);
    ScanUnclosedCommentUnit3(input);
    ScanUnclosedCommentUnit4(input);
    ScanUnclosedCommentUnit5(input);
    ScanUnclosedCommentUnit6(input);
    ScanUnclosedCommentUnit7(input);
    EndOfInput(input, State(29, 2, [Token(Identifier, "x", 1, 1, 1), Token(Assign, ":=", 1, 3, -1), Token(Boolean, "TRUE", 1, 6, 0)], [UnclosedComment(1, 11)]));
  }

  lemma ScanUnclosedCommentUnit1(input: string)
    requires Spells(input, UnclosedCommentText) && '\n' !in UnclosedCommentText
    ensures Run(input, State(0, 1, [], [])) == Run(input, State(1, 2, [Token(Identifier, "x", 1, 1, 1)], []))
  {
    NewNameUnit(input, UnclosedCommentText, State(0, 1, [], []), 0, "x", State(1, 2, [Token(Identifier, "x", 1, 1, 1)], []));
  }

  lemma ScanUnclosedCommentUnit2(input: string)
    requires Spells(input, UnclosedCommentText) && '\n' !in UnclosedCommentText
    ensures Run(input, State(1, 2, [Token(Identifier, "x", 1, 1, 1)], [])) == Run(input, State(2, 2, [Token(Identifier, "x", 1, 1, 1)], []))
  {
    BlankUnit(input, UnclosedCommentText, State(1, 2, [Token(Identifier, "x", 1, 1, 1)], []), 1, State(2, 2, [Token(Identifier, "x", 1, 1, 1)], []));
  }

  lemma ScanUnclosedCommentUnit3(input: string)
    requires Spells(input, UnclosedCommentText) && '\n' !in UnclosedCommentText
    ensures Run(input, State(2, 2, [Token(Identifier, "x", 1, 1, 1)], [])) == Run(input, State(4, 2, [Token(Identifier, "x", 1, 1, 1), Token(Assign, ":=", 1, 3, -1)], []))
  {
    AssignUnit(input, UnclosedCommentText, State(2, 2, [Token(Identifier, "x", 1, 1, 1)], []), 2, State(4, 2, [Token(Identifier, "x", 1, 1, 1), Token(Assign, ":=", 1, 3, -1)], []));
  }

  lemma ScanUnclosedCommentUnit4(input: string)
    requires Spells(input, UnclosedCommentText) && '\n' !in UnclosedCommentText
    ensures Run(input, State(4, 2, [Token(Identifier, "x", 1, 1, 1), Token(Assign, ":=", 1, 3, -1)], [])) == Run(input, State(5, 2, [Token(Identifier, "x", 1, 1, 1), Token(Assign, ":=", 1, 3, -1)], []))
  {
    BlankUnit(input, UnclosedCommentText, State(4, 2, [Token(Identifier, "x", 1, 1, 1), Token(Assign, ":=", 1, 3, -1)], []), 4, State(5, 2, [Token(Identifier, "x", 1, 1, 1), Token(Assign, ":=", 1, 3, -1)], []));
  }

  lemma ScanUnclosedCommentUnit5(input: string)
    requires Spells(input, UnclosedCommentText) && '\n' !in UnclosedCommentText
    ensures Run(input, State(5, 2, [Token(Identifier, "x", 1, 1, 1), Token(Assign, ":=", 1, 3, -1)], [])) == Run(input, State(9, 2, [Token(Identifier, "x", 1, 1, 1), Token(Assign, ":=", 1, 3, -1), Token(Boolean, "TRUE", 1, 6, 0)], []))
  {
    KeywordUnit(input, UnclosedCommentText, State(5, 2, [Token(Identifier, "x", 1, 1, 1), Token(Assign, ":=", 1, 3, -1)], []), 5, "TRUE", Boolean, "TRUE", 0, State(9, 2, [Token(Identifier, "x", 1, 1, 1), Token(Assign, ":=", 1, 3, -1), Token(Boolean, "TRUE", 1, 6, 0)], []));
  }

  lemma ScanUnclosedCommentUnit6(input: string)
    requires Spells(input, UnclosedCommentText) && '\n' !in UnclosedCommentText
    ensures Run(input, State(9, 2, [Token(Identifier, "x", 1, 1, 1), Token(Assign, ":=", 1, 3, -1), Token(Boolean, "TRUE", 1, 6, 0)], [])) == Run(input, State(10, 2, [Token(Identifier, "x", 1, 1, 1), Token(Assign, ":=", 1, 3, -1), Token(Boolean, "TRUE", 1, 6, 0)], []))
  {
    BlankUnit(input, UnclosedCommentText, State(9, 2, [Token(Identifier, "x", 1, 1, 1), Token(Assign, ":=", 1, 3, -1), Token(Boolean, "TRUE", 1, 6, 0)], []), 9, State(10, 2, [Token(Identifier, "x", 1, 1, 1), Token(Assign, ":=", 1, 3, -1), Token(Boolean, "TRUE", 1, 6, 0)], []));
  }

  lemma ScanUnclosedCommentUnit7(input: string)
    requires Spells(input, UnclosedCommentText) && '\n' !in UnclosedCommentText
    ensures Run(input, State(10, 2, [Token(Identifier, "x", 1, 1, 1), Token(Assign, ":=", 1, 3, -1), Token(Boolean, "TRUE", 1, 6, 0)], [])) == Run(input, State(29, 2, [Token(Identifier, "x", 1, 1, 1), Token(Assign, ":=", 1, 3, -1), Token(Boolean, "TRUE", 1, 6, 0)], [UnclosedComment(1, 11)]))
  {
    UnclosedUnit(input, UnclosedCommentText, State(10, 2, [Token(Identifier, "x", 1, 1, 1), Token(Assign, ":=", 1, 3, -1), Token(Boolean, "TRUE", 1, 6, 0)], []), 10, State(29, 2, [Token(Identifier, "x", 1, 1, 1), Token(Assign, ":=", 1, 3, -1), Token(Boolean, "TRUE", 1, 6, 0)], [UnclosedComment(1, 11)]));
  }

  /**
   * Keywords are recognised in lower case and recorded upper-case
   * (LexicalAnalyzerTest.java:93-102).
   */
  lemma ScanMixedCaseOperators()
    ensures Analysis("x := true or false").tokens == [Token(Identifier, "x", 1, 1, 1), Token(Assign, ":=", 1, 3, -1), Token(Boolean, "TRUE", 1, 6, 0), Token(Operator, "OR", 1, 11, -1), Token(Boolean, "FALSE", 1, 14, 0)]
    ensures Analysis("x := true or false").errors == []
  {
    assert Spells(MixedCaseOperatorsText, MixedCaseOperatorsText);
    ScanMixedCaseOperatorsRun(MixedCaseOperatorsText);
  }

  const MixedCaseOperatorsText := "x := true or false"

  lemma ScanMixedCaseOperatorsRun(input: string)
    requires Spells(input, MixedCaseOperatorsText) && '\n' !in MixedCaseOperatorsText
    ensures Analysis(input) == State(18, 2, [Token(Identifier, "x", 1, 1, 1), Token(Assign, ":=", 1, 3, -1), Token(Boolean, "TRUE", 1, 6, 0), Token(Operator, "OR", 1, 11, -1), Token(Boolean, "FALSE", 1, 14, 0)], [])
  {
    ScanMixedCaseOperatorsUnit1(input);
    ScanMixedCaseOperatorsUnit2(input);
    ScanMixedCaseOperatorsUnit3(input);
    ScanMixedCaseOperatorsUnit4(input);
    ScanMixedCaseOperatorsUnit5(input);
    ScanMixedCaseOperatorsUnit6(input);
    ScanMixedCaseOperatorsUnit7(input);
    ScanMixedCaseOperatorsUnit8(input);
    ScanMixedCaseOperatorsUnit9(input);
    EndOfInput(input, State(18, 2, [Token(Identifier, "x", 1, 1, 1), Token(Assign, ":=", 1, 3, -1), Token(Boolean, "TRUE", 1, 6, 0), Token(Operator, "OR", 1, 11, -1), Token(Boolean, "FALSE", 1, 14, 0)], []));
  }

  lemma ScanMixedCaseOperatorsUnit1(input: string)
    requires Spells(input, MixedCaseOperatorsText) && '\n' !in MixedCaseOperatorsText
    ensures Run(input, State(0, 1, [], [])) == Run(input, State(1, 2, [Token(Identifier, "x", 1, 1, 1)], []))
  {
    NewNameUnit(input, MixedCaseOperatorsText, State(0, 1, [], []), 0, "x", State(1, 2, [Token(Identifier, "x", 1, 1, 1)], []));
  }

  lemma ScanMixedCaseOperatorsUnit2(input: string)
    requires Spells(input, MixedCaseOperatorsText) && '\n' !in MixedCaseOperatorsText
    ensures Run(input, State(1, 2, [Token(Identifier, "x", 1, 1, 1)], [])) == Run(input, State(2, 2, [Token(Identifier, "x", 1, 1, 1)], []))
  {
    BlankUnit(input, MixedCaseOperatorsText, State(1, 2, [Token(Identifier, "x", 1, 1, 1)], []), 1, State(2, 2, [Token(Identifier, "x", 1, 1, 1)], []));
  }

  lemma ScanMixedCaseOperatorsUnit3(input: string)
    requires Spells(input, MixedCaseOperatorsText) && '\n' !in MixedCaseOperatorsText
    ensures Run(input, State(2, 2, [Token(Identifier, "x", 1, 1, 1)], [])) == Run(input, State(4, 2, [Token(Identifier, "x", 1, 1, 1), Token(Assign, ":=", 1, 3, -1)], []))
  {
    AssignUnit(input, MixedCaseOperatorsText, State(2, 2, [Token(Identifier, "x", 1, 1, 1)], []), 2, State(4, 2, [Token(Identifier, "x", 1, 1, 1), Token(Assign, ":=", 1, 3, -1)], []));
  }

  lemma ScanMixedCaseOperatorsUnit4(input: string)
    requires Spells(input, MixedCaseOperatorsText) && '\n' !in MixedCaseOperatorsText
    ensures Run(input, State(4, 2, [Token(Identifier, "x", 1, 1, 1), Token(Assign, ":=", 1, 3, -1)], [])) == Run(input, State(5, 2, [Token(Identifier, "x", 1, 1, 1), Token(Assign, ":=", 1, 3, -1)], []))
  {
    BlankUnit(input, MixedCaseOperatorsText, State(4, 2, [Token(Identifier, "x", 1, 1, 1), Token(Assign, ":=", 1, 3, -1)], []), 4, State(5, 2, [Token(Identifier, "x", 1, 1, 1), Token(Assign, ":=", 1, 3, -1)], []));
  }

  lemma ScanMixedCaseOperatorsUnit5(input: string)
    requires Spells(input, MixedCaseOperatorsText) && '\n' !in MixedCaseOperatorsText
    ensures Run(input, State(5, 2, [Token(Identifier, "x", 1, 1, 1), Token(Assign, ":=", 1, 3, -1)], [])) == Run(input, State(9, 2, [Token(Identifier, "x", 1, 1, 1), Token(Assign, ":=", 1, 3, -1), Token(Boolean, "TRUE", 1, 6, 0)], []))
  {
    KeywordUnit(input, MixedCaseOperatorsText, State(5, 2, [Token(Identifier, "x", 1, 1, 1), Token(Assign, ":=", 1, 3, -1)], []), 5, "true", Boolean, "TRUE", 0, State(9, 2, [Token(Identifier, "x", 1, 1, 1), Token(Assign, ":=", 1, 3, -1), Token(Boolean, "TRUE", 1, 6, 0)], []));
  }

  lemma ScanMixedCaseOperatorsUnit6(input: string)
    requires Spells(input, MixedCaseOperatorsText) && '\n' !in MixedCaseOperatorsText
    ensures Run(input, State(9, 2, [Token(Identifier, "x", 1, 1, 1), Token(Assign, ":=", 1, 3, -1), Token(Boolean, "TRUE", 1, 6, 0)], [])) == Run(input, State(10, 2, [Token(Identifier, "x", 1, 1, 1), Token(Assign, ":=", 1, 3, -1), Token(Boolean, "TRUE", 1, 6, 0)], []))
  {
    BlankUnit(input, MixedCaseOperatorsText, State(9, 2, [Token(Identifier, "x", 1, 1, 1), Token(Assign, ":=", 1, 3, -1), Token(Boolean, "TRUE", 1, 6, 0)], []), 9, State(10, 2, [Token(Identifier, "x", 1, 1, 1), Token(Assign, ":=", 1, 3, -1), Token(Boolean, "TRUE", 1, 6, 0)], []));
  }

  lemma ScanMixedCaseOperatorsUnit7(input: string)
    requires Spells(input, MixedCaseOperatorsText) && '\n' !in MixedCaseOperatorsText
    ensures Run(input, State(10, 2, [Token(Identifier, "x", 1, 1, 1), Token(Assign, ":=", 1, 3, -1), Token(Boolean, "TRUE", 1, 6, 0)], [])) == Run(input, State(12, 2, [Token(Identifier, "x", 1, 1, 1), Token(Assign, ":=", 1, 3, -1), Token(Boolean, "TRUE", 1, 6, 0), Token(Operator, "OR", 1, 11, -1)], []))
  {
    KeywordUnit(input, MixedCaseOperatorsText, State(10, 2, [Token(Identifier, "x", 1, 1, 1), Token(Assign, ":=", 1, 3, -1), Token(Boolean, "TRUE", 1, 6, 0)], []), 10, "or", Operator, "OR", NoValue, State(12, 2, [Token(Identifier, "x", 1, 1, 1), Token(Assign, ":=", 1, 3, -1), Token(Boolean, "TRUE", 1, 6, 0), Token(Operator, "OR", 1, 11, -1)], []));
  }

  lemma ScanMixedCaseOperatorsUnit8(input: string)
    requires Spells(input, MixedCaseOperatorsText) && '\n' !in MixedCaseOperatorsText
    ensures Run(input, State(12, 2, [Token(Identifier, "x", 1, 1, 1), Token(Assign, ":=", 1, 3, -1), Token(Boolean, "TRUE", 1, 6, 0), Token(Operator, "OR", 1, 11, -1)], [])) == Run(input, State(13, 2, [Token(Identifier, "x", 1, 1, 1), Token(Assign, ":=", 1, 3, -1), Token(Boolean, "TRUE", 1, 6, 0), Token(Operator, "OR", 1, 11, -1)], []))
  {
    BlankUnit(input, MixedCaseOperatorsText, State(12, 2, [Token(Identifier, "x", 1, 1, 1), Token(Assign, ":=", 1, 3, -1), Token(Boolean, "TRUE", 1, 6, 0), Token(Operator, "OR", 1, 11, -1)], []), 12, State(13, 2, [Token(Identifier, "x", 1, 1, 1), Token(Assign, ":=", 1, 3, -1), Token(Boolean, "TRUE", 1, 6, 0), Token(Operator, "OR", 1, 11, -1)], []));
  }

  lemma ScanMixedCaseOperatorsUnit9(input: string)
    requires Spells(input, MixedCaseOperatorsText) && '\n' !in MixedCaseOperatorsText
    ensures Run(input, State(13, 2, [Token(Identifier, "x", 1, 1, 1), Token(Assign, ":=", 1, 3, -1), Token(Boolean, "TRUE", 1, 6, 0), Token(Operator, "OR", 1, 11, -1)], [])) == Run(input, State(18, 2, [Token(Identifier, "x", 1, 1, 1), Token(Assign, ":=", 1, 3, -1), Token(Boolean, "TRUE", 1, 6, 0), Token(Operator, "OR", 1, 11, -1), Token(Boolean, "FALSE", 1, 14, 0)], []))
  {
    KeywordUnit(input, MixedCaseOperatorsText, State(13, 2, [Token(Identifier, "x", 1, 1, 1), Token(Assign, ":=", 1, 3, -1), Token(Boolean, "TRUE", 1, 6, 0), Token(Operator, "OR", 1, 11, -1)], []), 13, "false", Boolean, "FALSE", 0, State(18, 2, [Token(Identifier, "x", 1, 1, 1), Token(Assign, ":=", 1, 3, -1), Token(Boolean, "TRUE", 1, 6, 0), Token(Operator, "OR", 1, 11, -1), Token(Boolean, "FALSE", 1, 14, 0)], []));
  }

  /**
   * Sixteen tokens, three of them LParen, and no error
   * (LexicalAnalyzerTest.java:104-113).
   */
  lemma ScanComplexExpression()
    ensures Analysis("result := (a XOR b) " + "OR (NOT (c AND d))").tokens == [Token(Identifier, "result", 1, 1, 1), Token(Assign, ":=", 1, 8, -1), Token(LParen, "(", 1, 11, -1), Token(Identifier, "a", 1, 12, 2), Token(Operator, "XOR", 1, 14, -1), Token(Identifier, "b", 1, 18, 3), Token(RParen, ")", 1, 19, -1), Token(Operator, "OR", 1, 21, -1), Token(LParen, "(", 1, 24, -1), Token(Operator, "NOT", 1, 25, -1), Token(LParen, "(", 1, 29, -1), Token(Identifier, "c", 1, 30, 4), Token(Operator, "AND", 1, 32, -1), Token(Identifier, "d", 1, 36, 5), Token(RParen, ")", 1, 37, -1), Token(RParen, ")", 1, 38, -1)]
    ensures Analysis("result := (a XOR b) " + "OR (NOT (c AND d))").errors == []
  {
    assert Spells(ComplexExpressionText, ComplexExpressionText);
    ScanComplexExpressionRun(ComplexExpressionText);
  }

  const ComplexExpressionText := "result := (a XOR b) " + "OR (NOT (c AND d))"

  lemma ScanComplexExpressionRun(input: string)
    requires Spells(input, ComplexExpressionText) && '\n' !in ComplexExpressionText
    ensures Analysis(input) == State(38, 6, [Token(Identifier, "result", 1, 1, 1), Token(Assign, ":=", 1, 8, -1), Token(LParen, "(", 1, 11, -1), Token(Identifier, "a", 1, 12, 2), Token(Operator, "XOR", 1, 14, -1), Token(Identifier, "b", 1, 18, 3), Token(RParen, ")", 1, 19, -1), Token(Operator, "OR", 1, 21, -1), Token(LParen, "(", 1, 24, -1), Token(Operator, "NOT", 1, 25, -1), Token(LParen, "(", 1, 29, -1), Token(Identifier, "c", 1, 30, 4), Token(Operator, "AND", 1, 32, -1), Token(Identifier, "d", 1, 36, 5), Token(RParen, ")", 1, 37, -1), Token(RParen, ")", 1, 38, -1)], [])
  {
    ScanComplexExpressionUnit1(input);
    ScanComplexExpressionUnit2(input);
    ScanComplexExpressionUnit3(input);
    ScanComplexExpressionUnit4(input);
    ScanComplexExpressionUnit5(input);
    ScanComplexExpressionUnit6(input);
    ScanComplexExpressionUnit7(input);
    ScanComplexExpressionUnit8(input);
    ScanComplexExpressionUnit9(input);
    ScanComplexExpressionUnit10(input);
    ScanComplexExpressionUnit11(input);
    ScanComplexExpressionUnit12(input);
    ScanComplexExpressionUnit13(input);
    ScanComplexExpressionUnit14(input);
    ScanComplexExpressionUnit15(input);
    ScanComplexExpressionUnit16(input);
    ScanComplexExpressionUnit17(input);
    ScanComplexExpressionUnit18(input);
    ScanComplexExpressionUnit19(input);
    ScanComplexExpressionUnit20(input);
    ScanComplexExpressionUnit21(input);
    ScanComplexExpressionUnit22(input);
    ScanComplexExpressionUnit23(input);
    ScanComplexExpressionUnit24(input);
    ScanComplexExpressionUnit25(input);
    EndOfInput(input, State(38, 6, [Token(Identifier, "result", 1, 1, 1), Token(Assign, ":=", 1, 8, -1), Token(LParen, "(", 1, 11, -1), Token(Identifier, "a", 1, 12, 2), Token(Operator, "XOR", 1, 14, -1), Token(Identifier, "b", 1, 18, 3), Token(RParen, ")", 1, 19, -1), Token(Operator, "OR", 1, 21, -1), Token(LParen, "(", 1, 24, -1), Token(Operator, "NOT", 1, 25, -1), Token(LParen, "(", 1, 29, -1), Token(Identifier, "c", 1, 30, 4), Token(Operator, "AND", 1, 32, -1), Token(Identifier, "d", 1, 36, 5), Token(RParen, ")", 1, 37, -1), Token(RParen, ")", 1, 38, -1)], []));
  }

  lemma ScanComplexExpressionUnit1(input: string)
    requires Spells(input, ComplexExpressionText) && '\n' !in ComplexExpressionText
    ensures Run(input, State(0, 1, [], [])) == Run(input, State(6, 2, [Token(Identifier, "result", 1, 1, 1)], []))
  {
    NewNameUnit(input, ComplexExpressionText, State(0, 1, [], []), 0, "result", State(6, 2, [Token(Identifier, "result", 1, 1, 1)], []));
  }

  lemma ScanComplexExpressionUnit2(input: string)
    requires Spells(input, ComplexExpressionText) && '\n' !in ComplexExpressionText
    ensures Run(input, State(6, 2, [Token(Identifier, "result", 1, 1, 1)], [])) == Run(input, State(7, 2, [Token(Identifier, "result", 1, 1, 1)], []))
  {
    BlankUnit(input, ComplexExpressionText, State(6, 2, [Token(Identifier, "result", 1, 1, 1)], []), 6, State(7, 2, [Token(Identifier, "result", 1, 1, 1)], []));
  }

  lemma ScanComplexExpressionUnit3(input: string)
    requires Spells(input, ComplexExpressionText) && '\n' !in ComplexExpressionText
    ensures Run(input, State(7, 2, [Token(Identifier, "result", 1, 1, 1)], [])) == Run(input, State(9, 2, [Token(Identifier, "result", 1, 1, 1), Token(Assign, ":=", 1, 8, -1)], []))
  {
    AssignUnit(input, ComplexExpressionText, State(7, 2, [Token(Identifier, "result", 1, 1, 1)], []), 7, State(9, 2, [Token(Identifier, "result", 1, 1, 1), Token(Assign, ":=", 1, 8, -1)], []));
  }

  lemma ScanComplexExpressionUnit4(input: string)
    requires Spells(input, ComplexExpressionText) && '\n' !in ComplexExpressionText
    ensures Run(input, State(9, 2, [Token(Identifier, "result", 1, 1, 1), Token(Assign, ":=", 1, 8, -1)], [])) == Run(input, State(10, 2, [Token(Identifier, "result", 1, 1, 1), Token(Assign, ":=", 1, 8, -1)], []))
  {
    BlankUnit(input, ComplexExpressionText, State(9, 2, [Token(Identifier, "result", 1, 1, 1), Token(Assign, ":=", 1, 8, -1)], []), 9, State(10, 2, [Token(Identifier, "result", 1, 1, 1), Token(Assign, ":=", 1, 8, -1)], []));
  }

  lemma ScanComplexExpressionUnit5(input: string)
    requires Spells(input, ComplexExpressionText) && '\n' !in ComplexExpressionText
    ensures Run(input, State(10, 2, [Token(Identifier, "result", 1, 1, 1), Token(Assign, ":=", 1, 8, -1)], [])) == Run(input, State(11, 2, [Token(Identifier, "result", 1, 1, 1), Token(Assign, ":=", 1, 8, -1), Token(LParen, "(", 1, 11, -1)], []))
  {
    OpenUnit(input, ComplexExpressionText, State(10, 2, [Token(Identifier, "result", 1, 1, 1), Token(Assign, ":=", 1, 8, -1)], []), 10, State(11, 2, [Token(Identifier, "result", 1, 1, 1), Token(Assign, ":=", 1, 8, -1), Token(LParen, "(", 1, 11, -1)], []));
  }

  lemma ScanComplexExpressionUnit6(input: string)
    requires Spells(input, ComplexExpressionText) && '\n' !in ComplexExpressionText
    ensures Run(input, State(11, 2, [Token(Identifier, "result", 1, 1, 1), Token(Assign, ":=", 1, 8, -1), Token(LParen, "(", 1, 11, -1)], [])) == Run(input, State(12, 3, [Token(Identifier, "result", 1, 1, 1), Token(Assign, ":=", 1, 8, -1), Token(LParen, "(", 1, 11, -1), Token(Identifier, "a", 1, 12, 2)], []))
  {
    NewNameUnit(input, ComplexExpressionText, State(11, 2, [Token(Identifier, "result", 1, 1, 1), Token(Assign, ":=", 1, 8, -1), Token(LParen, "(", 1, 11, -1)], []), 11, "a", State(12, 3, [Token(Identifier, "result", 1, 1, 1), Token(Assign, ":=", 1, 8, -1), Token(LParen, "(", 1, 11, -1), Token(Identifier, "a", 1, 12, 2)], []));
  }

  lemma ScanComplexExpressionUnit7(input: string)
    requires Spells(input, ComplexExpressionText) && '\n' !in ComplexExpressionText
    ensures Run(input, State(12, 3, [Token(Identifier, "result", 1, 1, 1), Token(Assign, ":=", 1, 8, -1), Token(LParen, "(", 1, 11, -1), Token(Identifier, "a", 1, 12, 2)], [])) == Run(input, State(13, 3, [Token(Identifier, "result", 1, 1, 1), Token(Assign, ":=", 1, 8, -1), Token(LParen, "(", 1, 11, -1), Token(Identifier, "a", 1, 12, 2)], []))
  {
    BlankUnit(input, ComplexExpressionText, State(12, 3, [Token(Identifier, "result", 1, 1, 1), Token(Assign, ":=", 1, 8, -1), Token(LParen, "(", 1, 11, -1), Token(Identifier, "a", 1, 12, 2)], []), 12, State(13, 3, [Token(Identifier, "result", 1, 1, 1), Token(Assign, ":=", 1, 8, -1), Token(LParen, "(", 1, 11, -1), Token(Identifier, "a", 1, 12, 2)], []));
  }

  lemma ScanComplexExpressionUnit8(input: string)
    requires Spells(input, ComplexExpressionText) && '\n' !in ComplexExpressionText
    ensures Run(input, State(13, 3, [Token(Identifier, "result", 1, 1, 1), Token(Assign, ":=", 1, 8, -1), Token(LParen, "(", 1, 11, -1), Token(Identifier, "a", 1, 12, 2)], [])) == Run(input, State(16, 3, [Token(Identifier, "result", 1, 1, 1), Token(Assign, ":=", 1, 8, -1), Token(LParen, "(", 1, 11, -1), Token(Identifier, "a", 1, 12, 2), Token(Operator, "XOR", 1, 14, -1)], []))
  {
    KeywordUnit(input, ComplexExpressionText, State(13, 3, [Token(Identifier, "result", 1, 1, 1), Token(Assign, ":=", 1, 8, -1), Token(LParen, "(", 1, 11, -1), Token(Identifier, "a", 1, 12, 2)], []), 13, "XOR", Operator, "XOR", NoValue, State(16, 3, [Token(Identifier, "result", 1, 1, 1), Token(Assign, ":=", 1, 8, -1), Token(LParen, "(", 1, 11, -1), Token(Identifier, "a", 1, 12, 2), Token(Operator, "XOR", 1, 14, -1)], []));
  }

  lemma ScanComplexExpressionUnit9(input: string)
    requires Spells(input, ComplexExpressionText) && '\n' !in ComplexExpressionText
    ensures Run(input, State(16, 3, [Token(Identifier, "result", 1, 1, 1), Token(Assign, ":=", 1, 8, -1), Token(LParen, "(", 1, 11, -1), Token(Identifier, "a", 1, 12, 2), Token(Operator, "XOR", 1, 14, -1)], [])) == Run(input, State(17, 3, [Token(Identifier, "result", 1, 1, 1), Token(Assign, ":=", 1, 8, -1), Token(LParen, "(", 1, 11, -1), Token(Identifier, "a", 1, 12, 2), Token(Operator, "XOR", 1, 14, -1)], []))
  {
    BlankUnit(input, ComplexExpressionText, State(16, 3, [Token(Identifier, "result", 1, 1, 1), Token(Assign, ":=", 1, 8, -1), Token(LParen, "(", 1, 11, -1), Token(Identifier, "a", 1, 12, 2), Token(Operator, "XOR", 1, 14, -1)], []), 16, State(17, 3, [Token(Identifier, "result", 1, 1, 1), Token(Assign, ":=", 1, 8, -1), Token(LParen, "(", 1, 11, -1), Token(Identifier, "a", 1, 12, 2), Token(Operator, "XOR", 1, 14, -1)], []));
  }

  lemma ScanComplexExpressionUnit10(input: string)
    requires Spells(input, ComplexExpressionText) && '\n' !in ComplexExpressionText
    ensures Run(input, State(17, 3, [Token(Identifier, "result", 1, 1, 1), Token(Assign, ":=", 1, 8, -1), Token(LParen, "(", 1, 11, -1), Token(Identifier, "a", 1, 12, 2), Token(Operator, "XOR", 1, 14, -1)], [])) == Run(input, State(18, 4, [Token(Identifier, "result", 1, 1, 1), Token(Assign, ":=", 1, 8, -1), Token(LParen, "(", 1, 11, -1), Token(Identifier, "a", 1, 12, 2), Token(Operator, "XOR", 1, 14, -1), Token(Identifier, "b", 1, 18, 3)], []))
  {
    NewNameUnit(input, ComplexExpressionText, State(17, 3, [Token(Identifier, "result", 1, 1, 1), Token(Assign, ":=", 1, 8, -1), Token(LParen, "(", 1, 11, -1), Token(Identifier, "a", 1, 12, 2), Token(Operator, "XOR", 1, 14, -1)], []), 17, "b", State(18, 4, [Token(Identifier, "result", 1, 1, 1), Token(Assign, ":=", 1, 8, -1), Token(LParen, "(", 1, 11, -1), Token(Identifier, "a", 1, 12, 2), Token(Operator, "XOR", 1, 14, -1), Token(Identifier, "b", 1, 18, 3)], []));
  }

  lemma ScanComplexExpressionUnit11(input: string)
    requires Spells(input, ComplexExpressionText) && '\n' !in ComplexExpressionText
    ensures Run(input, State(18, 4, [Token(Identifier, "result", 1, 1, 1), Token(Assign, ":=", 1, 8, -1), Token(LParen, "(", 1, 11, -1), Token(Identifier, "a", 1, 12, 2), Token(Operator, "XOR", 1, 14, -1), Token(Identifier, "b", 1, 18, 3)], [])) == Run(input, State(19, 4, [Token(Identifier, "result", 1, 1, 1), Token(Assign, ":=", 1, 8, -1), Token(LParen, "(", 1, 11, -1), Token(Identifier, "a", 1, 12, 2), Token(Operator, "XOR", 1, 14, -1), Token(Identifier, "b", 1, 18, 3), Token(RParen, ")", 1, 19, -1)], []))
  {
    CloseUnit(input, ComplexExpressionText, State(18, 4, [Token(Identifier, "result", 1, 1, 1), Token(Assign, ":=", 1, 8, -1), Token(LParen, "(", 1, 11, -1), Token(Identifier, "a", 1, 12, 2), Token(Operator, "XOR", 1, 14, -1), Token(Identifier, "b", 1, 18, 3)], []), 18, State(19, 4, [Token(Identifier, "result", 1, 1, 1), Token(Assign, ":=", 1, 8, -1), Token(LParen, "(", 1, 11, -1), Token(Identifier, "a", 1, 12, 2), Token(Operator, "XOR", 1, 14, -1), Token(Identifier, "b", 1, 18, 3), Token(RParen, ")", 1, 19, -1)], []));
  }

  lemma ScanComplexExpressionUnit12(input: string)
    requires Spells(input, ComplexExpressionText) && '\n' !in ComplexExpressionText
    ensures Run(input, State(19, 4, [Token(Identifier, "result", 1, 1, 1), Token(Assign, ":=", 1, 8, -1), Token(LParen, "(", 1, 11, -1), Token(Identifier, "a", 1, 12, 2), Token(Operator, "XOR", 1, 14, -1), Token(Identifier, "b", 1, 18, 3), Token(RParen, ")", 1, 19, -1)], [])) == Run(input, State(20, 4, [Token(Identifier, "result", 1, 1, 1), Token(Assign, ":=", 1, 8, -1), Token(LParen, "(", 1, 11, -1), Token(Identifier, "a", 1, 12, 2), Token(Operator, "XOR", 1, 14, -1), Token(Identifier, "b", 1, 18, 3), Token(RParen, ")", 1, 19, -1)], []))
  {
    BlankUnit(input, ComplexExpressionText, State(19, 4, [Token(Identifier, "result", 1, 1, 1), Token(Assign, ":=", 1, 8, -1), Token(LParen, "(", 1, 11, -1), Token(Identifier, "a", 1, 12, 2), Token(Operator, "XOR", 1, 14, -1), Token(Identifier, "b", 1, 18, 3), Token(RParen, ")", 1, 19, -1)], []), 19, State(20, 4, [Token(Identifier, "result", 1, 1, 1), Token(Assign, ":=", 1, 8, -1), Token(LParen, "(", 1, 11, -1), Token(Identifier, "a", 1, 12, 2), Token(Operator, "XOR", 1, 14, -1), Token(Identifier, "b", 1, 18, 3), Token(RParen, ")", 1, 19, -1)], []));
  }

  lemma ScanComplexExpressionUnit13(input: string)
    requires Spells(input, ComplexExpressionText) && '\n' !in ComplexExpressionText
    ensures Run(input, State(20, 4, [Token(Identifier, "result", 1, 1, 1), Token(Assign, ":=", 1, 8, -1), Token(LParen, "(", 1, 11, -1), Token(Identifier, "a", 1, 12, 2), Token(Operator, "XOR", 1, 14, -1), Token(Identifier, "b", 1, 18, 3), Token(RParen, ")", 1, 19, -1)], [])) == Run(input, State(22, 4, [Token(Identifier, "result", 1, 1, 1), Token(Assign, ":=", 1, 8, -1), Token(LParen, "(", 1, 11, -1), Token(Identifier, "a", 1, 12, 2), Token(Operator, "XOR", 1, 14, -1), Token(Identifier, "b", 1, 18, 3), Token(RParen, ")", 1, 19, -1), Token(Operator, "OR", 1, 21, -1)], []))
  {
    KeywordUnit(input, ComplexExpressionText, State(20, 4, [Token(Identifier, "result", 1, 1, 1), Token(Assign, ":=", 1, 8, -1), Token(LParen, "(", 1, 11, -1), Token(Identifier, "a", 1, 12, 2), Token(Operator, "XOR", 1, 14, -1), Token(Identifier, "b", 1, 18, 3), Token(RParen, ")", 1, 19, -1)], []), 20, "OR", Operator, "OR", NoValue, State(22, 4, [Token(Identifier, "result", 1, 1, 1), Token(Assign, ":=", 1, 8, -1), Token(LParen, "(", 1, 11, -1), Token(Identifier, "a", 1, 12, 2), Token(Operator, "XOR", 1, 14, -1), Token(Identifier, "b", 1, 18, 3), Token(RParen, ")", 1, 19, -1), Token(Operator, "OR", 1, 21, -1)], []));
  }

  lemma ScanComplexExpressionUnit14(input: string)
    requires Spells(input, ComplexExpressionText) && '\n' !in ComplexExpressionText
    ensures Run(input, State(22, 4, [Token(Identifier, "result", 1, 1, 1), Token(Assign, ":=", 1, 8, -1), Token(LParen, "(", 1, 11, -1), Token(Identifier, "a", 1, 12, 2), Token(Operator, "XOR", 1, 14, -1), Token(Identifier, "b", 1, 18, 3), Token(RParen, ")", 1, 19, -1), Token(Operator, "OR", 1, 21, -1)], [])) == Run(input, State(23, 4, [Token(Identifier, "result", 1, 1, 1), Token(Assign, ":=", 1, 8, -1), Token(LParen, "(", 1, 11, -1), Token(Identifier, "a", 1, 12, 2), Token(Operator, "XOR", 1, 14, -1), Token(Identifier, "b", 1, 18, 3), Token(RParen, ")", 1, 19, -1), Token(Operator, "OR", 1, 21, -1)], []))
  {
    BlankUnit(input, ComplexExpressionText, State(22, 4, [Token(Identifier, "result", 1, 1, 1), Token(Assign, ":=", 1, 8, -1), Token(LParen, "(", 1, 11, -1), Token(Identifier, "a", 1, 12, 2), Token(Operator, "XOR", 1, 14, -1), Token(Identifier, "b", 1, 18, 3), Token(RParen, ")", 1, 19, -1), Token(Operator, "OR", 1, 21, -1)], []), 22, State(23, 4, [Token(Identifier, "result", 1, 1, 1), Token(Assign, ":=", 1, 8, -1), Token(LParen, "(", 1, 11, -1), Token(Identifier, "a", 1, 12, 2), Token(Operator, "XOR", 1, 14, -1), Token(Identifier, "b", 1, 18, 3), Token(RParen, ")", 1, 19, -1), Token(Operator, "OR", 1, 21, -1)], []));
  }

  lemma ScanComplexExpressionUnit15(input: string)
    requires Spells(input, ComplexExpressionText) && '\n' !in ComplexExpressionText
    ensures Run(input, State(23, 4, [Token(Identifier, "result", 1, 1, 1), Token(Assign, ":=", 1, 8, -1), Token(LParen, "(", 1, 11, -1), Token(Identifier, "a", 1, 12, 2), Token(Operator, "XOR", 1, 14, -1), Token(Identifier, "b", 1, 18, 3), Token(RParen, ")", 1, 19, -1), Token(Operator, "OR", 1, 21, -1)], [])) == Run(input, State(24, 4, [Token(Identifier, "result", 1, 1, 1), Token(Assign, ":=", 1, 8, -1), Token(LParen, "(", 1, 11, -1), Token(Identifier, "a", 1, 12, 2), Token(Operator, "XOR", 1, 14, -1), Token(Identifier, "b", 1, 18, 3), Token(RParen, ")", 1, 19, -1), Token(Operator, "OR", 1, 21, -1), Token(LParen, "(", 1, 24, -1)], []))
  {
    OpenUnit(input, ComplexExpressionText, State(23, 4, [Token(Identifier, "result", 1, 1, 1), Token(Assign, ":=", 1, 8, -1), Token(LParen, "(", 1, 11, -1), Token(Identifier, "a", 1, 12, 2), Token(Operator, "XOR", 1, 14, -1), Token(Identifier, "b", 1, 18, 3), Token(RParen, ")", 1, 19, -1), Token(Operator, "OR", 1, 21, -1)], []), 23, State(24, 4, [Token(Identifier, "result", 1, 1, 1), Token(Assign, ":=", 1, 8, -1), Token(LParen, "(", 1, 11, -1), Token(Identifier, "a", 1, 12, 2), Token(Operator, "XOR", 1, 14, -1), Token(Identifier, "b", 1, 18, 3), Token(RParen, ")", 1, 19, -1), Token(Operator, "OR", 1, 21, -1), Token(LParen, "(", 1, 24, -1)], []));
  }

  lemma ScanComplexExpressionUnit16(input: string)
    requires Spells(input, ComplexExpressionText) && '\n' !in ComplexExpressionText
    ensures Run(input, State(24, 4, [Token(Identifier, "result", 1, 1, 1), Token(Assign, ":=", 1, 8, -1), Token(LParen, "(", 1, 11, -1), Token(Identifier, "a", 1, 12, 2), Token(Operator, "XOR", 1, 14, -1), Token(Identifier, "b", 1, 18, 3), Token(RParen, ")", 1, 19, -1), Token(Operator, "OR", 1, 21, -1), Token(LParen, "(", 1, 24, -1)], [])) == Run(input, State(27, 4, [Token(Identifier, "result", 1, 1, 1), Token(Assign, ":=", 1, 8, -1), Token(LParen, "(", 1, 11, -1), Token(Identifier, "a", 1, 12, 2), Token(Operator, "XOR", 1, 14, -1), Token(Identifier, "b", 1, 18, 3), Token(RParen, ")", 1, 19, -1), Token(Operator, "OR", 1, 21, -1), Token(LParen, "(", 1, 24, -1), Token(Operator, "NOT", 1, 25, -1)], []))
  {
    KeywordUnit(input, ComplexExpressionText, State(24, 4, [Token(Identifier, "result", 1, 1, 1), Token(Assign, ":=", 1, 8, -1), Token(LParen, "(", 1, 11, -1), Token(Identifier, "a", 1, 12, 2), Token(Operator, "XOR", 1, 14, -1), Token(Identifier, "b", 1, 18, 3), Token(RParen, ")", 1, 19, -1), Token(Operator, "OR", 1, 21, -1), Token(LParen, "(", 1, 24, -1)], []), 24, "NOT", Operator, "NOT", NoValue, State(27, 4, [Token(Identifier, "result", 1, 1, 1), Token(Assign, ":=", 1, 8, -1), Token(LParen, "(", 1, 11, -1), Token(Identifier, "a", 1, 12, 2), Token(Operator, "XOR", 1, 14, -1), Token(Identifier, "b", 1, 18, 3), Token(RParen, ")", 1, 19, -1), Token(Operator, "OR", 1, 21, -1), Token(LParen, "(", 1, 24, -1), Token(Operator, "NOT", 1, 25, -1)], []));
  }

  lemma ScanComplexExpressionUnit17(input: string)
    requires Spells(input, ComplexExpressionText) && '\n' !in ComplexExpressionText
    ensures Run(input, State(27, 4, [Token(Identifier, "result", 1, 1, 1), Token(Assign, ":=", 1, 8, -1), Token(LParen, "(", 1, 11, -1), Token(Identifier, "a", 1, 12, 2), Token(Operator, "XOR", 1, 14, -1), Token(Identifier, "b", 1, 18, 3), Token(RParen, ")", 1, 19, -1), Token(Operator, "OR", 1, 21, -1), Token(LParen, "(", 1, 24, -1), Token(Operator, "NOT", 1, 25, -1)], [])) == Run(input, State(28, 4, [Token(Identifier, "result", 1, 1, 1), Token(Assign, ":=", 1, 8, -1), Token(LParen, "(", 1, 11, -1), Token(Identifier, "a", 1, 12, 2), Token(Operator, "XOR", 1, 14, -1), Token(Identifier, "b", 1, 18, 3), Token(RParen, ")", 1, 19, -1), Token(Operator, "OR", 1, 21, -1), Token(LParen, "(", 1, 24, -1), Token(Operator, "NOT", 1, 25, -1)], []))
  {
    BlankUnit(input, ComplexExpressionText, State(27, 4, [Token(Identifier, "result", 1, 1, 1), Token(Assign, ":=", 1, 8, -1), Token(LParen, "(", 1, 11, -1), Token(Identifier, "a", 1, 12, 2), Token(Operator, "XOR", 1, 14, -1), Token(Identifier, "b", 1, 18, 3), Token(RParen, ")", 1, 19, -1), Token(Operator, "OR", 1, 21, -1), Token(LParen, "(", 1, 24, -1), Token(Operator, "NOT", 1, 25, -1)], []), 27, State(28, 4, [Token(Identifier, "result", 1, 1, 1), Token(Assign, ":=", 1, 8, -1), Token(LParen, "(", 1, 11, -1), Token(Identifier, "a", 1, 12, 2), Token(Operator, "XOR", 1, 14, -1), Token(Identifier, "b", 1, 18, 3), Token(RParen, ")", 1, 19, -1), Token(Operator, "OR", 1, 21, -1), Token(LParen, "(", 1, 24, -1), Token(Operator, "NOT", 1, 25, -1)], []));
  }

  lemma ScanComplexExpressionUnit18(input: string)
    requires Spells(input, ComplexExpressionText) && '\n' !in ComplexExpressionText
    ensures Run(input, State(28, 4, [Token(Identifier, "result", 1, 1, 1), Token(Assign, ":=", 1, 8, -1), Token(LParen, "(", 1, 11, -1), Token(Identifier, "a", 1, 12, 2), Token(Operator, "XOR", 1, 14, -1), Token(Identifier, "b", 1, 18, 3), Token(RParen, ")", 1, 19, -1), Token(Operator, "OR", 1, 21, -1), Token(LParen, "(", 1, 24, -1), Token(Operator, "NOT", 1, 25, -1)], [])) == Run(input, State(29, 4, [Token(Identifier, "result", 1, 1, 1), Token(Assign, ":=", 1, 8, -1), Token(LParen, "(", 1, 11, -1), Token(Identifier, "a", 1, 12, 2), Token(Operator, "XOR", 1, 14, -1), Token(Identifier, "b", 1, 18, 3), Token(RParen, ")", 1, 19, -1), Token(Operator, "OR", 1, 21, -1), Token(LParen, "(", 1, 24, -1), Token(Operator, "NOT", 1, 25, -1), Token(LParen, "(", 1, 29, -1)], []))
  {
    OpenUnit(input, ComplexExpressionText, State(28, 4, [Token(Identifier, "result", 1, 1, 1), Token(Assign, ":=", 1, 8, -1), Token(LParen, "(", 1, 11, -1), Token(Identifier, "a", 1, 12, 2), Token(Operator, "XOR", 1, 14, -1), Token(Identifier, "b", 1, 18, 3), Token(RParen, ")", 1, 19, -1), Token(Operator, "OR", 1, 21, -1), Token(LParen, "(", 1, 24, -1), Token(Operator, "NOT", 1, 25, -1)], []), 28, State(29, 4, [Token(Identifier, "result", 1, 1, 1), Token(Assign, ":=", 1, 8, -1), Token(LParen, "(", 1, 11, -1), Token(Identifier, "a", 1, 12, 2), Token(Operator, "XOR", 1, 14, -1), Token(Identifier, "b", 1, 18, 3), Token(RParen, ")", 1, 19, -1), Token(Operator, "OR", 1, 21, -1), Token(LParen, "(", 1, 24, -1), Token(Operator, "NOT", 1, 25, -1), Token(LParen, "(", 1, 29, -1)], []));
  }

  lemma ScanComplexExpressionUnit19(input: string)
    requires Spells(input, ComplexExpressionText) && '\n' !in ComplexExpressionText
    ensures Run(input, State(29, 4, [Token(Identifier, "result", 1, 1, 1), Token(Assign, ":=", 1, 8, -1), Token(LParen, "(", 1, 11, -1), Token(Identifier, "a", 1, 12, 2), Token(Operator, "XOR", 1, 14, -1), Token(Identifier, "b", 1, 18, 3), Token(RParen, ")", 1, 19, -1), Token(Operator, "OR", 1, 21, -1), Token(LParen, "(", 1, 24, -1), Token(Operator, "NOT", 1, 25, -1), Token(LParen, "(", 1, 29, -1)], [])) == Run(input, State(30, 5, [Token(Identifier, "result", 1, 1, 1), Token(Assign, ":=", 1, 8, -1), Token(LParen, "(", 1, 11, -1), Token(Identifier, "a", 1, 12, 2), Token(Operator, "XOR", 1, 14, -1), Token(Identifier, "b", 1, 18, 3), Token(RParen, ")", 1, 19, -1), Token(Operator, "OR", 1, 21, -1), Token(LParen, "(", 1, 24, -1), Token(Operator, "NOT", 1, 25, -1), Token(LParen, "(", 1, 29, -1), Token(Identifier, "c", 1, 30, 4)], []))
  {
    NewNameUnit(input, ComplexExpressionText, State(29, 4, [Token(Identifier, "result", 1, 1, 1), Token(Assign, ":=", 1, 8, -1), Token(LParen, "(", 1, 11, -1), Token(Identifier, "a", 1, 12, 2), Token(Operator, "XOR", 1, 14, -1), Token(Identifier, "b", 1, 18, 3), Token(RParen, ")", 1, 19, -1), Token(Operator, "OR", 1, 21, -1), Token(LParen, "(", 1, 24, -1), Token(Operator, "NOT", 1, 25, -1), Token(LParen, "(", 1, 29, -1)], []), 29, "c", State(30, 5, [Token(Identifier, "result", 1, 1, 1), Token(Assign, ":=", 1, 8, -1), Token(LParen, "(", 1, 11, -1), Token(Identifier, "a", 1, 12, 2), Token(Operator, "XOR", 1, 14, -1), Token(Identifier, "b", 1, 18, 3), Token(RParen, ")", 1, 19, -1), Token(Operator, "OR", 1, 21, -1), Token(LParen, "(", 1, 24, -1), Token(Operator, "NOT", 1, 25, -1), Token(LParen, "(", 1, 29, -1), Token(Identifier, "c", 1, 30, 4)], []));
  }

  lemma ScanComplexExpressionUnit20(input: string)
    requires Spells(input, ComplexExpressionText) && '\n' !in ComplexExpressionText
    ensures Run(input, State(30, 5, [Token(Identifier, "result", 1, 1, 1), Token(Assign, ":=", 1, 8, -1), Token(LParen, "(", 1, 11, -1), Token(Identifier, "a", 1, 12, 2), Token(Operator, "XOR", 1, 14, -1), Token(Identifier, "b", 1, 18, 3), Token(RParen, ")", 1, 19, -1), Token(Operator, "OR", 1, 21, -1), Token(LParen, "(", 1, 24, -1), Token(Operator, "NOT", 1, 25, -1), Token(LParen, "(", 1, 29, -1), Token(Identifier, "c", 1, 30, 4)], [])) == Run(input, State(31, 5, [Token(Identifier, "result", 1, 1, 1), Token(Assign, ":=", 1, 8, -1), Token(LParen, "(", 1, 11, -1), Token(Identifier, "a", 1, 12, 2), Token(Operator, "XOR", 1, 14, -1), Token(Identifier, "b", 1, 18, 3), Token(RParen, ")", 1, 19, -1), Token(Operator, "OR", 1, 21, -1), Token(LParen, "(", 1, 24, -1), Token(Operator, "NOT", 1, 25, -1), Token(LParen, "(", 1, 29, -1), Token(Identifier, "c", 1, 30, 4)], []))
  {
    BlankUnit(input, ComplexExpressionText, State(30, 5, [Token(Identifier, "result", 1, 1, 1), Token(Assign, ":=", 1, 8, -1), Token(LParen, "(", 1, 11, -1), Token(Identifier, "a", 1, 12, 2), Token(Operator, "XOR", 1, 14, -1), Token(Identifier, "b", 1, 18, 3), Token(RParen, ")", 1, 19, -1), Token(Operator, "OR", 1, 21, -1), Token(LParen, "(", 1, 24, -1), Token(Operator, "NOT", 1, 25, -1), Token(LParen, "(", 1, 29, -1), Token(Identifier, "c", 1, 30, 4)], []), 30, State(31, 5, [Token(Identifier, "result", 1, 1, 1), Token(Assign, ":=", 1, 8, -1), Token(LParen, "(", 1, 11, -1), Token(Identifier, "a", 1, 12, 2), Token(Operator, "XOR", 1, 14, -1), Token(Identifier, "b", 1, 18, 3), Token(RParen, ")", 1, 19, -1), Token(Operator, "OR", 1, 21, -1), Token(LParen, "(", 1, 24, -1), Token(Operator, "NOT", 1, 25, -1), Token(LParen, "(", 1, 29, -1), Token(Identifier, "c", 1, 30, 4)], []));
  }

  lemma ScanComplexExpressionUnit21(input: string)
    requires Spells(input, ComplexExpressionText) && '\n' !in ComplexExpressionText
    ensures Run(input, State(31, 5, [Token(Identifier, "result", 1, 1, 1), Token(Assign, ":=", 1, 8, -1), Token(LParen, "(", 1, 11, -1), Token(Identifier, "a", 1, 12, 2), Token(Operator, "XOR", 1, 14, -1), Token(Identifier, "b", 1, 18, 3), Token(RParen, ")", 1, 19, -1), Token(Operator, "OR", 1, 21, -1), Token(LParen, "(", 1, 24, -1), Token(Operator, "NOT", 1, 25, -1), Token(LParen, "(", 1, 29, -1), Token(Identifier, "c", 1, 30, 4)], [])) == Run(input, State(34, 5, [Token(Identifier, "result", 1, 1, 1), Token(Assign, ":=", 1, 8, -1), Token(LParen, "(", 1, 11, -1), Token(Identifier, "a", 1, 12, 2), Token(Operator, "XOR", 1, 14, -1), Token(Identifier, "b", 1, 18, 3), Token(RParen, ")", 1, 19, -1), Token(Operator, "OR", 1, 21, -1), Token(LParen, "(", 1, 24, -1), Token(Operator, "NOT", 1, 25, -1), Token(LParen, "(", 1, 29, -1), Token(Identifier, "c", 1, 30, 4), Token(Operator, "AND", 1, 32, -1)], []))
  {
    KeywordUnit(input, ComplexExpressionText, State(31, 5, [Token(Identifier, "result", 1, 1, 1), Token(Assign, ":=", 1, 8, -1), Token(LParen, "(", 1, 11, -1), Token(Identifier, "a", 1, 12, 2), Token(Operator, "XOR", 1, 14, -1), Token(Identifier, "b", 1, 18, 3), Token(RParen, ")", 1, 19, -1), Token(Operator, "OR", 1, 21, -1), Token(LParen, "(", 1, 24, -1), Token(Operator, "NOT", 1, 25, -1), Token(LParen, "(", 1, 29, -1), Token(Identifier, "c", 1, 30, 4)], []), 31, "AND", Operator, "AND", NoValue, State(34, 5, [Token(Identifier, "result", 1, 1, 1), Token(Assign, ":=", 1, 8, -1), Token(LParen, "(", 1, 11, -1), Token(Identifier, "a", 1, 12, 2), Token(Operator, "XOR", 1, 14, -1), Token(Identifier, "b", 1, 18, 3), Token(RParen, ")", 1, 19, -1), Token(Operator, "OR", 1, 21, -1), Token(LParen, "(", 1, 24, -1), Token(Operator, "NOT", 1, 25, -1), Token(LParen, "(", 1, 29, -1), Token(Identifier, "c", 1, 30, 4), Token(Operator, "AND", 1, 32, -1)], []));
  }

  lemma ScanComplexExpressionUnit22(input: string)
    requires Spells(input, ComplexExpressionText) && '\n' !in ComplexExpressionText
    ensures Run(input, State(34, 5, [Token(Identifier, "result", 1, 1, 1), Token(Assign, ":=", 1, 8, -1), Token(LParen, "(", 1, 11, -1), Token(Identifier, "a", 1, 12, 2), Token(Operator, "XOR", 1, 14, -1), Token(Identifier, "b", 1, 18, 3), Token(RParen, ")", 1, 19, -1), Token(Operator, "OR", 1, 21, -1), Token(LParen, "(", 1, 24, -1), Token(Operator, "NOT", 1, 25, -1), Token(LParen, "(", 1, 29, -1), Token(Identifier, "c", 1, 30, 4), Token(Operator, "AND", 1, 32, -1)], [])) == Run(input, State(35, 5, [Token(Identifier, "result", 1, 1, 1), Token(Assign, ":=", 1, 8, -1), Token(LParen, "(", 1, 11, -1), Token(Identifier, "a", 1, 12, 2), Token(Operator, "XOR", 1, 14, -1), Token(Identifier, "b", 1, 18, 3), Token(RParen, ")", 1, 19, -1), Token(Operator, "OR", 1, 21, -1), Token(LParen, "(", 1, 24, -1), Token(Operator, "NOT", 1, 25, -1), Token(LParen, "(", 1, 29, -1), Token(Identifier, "c", 1, 30, 4), Token(Operator, "AND", 1, 32, -1)], []))
  {
    BlankUnit(input, ComplexExpressionText, State(34, 5, [Token(Identifier, "result", 1, 1, 1), Token(Assign, ":=", 1, 8, -1), Token(LParen, "(", 1, 11, -1), Token(Identifier, "a", 1, 12, 2), Token(Operator, "XOR", 1, 14, -1), Token(Identifier, "b", 1, 18, 3), Token(RParen, ")", 1, 19, -1), Token(Operator, "OR", 1, 21, -1), Token(LParen, "(", 1, 24, -1), Token(Operator, "NOT", 1, 25, -1), Token(LParen, "(", 1, 29, -1), Token(Identifier, "c", 1, 30, 4), Token(Operator, "AND", 1, 32, -1)], []), 34, State(35, 5, [Token(Identifier, "result", 1, 1, 1), Token(Assign, ":=", 1, 8, -1), Token(LParen, "(", 1, 11, -1), Token(Identifier, "a", 1, 12, 2), Token(Operator, "XOR", 1, 14, -1), Token(Identifier, "b", 1, 18, 3), Token(RParen, ")", 1, 19, -1), Token(Operator, "OR", 1, 21, -1), Token(LParen, "(", 1, 24, -1), Token(Operator, "NOT", 1, 25, -1), Token(LParen, "(", 1, 29, -1), Token(Identifier, "c", 1, 30, 4), Token(Operator, "AND", 1, 32, -1)], []));
  }

  lemma ScanComplexExpressionUnit23(input: string)
    requires Spells(input, ComplexExpressionText) && '\n' !in ComplexExpressionText
    ensures Run(input, State(35, 5, [Token(Identifier, "result", 1, 1, 1), Token(Assign, ":=", 1, 8, -1), Token(LParen, "(", 1, 11, -1), Token(Identifier, "a", 1, 12, 2), Token(Operator, "XOR", 1, 14, -1), Token(Identifier, "b", 1, 18, 3), Token(RParen, ")", 1, 19, -1), Token(Operator, "OR", 1, 21, -1), Token(LParen, "(", 1, 24, -1), Token(Operator, "NOT", 1, 25, -1), Token(LParen, "(", 1, 29, -1), Token(Identifier, "c", 1, 30, 4), Token(Operator, "AND", 1, 32, -1)], [])) == Run(input, State(36, 6, [Token(Identifier, "result", 1, 1, 1), Token(Assign, ":=", 1, 8, -1), Token(LParen, "(", 1, 11, -1), Token(Identifier, "a", 1, 12, 2), Token(Operator, "XOR", 1, 14, -1), Token(Identifier, "b", 1, 18, 3), Token(RParen, ")", 1, 19, -1), Token(Operator, "OR", 1, 21, -1), Token(LParen, "(", 1, 24, -1), Token(Operator, "NOT", 1, 25, -1), Token(LParen, "(", 1, 29, -1), Token(Identifier, "c", 1, 30, 4), Token(Operator, "AND", 1, 32, -1), Token(Identifier, "d", 1, 36, 5)], []))
  {
    NewNameUnit(input, ComplexExpressionText, State(35, 5, [Token(Identifier, "result", 1, 1, 1), Token(Assign, ":=", 1, 8, -1), Token(LParen, "(", 1, 11, -1), Token(Identifier, "a", 1, 12, 2), Token(Operator, "XOR", 1, 14, -1), Token(Identifier, "b", 1, 18, 3), Token(RParen, ")", 1, 19, -1), Token(Operator, "OR", 1, 21, -1), Token(LParen, "(", 1, 24, -1), Token(Operator, "NOT", 1, 25, -1), Token(LParen, "(", 1, 29, -1), Token(Identifier, "c", 1, 30, 4), Token(Operator, "AND", 1, 32, -1)], []), 35, "d", State(36, 6, [Token(Identifier, "result", 1, 1, 1), Token(Assign, ":=", 1, 8, -1), Token(LParen, "(", 1, 11, -1), Token(Identifier, "a", 1, 12, 2), Token(Operator, "XOR", 1, 14, -1), Token(Identifier, "b", 1, 18, 3), Token(RParen, ")", 1, 19, -1), Token(Operator, "OR", 1, 21, -1), Token(LParen, "(", 1, 24, -1), Token(Operator, "NOT", 1, 25, -1), Token(LParen, "(", 1, 29, -1), Token(Identifier, "c", 1, 30, 4), Token(Operator, "AND", 1, 32, -1), Token(Identifier, "d", 1, 36, 5)], []));
  }

  lemma ScanComplexExpressionUnit24(input: string)
    requires Spells(input, ComplexExpressionText) && '\n' !in ComplexExpressionText
    ensures Run(input, State(36, 6, [Token(Identifier, "result", 1, 1, 1), Token(Assign, ":=", 1, 8, -1), Token(LParen, "(", 1, 11, -1), Token(Identifier, "a", 1, 12, 2), Token(Operator, "XOR", 1, 14, -1), Token(Identifier, "b", 1, 18, 3), Token(RParen, ")", 1, 19, -1), Token(Operator, "OR", 1, 21, -1), Token(LParen, "(", 1, 24, -1), Token(Operator, "NOT", 1, 25, -1), Token(LParen, "(", 1, 29, -1), Token(Identifier, "c", 1, 30, 4), Token(Operator, "AND", 1, 32, -1), Token(Identifier, "d", 1, 36, 5)], [])) == Run(input, State(37, 6, [Token(Identifier, "result", 1, 1, 1), Token(Assign, ":=", 1, 8, -1), Token(LParen, "(", 1, 11, -1), Token(Identifier, "a", 1, 12, 2), Token(Operator, "XOR", 1, 14, -1), Token(Identifier, "b", 1, 18, 3), Token(RParen, ")", 1, 19, -1), Token(Operator, "OR", 1, 21, -1), Token(LParen, "(", 1, 24, -1), Token(Operator, "NOT", 1, 25, -1), Token(LParen, "(", 1, 29, -1), Token(Identifier, "c", 1, 30, 4), Token(Operator, "AND", 1, 32, -1), Token(Identifier, "d", 1, 36, 5), Token(RParen, ")", 1, 37, -1)], []))
  {
    CloseUnit(input, ComplexExpressionText, State(36, 6, [Token(Identifier, "result", 1, 1, 1), Token(Assign, ":=", 1, 8, -1), Token(LParen, "(", 1, 11, -1), Token(Identifier, "a", 1, 12, 2), Token(Operator, "XOR", 1, 14, -1), Token(Identifier, "b", 1, 18, 3), Token(RParen, ")", 1, 19, -1), Token(Operator, "OR", 1, 21, -1), Token(LParen, "(", 1, 24, -1), Token(Operator, "NOT", 1, 25, -1), Token(LParen, "(", 1, 29, -1), Token(Identifier, "c", 1, 30, 4), Token(Operator, "AND", 1, 32, -1), Token(Identifier, "d", 1, 36, 5)], []), 36, State(37, 6, [Token(Identifier, "result", 1, 1, 1), Token(Assign, ":=", 1, 8, -1), Token(LParen, "(", 1, 11, -1), Token(Identifier, "a", 1, 12, 2), Token(Operator, "XOR", 1, 14, -1), Token(Identifier, "b", 1, 18, 3), Token(RParen, ")", 1, 19, -1), Token(Operator, "OR", 1, 21, -1), Token(LParen, "(", 1, 24, -1), Token(Operator, "NOT", 1, 25, -1), Token(LParen, "(", 1, 29, -1), Token(Identifier, "c", 1, 30, 4), Token(Operator, "AND", 1, 32, -1), Token(Identifier, "d", 1, 36, 5), Token(RParen, ")", 1, 37, -1)], []));
  }

  lemma ScanComplexExpressionUnit25(input: string)
    requires Spells(input, ComplexExpressionText) && '\n' !in ComplexExpressionText
    ensures Run(input, State(37, 6, [Token(Identifier, "result", 1, 1, 1), Token(Assign, ":=", 1, 8, -1), Token(LParen, "(", 1, 11, -1), Token(Identifier, "a", 1, 12, 2), Token(Operator, "XOR", 1, 14, -1), Token(Identifier, "b", 1, 18, 3), Token(RParen, ")", 1, 19, -1), Token(Operator, "OR", 1, 21, -1), Token(LParen, "(", 1, 24, -1), Token(Operator, "NOT", 1, 25, -1), Token(LParen, "(", 1, 29, -1), Token(Identifier, "c", 1, 30, 4), Token(Operator, "AND", 1, 32, -1), Token(Identifier, "d", 1, 36, 5), Token(RParen, ")", 1, 37, -1)], [])) == Run(input, State(38, 6, [Token(Identifier, "result", 1, 1, 1), Token(Assign, ":=", 1, 8, -1), Token(LParen, "(", 1, 11, -1), Token(Identifier, "a", 1, 12, 2), Token(Operator, "XOR", 1, 14, -1), Token(Identifier, "b", 1, 18, 3), Token(RParen, ")", 1, 19, -1), Token(Operator, "OR", 1, 21, -1), Token(LParen, "(", 1, 24, -1), Token(Operator, "NOT", 1, 25, -1), Token(LParen, "(", 1, 29, -1), Token(Identifier, "c", 1, 30, 4), Token(Operator, "AND", 1, 32, -1), Token(Identifier, "d", 1, 36, 5), Token(RParen, ")", 1, 37, -1), Token(RParen, ")", 1, 38, -1)], []))
  {
    CloseUnit(input, ComplexExpressionText, State(37, 6, [Token(Identifier, "result", 1, 1, 1), Token(Assign, ":=", 1, 8, -1), Token(LParen, "(", 1, 11, -1), Token(Identifier, "a", 1, 12, 2), Token(Operator, "XOR", 1, 14, -1), Token(Identifier, "b", 1, 18, 3), Token(RParen, ")", 1, 19, -1), Token(Operator, "OR", 1, 21, -1), Token(LParen, "(", 1, 24, -1), Token(Operator, "NOT", 1, 25, -1), Token(LParen, "(", 1, 29, -1), Token(Identifier, "c", 1, 30, 4), Token(Operator, "AND", 1, 32, -1), Token(Identifier, "d", 1, 36, 5), Token(RParen, ")", 1, 37, -1)], []), 37, State(38, 6, [Token(Identifier, "result", 1, 1, 1), Token(Assign, ":=", 1, 8, -1), Token(LParen, "(", 1, 11, -1), Token(Identifier, "a", 1, 12, 2), Token(Operator, "XOR", 1, 14, -1), Token(Identifier, "b", 1, 18, 3), Token(RParen, ")", 1, 19, -1), Token(Operator, "OR", 1, 21, -1), Token(LParen, "(", 1, 24, -1), Token(Operator, "NOT", 1, 25, -1), Token(LParen, "(", 1, 29, -1), Token(Identifier, "c", 1, 30, 4), Token(Operator, "AND", 1, 32, -1), Token(Identifier, "d", 1, 36, 5), Token(RParen, ")", 1, 37, -1), Token(RParen, ")", 1, 38, -1)], []));
  }

  /**
   * Nothing to scan, nothing reported (LexicalAnalyzerTest.java:115-122).
   */
  lemma ScanEmptyInput()
    ensures Analysis("").tokens == []
    ensures Analysis("").errors == []
  {
    EndOfInput("", Start());
  }

  /**
   * A closed comment yields nothing (LexicalAnalyzerTest.java:124-131).
   */
  lemma ScanOnlyComments()
    ensures Analysis("/* Only comment */").tokens == []
    ensures Analysis("/* Only comment */").errors == []
  {
    assert Spells(OnlyCommentsText, OnlyCommentsText);
    ScanOnlyCommentsRun(OnlyCommentsText);
  }

  const OnlyCommentsText := "/* Only comment */"

  lemma ScanOnlyCommentsRun(input: string)
    requires Spells(input, OnlyCommentsText) && '\n' !in OnlyCommentsText
    ensures Analysis(input) == State(18, 1, [], [])
  {
    ScanOnlyCommentsUnit1(input);
    EndOfInput(input, State(18, 1, [], []));
  }

  lemma ScanOnlyCommentsUnit1(input: string)
    requires Spells(input, OnlyCommentsText) && '\n' !in OnlyCommentsText
    ensures Run(input, State(0, 1, [], [])) == Run(input, State(18, 1, [], []))
  {
    CommentUnit(input, OnlyCommentsText, State(0, 1, [], []), 0, 16, State(18, 1, [], []));
  }

  /**
   * A ':' without '=' is reported at its column; the words on both sides still
   * become tokens (LexicalAnalyzerTest.java:133-140).
   */
  lemma ScanInvalidAssignment()
    ensures Analysis("x : TRUE").tokens == [Token(Identifier, "x", 1, 1, 1), Token(Boolean, "TRUE", 1, 5, 0)]
    ensures Analysis("x : TRUE").errors == [InvalidColon(1, 3)]
  {
    assert Spells(InvalidAssignmentText, InvalidAssignmentText);
    ScanInvalidAssignmentRun(InvalidAssignmentText);
  }

  const InvalidAssignmentText := "x : TRUE"

  lemma ScanInvalidAssignmentRun(input: string)
    requires Spells(input, InvalidAssignmentText) && '\n' !in InvalidAssignmentText
    ensures Analysis(input) == State(8, 2, [Token(Identifier, "x", 1, 1, 1), Token(Boolean, "TRUE", 1, 5, 0)], [InvalidColon(1, 3)])
  {
    ScanInvalidAssignmentUnit1(input);
    ScanInvalidAssignmentUnit2(input);
    ScanInvalidAssignmentUnit3(input);
    ScanInvalidAssignmentUnit4(input);
    ScanInvalidAssignmentUnit5(input);
    EndOfInput(input, State(8, 2, [Token(Identifier, "x", 1, 1, 1), Token(Boolean, "TRUE", 1, 5, 0)], [InvalidColon(1, 3)]));
  }

  lemma ScanInvalidAssignmentUnit1(input: string)
    requires Spells(input, InvalidAssignmentText) && '\n' !in InvalidAssignmentText
    ensures Run(input, State(0, 1, [], [])) == Run(input, State(1, 2, [Token(Identifier, "x", 1, 1, 1)], []))
  {
    NewNameUnit(input, InvalidAssignmentText, State(0, 1, [], []), 0, "x", State(1, 2, [Token(Identifier, "x", 1, 1, 1)], []));
  }

  lemma ScanInvalidAssignmentUnit2(input: string)
    requires Spells(input, InvalidAssignmentText) && '\n' !in InvalidAssignmentText
    ensures Run(input, State(1, 2, [Token(Identifier, "x", 1, 1, 1)], [])) == Run(input, State(2, 2, [Token(Identifier, "x", 1, 1, 1)], []))
  {
    BlankUnit(input, InvalidAssignmentText, State(1, 2, [Token(Identifier, "x", 1, 1, 1)], []), 1, State(2, 2, [Token(Identifier, "x", 1, 1, 1)], []));
  }

  lemma ScanInvalidAssignmentUnit3(input: string)
    requires Spells(input, InvalidAssignmentText) && '\n' !in InvalidAssignmentText
    ensures Run(input, State(2, 2, [Token(Identifier, "x", 1, 1, 1)], [])) == Run(input, State(3, 2, [Token(Identifier, "x", 1, 1, 1)], [InvalidColon(1, 3)]))
  {
    ColonUnit(input, InvalidAssignmentText, State(2, 2, [Token(Identifier, "x", 1, 1, 1)], []), 2, State(3, 2, [Token(Identifier, "x", 1, 1, 1)], [InvalidColon(1, 3)]));
  }

  lemma ScanInvalidAssignmentUnit4(input: string)
    requires Spells(input, InvalidAssignmentText) && '\n' !in InvalidAssignmentText
    ensures Run(input, State(3, 2, [Token(Identifier, "x", 1, 1, 1)], [InvalidColon(1, 3)])) == Run(input, State(4, 2, [Token(Identifier, "x", 1, 1, 1)], [InvalidColon(1, 3)]))
  {
    BlankUnit(input, InvalidAssignmentText, State(3, 2, [Token(Identifier, "x", 1, 1, 1)], [InvalidColon(1, 3)]), 3, State(4, 2, [Token(Identifier, "x", 1, 1, 1)], [InvalidColon(1, 3)]));
  }

  lemma ScanInvalidAssignmentUnit5(input: string)
    requires Spells(input, InvalidAssignmentText) && '\n' !in InvalidAssignmentText
    ensures Run(input, State(4, 2, [Token(Identifier, "x", 1, 1, 1)], [InvalidColon(1, 3)])) == Run(input, State(8, 2, [Token(Identifier, "x", 1, 1, 1), Token(Boolean, "TRUE", 1, 5, 0)], [InvalidColon(1, 3)]))
  {
    KeywordUnit(input, InvalidAssignmentText, State(4, 2, [Token(Identifier, "x", 1, 1, 1)], [InvalidColon(1, 3)]), 4, "TRUE", Boolean, "TRUE", 0, State(8, 2, [Token(Identifier, "x", 1, 1, 1), Token(Boolean, "TRUE", 1, 5, 0)], [InvalidColon(1, 3)]));
  }

  /**
   * '@' ends the word x and is reported as an unexpected character at column 2
   * (LexicalAnalyzerTest.java:142-149).
   */
  lemma ScanSpecialCharacters()
    ensures Analysis("x@ := TRUE").tokens == [Token(Identifier, "x", 1, 1, 1), Token(Assign, ":=", 1, 4, -1), Token(Boolean, "TRUE", 1, 7, 0)]
    ensures Analysis("x@ := TRUE").errors == [UnexpectedCharacter('@', 1, 2)]
  {
    assert Spells(SpecialCharactersText, SpecialCharactersText);
    ScanSpecialCharactersRun(SpecialCharactersText);
  }

  const SpecialCharactersText := "x@ := TRUE"

  lemma ScanSpecialCharactersRun(input: string)
    requires Spells(input, SpecialCharactersText) && '\n' !in SpecialCharactersText
    ensures Analysis(input) == State(10, 2, [Token(Identifier, "x", 1, 1, 1), Token(Assign, ":=", 1, 4, -1), Token(Boolean, "TRUE", 1, 7, 0)], [UnexpectedCharacter('@', 1, 2)])
  {
    ScanSpecialCharactersUnit1(input);
    ScanSpecialCharactersUnit2(input);
    ScanSpecialCharactersUnit3(input);
    ScanSpecialCharactersUnit4(input);
    ScanSpecialCharactersUnit5(input);
    ScanSpecialCharactersUnit6(input);
    EndOfInput(input, State(10, 2, [Token(Identifier, "x", 1, 1, 1), Token(Assign, ":=", 1, 4, -1), Token(Boolean, "TRUE", 1, 7, 0)], [UnexpectedCharacter('@', 1, 2)]));
  }

  lemma ScanSpecialCharactersUnit1(input: string)
    requires Spells(input, SpecialCharactersText) && '\n' !in SpecialCharactersText
    ensures Run(input, State(0, 1, [], [])) == Run(input, State(1, 2, [Token(Identifier, "x", 1, 1, 1)], []))
  {
    NewNameUnit(input, SpecialCharactersText, State(0, 1, [], []), 0, "x", State(1, 2, [Token(Identifier, "x", 1, 1, 1)], []));
  }

  lemma ScanSpecialCharactersUnit2(input: string)
    requires Spells(input, SpecialCharactersText) && '\n' !in SpecialCharactersText
    ensures Run(input, State(1, 2, [Token(Identifier, "x", 1, 1, 1)], [])) == Run(input, State(2, 2, [Token(Identifier, "x", 1, 1, 1)], [UnexpectedCharacter('@', 1, 2)]))
  {
    StrayUnit(input, SpecialCharactersText, State(1, 2, [Token(Identifier, "x", 1, 1, 1)], []), 1, State(2, 2, [Token(Identifier, "x", 1, 1, 1)], [UnexpectedCharacter('@', 1, 2)]));
  }

  lemma ScanSpecialCharactersUnit3(input: string)
    requires Spells(input, SpecialCharactersText) && '\n' !in SpecialCharactersText
    ensures Run(input, State(2, 2, [Token(Identifier, "x", 1, 1, 1)], [UnexpectedCharacter('@', 1, 2)])) == Run(input, State(3, 2, [Token(Identifier, "x", 1, 1, 1)], [UnexpectedCharacter('@', 1, 2)]))
  {
    BlankUnit(input, SpecialCharactersText, State(2, 2, [Token(Identifier, "x", 1, 1, 1)], [UnexpectedCharacter('@', 1, 2)]), 2, State(3, 2, [Token(Identifier, "x", 1, 1, 1)], [UnexpectedCharacter('@', 1, 2)]));
  }

  lemma ScanSpecialCharactersUnit4(input: string)
    requires Spells(input, SpecialCharactersText) && '\n' !in SpecialCharactersText
    ensures Run(input, State(3, 2, [Token(Identifier, "x", 1, 1, 1)], [UnexpectedCharacter('@', 1, 2)])) == Run(input, State(5, 2, [Token(Identifier, "x", 1, 1, 1), Token(Assign, ":=", 1, 4, -1)], [UnexpectedCharacter('@', 1, 2)]))
  {
    AssignUnit(input, SpecialCharactersText, State(3, 2, [Token(Identifier, "x", 1, 1, 1)], [UnexpectedCharacter('@', 1, 2)]), 3, State(5, 2, [Token(Identifier, "x", 1, 1, 1), Token(Assign, ":=", 1, 4, -1)], [UnexpectedCharacter('@', 1, 2)]));
  }

  lemma ScanSpecialCharactersUnit5(input: string)
    requires Spells(input, SpecialCharactersText) && '\n' !in SpecialCharactersText
    ensures Run(input, State(5, 2, [Token(Identifier, "x", 1, 1, 1), Token(Assign, ":=", 1, 4, -1)], [UnexpectedCharacter('@', 1, 2)])) == Run(input, State(6, 2, [Token(Identifier, "x", 1, 1, 1), Token(Assign, ":=", 1, 4, -1)], [UnexpectedCharacter('@', 1, 2)]))
  {
    BlankUnit(input, SpecialCharactersText, State(5, 2, [Token(Identifier, "x", 1, 1, 1), Token(Assign, ":=", 1, 4, -1)], [UnexpectedCharacter('@', 1, 2)]), 5, State(6, 2, [Token(Identifier, "x", 1, 1, 1), Token(Assign, ":=", 1, 4, -1)], [UnexpectedCharacter('@', 1, 2)]));
  }

  lemma ScanSpecialCharactersUnit6(input: string)
    requires Spells(input, SpecialCharactersText) && '\n' !in SpecialCharactersText
    ensures Run(input, State(6, 2, [Token(Identifier, "x", 1, 1, 1), Token(Assign, ":=", 1, 4, -1)], [UnexpectedCharacter('@', 1, 2)])) == Run(input, State(10, 2, [Token(Identifier, "x", 1, 1, 1), Token(Assign, ":=", 1, 4, -1), Token(Boolean, "TRUE", 1, 7, 0)], [UnexpectedCharacter('@', 1, 2)]))
  {
    KeywordUnit(input, SpecialCharactersText, State(6, 2, [Token(Identifier, "x", 1, 1, 1), Token(Assign, ":=", 1, 4, -1)], [UnexpectedCharacter('@', 1, 2)]), 6, "TRUE", Boolean, "TRUE", 0, State(10, 2, [Token(Identifier, "x", 1, 1, 1), Token(Assign, ":=", 1, 4, -1), Token(Boolean, "TRUE", 1, 7, 0)], [UnexpectedCharacter('@', 1, 2)]));
  }

  /**
   * Four LParen and four RParen among eighteen tokens, and no error
   * (LexicalAnalyzerTest.java:151-160).
   */
  lemma ScanNestedParentheses()
    ensures Analysis("x := ((TRUE AND " + "FALSE) OR (NOT " + "(TRUE XOR FALSE)))").tokens == [Token(Identifier, "x", 1, 1, 1), Token(Assign, ":=", 1, 3, -1), Token(LParen, "(", 1, 6, -1), Token(LParen, "(", 1, 7, -1), Token(Boolean, "TRUE", 1, 8, 0), Token(Operator, "AND", 1, 13, -1), Token(Boolean, "FALSE", 1, 17, 0), Token(RParen, ")", 1, 22, -1), Token(Operator, "OR", 1, 24, -1), Token(LParen, "(", 1, 27, -1), Token(Operator, "NOT", 1, 28, -1), Token(LParen, "(", 1, 32, -1), Token(Boolean, "TRUE", 1, 33, 0), Token(Operator, "XOR", 1, 38, -1), Token(Boolean, "FALSE", 1, 42, 0), Token(RParen, ")", 1, 47, -1), Token(RParen, ")", 1, 48, -1), Token(RParen, ")", 1, 49, -1)]
    ensures Analysis("x := ((TRUE AND " + "FALSE) OR (NOT " + "(TRUE XOR FALSE)))").errors == []
  {
    assert Spells(NestedParenthesesText, NestedParenthesesText);
    ScanNestedParenthesesRun(NestedParenthesesText);
  }

  const NestedParenthesesText := "x := ((TRUE AND " + "FALSE) OR (NOT " + "(TRUE XOR FALSE)))"

  lemma ScanNestedParenthesesRun(input: string)
    requires Spells(input, NestedParenthesesText) && '\n' !in NestedParenthesesText
    ensures Analysis(input) == State(49, 2, [Token(Identifier, "x", 1, 1, 1), Token(Assign, ":=", 1, 3, -1), Token(LParen, "(", 1, 6, -1), Token(LParen, "(", 1, 7, -1), Token(Boolean, "TRUE", 1, 8, 0), Token(Operator, "AND", 1, 13, -1), Token(Boolean, "FALSE", 1, 17, 0), Token(RParen, ")", 1, 22, -1), Token(Operator, "OR", 1, 24, -1), Token(LParen, "(", 1, 27, -1), Token(Operator, "NOT", 1, 28, -1), Token(LParen, "(", 1, 32, -1), Token(Boolean, "TRUE", 1, 33, 0), Token(Operator, "XOR", 1, 38, -1), Token(Boolean, "FALSE", 1, 42, 0), Token(RParen, ")", 1, 47, -1), Token(RParen, ")", 1, 48, -1), Token(RParen, ")", 1, 49, -1)], [])
  {
    ScanNestedParenthesesUnit1(input);
    ScanNestedParenthesesUnit2(input);
    ScanNestedParenthesesUnit3(input);
    ScanNestedParenthesesUnit4(input);
    ScanNestedParenthesesUnit5(input);
    ScanNestedParenthesesUnit6(input);
    ScanNestedParenthesesUnit7(input);
    ScanNestedParenthesesUnit8(input);
    ScanNestedParenthesesUnit9(input);
    ScanNestedParenthesesUnit10(input);
    ScanNestedParenthesesUnit11(input);
    ScanNestedParenthesesUnit12(input);
    ScanNestedParenthesesUnit13(input);
    ScanNestedParenthesesUnit14(input);
    ScanNestedParenthesesUnit15(input);
    ScanNestedParenthesesUnit16(input);
    ScanNestedParenthesesUnit17(input);
    ScanNestedParenthesesUnit18(input);
    ScanNestedParenthesesUnit19(input);
    ScanNestedParenthesesUnit20(input);
    ScanNestedParenthesesUnit21(input);
    ScanNestedParenthesesUnit22(input);
    ScanNestedParenthesesUnit23(input);
    ScanNestedParenthesesUnit24(input);
    ScanNestedParenthesesUnit25(input);
    ScanNestedParenthesesUnit26(input);
    ScanNestedParenthesesUnit27(input);
    EndOfInput(input, State(49, 2, [Token(Identifier, "x", 1, 1, 1), Token(Assign, ":=", 1, 3, -1), Token(LParen, "(", 1, 6, -1), Token(LParen, "(", 1, 7, -1), Token(Boolean, "TRUE", 1, 8, 0), Token(Operator, "AND", 1, 13, -1), Token(Boolean, "FALSE", 1, 17, 0), Token(RParen, ")", 1, 22, -1), Token(Operator, "OR", 1, 24, -1), Token(LParen, "(", 1, 27, -1), Token(Operator, "NOT", 1, 28, -1), Token(LParen, "(", 1, 32, -1), Token(Boolean, "TRUE", 1, 33, 0), Token(Operator, "XOR", 1, 38, -1), Token(Boolean, "FALSE", 1, 42, 0), Token(RParen, ")", 1, 47, -1), Token(RParen, ")", 1, 48, -1), Token(RParen, ")", 1, 49, -1)], []));
  }

  lemma ScanNestedParenthesesUnit1(input: string)
    requires Spells(input, NestedParenthesesText) && '\n' !in NestedParenthesesText
    ensures Run(input, State(0, 1, [], [])) == Run(input, State(1, 2, [Token(Identifier, "x", 1, 1, 1)], []))
  {
    NewNameUnit(input, NestedParenthesesText, State(0, 1, [], []), 0, "x", State(1, 2, [Token(Identifier, "x", 1, 1, 1)], []));
  }

  lemma ScanNestedParenthesesUnit2(input: string)
    requires Spells(input, NestedParenthesesText) && '\n' !in NestedParenthesesText
    ensures Run(input, State(1, 2, [Token(Identifier, "x", 1, 1, 1)], [])) == Run(input, State(2, 2, [Token(Identifier, "x", 1, 1, 1)], []))
  {
    BlankUnit(input, NestedParenthesesText, State(1, 2, [Token(Identifier, "x", 1, 1, 1)], []), 1, State(2, 2, [Token(Identifier, "x", 1, 1, 1)], []));
  }

  lemma ScanNestedParenthesesUnit3(input: string)
    requires Spells(input, NestedParenthesesText) && '\n' !in NestedParenthesesText
    ensures Run(input, State(2, 2, [Token(Identifier, "x", 1, 1, 1)], [])) == Run(input, State(4, 2, [Token(Identifier, "x", 1, 1, 1), Token(Assign, ":=", 1, 3, -1)], []))
  {
    AssignUnit(input, NestedParenthesesText, State(2, 2, [Token(Identifier, "x", 1, 1, 1)], []), 2, State(4, 2, [Token(Identifier, "x", 1, 1, 1), Token(Assign, ":=", 1, 3, -1)], []));
  }

  lemma ScanNestedParenthesesUnit4(input: string)
    requires Spells(input, NestedParenthesesText) && '\n' !in NestedParenthesesText
    ensures Run(input, State(4, 2, [Token(Identifier, "x", 1, 1, 1), Token(Assign, ":=", 1, 3, -1)], [])) == Run(input, State(5, 2, [Token(Identifier, "x", 1, 1, 1), Token(Assign, ":=", 1, 3, -1)], []))
  {
    BlankUnit(input, NestedParenthesesText, State(4, 2, [Token(Identifier, "x", 1, 1, 1), Token(Assign, ":=", 1, 3, -1)], []), 4, State(5, 2, [Token(Identifier, "x", 1, 1, 1), Token(Assign, ":=", 1, 3, -1)], []));
  }

  lemma ScanNestedParenthesesUnit5(input: string)
    requires Spells(input, NestedParenthesesText) && '\n' !in NestedParenthesesText
    ensures Run(input, State(5, 2, [Token(Identifier, "x", 1, 1, 1), Token(Assign, ":=", 1, 3, -1)], [])) == Run(input, State(6, 2, [Token(Identifier, "x", 1, 1, 1), Token(Assign, ":=", 1, 3, -1), Token(LParen, "(", 1, 6, -1)], []))
  {
    OpenUnit(input, NestedParenthesesText, State(5, 2, [Token(Identifier, "x", 1, 1, 1), Token(Assign, ":=", 1, 3, -1)], []), 5, State(6, 2, [Token(Identifier, "x", 1, 1, 1), Token(Assign, ":=", 1, 3, -1), Token(LParen, "(", 1, 6, -1)], []));
  }

  lemma ScanNestedParenthesesUnit6(input: string)
    requires Spells(input, NestedParenthesesText) && '\n' !in NestedParenthesesText
    ensures Run(input, State(6, 2, [Token(Identifier, "x", 1, 1, 1), Token(Assign, ":=", 1, 3, -1), Token(LParen, "(", 1, 6, -1)], [])) == Run(input, State(7, 2, [Token(Identifier, "x", 1, 1, 1), Token(Assign, ":=", 1, 3, -1), Token(LParen, "(", 1, 6, -1), Token(LParen, "(", 1, 7, -1)], []))
  {
    OpenUnit(input, NestedParenthesesText, State(6, 2, [Token(Identifier, "x", 1, 1, 1), Token(Assign, ":=", 1, 3, -1), Token(LParen, "(", 1, 6, -1)], []), 6, State(7, 2, [Token(Identifier, "x", 1, 1, 1), Token(Assign, ":=", 1, 3, -1), Token(LParen, "(", 1, 6, -1), Token(LParen, "(", 1, 7, -1)], []));
  }

  lemma ScanNestedParenthesesUnit7(input: string)
    requires Spells(input, NestedParenthesesText) && '\n' !in NestedParenthesesText
    ensures Run(input, State(7, 2, [Token(Identifier, "x", 1, 1, 1), Token(Assign, ":=", 1, 3, -1), Token(LParen, "(", 1, 6, -1), Token(LParen, "(", 1, 7, -1)], [])) == Run(input, State(11, 2, [Token(Identifier, "x", 1, 1, 1), Token(Assign, ":=", 1, 3, -1), Token(LParen, "(", 1, 6, -1), Token(LParen, "(", 1, 7, -1), Token(Boolean, "TRUE", 1, 8, 0)], []))
  {
    KeywordUnit(input, NestedParenthesesText, State(7, 2, [Token(Identifier, "x", 1, 1, 1), Token(Assign, ":=", 1, 3, -1), Token(LParen, "(", 1, 6, -1), Token(LParen, "(", 1, 7, -1)], []), 7, "TRUE", Boolean, "TRUE", 0, State(11, 2, [Token(Identifier, "x", 1, 1, 1), Token(Assign, ":=", 1, 3, -1), Token(LParen, "(", 1, 6, -1), Token(LParen, "(", 1, 7, -1), Token(Boolean, "TRUE", 1, 8, 0)], []));
  }

  lemma ScanNestedParenthesesUnit8(input: string)
    requires Spells(input, NestedParenthesesText) && '\n' !in NestedParenthesesText
    ensures Run(input, State(11, 2, [Token(Identifier, "x", 1, 1, 1), Token(Assign, ":=", 1, 3, -1), Token(LParen, "(", 1, 6, -1), Token(LParen, "(", 1, 7, -1), Token(Boolean, "TRUE", 1, 8, 0)], [])) == Run(input, State(12, 2, [Token(Identifier, "x", 1, 1, 1), Token(Assign, ":=", 1, 3, -1), Token(LParen, "(", 1, 6, -1), Token(LParen, "(", 1, 7, -1), Token(Boolean, "TRUE", 1, 8, 0)], []))
  {
    BlankUnit(input, NestedParenthesesText, State(11, 2, [Token(Identifier, "x", 1, 1, 1), Token(Assign, ":=", 1, 3, -1), Token(LParen, "(", 1, 6, -1), Token(LParen, "(", 1, 7, -1), Token(Boolean, "TRUE", 1, 8, 0)], []), 11, State(12, 2, [Token(Identifier, "x", 1, 1, 1), Token(Assign, ":=", 1, 3, -1), Token(LParen, "(", 1, 6, -1), Token(LParen, "(", 1, 7, -1), Token(Boolean, "TRUE", 1, 8, 0)], []));
  }

  lemma ScanNestedParenthesesUnit9(input: string)
    requires Spells(input, NestedParenthesesText) && '\n' !in NestedParenthesesText
    ensures Run(input, State(12, 2, [Token(Identifier, "x", 1, 1, 1), Token(Assign, ":=", 1, 3, -1), Token(LParen, "(", 1, 6, -1), Token(LParen, "(", 1, 7, -1), Token(Boolean, "TRUE", 1, 8, 0)], [])) == Run(input, State(15, 2, [Token(Identifier, "x", 1, 1, 1), Token(Assign, ":=", 1, 3, -1), Token(LParen, "(", 1, 6, -1), Token(LParen, "(", 1, 7, -1), Token(Boolean, "TRUE", 1, 8, 0), Token(Operator, "AND", 1, 13, -1)], []))
  {
    KeywordUnit(input, NestedParenthesesText, State(12, 2, [Token(Identifier, "x", 1, 1, 1), Token(Assign, ":=", 1, 3, -1), Token(LParen, "(", 1, 6, -1), Token(LParen, "(", 1, 7, -1), Token(Boolean, "TRUE", 1, 8, 0)], []), 12, "AND", Operator, "AND", NoValue, State(15, 2, [Token(Identifier, "x", 1, 1, 1), Token(Assign, ":=", 1, 3, -1), Token(LParen, "(", 1, 6, -1), Token(LParen, "(", 1, 7, -1), Token(Boolean, "TRUE", 1, 8, 0), Token(Operator, "AND", 1, 13, -1)], []));
  }

  lemma ScanNestedParenthesesUnit10(input: string)
    requires Spells(input, NestedParenthesesText) && '\n' !in NestedParenthesesText
    ensures Run(input, State(15, 2, [Token(Identifier, "x", 1, 1, 1), Token(Assign, ":=", 1, 3, -1), Token(LParen, "(", 1, 6, -1), Token(LParen, "(", 1, 7, -1), Token(Boolean, "TRUE", 1, 8, 0), Token(Operator, "AND", 1, 13, -1)], [])) == Run(input, State(16, 2, [Token(Identifier, "x", 1, 1, 1), Token(Assign, ":=", 1, 3, -1), Token(LParen, "(", 1, 6, -1), Token(LParen, "(", 1, 7, -1), Token(Boolean, "TRUE", 1, 8, 0), Token(Operator, "AND", 1, 13, -1)], []))
  {
    BlankUnit(input, NestedParenthesesText, State(15, 2, [Token(Identifier, "x", 1, 1, 1), Token(Assign, ":=", 1, 3, -1), Token(LParen, "(", 1, 6, -1), Token(LParen, "(", 1, 7, -1), Token(Boolean, "TRUE", 1, 8, 0), Token(Operator, "AND", 1, 13, -1)], []), 15, State(16, 2, [Token(Identifier, "x", 1, 1, 1), Token(Assign, ":=", 1, 3, -1), Token(LParen, "(", 1, 6, -1), Token(LParen, "(", 1, 7, -1), Token(Boolean, "TRUE", 1, 8, 0), Token(Operator, "AND", 1, 13, -1)], []));
  }

  lemma ScanNestedParenthesesUnit11(input: string)
    requires Spells(input, NestedParenthesesText) && '\n' !in NestedParenthesesText
    ensures Run(input, State(16, 2, [Token(Identifier, "x", 1, 1, 1), Token(Assign, ":=", 1, 3, -1), Token(LParen, "(", 1, 6, -1), Token(LParen, "(", 1, 7, -1), Token(Boolean, "TRUE", 1, 8, 0), Token(Operator, "AND", 1, 13, -1)], [])) == Run(input, State(21, 2, [Token(Identifier, "x", 1, 1, 1), Token(Assign, ":=", 1, 3, -1), Token(LParen, "(", 1, 6, -1), Token(LParen, "(", 1, 7, -1), Token(Boolean, "TRUE", 1, 8, 0), Token(Operator, "AND", 1, 13, -1), Token(Boolean, "FALSE", 1, 17, 0)], []))
  {
    KeywordUnit(input, NestedParenthesesText, State(16, 2, [Token(Identifier, "x", 1, 1, 1), Token(Assign, ":=", 1, 3, -1), Token(LParen, "(", 1, 6, -1), Token(LParen, "(", 1, 7, -1), Token(Boolean, "TRUE", 1, 8, 0), Token(Operator, "AND", 1, 13, -1)], []), 16, "FALSE", Boolean, "FALSE", 0, State(21, 2, [Token(Identifier, "x", 1, 1, 1), Token(Assign, ":=", 1, 3, -1), Token(LParen, "(", 1, 6, -1), Token(LParen, "(", 1, 7, -1), Token(Boolean, "TRUE", 1, 8, 0), Token(Operator, "AND", 1, 13, -1), Token(Boolean, "FALSE", 1, 17, 0)], []));
  }

  lemma ScanNestedParenthesesUnit12(input: string)
    requires Spells(input, NestedParenthesesText) && '\n' !in NestedParenthesesText
    ensures Run(input, State(21, 2, [Token(Identifier, "x", 1, 1, 1), Token(Assign, ":=", 1, 3, -1), Token(LParen, "(", 1, 6, -1), Token(LParen, "(", 1, 7, -1), Token(Boolean, "TRUE", 1, 8, 0), Token(Operator, "AND", 1, 13, -1), Token(Boolean, "FALSE", 1, 17, 0)], [])) == Run(input, State(22, 2, [Token(Identifier, "x", 1, 1, 1), Token(Assign, ":=", 1, 3, -1), Token(LParen, "(", 1, 6, -1), Token(LParen, "(", 1, 7, -1), Token(Boolean, "TRUE", 1, 8, 0), Token(Operator, "AND", 1, 13, -1), Token(Boolean, "FALSE", 1, 17, 0), Token(RParen, ")", 1, 22, -1)], []))
  {
    CloseUnit(input, NestedParenthesesText, State(21, 2, [Token(Identifier, "x", 1, 1, 1), Token(Assign, ":=", 1, 3, -1), Token(LParen, "(", 1, 6, -1), Token(LParen, "(", 1, 7, -1), Token(Boolean, "TRUE", 1, 8, 0), Token(Operator, "AND", 1, 13, -1), Token(Boolean, "FALSE", 1, 17, 0)], []), 21, State(22, 2, [Token(Identifier, "x", 1, 1, 1), Token(Assign, ":=", 1, 3, -1), Token(LParen, "(", 1, 6, -1), Token(LParen, "(", 1, 7, -1), Token(Boolean, "TRUE", 1, 8, 0), Token(Operator, "AND", 1, 13, -1), Token(Boolean, "FALSE", 1, 17, 0), Token(RParen, ")", 1, 22, -1)], []));
  }

  lemma ScanNestedParenthesesUnit13(input: string)
    requires Spells(input, NestedParenthesesText) && '\n' !in NestedParenthesesText
    ensures Run(input, State(22, 2, [Token(Identifier, "x", 1, 1, 1), Token(Assign, ":=", 1, 3, -1), Token(LParen, "(", 1, 6, -1), Token(LParen, "(", 1, 7, -1), Token(Boolean, "TRUE", 1, 8, 0), Token(Operator, "AND", 1, 13, -1), Token(Boolean, "FALSE", 1, 17, 0), Token(RParen, ")", 1, 22, -1)], [])) == Run(input, State(23, 2, [Token(Identifier, "x", 1, 1, 1), Token(Assign, ":=", 1, 3, -1), Token(LParen, "(", 1, 6, -1), Token(LParen, "(", 1, 7, -1), Token(Boolean, "TRUE", 1, 8, 0), Token(Operator, "AND", 1, 13, -1), Token(Boolean, "FALSE", 1, 17, 0), Token(RParen, ")", 1, 22, -1)], []))
  {
    BlankUnit(input, NestedParenthesesText, State(22, 2, [Token(Identifier, "x", 1, 1, 1), Token(Assign, ":=", 1, 3, -1), Token(LParen, "(", 1, 6, -1), Token(LParen, "(", 1, 7, -1), Token(Boolean, "TRUE", 1, 8, 0), Token(Operator, "AND", 1, 13, -1), Token(Boolean, "FALSE", 1, 17, 0), Token(RParen, ")", 1, 22, -1)], []), 22, State(23, 2, [Token(Identifier, "x", 1, 1, 1), Token(Assign, ":=", 1, 3, -1), Token(LParen, "(", 1, 6, -1), Token(LParen, "(", 1, 7, -1), Token(Boolean, "TRUE", 1, 8, 0), Token(Operator, "AND", 1, 13, -1), Token(Boolean, "FALSE", 1, 17, 0), Token(RParen, ")", 1, 22, -1)], []));
  }

  lemma ScanNestedParenthesesUnit14(input: string)
    requires Spells(input, NestedParenthesesText) && '\n' !in NestedParenthesesText
    ensures Run(input, State(23, 2, [Token(Identifier, "x", 1, 1, 1), Token(Assign, ":=", 1, 3, -1), Token(LParen, "(", 1, 6, -1), Token(LParen, "(", 1, 7, -1), Token(Boolean, "TRUE", 1, 8, 0), Token(Operator, "AND", 1, 13, -1), Token(Boolean, "FALSE", 1, 17, 0), Token(RParen, ")", 1, 22, -1)], [])) == Run(input, State(25, 2, [Token(Identifier, "x", 1, 1, 1), Token(Assign, ":=", 1, 3, -1), Token(LParen, "(", 1, 6, -1), Token(LParen, "(", 1, 7, -1), Token(Boolean, "TRUE", 1, 8, 0), Token(Operator, "AND", 1, 13, -1), Token(Boolean, "FALSE", 1, 17, 0), Token(RParen, ")", 1, 22, -1), Token(Operator, "OR", 1, 24, -1)], []))
  {
    KeywordUnit(input, NestedParenthesesText, State(23, 2, [Token(Identifier, "x", 1, 1, 1), Token(Assign, ":=", 1, 3, -1), Token(LParen, "(", 1, 6, -1), Token(LParen, "(", 1, 7, -1), Token(Boolean, "TRUE", 1, 8, 0), Token(Operator, "AND", 1, 13, -1), Token(Boolean, "FALSE", 1, 17, 0), Token(RParen, ")", 1, 22, -1)], []), 23, "OR", Operator, "OR", NoValue, State(25, 2, [Token(Identifier, "x", 1, 1, 1), Token(Assign, ":=", 1, 3, -1), Token(LParen, "(", 1, 6, -1), Token(LParen, "(", 1, 7, -1), Token(Boolean, "TRUE", 1, 8, 0), Token(Operator, "AND", 1, 13, -1), Token(Boolean, "FALSE", 1, 17, 0), Token(RParen, ")", 1, 22, -1), Token(Operator, "OR", 1, 24, -1)], []));
  }

  lemma ScanNestedParenthesesUnit15(input: string)
    requires Spells(input, NestedParenthesesText) && '\n' !in NestedParenthesesText
    ensures Run(input, State(25, 2, [Token(Identifier, "x", 1, 1, 1), Token(Assign, ":=", 1, 3, -1), Token(LParen, "(", 1, 6, -1), Token(LParen, "(", 1, 7, -1), Token(Boolean, "TRUE", 1, 8, 0), Token(Operator, "AND", 1, 13, -1), Token(Boolean, "FALSE", 1, 17, 0), Token(RParen, ")", 1, 22, -1), Token(Operator, "OR", 1, 24, -1)], [])) == Run(input, State(26, 2, [Token(Identifier, "x", 1, 1, 1), Token(Assign, ":=", 1, 3, -1), Token(LParen, "(", 1, 6, -1), Token(LParen, "(", 1, 7, -1), Token(Boolean, "TRUE", 1, 8, 0), Token(Operator, "AND", 1, 13, -1), Token(Boolean, "FALSE", 1, 17, 0), Token(RParen, ")", 1, 22, -1), Token(Operator, "OR", 1, 24, -1)], []))
  {
    BlankUnit(input, NestedParenthesesText, State(25, 2, [Token(Identifier, "x", 1, 1, 1), Token(Assign, ":=", 1, 3, -1), Token(LParen, "(", 1, 6, -1), Token(LParen, "(", 1, 7, -1), Token(Boolean, "TRUE", 1, 8, 0), Token(Operator, "AND", 1, 13, -1), Token(Boolean, "FALSE", 1, 17, 0), Token(RParen, ")", 1, 22, -1), Token(Operator, "OR", 1, 24, -1)], []), 25, State(26, 2, [Token(Identifier, "x", 1, 1, 1), Token(Assign, ":=", 1, 3, -1), Token(LParen, "(", 1, 6, -1), Token(LParen, "(", 1, 7, -1), Token(Boolean, "TRUE", 1, 8, 0), Token(Operator, "AND", 1, 13, -1), Token(Boolean, "FALSE", 1, 17, 0), Token(RParen, ")", 1, 22, -1), Token(Operator, "OR", 1, 24, -1)], []));
  }

  lemma ScanNestedParenthesesUnit16(input: string)
    requires Spells(input, NestedParenthesesText) && '\n' !in NestedParenthesesText
    ensures Run(input, State(26, 2, [Token(Identifier, "x", 1, 1, 1), Token(Assign, ":=", 1, 3, -1), Token(LParen, "(", 1, 6, -1), Token(LParen, "(", 1, 7, -1), Token(Boolean, "TRUE", 1, 8, 0), Token(Operator, "AND", 1, 13, -1), Token(Boolean, "FALSE", 1, 17, 0), Token(RParen, ")", 1, 22, -1), Token(Operator, "OR", 1, 24, -1)], [])) == Run(input, State(27, 2, [Token(Identifier, "x", 1, 1, 1), Token(Assign, ":=", 1, 3, -1), Token(LParen, "(", 1, 6, -1), Token(LParen, "(", 1, 7, -1), Token(Boolean, "TRUE", 1, 8, 0), Token(Operator, "AND", 1, 13, -1), Token(Boolean, "FALSE", 1, 17, 0), Token(RParen, ")", 1, 22, -1), Token(Operator, "OR", 1, 24, -1), Token(LParen, "(", 1, 27, -1)], []))
  {
    OpenUnit(input, NestedParenthesesText, State(26, 2, [Token(Identifier, "x", 1, 1, 1), Token(Assign, ":=", 1, 3, -1), Token(LParen, "(", 1, 6, -1), Token(LParen, "(", 1, 7, -1), Token(Boolean, "TRUE", 1, 8, 0), Token(Operator, "AND", 1, 13, -1), Token(Boolean, "FALSE", 1, 17, 0), Token(RParen, ")", 1, 22, -1), Token(Operator, "OR", 1, 24, -1)], []), 26, State(27, 2, [Token(Identifier, "x", 1, 1, 1), Token(Assign, ":=", 1, 3, -1), Token(LParen, "(", 1, 6, -1), Token(LParen, "(", 1, 7, -1), Token(Boolean, "TRUE", 1, 8, 0), Token(Operator, "AND", 1, 13, -1), Token(Boolean, "FALSE", 1, 17, 0), Token(RParen, ")", 1, 22, -1), Token(Operator, "OR", 1, 24, -1), Token(LParen, "(", 1, 27, -1)], []));
  }

  lemma ScanNestedParenthesesUnit17(input: string)
    requires Spells(input, NestedParenthesesText) && '\n' !in NestedParenthesesText
    ensures Run(input, State(27, 2, [Token(Identifier, "x", 1, 1, 1), Token(Assign, ":=", 1, 3, -1), Token(LParen, "(", 1, 6, -1), Token(LParen, "(", 1, 7, -1), Token(Boolean, "TRUE", 1, 8, 0), Token(Operator, "AND", 1, 13, -1), Token(Boolean, "FALSE", 1, 17, 0), Token(RParen, ")", 1, 22, -1), Token(Operator, "OR", 1, 24, -1), Token(LParen, "(", 1, 27, -1)], [])) == Run(input, State(30, 2, [Token(Identifier, "x", 1, 1, 1), Token(Assign, ":=", 1, 3, -1), Token(LParen, "(", 1, 6, -1), Token(LParen, "(", 1, 7, -1), Token(Boolean, "TRUE", 1, 8, 0), Token(Operator, "AND", 1, 13, -1), Token(Boolean, "FALSE", 1, 17, 0), Token(RParen, ")", 1, 22, -1), Token(Operator, "OR", 1, 24, -1), Token(LParen, "(", 1, 27, -1), Token(Operator, "NOT", 1, 28, -1)], []))
  {
    KeywordUnit(input, NestedParenthesesText, State(27, 2, [Token(Identifier, "x", 1, 1, 1), Token(Assign, ":=", 1, 3, -1), Token(LParen, "(", 1, 6, -1), Token(LParen, "(", 1, 7, -1), Token(Boolean, "TRUE", 1, 8, 0), Token(Operator, "AND", 1, 13, -1), Token(Boolean, "FALSE", 1, 17, 0), Token(RParen, ")", 1, 22, -1), Token(Operator, "OR", 1, 24, -1), Token(LParen, "(", 1, 27, -1)], []), 27, "NOT", Operator, "NOT", NoValue, State(30, 2, [Token(Identifier, "x", 1, 1, 1), Token(Assign, ":=", 1, 3, -1), Token(LParen, "(", 1, 6, -1), Token(LParen, "(", 1, 7, -1), Token(Boolean, "TRUE", 1, 8, 0), Token(Operator, "AND", 1, 13, -1), Token(Boolean, "FALSE", 1, 17, 0), Token(RParen, ")", 1, 22, -1), Token(Operator, "OR", 1, 24, -1), Token(LParen, "(", 1, 27, -1), Token(Operator, "NOT", 1, 28, -1)], []));
  }

  lemma ScanNestedParenthesesUnit18(input: string)
    requires Spells(input, NestedParenthesesText) && '\n' !in NestedParenthesesText
    ensures Run(input, State(30, 2, [Token(Identifier, "x", 1, 1, 1), Token(Assign, ":=", 1, 3, -1), Token(LParen, "(", 1, 6, -1), Token(LParen, "(", 1, 7, -1), Token(Boolean, "TRUE", 1, 8, 0), Token(Operator, "AND", 1, 13, -1), Token(Boolean, "FALSE", 1, 17, 0), Token(RParen, ")", 1, 22, -1), Token(Operator, "OR", 1, 24, -1), Token(LParen, "(", 1, 27, -1), Token(Operator, "NOT", 1, 28, -1)], [])) == Run(input, State(31, 2, [Token(Identifier, "x", 1, 1, 1), Token(Assign, ":=", 1, 3, -1), Token(LParen, "(", 1, 6, -1), Token(LParen, "(", 1, 7, -1), Token(Boolean, "TRUE", 1, 8, 0), Token(Operator, "AND", 1, 13, -1), Token(Boolean, "FALSE", 1, 17, 0), Token(RParen, ")", 1, 22, -1), Token(Operator, "OR", 1, 24, -1), Token(LParen, "(", 1, 27, -1), Token(Operator, "NOT", 1, 28, -1)], []))
  {
    BlankUnit(input, NestedParenthesesText, State(30, 2, [Token(Identifier, "x", 1, 1, 1), Token(Assign, ":=", 1, 3, -1), Token(LParen, "(", 1, 6, -1), Token(LParen, "(", 1, 7, -1), Token(Boolean, "TRUE", 1, 8, 0), Token(Operator, "AND", 1, 13, -1), Token(Boolean, "FALSE", 1, 17, 0), Token(RParen, ")", 1, 22, -1), Token(Operator, "OR", 1, 24, -1), Token(LParen, "(", 1, 27, -1), Token(Operator, "NOT", 1, 28, -1)], []), 30, State(31, 2, [Token(Identifier, "x", 1, 1, 1), Token(Assign, ":=", 1, 3, -1), Token(LParen, "(", 1, 6, -1), Token(LParen, "(", 1, 7, -1), Token(Boolean, "TRUE", 1, 8, 0), Token(Operator, "AND", 1, 13, -1), Token(Boolean, "FALSE", 1, 17, 0), Token(RParen, ")", 1, 22, -1), Token(Operator, "OR", 1, 24, -1), Token(LParen, "(", 1, 27, -1), Token(Operator, "NOT", 1, 28, -1)], []));
  }

  lemma ScanNestedParenthesesUnit19(input: string)
    requires Spells(input, NestedParenthesesText) && '\n' !in NestedParenthesesText
    ensures Run(input, State(31, 2, [Token(Identifier, "x", 1, 1, 1), Token(Assign, ":=", 1, 3, -1), Token(LParen, "(", 1, 6, -1), Token(LParen, "(", 1, 7, -1), Token(Boolean, "TRUE", 1, 8, 0), Token(Operator, "AND", 1, 13, -1), Token(Boolean, "FALSE", 1, 17, 0), Token(RParen, ")", 1, 22, -1), Token(Operator, "OR", 1, 24, -1), Token(LParen, "(", 1, 27, -1), Token(Operator, "NOT", 1, 28, -1)], [])) == Run(input, State(32, 2, [Token(Identifier, "x", 1, 1, 1), Token(Assign, ":=", 1, 3, -1), Token(LParen, "(", 1, 6, -1), Token(LParen, "(", 1, 7, -1), Token(Boolean, "TRUE", 1, 8, 0), Token(Operator, "AND", 1, 13, -1), Token(Boolean, "FALSE", 1, 17, 0), Token(RParen, ")", 1, 22, -1), Token(Operator, "OR", 1, 24, -1), Token(LParen, "(", 1, 27, -1), Token(Operator, "NOT", 1, 28, -1), Token(LParen, "(", 1, 32, -1)], []))
  {
    OpenUnit(input, NestedParenthesesText, State(31, 2, [Token(Identifier, "x", 1, 1, 1), Token(Assign, ":=", 1, 3, -1), Token(LParen, "(", 1, 6, -1), Token(LParen, "(", 1, 7, -1), Token(Boolean, "TRUE", 1, 8, 0), Token(Operator, "AND", 1, 13, -1), Token(Boolean, "FALSE", 1, 17, 0), Token(RParen, ")", 1, 22, -1), Token(Operator, "OR", 1, 24, -1), Token(LParen, "(", 1, 27, -1), Token(Operator, "NOT", 1, 28, -1)], []), 31, State(32, 2, [Token(Identifier, "x", 1, 1, 1), Token(Assign, ":=", 1, 3, -1), Token(LParen, "(", 1, 6, -1), Token(LParen, "(", 1, 7, -1), Token(Boolean, "TRUE", 1, 8, 0), Token(Operator, "AND", 1, 13, -1), Token(Boolean, "FALSE", 1, 17, 0), Token(RParen, ")", 1, 22, -1), Token(Operator, "OR", 1, 24, -1), Token(LParen, "(", 1, 27, -1), Token(Operator, "NOT", 1, 28, -1), Token(LParen, "(", 1, 32, -1)], []));
  }

  lemma ScanNestedParenthesesUnit20(input: string)
    requires Spells(input, NestedParenthesesText) && '\n' !in NestedParenthesesText
    ensures Run(input, State(32, 2, [Token(Identifier, "x", 1, 1, 1), Token(Assign, ":=", 1, 3, -1), Token(LParen, "(", 1, 6, -1), Token(LParen, "(", 1, 7, -1), Token(Boolean, "TRUE", 1, 8, 0), Token(Operator, "AND", 1, 13, -1), Token(Boolean, "FALSE", 1, 17, 0), Token(RParen, ")", 1, 22, -1), Token(Operator, "OR", 1, 24, -1), Token(LParen, "(", 1, 27, -1), Token(Operator, "NOT", 1, 28, -1), Token(LParen, "(", 1, 32, -1)], [])) == Run(input, State(36, 2, [Token(Identifier, "x", 1, 1, 1), Token(Assign, ":=", 1, 3, -1), Token(LParen, "(", 1, 6, -1), Token(LParen, "(", 1, 7, -1), Token(Boolean, "TRUE", 1, 8, 0), Token(Operator, "AND", 1, 13, -1), Token(Boolean, "FALSE", 1, 17, 0), Token(RParen, ")", 1, 22, -1), Token(Operator, "OR", 1, 24, -1), Token(LParen, "(", 1, 27, -1), Token(Operator, "NOT", 1, 28, -1), Token(LParen, "(", 1, 32, -1), Token(Boolean, "TRUE", 1, 33, 0)], []))
  {
    KeywordUnit(input, NestedParenthesesText, State(32, 2, [Token(Identifier, "x", 1, 1, 1), Token(Assign, ":=", 1, 3, -1), Token(LParen, "(", 1, 6, -1), Token(LParen, "(", 1, 7, -1), Token(Boolean, "TRUE", 1, 8, 0), Token(Operator, "AND", 1, 13, -1), Token(Boolean, "FALSE", 1, 17, 0), Token(RParen, ")", 1, 22, -1), Token(Operator, "OR", 1, 24, -1), Token(LParen, "(", 1, 27, -1), Token(Operator, "NOT", 1, 28, -1), Token(LParen, "(", 1, 32, -1)], []), 32, "TRUE", Boolean, "TRUE", 0, State(36, 2, [Token(Identifier, "x", 1, 1, 1), Token(Assign, ":=", 1, 3, -1), Token(LParen, "(", 1, 6, -1), Token(LParen, "(", 1, 7, -1), Token(Boolean, "TRUE", 1, 8, 0), Token(Operator, "AND", 1, 13, -1), Token(Boolean, "FALSE", 1, 17, 0), Token(RParen, ")", 1, 22, -1), Token(Operator, "OR", 1, 24, -1), Token(LParen, "(", 1, 27, -1), Token(Operator, "NOT", 1, 28, -1), Token(LParen, "(", 1, 32, -1), Token(Boolean, "TRUE", 1, 33, 0)], []));
  }

  lemma ScanNestedParenthesesUnit21(input: string)
    requires Spells(input, NestedParenthesesText) && '\n' !in NestedParenthesesText
    ensures Run(input, State(36, 2, [Token(Identifier, "x", 1, 1, 1), Token(Assign, ":=", 1, 3, -1), Token(LParen, "(", 1, 6, -1), Token(LParen, "(", 1, 7, -1), Token(Boolean, "TRUE", 1, 8, 0), Token(Operator, "AND", 1, 13, -1), Token(Boolean, "FALSE", 1, 17, 0), Token(RParen, ")", 1, 22, -1), Token(Operator, "OR", 1, 24, -1), Token(LParen, "(", 1, 27, -1), Token(Operator, "NOT", 1, 28, -1), Token(LParen, "(", 1, 32, -1), Token(Boolean, "TRUE", 1, 33, 0)], [])) == Run(input, State(37, 2, [Token(Identifier, "x", 1, 1, 1), Token(Assign, ":=", 1, 3, -1), Token(LParen, "(", 1, 6, -1), Token(LParen, "(", 1, 7, -1), Token(Boolean, "TRUE", 1, 8, 0), Token(Operator, "AND", 1, 13, -1), Token(Boolean, "FALSE", 1, 17, 0), Token(RParen, ")", 1, 22, -1), Token(Operator, "OR", 1, 24, -1), Token(LParen, "(", 1, 27, -1), Token(Operator, "NOT", 1, 28, -1), Token(LParen, "(", 1, 32, -1), Token(Boolean, "TRUE", 1, 33, 0)], []))
  {
    BlankUnit(input, NestedParenthesesText, State(36, 2, [Token(Identifier, "x", 1, 1, 1), Token(Assign, ":=", 1, 3, -1), Token(LParen, "(", 1, 6, -1), Token(LParen, "(", 1, 7, -1), Token(Boolean, "TRUE", 1, 8, 0), Token(Operator, "AND", 1, 13, -1), Token(Boolean, "FALSE", 1, 17, 0), Token(RParen, ")", 1, 22, -1), Token(Operator, "OR", 1, 24, -1), Token(LParen, "(", 1, 27, -1), Token(Operator, "NOT", 1, 28, -1), Token(LParen, "(", 1, 32, -1), Token(Boolean, "TRUE", 1, 33, 0)], []), 36, State(37, 2, [Token(Identifier, "x", 1, 1, 1), Token(Assign, ":=", 1, 3, -1), Token(LParen, "(", 1, 6, -1), Token(LParen, "(", 1, 7, -1), Token(Boolean, "TRUE", 1, 8, 0), Token(Operator, "AND", 1, 13, -1), Token(Boolean, "FALSE", 1, 17, 0), Token(RParen, ")", 1, 22, -1), Token(Operator, "OR", 1, 24, -1), Token(LParen, "(", 1, 27, -1), Token(Operator, "NOT", 1, 28, -1), Token(LParen, "(", 1, 32, -1), Token(Boolean, "TRUE", 1, 33, 0)], []));
  }

  lemma ScanNestedParenthesesUnit22(input: string)
    requires Spells(input, NestedParenthesesText) && '\n' !in NestedParenthesesText
    ensures Run(input, State(37, 2, [Token(Identifier, "x", 1, 1, 1), Token(Assign, ":=", 1, 3, -1), Token(LParen, "(", 1, 6, -1), Token(LParen, "(", 1, 7, -1), Token(Boolean, "TRUE", 1, 8, 0), Token(Operator, "AND", 1, 13, -1), Token(Boolean, "FALSE", 1, 17, 0), Token(RParen, ")", 1, 22, -1), Token(Operator, "OR", 1, 24, -1), Token(LParen, "(", 1, 27, -1), Token(Operator, "NOT", 1, 28, -1), Token(LParen, "(", 1, 32, -1), Token(Boolean, "TRUE", 1, 33, 0)], [])) == Run(input, State(40, 2, [Token(Identifier, "x", 1, 1, 1), Token(Assign, ":=", 1, 3, -1), Token(LParen, "(", 1, 6, -1), Token(LParen, "(", 1, 7, -1), Token(Boolean, "TRUE", 1, 8, 0), Token(Operator, "AND", 1, 13, -1), Token(Boolean, "FALSE", 1, 17, 0), Token(RParen, ")", 1, 22, -1), Token(Operator, "OR", 1, 24, -1), Token(LParen, "(", 1, 27, -1), Token(Operator, "NOT", 1, 28, -1), Token(LParen, "(", 1, 32, -1), Token(Boolean, "TRUE", 1, 33, 0), Token(Operator, "XOR", 1, 38, -1)], []))
  {
    KeywordUnit(input, NestedParenthesesText, State(37, 2, [Token(Identifier, "x", 1, 1, 1), Token(Assign, ":=", 1, 3, -1), Token(LParen, "(", 1, 6, -1), Token(LParen, "(", 1, 7, -1), Token(Boolean, "TRUE", 1, 8, 0), Token(Operator, "AND", 1, 13, -1), Token(Boolean, "FALSE", 1, 17, 0), Token(RParen, ")", 1, 22, -1), Token(Operator, "OR", 1, 24, -1), Token(LParen, "(", 1, 27, -1), Token(Operator, "NOT", 1, 28, -1), Token(LParen, "(", 1, 32, -1), Token(Boolean, "TRUE", 1, 33, 0)], []), 37, "XOR", Operator, "XOR", NoValue, State(40, 2, [Token(Identifier, "x", 1, 1, 1), Token(Assign, ":=", 1, 3, -1), Token(LParen, "(", 1, 6, -1), Token(LParen, "(", 1, 7, -1), Token(Boolean, "TRUE", 1, 8, 0), Token(Operator, "AND", 1, 13, -1), Token(Boolean, "FALSE", 1, 17, 0), Token(RParen, ")", 1, 22, -1), Token(Operator, "OR", 1, 24, -1), Token(LParen, "(", 1, 27, -1), Token(Operator, "NOT", 1, 28, -1), Token(LParen, "(", 1, 32, -1), Token(Boolean, "TRUE", 1, 33, 0), Token(Operator, "XOR", 1, 38, -1)], []));
  }

  lemma ScanNestedParenthesesUnit23(input: string)
    requires Spells(input, NestedParenthesesText) && '\n' !in NestedParenthesesText
    ensures Run(input, State(40, 2, [Token(Identifier, "x", 1, 1, 1), Token(Assign, ":=", 1, 3, -1), Token(LParen, "(", 1, 6, -1), Token(LParen, "(", 1, 7, -1), Token(Boolean, "TRUE", 1, 8, 0), Token(Operator, "AND", 1, 13, -1), Token(Boolean, "FALSE", 1, 17, 0), Token(RParen, ")", 1, 22, -1), Token(Operator, "OR", 1, 24, -1), Token(LParen, "(", 1, 27, -1), Token(Operator, "NOT", 1, 28, -1), Token(LParen, "(", 1, 32, -1), Token(Boolean, "TRUE", 1, 33, 0), Token(Operator, "XOR", 1, 38, -1)], [])) == Run(input, State(41, 2, [Token(Identifier, "x", 1, 1, 1), Token(Assign, ":=", 1, 3, -1), Token(LParen, "(", 1, 6, -1), Token(LParen, "(", 1, 7, -1), Token(Boolean, "TRUE", 1, 8, 0), Token(Operator, "AND", 1, 13, -1), Token(Boolean, "FALSE", 1, 17, 0), Token(RParen, ")", 1, 22, -1), Token(Operator, "OR", 1, 24, -1), Token(LParen, "(", 1, 27, -1), Token(Operator, "NOT", 1, 28, -1), Token(LParen, "(", 1, 32, -1), Token(Boolean, "TRUE", 1, 33, 0), Token(Operator, "XOR", 1, 38, -1)], []))
  {
    BlankUnit(input, NestedParenthesesText, State(40, 2, [Token(Identifier, "x", 1, 1, 1), Token(Assign, ":=", 1, 3, -1), Token(LParen, "(", 1, 6, -1), Token(LParen, "(", 1, 7, -1), Token(Boolean, "TRUE", 1, 8, 0), Token(Operator, "AND", 1, 13, -1), Token(Boolean, "FALSE", 1, 17, 0), Token(RParen, ")", 1, 22, -1), Token(Operator, "OR", 1, 24, -1), Token(LParen, "(", 1, 27, -1), Token(Operator, "NOT", 1, 28, -1), Token(LParen, "(", 1, 32, -1), Token(Boolean, "TRUE", 1, 33, 0), Token(Operator, "XOR", 1, 38, -1)], []), 40, State(41, 2, [Token(Identifier, "x", 1, 1, 1), Token(Assign, ":=", 1, 3, -1), Token(LParen, "(", 1, 6, -1), Token(LParen, "(", 1, 7, -1), Token(Boolean, "TRUE", 1, 8, 0), Token(Operator, "AND", 1, 13, -1), Token(Boolean, "FALSE", 1, 17, 0), Token(RParen, ")", 1, 22, -1), Token(Operator, "OR", 1, 24, -1), Token(LParen, "(", 1, 27, -1), Token(Operator, "NOT", 1, 28, -1), Token(LParen, "(", 1, 32, -1), Token(Boolean, "TRUE", 1, 33, 0), Token(Operator, "XOR", 1, 38, -1)], []));
  }

  lemma ScanNestedParenthesesUnit24(input: string)
    requires Spells(input, NestedParenthesesText) && '\n' !in NestedParenthesesText
    ensures Run(input, State(41, 2, [Token(Identifier, "x", 1, 1, 1), Token(Assign, ":=", 1, 3, -1), Token(LParen, "(", 1, 6, -1), Token(LParen, "(", 1, 7, -1), Token(Boolean, "TRUE", 1, 8, 0), Token(Operator, "AND", 1, 13, -1), Token(Boolean, "FALSE", 1, 17, 0), Token(RParen, ")", 1, 22, -1), Token(Operator, "OR", 1, 24, -1), Token(LParen, "(", 1, 27, -1), Token(Operator, "NOT", 1, 28, -1), Token(LParen, "(", 1, 32, -1), Token(Boolean, "TRUE", 1, 33, 0), Token(Operator, "XOR", 1, 38, -1)], [])) == Run(input, State(46, 2, [Token(Identifier, "x", 1, 1, 1), Token(Assign, ":=", 1, 3, -1), Token(LParen, "(", 1, 6, -1), Token(LParen, "(", 1, 7, -1), Token(Boolean, "TRUE", 1, 8, 0), Token(Operator, "AND", 1, 13, -1), Token(Boolean, "FALSE", 1, 17, 0), Token(RParen, ")", 1, 22, -1), Token(Operator, "OR", 1, 24, -1), Token(LParen, "(", 1, 27, -1), Token(Operator, "NOT", 1, 28, -1), Token(LParen, "(", 1, 32, -1), Token(Boolean, "TRUE", 1, 33, 0), Token(Operator, "XOR", 1, 38, -1), Token(Boolean, "FALSE", 1, 42, 0)], []))
  {
    KeywordUnit(input, NestedParenthesesText, State(41, 2, [Token(Identifier, "x", 1, 1, 1), Token(Assign, ":=", 1, 3, -1), Token(LParen, "(", 1, 6, -1), Token(LParen, "(", 1, 7, -1), Token(Boolean, "TRUE", 1, 8, 0), Token(Operator, "AND", 1, 13, -1), Token(Boolean, "FALSE", 1, 17, 0), Token(RParen, ")", 1, 22, -1), Token(Operator, "OR", 1, 24, -1), Token(LParen, "(", 1, 27, -1), Token(Operator, "NOT", 1, 28, -1), Token(LParen, "(", 1, 32, -1), Token(Boolean, "TRUE", 1, 33, 0), Token(Operator, "XOR", 1, 38, -1)], []), 41, "FALSE", Boolean, "FALSE", 0, State(46, 2, [Token(Identifier, "x", 1, 1, 1), Token(Assign, ":=", 1, 3, -1), Token(LParen, "(", 1, 6, -1), Token(LParen, "(", 1, 7, -1), Token(Boolean, "TRUE", 1, 8, 0), Token(Operator, "AND", 1, 13, -1), Token(Boolean, "FALSE", 1, 17, 0), Token(RParen, ")", 1, 22, -1), Token(Operator, "OR", 1, 24, -1), Token(LParen, "(", 1, 27, -1), Token(Operator, "NOT", 1, 28, -1), Token(LParen, "(", 1, 32, -1), Token(Boolean, "TRUE", 1, 33, 0), Token(Operator, "XOR", 1, 38, -1), Token(Boolean, "FALSE", 1, 42, 0)], []));
  }

  lemma ScanNestedParenthesesUnit25(input: string)
    requires Spells(input, NestedParenthesesText) && '\n' !in NestedParenthesesText
    ensures Run(input, State(46, 2, [Token(Identifier, "x", 1, 1, 1), Token(Assign, ":=", 1, 3, -1), Token(LParen, "(", 1, 6, -1), Token(LParen, "(", 1, 7, -1), Token(Boolean, "TRUE", 1, 8, 0), Token(Operator, "AND", 1, 13, -1), Token(Boolean, "FALSE", 1, 17, 0), Token(RParen, ")", 1, 22, -1), Token(Operator, "OR", 1, 24, -1), Token(LParen, "(", 1, 27, -1), Token(Operator, "NOT", 1, 28, -1), Token(LParen, "(", 1, 32, -1), Token(Boolean, "TRUE", 1, 33, 0), Token(Operator, "XOR", 1, 38, -1), Token(Boolean, "FALSE", 1, 42, 0)], [])) == Run(input, State(47, 2, [Token(Identifier, "x", 1, 1, 1), Token(Assign, ":=", 1, 3, -1), Token(LParen, "(", 1, 6, -1), Token(LParen, "(", 1, 7, -1), Token(Boolean, "TRUE", 1, 8, 0), Token(Operator, "AND", 1, 13, -1), Token(Boolean, "FALSE", 1, 17, 0), Token(RParen, ")", 1, 22, -1), Token(Operator, "OR", 1, 24, -1), Token(LParen, "(", 1, 27, -1), Token(Operator, "NOT", 1, 28, -1), Token(LParen, "(", 1, 32, -1), Token(Boolean, "TRUE", 1, 33, 0), Token(Operator, "XOR", 1, 38, -1), Token(Boolean, "FALSE", 1, 42, 0), Token(RParen, ")", 1, 47, -1)], []))
  {
    CloseUnit(input, NestedParenthesesText, State(46, 2, [Token(Identifier, "x", 1, 1, 1), Token(Assign, ":=", 1, 3, -1), Token(LParen, "(", 1, 6, -1), Token(LParen, "(", 1, 7, -1), Token(Boolean, "TRUE", 1, 8, 0), Token(Operator, "AND", 1, 13, -1), Token(Boolean, "FALSE", 1, 17, 0), Token(RParen, ")", 1, 22, -1), Token(Operator, "OR", 1, 24, -1), Token(LParen, "(", 1, 27, -1), Token(Operator, "NOT", 1, 28, -1), Token(LParen, "(", 1, 32, -1), Token(Boolean, "TRUE", 1, 33, 0), Token(Operator, "XOR", 1, 38, -1), Token(Boolean, "FALSE", 1, 42, 0)], []), 46, State(47, 2, [Token(Identifier, "x", 1, 1, 1), Token(Assign, ":=", 1, 3, -1), Token(LParen, "(", 1, 6, -1), Token(LParen, "(", 1, 7, -1), Token(Boolean, "TRUE", 1, 8, 0), Token(Operator, "AND", 1, 13, -1), Token(Boolean, "FALSE", 1, 17, 0), Token(RParen, ")", 1, 22, -1), Token(Operator, "OR", 1, 24, -1), Token(LParen, "(", 1, 27, -1), Token(Operator, "NOT", 1, 28, -1), Token(LParen, "(", 1, 32, -1), Token(Boolean, "TRUE", 1, 33, 0), Token(Operator, "XOR", 1, 38, -1), Token(Boolean, "FALSE", 1, 42, 0), Token(RParen, ")", 1, 47, -1)], []));
  }

  lemma ScanNestedParenthesesUnit26(input: string)
    requires Spells(input, NestedParenthesesText) && '\n' !in NestedParenthesesText
    ensures Run(input, State(47, 2, [Token(Identifier, "x", 1, 1, 1), Token(Assign, ":=", 1, 3, -1), Token(LParen, "(", 1, 6, -1), Token(LParen, "(", 1, 7, -1), Token(Boolean, "TRUE", 1, 8, 0), Token(Operator, "AND", 1, 13, -1), Token(Boolean, "FALSE", 1, 17, 0), Token(RParen, ")", 1, 22, -1), Token(Operator, "OR", 1, 24, -1), Token(LParen, "(", 1, 27, -1), Token(Operator, "NOT", 1, 28, -1), Token(LParen, "(", 1, 32, -1), Token(Boolean, "TRUE", 1, 33, 0), Token(Operator, "XOR", 1, 38, -1), Token(Boolean, "FALSE", 1, 42, 0), Token(RParen, ")", 1, 47, -1)], [])) == Run(input, State(48, 2, [Token(Identifier, "x", 1, 1, 1), Token(Assign, ":=", 1, 3, -1), Token(LParen, "(", 1, 6, -1), Token(LParen, "(", 1, 7, -1), Token(Boolean, "TRUE", 1, 8, 0), Token(Operator, "AND", 1, 13, -1), Token(Boolean, "FALSE", 1, 17, 0), Token(RParen, ")", 1, 22, -1), Token(Operator, "OR", 1, 24, -1), Token(LParen, "(", 1, 27, -1), Token(Operator, "NOT", 1, 28, -1), Token(LParen, "(", 1, 32, -1), Token(Boolean, "TRUE", 1, 33, 0), Token(Operator, "XOR", 1, 38, -1), Token(Boolean, "FALSE", 1, 42, 0), Token(RParen, ")", 1, 47, -1), Token(RParen, ")", 1, 48, -1)], []))
  {
    CloseUnit(input, NestedParenthesesText, State(47, 2, [Token(Identifier, "x", 1, 1, 1), Token(Assign, ":=", 1, 3, -1), Token(LParen, "(", 1, 6, -1), Token(LParen, "(", 1, 7, -1), Token(Boolean, "TRUE", 1, 8, 0), Token(Operator, "AND", 1, 13, -1), Token(Boolean, "FALSE", 1, 17, 0), Token(RParen, ")", 1, 22, -1), Token(Operator, "OR", 1, 24, -1), Token(LParen, "(", 1, 27, -1), Token(Operator, "NOT", 1, 28, -1), Token(LParen, "(", 1, 32, -1), Token(Boolean, "TRUE", 1, 33, 0), Token(Operator, "XOR", 1, 38, -1), Token(Boolean, "FALSE", 1, 42, 0), Token(RParen, ")", 1, 47, -1)], []), 47, State(48, 2, [Token(Identifier, "x", 1, 1, 1), Token(Assign, ":=", 1, 3, -1), Token(LParen, "(", 1, 6, -1), Token(LParen, "(", 1, 7, -1), Token(Boolean, "TRUE", 1, 8, 0), Token(Operator, "AND", 1, 13, -1), Token(Boolean, "FALSE", 1, 17, 0), Token(RParen, ")", 1, 22, -1), Token(Operator, "OR", 1, 24, -1), Token(LParen, "(", 1, 27, -1), Token(Operator, "NOT", 1, 28, -1), Token(LParen, "(", 1, 32, -1), Token(Boolean, "TRUE", 1, 33, 0), Token(Operator, "XOR", 1, 38, -1), Token(Boolean, "FALSE", 1, 42, 0), Token(RParen, ")", 1, 47, -1), Token(RParen, ")", 1, 48, -1)], []));
  }

  lemma ScanNestedParenthesesUnit27(input: string)
    requires Spells(input, NestedParenthesesText) && '\n' !in NestedParenthesesText
    ensures Run(input, State(48, 2, [Token(Identifier, "x", 1, 1, 1), Token(Assign, ":=", 1, 3, -1), Token(LParen, "(", 1, 6, -1), Token(LParen, "(", 1, 7, -1), Token(Boolean, "TRUE", 1, 8, 0), Token(Operator, "AND", 1, 13, -1), Token(Boolean, "FALSE", 1, 17, 0), Token(RParen, ")", 1, 22, -1), Token(Operator, "OR", 1, 24, -1), Token(LParen, "(", 1, 27, -1), Token(Operator, "NOT", 1, 28, -1), Token(LParen, "(", 1, 32, -1), Token(Boolean, "TRUE", 1, 33, 0), Token(Operator, "XOR", 1, 38, -1), Token(Boolean, "FALSE", 1, 42, 0), Token(RParen, ")", 1, 47, -1), Token(RParen, ")", 1, 48, -1)], [])) == Run(input, State(49, 2, [Token(Identifier, "x", 1, 1, 1), Token(Assign, ":=", 1, 3, -1), Token(LParen, "(", 1, 6, -1), Token(LParen, "(", 1, 7, -1), Token(Boolean, "TRUE", 1, 8, 0), Token(Operator, "AND", 1, 13, -1), Token(Boolean, "FALSE", 1, 17, 0), Token(RParen, ")", 1, 22, -1), Token(Operator, "OR", 1, 24, -1), Token(LParen, "(", 1, 27, -1), Token(Operator, "NOT", 1, 28, -1), Token(LParen, "(", 1, 32, -1), Token(Boolean, "TRUE", 1, 33, 0), Token(Operator, "XOR", 1, 38, -1), Token(Boolean, "FALSE", 1, 42, 0), Token(RParen, ")", 1, 47, -1), Token(RParen, ")", 1, 48, -1), Token(RParen, ")", 1, 49, -1)], []))
  {
    CloseUnit(input, NestedParenthesesText, State(48, 2, [Token(Identifier, "x", 1, 1, 1), Token(Assign, ":=", 1, 3, -1), Token(LParen, "(", 1, 6, -1), Token(LParen, "(", 1, 7, -1), Token(Boolean, "TRUE", 1, 8, 0), Token(Operator, "AND", 1, 13, -1), Token(Boolean, "FALSE", 1, 17, 0), Token(RParen, ")", 1, 22, -1), Token(Operator, "OR", 1, 24, -1), Token(LParen, "(", 1, 27, -1), Token(Operator, "NOT", 1, 28, -1), Token(LParen, "(", 1, 32, -1), Token(Boolean, "TRUE", 1, 33, 0), Token(Operator, "XOR", 1, 38, -1), Token(Boolean, "FALSE", 1, 42, 0), Token(RParen, ")", 1, 47, -1), Token(RParen, ")", 1, 48, -1)], []), 48, State(49, 2, [Token(Identifier, "x", 1, 1, 1), Token(Assign, ":=", 1, 3, -1), Token(LParen, "(", 1, 6, -1), Token(LParen, "(", 1, 7, -1), Token(Boolean, "TRUE", 1, 8, 0), Token(Operator, "AND", 1, 13, -1), Token(Boolean, "FALSE", 1, 17, 0), Token(RParen, ")", 1, 22, -1), Token(Operator, "OR", 1, 24, -1), Token(LParen, "(", 1, 27, -1), Token(Operator, "NOT", 1, 28, -1), Token(LParen, "(", 1, 32, -1), Token(Boolean, "TRUE", 1, 33, 0), Token(Operator, "XOR", 1, 38, -1), Token(Boolean, "FALSE", 1, 42, 0), Token(RParen, ")", 1, 47, -1), Token(RParen, ")", 1, 48, -1), Token(RParen, ")", 1, 49, -1)], []));
  }

  /**
   * The second of two adjacent '|' is dropped: one Pipe, no error
   * (LexicalAnalyzerTest.java:162-171).
   */
  lemma ScanMultiplePipes()
    ensures Analysis("a:=TRUE||b:=FALSE").tokens == [Token(Identifier, "a", 1, 1, 1), Token(Assign, ":=", 1, 2, -1), Token(Boolean, "TRUE", 1, 4, 0), Token(Pipe, "|", 1, 8, -1), Token(Identifier, "b", 1, 10, 2), Token(Assign, ":=", 1, 11, -1), Token(Boolean, "FALSE", 1, 13, 0)]
    ensures Analysis("a:=TRUE||b:=FALSE").errors == []
  {
    assert Spells(MultiplePipesText, MultiplePipesText);
    ScanMultiplePipesRun(MultiplePipesText);
  }

  const MultiplePipesText := "a:=TRUE||b:=FALSE"

  lemma ScanMultiplePipesRun(input: string)
    requires Spells(input, MultiplePipesText) && '\n' !in MultiplePipesText
    ensures Analysis(input) == State(17, 3, [Token(Identifier, "a", 1, 1, 1), Token(Assign, ":=", 1, 2, -1), Token(Boolean, "TRUE", 1, 4, 0), Token(Pipe, "|", 1, 8, -1), Token(Identifier, "b", 1, 10, 2), Token(Assign, ":=", 1, 11, -1), Token(Boolean, "FALSE", 1, 13, 0)], [])
  {
    ScanMultiplePipesUnit1(input);
    ScanMultiplePipesUnit2(input);
    ScanMultiplePipesUnit3(input);
    ScanMultiplePipesUnit4(input);
    ScanMultiplePipesUnit5(input);
    ScanMultiplePipesUnit6(input);
    ScanMultiplePipesUnit7(input);
    ScanMultiplePipesUnit8(input);
    EndOfInput(input, State(17, 3, [Token(Identifier, "a", 1, 1, 1), Token(Assign, ":=", 1, 2, -1), Token(Boolean, "TRUE", 1, 4, 0), Token(Pipe, "|", 1, 8, -1), Token(Identifier, "b", 1, 10, 2), Token(Assign, ":=", 1, 11, -1), Token(Boolean, "FALSE", 1, 13, 0)], []));
  }

  lemma ScanMultiplePipesUnit1(input: string)
    requires Spells(input, MultiplePipesText) && '\n' !in MultiplePipesText
    ensures Run(input, State(0, 1, [], [])) == Run(input, State(1, 2, [Token(Identifier, "a", 1, 1, 1)], []))
  {
    NewNameUnit(input, MultiplePipesText, State(0, 1, [], []), 0, "a", State(1, 2, [Token(Identifier, "a", 1, 1, 1)], []));
  }

  lemma ScanMultiplePipesUnit2(input: string)
    requires Spells(input, MultiplePipesText) && '\n' !in MultiplePipesText
    ensures Run(input, State(1, 2, [Token(Identifier, "a", 1, 1, 1)], [])) == Run(input, State(3, 2, [Token(Identifier, "a", 1, 1, 1), Token(Assign, ":=", 1, 2, -1)], []))
  {
    AssignUnit(input, MultiplePipesText, State(1, 2, [Token(Identifier, "a", 1, 1, 1)], []), 1, State(3, 2, [Token(Identifier, "a", 1, 1, 1), Token(Assign, ":=", 1, 2, -1)], []));
  }

  lemma ScanMultiplePipesUnit3(input: string)
    requires Spells(input, MultiplePipesText) && '\n' !in MultiplePipesText
    ensures Run(input, State(3, 2, [Token(Identifier, "a", 1, 1, 1), Token(Assign, ":=", 1, 2, -1)], [])) == Run(input, State(7, 2, [Token(Identifier, "a", 1, 1, 1), Token(Assign, ":=", 1, 2, -1), Token(Boolean, "TRUE", 1, 4, 0)], []))
  {
    KeywordUnit(input, MultiplePipesText, State(3, 2, [Token(Identifier, "a", 1, 1, 1), Token(Assign, ":=", 1, 2, -1)], []), 3, "TRUE", Boolean, "TRUE", 0, State(7, 2, [Token(Identifier, "a", 1, 1, 1), Token(Assign, ":=", 1, 2, -1), Token(Boolean, "TRUE", 1, 4, 0)], []));
  }

  lemma ScanMultiplePipesUnit4(input: string)
    requires Spells(input, MultiplePipesText) && '\n' !in MultiplePipesText
    ensures Run(input, State(7, 2, [Token(Identifier, "a", 1, 1, 1), Token(Assign, ":=", 1, 2, -1), Token(Boolean, "TRUE", 1, 4, 0)], [])) == Run(input, State(8, 2, [Token(Identifier, "a", 1, 1, 1), Token(Assign, ":=", 1, 2, -1), Token(Boolean, "TRUE", 1, 4, 0), Token(Pipe, "|", 1, 8, -1)], []))
  {
    PipeUnit(input, MultiplePipesText, State(7, 2, [Token(Identifier, "a", 1, 1, 1), Token(Assign, ":=", 1, 2, -1), Token(Boolean, "TRUE", 1, 4, 0)], []), 7, State(8, 2, [Token(Identifier, "a", 1, 1, 1), Token(Assign, ":=", 1, 2, -1), Token(Boolean, "TRUE", 1, 4, 0), Token(Pipe, "|", 1, 8, -1)], []));
  }

  lemma ScanMultiplePipesUnit5(input: string)
    requires Spells(input, MultiplePipesText) && '\n' !in MultiplePipesText
    ensures Run(input, State(8, 2, [Token(Identifier, "a", 1, 1, 1), Token(Assign, ":=", 1, 2, -1), Token(Boolean, "TRUE", 1, 4, 0), Token(Pipe, "|", 1, 8, -1)], [])) == Run(input, State(9, 2, [Token(Identifier, "a", 1, 1, 1), Token(Assign, ":=", 1, 2, -1), Token(Boolean, "TRUE", 1, 4, 0), Token(Pipe, "|", 1, 8, -1)], []))
  {
    RepeatedPipeUnit(input, MultiplePipesText, State(8, 2, [Token(Identifier, "a", 1, 1, 1), Token(Assign, ":=", 1, 2, -1), Token(Boolean, "TRUE", 1, 4, 0), Token(Pipe, "|", 1, 8, -1)], []), 8, State(9, 2, [Token(Identifier, "a", 1, 1, 1), Token(Assign, ":=", 1, 2, -1), Token(Boolean, "TRUE", 1, 4, 0), Token(Pipe, "|", 1, 8, -1)], []));
  }

  lemma ScanMultiplePipesUnit6(input: string)
    requires Spells(input, MultiplePipesText) && '\n' !in MultiplePipesText
    ensures Run(input, State(9, 2, [Token(Identifier, "a", 1, 1, 1), Token(Assign, ":=", 1, 2, -1), Token(Boolean, "TRUE", 1, 4, 0), Token(Pipe, "|", 1, 8, -1)], [])) == Run(input, State(10, 3, [Token(Identifier, "a", 1, 1, 1), Token(Assign, ":=", 1, 2, -1), Token(Boolean, "TRUE", 1, 4, 0), Token(Pipe, "|", 1, 8, -1), Token(Identifier, "b", 1, 10, 2)], []))
  {
    NewNameUnit(input, MultiplePipesText, State(9, 2, [Token(Identifier, "a", 1, 1, 1), Token(Assign, ":=", 1, 2, -1), Token(Boolean, "TRUE", 1, 4, 0), Token(Pipe, "|", 1, 8, -1)], []), 9, "b", State(10, 3, [Token(Identifier, "a", 1, 1, 1), Token(Assign, ":=", 1, 2, -1), Token(Boolean, "TRUE", 1, 4, 0), Token(Pipe, "|", 1, 8, -1), Token(Identifier, "b", 1, 10, 2)], []));
  }

  lemma ScanMultiplePipesUnit7(input: string)
    requires Spells(input, MultiplePipesText) && '\n' !in MultiplePipesText
    ensures Run(input, State(10, 3, [Token(Identifier, "a", 1, 1, 1), Token(Assign, ":=", 1, 2, -1), Token(Boolean, "TRUE", 1, 4, 0), Token(Pipe, "|", 1, 8, -1), Token(Identifier, "b", 1, 10, 2)], [])) == Run(input, State(12, 3, [Token(Identifier, "a", 1, 1, 1), Token(Assign, ":=", 1, 2, -1), Token(Boolean, "TRUE", 1, 4, 0), Token(Pipe, "|", 1, 8, -1), Token(Identifier, "b", 1, 10, 2), Token(Assign, ":=", 1, 11, -1)], []))
  {
    AssignUnit(input, MultiplePipesText, State(10, 3, [Token(Identifier, "a", 1, 1, 1), Token(Assign, ":=", 1, 2, -1), Token(Boolean, "TRUE", 1, 4, 0), Token(Pipe, "|", 1, 8, -1), Token(Identifier, "b", 1, 10, 2)], []), 10, State(12, 3, [Token(Identifier, "a", 1, 1, 1), Token(Assign, ":=", 1, 2, -1), Token(Boolean, "TRUE", 1, 4, 0), Token(Pipe, "|", 1, 8, -1), Token(Identifier, "b", 1, 10, 2), Token(Assign, ":=", 1, 11, -1)], []));
  }

  lemma ScanMultiplePipesUnit8(input: string)
    requires Spells(input, MultiplePipesText) && '\n' !in MultiplePipesText
    ensures Run(input, State(12, 3, [Token(Identifier, "a", 1, 1, 1), Token(Assign, ":=", 1, 2, -1), Token(Boolean, "TRUE", 1, 4, 0), Token(Pipe, "|", 1, 8, -1), Token(Identifier, "b", 1, 10, 2), Token(Assign, ":=", 1, 11, -1)], [])) == Run(input, State(17, 3, [Token(Identifier, "a", 1, 1, 1), Token(Assign, ":=", 1, 2, -1), Token(Boolean, "TRUE", 1, 4, 0), Token(Pipe, "|", 1, 8, -1), Token(Identifier, "b", 1, 10, 2), Token(Assign, ":=", 1, 11, -1), Token(Boolean, "FALSE", 1, 13, 0)], []))
  {
    KeywordUnit(input, MultiplePipesText, State(12, 3, [Token(Identifier, "a", 1, 1, 1), Token(Assign, ":=", 1, 2, -1), Token(Boolean, "TRUE", 1, 4, 0), Token(Pipe, "|", 1, 8, -1), Token(Identifier, "b", 1, 10, 2), Token(Assign, ":=", 1, 11, -1)], []), 12, "FALSE", Boolean, "FALSE", 0, State(17, 3, [Token(Identifier, "a", 1, 1, 1), Token(Assign, ":=", 1, 2, -1), Token(Boolean, "TRUE", 1, 4, 0), Token(Pipe, "|", 1, 8, -1), Token(Identifier, "b", 1, 10, 2), Token(Assign, ":=", 1, 11, -1), Token(Boolean, "FALSE", 1, 13, 0)], []));
  }

  /**
   * Identifiers are case-sensitive: a and A are two names numbered 1 and 2.
   * All eleven units become tokens and nothing is reported, where the test at
   * LexicalAnalyzerTest.java:174-180 expects 8 tokens and 3 errors.
   */
  lemma ScanEdgeCaseIdentifiers()
    ensures Analysis("a := A | b := B | z := Z").tokens == [Token(Identifier, "a", 1, 1, 1), Token(Assign, ":=", 1, 3, -1), Token(Identifier, "A", 1, 6, 2), Token(Pipe, "|", 1, 8, -1), Token(Identifier, "b", 1, 10, 3), Token(Assign, ":=", 1, 12, -1), Token(Identifier, "B", 1, 15, 4), Token(Pipe, "|", 1, 17, -1), Token(Identifier, "z", 1, 19, 5), Token(Assign, ":=", 1, 21, -1), Token(Identifier, "Z", 1, 24, 6)]
    ensures Analysis("a := A | b := B | z := Z").errors == []
  {
    assert Spells(EdgeCaseIdentifiersText, EdgeCaseIdentifiersText);
    ScanEdgeCaseIdentifiersRun(EdgeCaseIdentifiersText);
  }

  const EdgeCaseIdentifiersText := "a := A | b := B | z := Z"

  lemma ScanEdgeCaseIdentifiersRun(input: string)
    requires Spells(input, EdgeCaseIdentifiersText) && '\n' !in EdgeCaseIdentifiersText
    ensures Analysis(input) == State(24, 7, [Token(Identifier, "a", 1, 1, 1), Token(Assign, ":=", 1, 3, -1), Token(Identifier, "A", 1, 6, 2), Token(Pipe, "|", 1, 8, -1), Token(Identifier, "b", 1, 10, 3), Token(Assign, ":=", 1, 12, -1), Token(Identifier, "B", 1, 15, 4), Token(Pipe, "|", 1, 17, -1), Token(Identifier, "z", 1, 19, 5), Token(Assign, ":=", 1, 21, -1), Token(Identifier, "Z", 1, 24, 6)], [])
  {
    ScanEdgeCaseIdentifiersUnit1(input);
    ScanEdgeCaseIdentifiersUnit2(input);
    ScanEdgeCaseIdentifiersUnit3(input);
    ScanEdgeCaseIdentifiersUnit4(input);
    ScanEdgeCaseIdentifiersUnit5(input);
    ScanEdgeCaseIdentifiersUnit6(input);
    ScanEdgeCaseIdentifiersUnit7(input);
    ScanEdgeCaseIdentifiersUnit8(input);
    ScanEdgeCaseIdentifiersUnit9(input);
    ScanEdgeCaseIdentifiersUnit10(input);
    ScanEdgeCaseIdentifiersUnit11(input);
    ScanEdgeCaseIdentifiersUnit12(input);
    ScanEdgeCaseIdentifiersUnit13(input);
    ScanEdgeCaseIdentifiersUnit14(input);
    ScanEdgeCaseIdentifiersUnit15(input);
    ScanEdgeCaseIdentifiersUnit16(input);
    ScanEdgeCaseIdentifiersUnit17(input);
    ScanEdgeCaseIdentifiersUnit18(input);
    ScanEdgeCaseIdentifiersUnit19(input);
    ScanEdgeCaseIdentifiersUnit20(input);
    ScanEdgeCaseIdentifiersUnit21(input);
    EndOfInput(input, State(24, 7, [Token(Identifier, "a", 1, 1, 1), Token(Assign, ":=", 1, 3, -1), Token(Identifier, "A", 1, 6, 2), Token(Pipe, "|", 1, 8, -1), Token(Identifier, "b", 1, 10, 3), Token(Assign, ":=", 1, 12, -1), Token(Identifier, "B", 1, 15, 4), Token(Pipe, "|", 1, 17, -1), Token(Identifier, "z", 1, 19, 5), Token(Assign, ":=", 1, 21, -1), Token(Identifier, "Z", 1, 24, 6)], []));
  }

  lemma ScanEdgeCaseIdentifiersUnit1(input: string)
    requires Spells(input, EdgeCaseIdentifiersText) && '\n' !in EdgeCaseIdentifiersText
    ensures Run(input, State(0, 1, [], [])) == Run(input, State(1, 2, [Token(Identifier, "a", 1, 1, 1)], []))
  {
    NewNameUnit(input, EdgeCaseIdentifiersText, State(0, 1, [], []), 0, "a", State(1, 2, [Token(Identifier, "a", 1, 1, 1)], []));
  }

  lemma ScanEdgeCaseIdentifiersUnit2(input: string)
    requires Spells(input, EdgeCaseIdentifiersText) && '\n' !in EdgeCaseIdentifiersText
    ensures Run(input, State(1, 2, [Token(Identifier, "a", 1, 1, 1)], [])) == Run(input, State(2, 2, [Token(Identifier, "a", 1, 1, 1)], []))
  {
    BlankUnit(input, EdgeCaseIdentifiersText, State(1, 2, [Token(Identifier, "a", 1, 1, 1)], []), 1, State(2, 2, [Token(Identifier, "a", 1, 1, 1)], []));
  }

  lemma ScanEdgeCaseIdentifiersUnit3(input: string)
    requires Spells(input, EdgeCaseIdentifiersText) && '\n' !in EdgeCaseIdentifiersText
    ensures Run(input, State(2, 2, [Token(Identifier, "a", 1, 1, 1)], [])) == Run(input, State(4, 2, [Token(Identifier, "a", 1, 1, 1), Token(Assign, ":=", 1, 3, -1)], []))
  {
    AssignUnit(input, EdgeCaseIdentifiersText, State(2, 2, [Token(Identifier, "a", 1, 1, 1)], []), 2, State(4, 2, [Token(Identifier, "a", 1, 1, 1), Token(Assign, ":=", 1, 3, -1)], []));
  }

  lemma ScanEdgeCaseIdentifiersUnit4(input: string)
    requires Spells(input, EdgeCaseIdentifiersText) && '\n' !in EdgeCaseIdentifiersText
    ensures Run(input, State(4, 2, [Token(Identifier, "a", 1, 1, 1), Token(Assign, ":=", 1, 3, -1)], [])) == Run(input, State(5, 2, [Token(Identifier, "a", 1, 1, 1), Token(Assign, ":=", 1, 3, -1)], []))
  {
    BlankUnit(input, EdgeCaseIdentifiersText, State(4, 2, [Token(Identifier, "a", 1, 1, 1), Token(Assign, ":=", 1, 3, -1)], []), 4, State(5, 2, [Token(Identifier, "a", 1, 1, 1), Token(Assign, ":=", 1, 3, -1)], []));
  }

  lemma ScanEdgeCaseIdentifiersUnit5(input: string)
    requires Spells(input, EdgeCaseIdentifiersText) && '\n' !in EdgeCaseIdentifiersText
    ensures Run(input, State(5, 2, [Token(Identifier, "a", 1, 1, 1), Token(Assign, ":=", 1, 3, -1)], [])) == Run(input, State(6, 3, [Token(Identifier, "a", 1, 1, 1), Token(Assign, ":=", 1, 3, -1), Token(Identifier, "A", 1, 6, 2)], []))
  {
    NewNameUnit(input, EdgeCaseIdentifiersText, State(5, 2, [Token(Identifier, "a", 1, 1, 1), Token(Assign, ":=", 1, 3, -1)], []), 5, "A", State(6, 3, [Token(Identifier, "a", 1, 1, 1), Token(Assign, ":=", 1, 3, -1), Token(Identifier, "A", 1, 6, 2)], []));
  }

  lemma ScanEdgeCaseIdentifiersUnit6(input: string)
    requires Spells(input, EdgeCaseIdentifiersText) && '\n' !in EdgeCaseIdentifiersText
    ensures Run(input, State(6, 3, [Token(Identifier, "a", 1, 1, 1), Token(Assign, ":=", 1, 3, -1), Token(Identifier, "A", 1, 6, 2)], [])) == Run(input, State(7, 3, [Token(Identifier, "a", 1, 1, 1), Token(Assign, ":=", 1, 3, -1), Token(Identifier, "A", 1, 6, 2)], []))
  {
    BlankUnit(input, EdgeCaseIdentifiersText, State(6, 3, [Token(Identifier, "a", 1, 1, 1), Token(Assign, ":=", 1, 3, -1), Token(Identifier, "A", 1, 6, 2)], []), 6, State(7, 3, [Token(Identifier, "a", 1, 1, 1), Token(Assign, ":=", 1, 3, -1), Token(Identifier, "A", 1, 6, 2)], []));
  }

  lemma ScanEdgeCaseIdentifiersUnit7(input: string)
    requires Spells(input, EdgeCaseIdentifiersText) && '\n' !in EdgeCaseIdentifiersText
    ensures Run(input, State(7, 3, [Token(Identifier, "a", 1, 1, 1), Token(Assign, ":=", 1, 3, -1), Token(Identifier, "A", 1, 6, 2)], [])) == Run(input, State(8, 3, [Token(Identifier, "a", 1, 1, 1), Token(Assign, ":=", 1, 3, -1), Token(Identifier, "A", 1, 6, 2), Token(Pipe, "|", 1, 8, -1)], []))
  {
    PipeUnit(input, EdgeCaseIdentifiersText, State(7, 3, [Token(Identifier, "a", 1, 1, 1), Token(Assign, ":=", 1, 3, -1), Token(Identifier, "A", 1, 6, 2)], []), 7, State(8, 3, [Token(Identifier, "a", 1, 1, 1), Token(Assign, ":=", 1, 3, -1), Token(Identifier, "A", 1, 6, 2), Token(Pipe, "|", 1, 8, -1)], []));
  }

  lemma ScanEdgeCaseIdentifiersUnit8(input: string)
    requires Spells(input, EdgeCaseIdentifiersText) && '\n' !in EdgeCaseIdentifiersText
    ensures Run(input, State(8, 3, [Token(Identifier, "a", 1, 1, 1), Token(Assign, ":=", 1, 3, -1), Token(Identifier, "A", 1, 6, 2), Token(Pipe, "|", 1, 8, -1)], [])) == Run(input, State(9, 3, [Token(Identifier, "a", 1, 1, 1), Token(Assign, ":=", 1, 3, -1), Token(Identifier, "A", 1, 6, 2), Token(Pipe, "|", 1, 8, -1)], []))
  {
    BlankUnit(input, EdgeCaseIdentifiersText, State(8, 3, [Token(Identifier, "a", 1, 1, 1), Token(Assign, ":=", 1, 3, -1), Token(Identifier, "A", 1, 6, 2), Token(Pipe, "|", 1, 8, -1)], []), 8, State(9, 3, [Token(Identifier, "a", 1, 1, 1), Token(Assign, ":=", 1, 3, -1), Token(Identifier, "A", 1, 6, 2), Token(Pipe, "|", 1, 8, -1)], []));
  }

  lemma ScanEdgeCaseIdentifiersUnit9(input: string)
    requires Spells(input, EdgeCaseIdentifiersText) && '\n' !in EdgeCaseIdentifiersText
    ensures Run(input, State(9, 3, [Token(Identifier, "a", 1, 1, 1), Token(Assign, ":=", 1, 3, -1), Token(Identifier, "A", 1, 6, 2), Token(Pipe, "|", 1, 8, -1)], [])) == Run(input, State(10, 4, [Token(Identifier, "a", 1, 1, 1), Token(Assign, ":=", 1, 3, -1), Token(Identifier, "A", 1, 6, 2), Token(Pipe, "|", 1, 8, -1), Token(Identifier, "b", 1, 10, 3)], []))
  {
    NewNameUnit(input, EdgeCaseIdentifiersText, State(9, 3, [Token(Identifier, "a", 1, 1, 1), Token(Assign, ":=", 1, 3, -1), Token(Identifier, "A", 1, 6, 2), Token(Pipe, "|", 1, 8, -1)], []), 9, "b", State(10, 4, [Token(Identifier, "a", 1, 1, 1), Token(Assign, ":=", 1, 3, -1), Token(Identifier, "A", 1, 6, 2), Token(Pipe, "|", 1, 8, -1), Token(Identifier, "b", 1, 10, 3)], []));
  }

  lemma ScanEdgeCaseIdentifiersUnit10(input: string)
    requires Spells(input, EdgeCaseIdentifiersText) && '\n' !in EdgeCaseIdentifiersText
    ensures Run(input, State(10, 4, [Token(Identifier, "a", 1, 1, 1), Token(Assign, ":=", 1, 3, -1), Token(Identifier, "A", 1, 6, 2), Token(Pipe, "|", 1, 8, -1), Token(Identifier, "b", 1, 10, 3)], [])) == Run(input, State(11, 4, [Token(Identifier, "a", 1, 1, 1), Token(Assign, ":=", 1, 3, -1), Token(Identifier, "A", 1, 6, 2), Token(Pipe, "|", 1, 8, -1), Token(Identifier, "b", 1, 10, 3)], []))
  {
    BlankUnit(input, EdgeCaseIdentifiersText, State(10, 4, [Token(Identifier, "a", 1, 1, 1), Token(Assign, ":=", 1, 3, -1), Token(Identifier, "A", 1, 6, 2), Token(Pipe, "|", 1, 8, -1), Token(Identifier, "b", 1, 10, 3)], []), 10, State(11, 4, [Token(Identifier, "a", 1, 1, 1), Token(Assign, ":=", 1, 3, -1), Token(Identifier, "A", 1, 6, 2), Token(Pipe, "|", 1, 8, -1), Token(Identifier, "b", 1, 10, 3)], []));
  }

  lemma ScanEdgeCaseIdentifiersUnit11(input: string)
    requires Spells(input, EdgeCaseIdentifiersText) && '\n' !in EdgeCaseIdentifiersText
    ensures Run(input, State(11, 4, [Token(Identifier, "a", 1, 1, 1), Token(Assign, ":=", 1, 3, -1), Token(Identifier, "A", 1, 6, 2), Token(Pipe, "|", 1, 8, -1), Token(Identifier, "b", 1, 10, 3)], [])) == Run(input, State(13, 4, [Token(Identifier, "a", 1, 1, 1), Token(Assign, ":=", 1, 3, -1), Token(Identifier, "A", 1, 6, 2), Token(Pipe, "|", 1, 8, -1), Token(Identifier, "b", 1, 10, 3), Token(Assign, ":=", 1, 12, -1)], []))
  {
    AssignUnit(input, EdgeCaseIdentifiersText, State(11, 4, [Token(Identifier, "a", 1, 1, 1), Token(Assign, ":=", 1, 3, -1), Token(Identifier, "A", 1, 6, 2), Token(Pipe, "|", 1, 8, -1), Token(Identifier, "b", 1, 10, 3)], []), 11, State(13, 4, [Token(Identifier, "a", 1, 1, 1), Token(Assign, ":=", 1, 3, -1), Token(Identifier, "A", 1, 6, 2), Token(Pipe, "|", 1, 8, -1), Token(Identifier, "b", 1, 10, 3), Token(Assign, ":=", 1, 12, -1)], []));
  }

  lemma ScanEdgeCaseIdentifiersUnit12(input: string)
    requires Spells(input, EdgeCaseIdentifiersText) && '\n' !in EdgeCaseIdentifiersText
    ensures Run(input, State(13, 4, [Token(Identifier, "a", 1, 1, 1), Token(Assign, ":=", 1, 3, -1), Token(Identifier, "A", 1, 6, 2), Token(Pipe, "|", 1, 8, -1), Token(Identifier, "b", 1, 10, 3), Token(Assign, ":=", 1, 12, -1)], [])) == Run(input, State(14, 4, [Token(Identifier, "a", 1, 1, 1), Token(Assign, ":=", 1, 3, -1), Token(Identifier, "A", 1, 6, 2), Token(Pipe, "|", 1, 8, -1), Token(Identifier, "b", 1, 10, 3), Token(Assign, ":=", 1, 12, -1)], []))
  {
    BlankUnit(input, EdgeCaseIdentifiersText, State(13, 4, [Token(Identifier, "a", 1, 1, 1), Token(Assign, ":=", 1, 3, -1), Token(Identifier, "A", 1, 6, 2), Token(Pipe, "|", 1, 8, -1), Token(Identifier, "b", 1, 10, 3), Token(Assign, ":=", 1, 12, -1)], []), 13, State(14, 4, [Token(Identifier, "a", 1, 1, 1), Token(Assign, ":=", 1, 3, -1), Token(Identifier, "A", 1, 6, 2), Token(Pipe, "|", 1, 8, -1), Token(Identifier, "b", 1, 10, 3), Token(Assign, ":=", 1, 12, -1)], []));
  }

  lemma ScanEdgeCaseIdentifiersUnit13(input: string)
    requires Spells(input, EdgeCaseIdentifiersText) && '\n' !in EdgeCaseIdentifiersText
    ensures Run(input, State(14, 4, [Token(Identifier, "a", 1, 1, 1), Token(Assign, ":=", 1, 3, -1), Token(Identifier, "A", 1, 6, 2), Token(Pipe, "|", 1, 8, -1), Token(Identifier, "b", 1, 10, 3), Token(Assign, ":=", 1, 12, -1)], [])) == Run(input, State(15, 5, [Token(Identifier, "a", 1, 1, 1), Token(Assign, ":=", 1, 3, -1), Token(Identifier, "A", 1, 6, 2), Token(Pipe, "|", 1, 8, -1), Token(Identifier, "b", 1, 10, 3), Token(Assign, ":=", 1, 12, -1), Token(Identifier, "B", 1, 15, 4)], []))
  {
    NewNameUnit(input, EdgeCaseIdentifiersText, State(14, 4, [Token(Identifier, "a", 1, 1, 1), Token(Assign, ":=", 1, 3, -1), Token(Identifier, "A", 1, 6, 2), Token(Pipe, "|", 1, 8, -1), Token(Identifier, "b", 1, 10, 3), Token(Assign, ":=", 1, 12, -1)], []), 14, "B", State(15, 5, [Token(Identifier, "a", 1, 1, 1), Token(Assign, ":=", 1, 3, -1), Token(Identifier, "A", 1, 6, 2), Token(Pipe, "|", 1, 8, -1), Token(Identifier, "b", 1, 10, 3), Token(Assign, ":=", 1, 12, -1), Token(Identifier, "B", 1, 15, 4)], []));
  }

  lemma ScanEdgeCaseIdentifiersUnit14(input: string)
    requires Spells(input, EdgeCaseIdentifiersText) && '\n' !in EdgeCaseIdentifiersText
    ensures Run(input, State(15, 5, [Token(Identifier, "a", 1, 1, 1), Token(Assign, ":=", 1, 3, -1), Token(Identifier, "A", 1, 6, 2), Token(Pipe, "|", 1, 8, -1), Token(Identifier, "b", 1, 10, 3), Token(Assign, ":=", 1, 12, -1), Token(Identifier, "B", 1, 15, 4)], [])) == Run(input, State(16, 5, [Token(Identifier, "a", 1, 1, 1), Token(Assign, ":=", 1, 3, -1), Token(Identifier, "A", 1, 6, 2), Token(Pipe, "|", 1, 8, -1), Token(Identifier, "b", 1, 10, 3), Token(Assign, ":=", 1, 12, -1), Token(Identifier, "B", 1, 15, 4)], []))
  {
    BlankUnit(input, EdgeCaseIdentifiersText, State(15, 5, [Token(Identifier, "a", 1, 1, 1), Token(Assign, ":=", 1, 3, -1), Token(Identifier, "A", 1, 6, 2), Token(Pipe, "|", 1, 8, -1), Token(Identifier, "b", 1, 10, 3), Token(Assign, ":=", 1, 12, -1), Token(Identifier, "B", 1, 15, 4)], []), 15, State(16, 5, [Token(Identifier, "a", 1, 1, 1), Token(Assign, ":=", 1, 3, -1), Token(Identifier, "A", 1, 6, 2), Token(Pipe, "|", 1, 8, -1), Token(Identifier, "b", 1, 10, 3), Token(Assign, ":=", 1, 12, -1), Token(Identifier, "B", 1, 15, 4)], []));
  }

  lemma ScanEdgeCaseIdentifiersUnit15(input: string)
    requires Spells(input, EdgeCaseIdentifiersText) && '\n' !in EdgeCaseIdentifiersText
    ensures Run(input, State(16, 5, [Token(Identifier, "a", 1, 1, 1), Token(Assign, ":=", 1, 3, -1), Token(Identifier, "A", 1, 6, 2), Token(Pipe, "|", 1, 8, -1), Token(Identifier, "b", 1, 10, 3), Token(Assign, ":=", 1, 12, -1), Token(Identifier, "B", 1, 15, 4)], [])) == Run(input, State(17, 5, [Token(Identifier, "a", 1, 1, 1), Token(Assign, ":=", 1, 3, -1), Token(Identifier, "A", 1, 6, 2), Token(Pipe, "|", 1, 8, -1), Token(Identifier, "b", 1, 10, 3), Token(Assign, ":=", 1, 12, -1), Token(Identifier, "B", 1, 15, 4), Token(Pipe, "|", 1, 17, -1)], []))
  {
    PipeUnit(input, EdgeCaseIdentifiersText, State(16, 5, [Token(Identifier, "a", 1, 1, 1), Token(Assign, ":=", 1, 3, -1), Token(Identifier, "A", 1, 6, 2), Token(Pipe, "|", 1, 8, -1), Token(Identifier, "b", 1, 10, 3), Token(Assign, ":=", 1, 12, -1), Token(Identifier, "B", 1, 15, 4)], []), 16, State(17, 5, [Token(Identifier, "a", 1, 1, 1), Token(Assign, ":=", 1, 3, -1), Token(Identifier, "A", 1, 6, 2), Token(Pipe, "|", 1, 8, -1), Token(Identifier, "b", 1, 10, 3), Token(Assign, ":=", 1, 12, -1), Token(Identifier, "B", 1, 15, 4), Token(Pipe, "|", 1, 17, -1)], []));
  }

  lemma ScanEdgeCaseIdentifiersUnit16(input: string)
    requires Spells(input, EdgeCaseIdentifiersText) && '\n' !in EdgeCaseIdentifiersText
    ensures Run(input, State(17, 5, [Token(Identifier, "a", 1, 1, 1), Token(Assign, ":=", 1, 3, -1), Token(Identifier, "A", 1, 6, 2), Token(Pipe, "|", 1, 8, -1), Token(Identifier, "b", 1, 10, 3), Token(Assign, ":=", 1, 12, -1), Token(Identifier, "B", 1, 15, 4), Token(Pipe, "|", 1, 17, -1)], [])) == Run(input, State(18, 5, [Token(Identifier, "a", 1, 1, 1), Token(Assign, ":=", 1, 3, -1), Token(Identifier, "A", 1, 6, 2), Token(Pipe, "|", 1, 8, -1), Token(Identifier, "b", 1, 10, 3), Token(Assign, ":=", 1, 12, -1), Token(Identifier, "B", 1, 15, 4), Token(Pipe, "|", 1, 17, -1)], []))
  {
    BlankUnit(input, EdgeCaseIdentifiersText, State(17, 5, [Token(Identifier, "a", 1, 1, 1), Token(Assign, ":=", 1, 3, -1), Token(Identifier, "A", 1, 6, 2), Token(Pipe, "|", 1, 8, -1), Token(Identifier, "b", 1, 10, 3), Token(Assign, ":=", 1, 12, -1), Token(Identifier, "B", 1, 15, 4), Token(Pipe, "|", 1, 17, -1)], []), 17, State(18, 5, [Token(Identifier, "a", 1, 1, 1), Token(Assign, ":=", 1, 3, -1), Token(Identifier, "A", 1, 6, 2), Token(Pipe, "|", 1, 8, -1), Token(Identifier, "b", 1, 10, 3), Token(Assign, ":=", 1, 12, -1), Token(Identifier, "B", 1, 15, 4), Token(Pipe, "|", 1, 17, -1)], []));
  }

  lemma ScanEdgeCaseIdentifiersUnit17(input: string)
    requires Spells(input, EdgeCaseIdentifiersText) && '\n' !in EdgeCaseIdentifiersText
    ensures Run(input, State(18, 5, [Token(Identifier, "a", 1, 1, 1), Token(Assign, ":=", 1, 3, -1), Token(Identifier, "A", 1, 6, 2), Token(Pipe, "|", 1, 8, -1), Token(Identifier, "b", 1, 10, 3), Token(Assign, ":=", 1, 12, -1), Token(Identifier, "B", 1, 15, 4), Token(Pipe, "|", 1, 17, -1)], [])) == Run(input, State(19, 6, [Token(Identifier, "a", 1, 1, 1), Token(Assign, ":=", 1, 3, -1), Token(Identifier, "A", 1, 6, 2), Token(Pipe, "|", 1, 8, -1), Token(Identifier, "b", 1, 10, 3), Token(Assign, ":=", 1, 12, -1), Token(Identifier, "B", 1, 15, 4), Token(Pipe, "|", 1, 17, -1), Token(Identifier, "z", 1, 19, 5)], []))
  {
    NewNameUnit(input, EdgeCaseIdentifiersText, State(18, 5, [Token(Identifier, "a", 1, 1, 1), Token(Assign, ":=", 1, 3, -1), Token(Identifier, "A", 1, 6, 2), Token(Pipe, "|", 1, 8, -1), Token(Identifier, "b", 1, 10, 3), Token(Assign, ":=", 1, 12, -1), Token(Identifier, "B", 1, 15, 4), Token(Pipe, "|", 1, 17, -1)], []), 18, "z", State(19, 6, [Token(Identifier, "a", 1, 1, 1), Token(Assign, ":=", 1, 3, -1), Token(Identifier, "A", 1, 6, 2), Token(Pipe, "|", 1, 8, -1), Token(Identifier, "b", 1, 10, 3), Token(Assign, ":=", 1, 12, -1), Token(Identifier, "B", 1, 15, 4), Token(Pipe, "|", 1, 17, -1), Token(Identifier, "z", 1, 19, 5)], []));
  }

  lemma ScanEdgeCaseIdentifiersUnit18(input: string)
    requires Spells(input, EdgeCaseIdentifiersText) && '\n' !in EdgeCaseIdentifiersText
    ensures Run(input, State(19, 6, [Token(Identifier, "a", 1, 1, 1), Token(Assign, ":=", 1, 3, -1), Token(Identifier, "A", 1, 6, 2), Token(Pipe, "|", 1, 8, -1), Token(Identifier, "b", 1, 10, 3), Token(Assign, ":=", 1, 12, -1), Token(Identifier, "B", 1, 15, 4), Token(Pipe, "|", 1, 17, -1), Token(Identifier, "z", 1, 19, 5)], [])) == Run(input, State(20, 6, [Token(Identifier, "a", 1, 1, 1), Token(Assign, ":=", 1, 3, -1), Token(Identifier, "A", 1, 6, 2), Token(Pipe, "|", 1, 8, -1), Token(Identifier, "b", 1, 10, 3), Token(Assign, ":=", 1, 12, -1), Token(Identifier, "B", 1, 15, 4), Token(Pipe, "|", 1, 17, -1), Token(Identifier, "z", 1, 19, 5)], []))
  {
    BlankUnit(input, EdgeCaseIdentifiersText, State(19, 6, [Token(Identifier, "a", 1, 1, 1), Token(Assign, ":=", 1, 3, -1), Token(Identifier, "A", 1, 6, 2), Token(Pipe, "|", 1, 8, -1), Token(Identifier, "b", 1, 10, 3), Token(Assign, ":=", 1, 12, -1), Token(Identifier, "B", 1, 15, 4), Token(Pipe, "|", 1, 17, -1), Token(Identifier, "z", 1, 19, 5)], []), 19, State(20, 6, [Token(Identifier, "a", 1, 1, 1), Token(Assign, ":=", 1, 3, -1), Token(Identifier, "A", 1, 6, 2), Token(Pipe, "|", 1, 8, -1), Token(Identifier, "b", 1, 10, 3), Token(Assign, ":=", 1, 12, -1), Token(Identifier, "B", 1, 15, 4), Token(Pipe, "|", 1, 17, -1), Token(Identifier, "z", 1, 19, 5)], []));
  }

  lemma ScanEdgeCaseIdentifiersUnit19(input: string)
    requires Spells(input, EdgeCaseIdentifiersText) && '\n' !in EdgeCaseIdentifiersText
    ensures Run(input, State(20, 6, [Token(Identifier, "a", 1, 1, 1), Token(Assign, ":=", 1, 3, -1), Token(Identifier, "A", 1, 6, 2), Token(Pipe, "|", 1, 8, -1), Token(Identifier, "b", 1, 10, 3), Token(Assign, ":=", 1, 12, -1), Token(Identifier, "B", 1, 15, 4), Token(Pipe, "|", 1, 17, -1), Token(Identifier, "z", 1, 19, 5)], [])) == Run(input, State(22, 6, [Token(Identifier, "a", 1, 1, 1), Token(Assign, ":=", 1, 3, -1), Token(Identifier, "A", 1, 6, 2), Token(Pipe, "|", 1, 8, -1), Token(Identifier, "b", 1, 10, 3), Token(Assign, ":=", 1, 12, -1), Token(Identifier, "B", 1, 15, 4), Token(Pipe, "|", 1, 17, -1), Token(Identifier, "z", 1, 19, 5), Token(Assign, ":=", 1, 21, -1)], []))
  {
    AssignUnit(input, EdgeCaseIdentifiersText, State(20, 6, [Token(Identifier, "a", 1, 1, 1), Token(Assign, ":=", 1, 3, -1), Token(Identifier, "A", 1, 6, 2), Token(Pipe, "|", 1, 8, -1), Token(Identifier, "b", 1, 10, 3), Token(Assign, ":=", 1, 12, -1), Token(Identifier, "B", 1, 15, 4), Token(Pipe, "|", 1, 17, -1), Token(Identifier, "z", 1, 19, 5)], []), 20, State(22, 6, [Token(Identifier, "a", 1, 1, 1), Token(Assign, ":=", 1, 3, -1), Token(Identifier, "A", 1, 6, 2), Token(Pipe, "|", 1, 8, -1), Token(Identifier, "b", 1, 10, 3), Token(Assign, ":=", 1, 12, -1), Token(Identifier, "B", 1, 15, 4), Token(Pipe, "|", 1, 17, -1), Token(Identifier, "z", 1, 19, 5), Token(Assign, ":=", 1, 21, -1)], []));
  }

  lemma ScanEdgeCaseIdentifiersUnit20(input: string)
    requires Spells(input, EdgeCaseIdentifiersText) && '\n' !in EdgeCaseIdentifiersText
    ensures Run(input, State(22, 6, [Token(Identifier, "a", 1, 1, 1), Token(Assign, ":=", 1, 3, -1), Token(Identifier, "A", 1, 6, 2), Token(Pipe, "|", 1, 8, -1), Token(Identifier, "b", 1, 10, 3), Token(Assign, ":=", 1, 12, -1), Token(Identifier, "B", 1, 15, 4), Token(Pipe, "|", 1, 17, -1), Token(Identifier, "z", 1, 19, 5), Token(Assign, ":=", 1, 21, -1)], [])) == Run(input, State(23, 6, [Token(Identifier, "a", 1, 1, 1), Token(Assign, ":=", 1, 3, -1), Token(Identifier, "A", 1, 6, 2), Token(Pipe, "|", 1, 8, -1), Token(Identifier, "b", 1, 10, 3), Token(Assign, ":=", 1, 12, -1), Token(Identifier, "B", 1, 15, 4), Token(Pipe, "|", 1, 17, -1), Token(Identifier, "z", 1, 19, 5), Token(Assign, ":=", 1, 21, -1)], []))
  {
    BlankUnit(input, EdgeCaseIdentifiersText, State(22, 6, [Token(Identifier, "a", 1, 1, 1), Token(Assign, ":=", 1, 3, -1), Token(Identifier, "A", 1, 6, 2), Token(Pipe, "|", 1, 8, -1), Token(Identifier, "b", 1, 10, 3), Token(Assign, ":=", 1, 12, -1), Token(Identifier, "B", 1, 15, 4), Token(Pipe, "|", 1, 17, -1), Token(Identifier, "z", 1, 19, 5), Token(Assign, ":=", 1, 21, -1)], []), 22, State(23, 6, [Token(Identifier, "a", 1, 1, 1), Token(Assign, ":=", 1, 3, -1), Token(Identifier, "A", 1, 6, 2), Token(Pipe, "|", 1, 8, -1), Token(Identifier, "b", 1, 10, 3), Token(Assign, ":=", 1, 12, -1), Token(Identifier, "B", 1, 15, 4), Token(Pipe, "|", 1, 17, -1), Token(Identifier, "z", 1, 19, 5), Token(Assign, ":=", 1, 21, -1)], []));
  }

  lemma ScanEdgeCaseIdentifiersUnit21(input: string)
    requires Spells(input, EdgeCaseIdentifiersText) && '\n' !in EdgeCaseIdentifiersText
    ensures Run(input, State(23, 6, [Token(Identifier, "a", 1, 1, 1), Token(Assign, ":=", 1, 3, -1), Token(Identifier, "A", 1, 6, 2), Token(Pipe, "|", 1, 8, -1), Token(Identifier, "b", 1, 10, 3), Token(Assign, ":=", 1, 12, -1), Token(Identifier, "B", 1, 15, 4), Token(Pipe, "|", 1, 17, -1), Token(Identifier, "z", 1, 19, 5), Token(Assign, ":=", 1, 21, -1)], [])) == Run(input, State(24, 7, [Token(Identifier, "a", 1, 1, 1), Token(Assign, ":=", 1, 3, -1), Token(Identifier, "A", 1, 6, 2), Token(Pipe, "|", 1, 8, -1), Token(Identifier, "b", 1, 10, 3), Token(Assign, ":=", 1, 12, -1), Token(Identifier, "B", 1, 15, 4), Token(Pipe, "|", 1, 17, -1), Token(Identifier, "z", 1, 19, 5), Token(Assign, ":=", 1, 21, -1), Token(Identifier, "Z", 1, 24, 6)], []))
  {
    NewNameUnit(input, EdgeCaseIdentifiersText, State(23, 6, [Token(Identifier, "a", 1, 1, 1), Token(Assign, ":=", 1, 3, -1), Token(Identifier, "A", 1, 6, 2), Token(Pipe, "|", 1, 8, -1), Token(Identifier, "b", 1, 10, 3), Token(Assign, ":=", 1, 12, -1), Token(Identifier, "B", 1, 15, 4), Token(Pipe, "|", 1, 17, -1), Token(Identifier, "z", 1, 19, 5), Token(Assign, ":=", 1, 21, -1)], []), 23, "Z", State(24, 7, [Token(Identifier, "a", 1, 1, 1), Token(Assign, ":=", 1, 3, -1), Token(Identifier, "A", 1, 6, 2), Token(Pipe, "|", 1, 8, -1), Token(Identifier, "b", 1, 10, 3), Token(Assign, ":=", 1, 12, -1), Token(Identifier, "B", 1, 15, 4), Token(Pipe, "|", 1, 17, -1), Token(Identifier, "z", 1, 19, 5), Token(Assign, ":=", 1, 21, -1), Token(Identifier, "Z", 1, 24, 6)], []));
  }

  /**
   * A 16-character word is still an Identifier: three tokens and no error
   * (LexicalAnalyzerTest.java:182-188).
   */
  lemma ScanMaxLengthIdentifier()
    ensures Analysis("abcdefghijklmnop := TRUE").tokens == [Token(Identifier, "abcdefghijklmnop", 1, 1, 1), Token(Assign, ":=", 1, 18, -1), Token(Boolean, "TRUE", 1, 21, 0)]
    ensures Analysis("abcdefghijklmnop := TRUE").errors == []
  {
    assert Spells(MaxLengthIdentifierText, MaxLengthIdentifierText);
    ScanMaxLengthIdentifierRun(MaxLengthIdentifierText);
  }

  const MaxLengthIdentifierText := "abcdefghijklmnop := TRUE"

  lemma ScanMaxLengthIdentifierRun(input: string)
    requires Spells(input, MaxLengthIdentifierText) && '\n' !in MaxLengthIdentifierText
    ensures Analysis(input) == State(24, 2, [Token(Identifier, "abcdefghijklmnop", 1, 1, 1), Token(Assign, ":=", 1, 18, -1), Token(Boolean, "TRUE", 1, 21, 0)], [])
  {
    ScanMaxLengthIdentifierUnit1(input);
    ScanMaxLengthIdentifierUnit2(input);
    ScanMaxLengthIdentifierUnit3(input);
    ScanMaxLengthIdentifierUnit4(input);
    ScanMaxLengthIdentifierUnit5(input);
    EndOfInput(input, State(24, 2, [Token(Identifier, "abcdefghijklmnop", 1, 1, 1), Token(Assign, ":=", 1, 18, -1), Token(Boolean, "TRUE", 1, 21, 0)], []));
  }

  lemma ScanMaxLengthIdentifierUnit1(input: string)
    requires Spells(input, MaxLengthIdentifierText) && '\n' !in MaxLengthIdentifierText
    ensures Run(input, State(0, 1, [], [])) == Run(input, State(16, 2, [Token(Identifier, "abcdefghijklmnop", 1, 1, 1)], []))
  {
    NewNameUnit(input, MaxLengthIdentifierText, State(0, 1, [], []), 0, "abcdefghijklmnop", State(16, 2, [Token(Identifier, "abcdefghijklmnop", 1, 1, 1)], []));
  }

  lemma ScanMaxLengthIdentifierUnit2(input: string)
    requires Spells(input, MaxLengthIdentifierText) && '\n' !in MaxLengthIdentifierText
    ensures Run(input, State(16, 2, [Token(Identifier, "abcdefghijklmnop", 1, 1, 1)], [])) == Run(input, State(17, 2, [Token(Identifier, "abcdefghijklmnop", 1, 1, 1)], []))
  {
    BlankUnit(input, MaxLengthIdentifierText, State(16, 2, [Token(Identifier, "abcdefghijklmnop", 1, 1, 1)], []), 16, State(17, 2, [Token(Identifier, "abcdefghijklmnop", 1, 1, 1)], []));
  }

  lemma ScanMaxLengthIdentifierUnit3(input: string)
    requires Spells(input, MaxLengthIdentifierText) && '\n' !in MaxLengthIdentifierText
    ensures Run(input, State(17, 2, [Token(Identifier, "abcdefghijklmnop", 1, 1, 1)], [])) == Run(input, State(19, 2, [Token(Identifier, "abcdefghijklmnop", 1, 1, 1), Token(Assign, ":=", 1, 18, -1)], []))
  {
    AssignUnit(input, MaxLengthIdentifierText, State(17, 2, [Token(Identifier, "abcdefghijklmnop", 1, 1, 1)], []), 17, State(19, 2, [Token(Identifier, "abcdefghijklmnop", 1, 1, 1), Token(Assign, ":=", 1, 18, -1)], []));
  }

  lemma ScanMaxLengthIdentifierUnit4(input: string)
    requires Spells(input, MaxLengthIdentifierText) && '\n' !in MaxLengthIdentifierText
    ensures Run(input, State(19, 2, [Token(Identifier, "abcdefghijklmnop", 1, 1, 1), Token(Assign, ":=", 1, 18, -1)], [])) == Run(input, State(20, 2, [Token(Identifier, "abcdefghijklmnop", 1, 1, 1), Token(Assign, ":=", 1, 18, -1)], []))
  {
    BlankUnit(input, MaxLengthIdentifierText, State(19, 2, [Token(Identifier, "abcdefghijklmnop", 1, 1, 1), Token(Assign, ":=", 1, 18, -1)], []), 19, State(20, 2, [Token(Identifier, "abcdefghijklmnop", 1, 1, 1), Token(Assign, ":=", 1, 18, -1)], []));
  }

  lemma ScanMaxLengthIdentifierUnit5(input: string)
    requires Spells(input, MaxLengthIdentifierText) && '\n' !in MaxLengthIdentifierText
    ensures Run(input, State(20, 2, [Token(Identifier, "abcdefghijklmnop", 1, 1, 1), Token(Assign, ":=", 1, 18, -1)], [])) == Run(input, State(24, 2, [Token(Identifier, "abcdefghijklmnop", 1, 1, 1), Token(Assign, ":=", 1, 18, -1), Token(Boolean, "TRUE", 1, 21, 0)], []))
  {
    KeywordUnit(input, MaxLengthIdentifierText, State(20, 2, [Token(Identifier, "abcdefghijklmnop", 1, 1, 1), Token(Assign, ":=", 1, 18, -1)], []), 20, "TRUE", Boolean, "TRUE", 0, State(24, 2, [Token(Identifier, "abcdefghijklmnop", 1, 1, 1), Token(Assign, ":=", 1, 18, -1), Token(Boolean, "TRUE", 1, 21, 0)], []));
  }

  /**
   * A 17-character word is reported as too long at 1:1 and yields no token
   * (LexicalAnalyzerTest.java:190-196).
   */
  lemma ScanJustAboveMaxLengthIdentifier()
    ensures Analysis("abcdefghijklmnopq := TRUE").tokens == [Token(Assign, ":=", 1, 19, -1), Token(Boolean, "TRUE", 1, 22, 0)]
    ensures Analysis("abcdefghijklmnopq := TRUE").errors == [IdentifierTooLong(1, 1)]
  {
    assert Spells(JustAboveMaxLengthIdentifierText, JustAboveMaxLengthIdentifierText);
    ScanJustAboveMaxLengthIdentifierRun(JustAboveMaxLengthIdentifierText);
  }

  const JustAboveMaxLengthIdentifierText := "abcdefghijklmnopq := TRUE"

  lemma ScanJustAboveMaxLengthIdentifierRun(input: string)
    requires Spells(input, JustAboveMaxLengthIdentifierText) && '\n' !in JustAboveMaxLengthIdentifierText
    ensures Analysis(input) == State(25, 1, [Token(Assign, ":=", 1, 19, -1), Token(Boolean, "TRUE", 1, 22, 0)], [IdentifierTooLong(1, 1)])
  {
    ScanJustAboveMaxLengthIdentifierUnit1(input);
    ScanJustAboveMaxLengthIdentifierUnit2(input);
    ScanJustAboveMaxLengthIdentifierUnit3(input);
    ScanJustAboveMaxLengthIdentifierUnit4(input);
    ScanJustAboveMaxLengthIdentifierUnit5(input);
    EndOfInput(input, State(25, 1, [Token(Assign, ":=", 1, 19, -1), Token(Boolean, "TRUE", 1, 22, 0)], [IdentifierTooLong(1, 1)]));
  }

  lemma ScanJustAboveMaxLengthIdentifierUnit1(input: string)
    requires Spells(input, JustAboveMaxLengthIdentifierText) && '\n' !in JustAboveMaxLengthIdentifierText
    ensures Run(input, State(0, 1, [], [])) == Run(input, State(17, 1, [], [IdentifierTooLong(1, 1)]))
  {
    LongWordUnit(input, JustAboveMaxLengthIdentifierText, State(0, 1, [], []), 0, "abcdefghijklmnopq", State(17, 1, [], [IdentifierTooLong(1, 1)]));
  }

  lemma ScanJustAboveMaxLengthIdentifierUnit2(input: string)
    requires Spells(input, JustAboveMaxLengthIdentifierText) && '\n' !in JustAboveMaxLengthIdentifierText
    ensures Run(input, State(17, 1, [], [IdentifierTooLong(1, 1)])) == Run(input, State(18, 1, [], [IdentifierTooLong(1, 1)]))
  {
    BlankUnit(input, JustAboveMaxLengthIdentifierText, State(17, 1, [], [IdentifierTooLong(1, 1)]), 17, State(18, 1, [], [IdentifierTooLong(1, 1)]));
  }

  lemma ScanJustAboveMaxLengthIdentifierUnit3(input: string)
    requires Spells(input, JustAboveMaxLengthIdentifierText) && '\n' !in JustAboveMaxLengthIdentifierText
    ensures Run(input, State(18, 1, [], [IdentifierTooLong(1, 1)])) == Run(input, State(20, 1, [Token(Assign, ":=", 1, 19, -1)], [IdentifierTooLong(1, 1)]))
  {
    AssignUnit(input, JustAboveMaxLengthIdentifierText, State(18, 1, [], [IdentifierTooLong(1, 1)]), 18, State(20, 1, [Token(Assign, ":=", 1, 19, -1)], [IdentifierTooLong(1, 1)]));
  }

  lemma ScanJustAboveMaxLengthIdentifierUnit4(input: string)
    requires Spells(input, JustAboveMaxLengthIdentifierText) && '\n' !in JustAboveMaxLengthIdentifierText
    ensures Run(input, State(20, 1, [Token(Assign, ":=", 1, 19, -1)], [IdentifierTooLong(1, 1)])) == Run(input, State(21, 1, [Token(Assign, ":=", 1, 19, -1)], [IdentifierTooLong(1, 1)]))
  {
    BlankUnit(input, JustAboveMaxLengthIdentifierText, State(20, 1, [Token(Assign, ":=", 1, 19, -1)], [IdentifierTooLong(1, 1)]), 20, State(21, 1, [Token(Assign, ":=", 1, 19, -1)], [IdentifierTooLong(1, 1)]));
  }

  lemma ScanJustAboveMaxLengthIdentifierUnit5(input: string)
    requires Spells(input, JustAboveMaxLengthIdentifierText) && '\n' !in JustAboveMaxLengthIdentifierText
    ensures Run(input, State(21, 1, [Token(Assign, ":=", 1, 19, -1)], [IdentifierTooLong(1, 1)])) == Run(input, State(25, 1, [Token(Assign, ":=", 1, 19, -1), Token(Boolean, "TRUE", 1, 22, 0)], [IdentifierTooLong(1, 1)]))
  {
    KeywordUnit(input, JustAboveMaxLengthIdentifierText, State(21, 1, [Token(Assign, ":=", 1, 19, -1)], [IdentifierTooLong(1, 1)]), 21, "TRUE", Boolean, "TRUE", 0, State(25, 1, [Token(Assign, ":=", 1, 19, -1), Token(Boolean, "TRUE", 1, 22, 0)], [IdentifierTooLong(1, 1)]));
  }
}
