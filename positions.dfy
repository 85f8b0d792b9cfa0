/**
 * Source positions. The scanner keeps a running (line, column) pair: a consumed
 * '\n' adds one to the line and resets the column to 1, and every other consumed
 * character adds one to the column. Here the pair for an offset is defined from
 * the text before that offset, so it does not depend on how the scanner walked
 * there.
 */
module Positions {

  /** The 1-based line of offset `i` of `s`. */
  function LineAt(s: string, i: nat): (l: int)
    requires i <= |s|
    ensures 1 <= l <= i + 1
  {
    if i == 0 then 1 else LineAt(s, i - 1) + (if s[i - 1] == '\n' then 1 else 0)
  }

  /** The 1-based column of offset `i` of `s`. */
  function ColumnAt(s: string, i: nat): (c: int)
    requires i <= |s|
    ensures 1 <= c <= i + 1
  {
    if i == 0 then 1 else if s[i - 1] == '\n' then 1 else ColumnAt(s, i - 1) + 1
  }

  /** Position (l1, c1) comes strictly before position (l2, c2). */
  predicate Before(l1: int, c1: int, l2: int, c2: int) {
    l1 < l2 || (l1 == l2 && c1 < c2)
  }

  /** The line is one more than the number of newlines before the offset. */
  lemma {:induction false} LineCountsNewlines(s: string, i: nat)
    requires i <= |s|
    ensures LineAt(s, i) == 1 + multiset(s[..i])['\n']
  {
    if i > 0 {
      LineCountsNewlines(s, i - 1);
      assert s[..i] == s[..i - 1] + [s[i - 1]];
    }
  }

  /**
   * The column is one more than the distance to the start of the line: the
   * column - 1 characters before the offset are not newlines, and the character
   * before them is a newline or the offset is on the first line's start.
   */
  lemma {:induction false} ColumnCountsFromLineStart(s: string, i: nat)
    requires i <= |s|
    ensures var c := ColumnAt(s, i);
      (i - c + 1 == 0 || s[i - c] == '\n')
      && forall j :: i - c + 1 <= j < i ==> s[j] != '\n'
  {
    if i > 0 && s[i - 1] != '\n' {
      ColumnCountsFromLineStart(s, i - 1);
    }
  }

  /** Consuming a character that is not a newline moves one column to the right. */
  lemma StepRight(s: string, i: nat)
    requires i < |s| && s[i] != '\n'
    ensures LineAt(s, i + 1) == LineAt(s, i) && ColumnAt(s, i + 1) == ColumnAt(s, i) + 1
  {
  }

  /** Positions strictly increase with the offset, so no two offsets share one. */
  lemma {:induction false} PositionAdvances(s: string, i: nat, j: nat)
    requires i < j <= |s|
    ensures Before(LineAt(s, i), ColumnAt(s, i), LineAt(s, j), ColumnAt(s, j))
    decreases j - i
  {
    if j > i + 1 {
      PositionAdvances(s, i, j - 1);
    }
  }
}
