/**
 * The scanner's data model: TokenType, Token and the diagnostics it collects,
 * with the identifier value table that numbers identifiers by first appearance.
 */
module Tokens {
  import opened Chars

  datatype Option<T> = None | Some(value: T)

  /** The token kinds the scanner produces. */
  datatype TokenType = Identifier | Boolean | Operator | Assign | Pipe | LParen | RParen

  datatype Token = Token(kind: TokenType, name: string, line: int, column: int, value: int)
  {
    /** Token.equals(String): the recorded name equals the given text. */
    predicate HasName(other: string) {
      name == other
    }
  }

  /** One diagnostic per discarded unit, holding the position it is reported at. */
  datatype ScanError =
    | UnclosedComment(line: int, column: int)
    | IdentifierTooLong(line: int, column: int)
    | InvalidIdentifier(word: string, line: int, column: int)
    | InvalidColon(line: int, column: int)
    | UnexpectedCharacter(ch: char, line: int, column: int)

  const MaxIdentifierLength: int := 16
  /** The value of tokens that carry none. */
  const NoValue: int := -1
  const Booleans: set<string> := {"TRUE", "FALSE"}
  const Operators: set<string> := {"OR", "XOR", "AND", "NOT"}

  /** The identifier pattern ^[a-zA-Z][a-zA-Z]{0,15}$. */
  predicate IsValidIdentifier(w: string) {
    1 <= |w| <= MaxIdentifierLength && forall i :: 0 <= i < |w| ==> IsAsciiLetter(w[i])
  }

  /** What each kind of token the scanner emits looks like. */
  ghost predicate WellShaped(t: Token) {
    t.line >= 1 && t.column >= 1 &&
    match t.kind
    case Identifier =>
      IsValidIdentifier(t.name) && Upper(t.name) !in Booleans && Upper(t.name) !in Operators && t.value >= 1
    case Boolean => t.name in Booleans && t.value == 0
    case Operator => t.name in Operators && t.value == NoValue
    case Assign => t.name == ":=" && t.value == NoValue
    case Pipe => t.name == "|" && t.value == NoValue
    case LParen => t.name == "(" && t.value == NoValue
    case RParen => t.name == ")" && t.value == NoValue
  }

  /** For the tokens the scanner emits, `equals("|")` is the same as being a Pipe. */
  lemma PipeNameIsPipeKind(t: Token)
    requires WellShaped(t)
    ensures t.HasName("|") <==> t.kind == Pipe
  {
    if t.kind == Identifier {
      assert IsAsciiLetter(t.name[0]);
    }
  }

  /** Keyword and identifier names are 1 to 16 ASCII letters. */
  lemma WordTokenIsLetters(t: Token)
    requires WellShaped(t) && t.kind in {Identifier, Boolean, Operator}
    ensures IsValidIdentifier(t.name)
  {
    if t.kind == Boolean {
      assert t.name == "TRUE" || t.name == "FALSE";
    } else if t.kind == Operator {
      assert t.name == "OR" || t.name == "XOR" || t.name == "AND" || t.name == "NOT";
    }
  }

  predicate IsIdentNamed(t: Token, name: string) {
    t.kind == Identifier && t.name == name
  }

  /** `j` is the first index at or after `i` of an Identifier called `name`. */
  ghost predicate FirstNamedFrom(tokens: seq<Token>, name: string, i: nat, j: int) {
    i <= j < |tokens| && IsIdentNamed(tokens[j], name)
    && forall m :: i <= m < j ==> !IsIdentNamed(tokens[m], name)
  }

  /**
   * The stream search of the identifier lookup: the value of the first
   * Identifier token called `name`, if there is one.
   */
  function Lookup(tokens: seq<Token>, name: string): (r: Option<int>)
    ensures r.None? <==> forall j :: 0 <= j < |tokens| ==> !IsIdentNamed(tokens[j], name)
    ensures r.Some? ==> exists j :: FirstNamedFrom(tokens, name, 0, j) && tokens[j].value == r.value
  {
    LookupFrom(tokens, name, 0)
  }

  function LookupFrom(tokens: seq<Token>, name: string, i: nat): (r: Option<int>)
    requires i <= |tokens|
    ensures r.None? <==> forall j :: i <= j < |tokens| ==> !IsIdentNamed(tokens[j], name)
    ensures r.Some? ==> exists j :: FirstNamedFrom(tokens, name, i, j) && tokens[j].value == r.value
    decreases |tokens| - i
  {
    if i == |tokens| then None
    else if IsIdentNamed(tokens[i], name) then Some(tokens[i].value)
    else LookupFrom(tokens, name, i + 1)
  }

  /** The distinct names of the Identifier tokens. */
  ghost function IdentNames(tokens: seq<Token>): set<string> {
    set i | 0 <= i < |tokens| && tokens[i].kind == Identifier :: tokens[i].name
  }

  ghost predicate HasValue(tokens: seq<Token>, v: int) {
    exists i :: 0 <= i < |tokens| && tokens[i].kind == Identifier && tokens[i].value == v
  }

  /**
   * First-seen-wins numbering: Identifier tokens with one name share one value,
   * and a name appearing for the first time gets one more than the number of
   * distinct names before it.
   */
  ghost predicate FirstSeenNumbering(tokens: seq<Token>) {
    (forall i, j ::
       0 <= i < |tokens| && 0 <= j < |tokens| && tokens[i].kind == Identifier
       && tokens[j].kind == Identifier && tokens[i].name == tokens[j].name
       ==> tokens[i].value == tokens[j].value)
    && (forall i ::
          0 <= i < |tokens| && tokens[i].kind == Identifier && tokens[i].name !in IdentNames(tokens[..i])
          ==> tokens[i].value == |IdentNames(tokens[..i])| + 1)
  }

  /**
   * The identifier values form a table: first-seen-wins, distinct names carry
   * distinct values, and the values are exactly 1..k for k distinct names.
   */
  ghost predicate IdentifierTable(tokens: seq<Token>) {
    FirstSeenNumbering(tokens)
    && (forall i :: 0 <= i < |tokens| && tokens[i].kind == Identifier
          ==> 1 <= tokens[i].value <= |IdentNames(tokens)|)
    && (forall i, j ::
          0 <= i < |tokens| && 0 <= j < |tokens| && tokens[i].kind == Identifier
          && tokens[j].kind == Identifier && tokens[i].name != tokens[j].name
          ==> tokens[i].value != tokens[j].value)
    && (forall v :: 1 <= v <= |IdentNames(tokens)| ==> HasValue(tokens, v))
  }

  /** `t`, appended after `tokens`, carries the value the table gives it. */
  ghost predicate NumberedAfter(tokens: seq<Token>, t: Token) {
    t.kind == Identifier ==>
      (t.name !in IdentNames(tokens) ==> t.value == |IdentNames(tokens)| + 1)
      && (t.name in IdentNames(tokens) ==>
            exists j :: 0 <= j < |tokens| && IsIdentNamed(tokens[j], t.name) && tokens[j].value == t.value)
  }

  lemma AppendNames(tokens: seq<Token>, t: Token)
    ensures IdentNames(tokens + [t]) == if t.kind == Identifier then IdentNames(tokens) + {t.name} else IdentNames(tokens)
  {
    var r := tokens + [t];
    forall x | x in IdentNames(r)
      ensures x in (if t.kind == Identifier then IdentNames(tokens) + {t.name} else IdentNames(tokens))
    {
      var i :| 0 <= i < |r| && r[i].kind == Identifier && r[i].name == x;
      if i < |tokens| {
        assert tokens[i] == r[i];
      }
    }
    forall x | x in IdentNames(tokens) ensures x in IdentNames(r) {
      var i :| 0 <= i < |tokens| && tokens[i].kind == Identifier && tokens[i].name == x;
      assert r[i] == tokens[i];
    }
    if t.kind == Identifier {
      assert r[|tokens|] == t;
    }
  }

  /** Appending a correctly numbered token keeps the table. */
  lemma AppendKeepsTable(tokens: seq<Token>, t: Token)
    requires IdentifierTable(tokens) && NumberedAfter(tokens, t)
    ensures IdentifierTable(tokens + [t])
    ensures IdentNames(tokens + [t]) == if t.kind == Identifier then IdentNames(tokens) + {t.name} else IdentNames(tokens)
  {
    AppendNames(tokens, t);
    AppendKeepsNumbering(tokens, t);
    AppendKeepsRange(tokens, t, tokens + [t]);
    AppendKeepsDistinct(tokens, t, tokens + [t]);
    AppendKeepsDense(tokens, t);
  }

  lemma AppendKeepsNumbering(tokens: seq<Token>, t: Token)
    requires IdentifierTable(tokens) && NumberedAfter(tokens, t)
    requires IdentNames(tokens + [t]) == if t.kind == Identifier then IdentNames(tokens) + {t.name} else IdentNames(tokens)
    ensures FirstSeenNumbering(tokens + [t])
  {
    AppendKeepsSharing(tokens, t, tokens + [t]);
    AppendKeepsFirstSeen(tokens, t, tokens + [t]);
  }

  lemma AppendKeepsSharing(tokens: seq<Token>, t: Token, r: seq<Token>)
    requires r == tokens + [t]
    requires IdentifierTable(tokens) && NumberedAfter(tokens, t)
    ensures forall i, j ::
      0 <= i < |r| && 0 <= j < |r| && r[i].kind == Identifier
      && r[j].kind == Identifier && r[i].name == r[j].name
      ==> r[i].value == r[j].value
  {
    var n := |tokens|;
    forall i, j | 0 <= i < |r| && 0 <= j < |r| && r[i].kind == Identifier
      && r[j].kind == Identifier && r[i].name == r[j].name
      ensures r[i].value == r[j].value
    {
      if i < n && j < n {
        assert r[i] == tokens[i] && r[j] == tokens[j];
      } else if i < n || j < n {
        var k := if i < n then i else j;
        assert r[k] == tokens[k] && t.name in IdentNames(tokens);
        var j0 :| 0 <= j0 < n && IsIdentNamed(tokens[j0], t.name) && tokens[j0].value == t.value;
      }
    }
  }

  lemma AppendKeepsFirstSeen(tokens: seq<Token>, t: Token, r: seq<Token>)
    requires r == tokens + [t]
    requires IdentifierTable(tokens) && NumberedAfter(tokens, t)
    requires IdentNames(r) == if t.kind == Identifier then IdentNames(tokens) + {t.name} else IdentNames(tokens)
    ensures forall i :: 0 <= i < |r| && r[i].kind == Identifier && r[i].name !in IdentNames(r[..i]) ==>
      r[i].value == |IdentNames(r[..i])| + 1
  {
    var n := |tokens|;
    assert r[..n] == tokens;
    forall i | 0 <= i < |r| && r[i].kind == Identifier && r[i].name !in IdentNames(r[..i])
      ensures r[i].value == |IdentNames(r[..i])| + 1
    {
      if i < n {
        assert r[..i] == tokens[..i] && r[i] == tokens[i];
      }
    }
  }

  lemma AppendNamesCount(tokens: seq<Token>, t: Token, r: seq<Token>)
    requires r == tokens + [t]
    requires IdentNames(r) == if t.kind == Identifier then IdentNames(tokens) + {t.name} else IdentNames(tokens)
    ensures |IdentNames(r)| == if t.kind == Identifier && t.name !in IdentNames(tokens)
      then |IdentNames(tokens)| + 1 else |IdentNames(tokens)|
  {
    if t.kind == Identifier && t.name in IdentNames(tokens) {
      assert IdentNames(tokens) + {t.name} == IdentNames(tokens);
    }
  }

  lemma AppendKeepsRange(tokens: seq<Token>, t: Token, r: seq<Token>)
    requires r == tokens + [t]
    requires IdentifierTable(tokens) && NumberedAfter(tokens, t)
    requires IdentNames(r) == if t.kind == Identifier then IdentNames(tokens) + {t.name} else IdentNames(tokens)
    ensures forall i :: 0 <= i < |r| && r[i].kind == Identifier ==> 1 <= r[i].value <= |IdentNames(r)|
  {
    var n := |tokens|;
    AppendNamesCount(tokens, t, r);
    forall i | 0 <= i < |r| && r[i].kind == Identifier ensures 1 <= r[i].value <= |IdentNames(r)| {
      if i < n {
        assert r[i] == tokens[i];
      } else if t.name in IdentNames(tokens) {
        var j0 :| 0 <= j0 < n && IsIdentNamed(tokens[j0], t.name) && tokens[j0].value == t.value;
      }
    }
  }

  lemma AppendKeepsDistinct(tokens: seq<Token>, t: Token, r: seq<Token>)
    requires r == tokens + [t]
    requires IdentifierTable(tokens) && NumberedAfter(tokens, t)
    ensures forall i, j ::
      0 <= i < |r| && 0 <= j < |r| && r[i].kind == Identifier
      && r[j].kind == Identifier && r[i].name != r[j].name
      ==> r[i].value != r[j].value
  {
    var n := |tokens|;
    forall i, j | 0 <= i < |r| && 0 <= j < |r| && r[i].kind == Identifier
      && r[j].kind == Identifier && r[i].name != r[j].name
      ensures r[i].value != r[j].value
    {
      if i < n && j < n {
        assert r[i] == tokens[i] && r[j] == tokens[j];
      } else if i < n || j < n {
        var k := if i < n then i else j;
        assert r[k] == tokens[k];
        if t.name in IdentNames(tokens) {
          var j0 :| 0 <= j0 < n && IsIdentNamed(tokens[j0], t.name) && tokens[j0].value == t.value;
          assert tokens[j0].name != tokens[k].name;
        }
      }
    }
  }

  lemma AppendKeepsDense(tokens: seq<Token>, t: Token)
    requires IdentifierTable(tokens) && NumberedAfter(tokens, t)
    requires IdentNames(tokens + [t]) == if t.kind == Identifier then IdentNames(tokens) + {t.name} else IdentNames(tokens)
    ensures forall v :: 1 <= v <= |IdentNames(tokens + [t])| ==> HasValue(tokens + [t], v)
  {
    var r := tokens + [t];
    var n := |tokens|;
    AppendNamesCount(tokens, t, r);
    forall v | 1 <= v <= |IdentNames(r)| ensures HasValue(r, v) {
      if v <= |IdentNames(tokens)| {
        assert HasValue(tokens, v);
        var i :| 0 <= i < n && tokens[i].kind == Identifier && tokens[i].value == v;
        assert r[i] == tokens[i];
      } else {
        assert r[n] == t;
      }
    }
  }
}
