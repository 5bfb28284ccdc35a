/** Wild-card matching in the logger's string utilities. */
module WildCard {

  /** One pattern symbol against one piece of the string. */
  predicate PieceMatches(symbol: char, piece: string) {
    if symbol == '*' then true
    else if symbol == '?' then |piece| == 1
    else piece == [symbol]
  }

  function Concat(pieces: seq<string>): string {
    if pieces == [] then "" else pieces[0] + Concat(pieces[1..])
  }

  /** The pieces, put together, are the string, and there is one for each pattern symbol, which it matches. */
  ghost predicate Segments(str: string, pattern: string, pieces: seq<string>) {
    && Concat(pieces) == str
    && |pieces| == |pattern|
    && forall i :: 0 <= i < |pattern| ==> PieceMatches(pattern[i], pieces[i])
  }

  ghost predicate Matches(str: string, pattern: string) {
    exists pieces :: Segments(str, pattern, pieces)
  }

  lemma EmptyPatternMatches(str: string)
    ensures Matches(str, "") <==> str == ""
  {
    assert Segments("", "", []);
  }

  /** A first piece that matches the first symbol, before a match of the rest. */
  lemma PrependPiece(str: string, pattern: string, n: nat)
    requires pattern != "" && n <= |str|
    requires PieceMatches(pattern[0], str[..n]) && Matches(str[n..], pattern[1..])
    ensures Matches(str, pattern)
  {
    var rest :| Segments(str[n..], pattern[1..], rest);
    var pieces := [str[..n]] + rest;
    assert Segments(str, pattern, pieces);
  }

  /** A match of a non-empty pattern has a first piece, and the rest matches what follows it. */
  lemma FirstPiece(str: string, pattern: string) returns (n: nat)
    requires pattern != "" && Matches(str, pattern)
    ensures n <= |str| && PieceMatches(pattern[0], str[..n]) && Matches(str[n..], pattern[1..])
  {
    var pieces :| Segments(str, pattern, pieces);
    n := |pieces[0]|;
    assert Segments(str[n..], pattern[1..], pieces[1..]);
  }

  /** '?' takes exactly one character. */
  lemma QuestionMark(str: string, pattern: string)
    requires pattern != "" && pattern[0] == '?'
    ensures Matches(str, pattern) <==> str != "" && Matches(str[1..], pattern[1..])
  {
    if Matches(str, pattern) {
      var n := FirstPiece(str, pattern);
    }
    if str != "" && Matches(str[1..], pattern[1..]) {
      PrependPiece(str, pattern, 1);
    }
  }

  /** A literal takes exactly itself. */
  lemma Literal(str: string, pattern: string)
    requires pattern != "" && pattern[0] != '?' && pattern[0] != '*'
    ensures Matches(str, pattern) <==> str != "" && str[0] == pattern[0] && Matches(str[1..], pattern[1..])
  {
    if Matches(str, pattern) {
      var n := FirstPiece(str, pattern);
    }
    if str != "" && str[0] == pattern[0] && Matches(str[1..], pattern[1..]) {
      PrependPiece(str, pattern, 1);
    }
  }

  /** '*' takes nothing, or one character and then again whatever it takes. */
  lemma Star(str: string, pattern: string)
    requires pattern != "" && pattern[0] == '*'
    ensures Matches(str, pattern) <==> Matches(str, pattern[1..]) || (str != "" && Matches(str[1..], pattern))
  {
    if Matches(str, pattern) {
      var n := FirstPiece(str, pattern);
      if n > 0 {
        PrependPiece(str[1..], pattern, n - 1);
      }
    }
    if Matches(str, pattern[1..]) {
      PrependPiece(str, pattern, 0);
    }
    if str != "" && Matches(str[1..], pattern) {
      var n := FirstPiece(str[1..], pattern);
      PrependPiece(str, pattern, n + 1);
    }
  }

  /** The matcher: it walks along both strings and recurses at a '*'. It answers true exactly when the string
      can be cut to fit the pattern. The end of a string stands for the terminating zero. */
  method WildCardMatch(str: string, pattern: string) returns (r: bool)
    ensures r <==> Matches(str, pattern)
    decreases |str| + |pattern|
  {
    var i, j := 0, 0;
    assert str[0..] == str && pattern[0..] == pattern;
    while j < |pattern|
      invariant 0 <= i <= |str| && 0 <= j <= |pattern|
      invariant Matches(str, pattern) <==> Matches(str[i..], pattern[j..])
      decreases |pattern| - j
    {
      assert str[i..] != "" ==> str[i..][1..] == str[i + 1..];
      assert pattern[j..][1..] == pattern[j + 1..];
      match pattern[j] {
        case '?' =>
          QuestionMark(str[i..], pattern[j..]);
          if i == |str| {
            return false;
          }
          i, j := i + 1, j + 1;
        case '*' =>
          Star(str[i..], pattern[j..]);
          var here := WildCardMatch(str[i..], pattern[j + 1..]);
          if here {
            return true;
          }
          if i < |str| {
            var later := WildCardMatch(str[i + 1..], pattern[j..]);
            if later {
              return true;
            }
          }
          return false;
        case symbol =>
          Literal(str[i..], pattern[j..]);
          if i == |str| || str[i] != symbol {
            return false;
          }
          i, j := i + 1, j + 1;
      }
    }
    EmptyPatternMatches(str[i..]);
    assert pattern[j..] == "";
    return i == |str|;
  }
}
