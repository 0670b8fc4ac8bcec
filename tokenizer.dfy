/** Turning an input line into tokens (`SRPN.removeComments` and the scanning
    loop of `SRPN.processCommand`). The token pattern is the alternation
    `-?\d+ | += -= *= /= ^= %= = | [+/\-*%^] | [dr] | [^ ]`, tried in that
    order at the leftmost position where it matches. */
module Tokenizer {
  import opened Wrappers
  import opened Numeral

  /** The lines this model covers: printable ASCII, so the only white space
      is ' ', no character ends a line, and every decimal digit is '0'..'9'. */
  predicate PlainLine(s: string)
  {
    forall k :: 0 <= k < |s| ==> ' ' <= s[k] <= '~'
  }

  // ---------------------------------------------------------------------
  // Comments: `replaceAll("#(.)+#", "")`.
  // ---------------------------------------------------------------------

  /** The first `ch` at or after `i`, or `|c|`. */
  function IndexFrom(c: string, ch: char, i: nat): (k: nat)
    requires i <= |c|
    ensures i <= k <= |c|
    ensures k < |c| ==> c[k] == ch
    ensures forall m :: i <= m < k ==> c[m] != ch
    decreases |c| - i
  {
    if i == |c| || c[i] == ch then i else IndexFrom(c, ch, i + 1)
  }

  /** The last `ch` before `n`, or -1. */
  function LastIndexBelow(c: string, ch: char, n: nat): (k: int)
    requires n <= |c|
    ensures -1 <= k < n
    ensures k >= 0 ==> c[k] == ch
    ensures forall m :: k < m < n ==> c[m] != ch
  {
    if n == 0 then -1 else if c[n - 1] == ch then n - 1 else LastIndexBelow(c, ch, n - 1)
  }

  /** The greedy `#(.)+#` matches from the first `#` to the last one, provided
      at least one character lies between them; after that match no `#` is
      left to start another. */
  function RemoveComments(c: string): (r: string)
    ensures r == c || (|r| + 3 <= |c| && '#' !in r)
  {
    var first := IndexFrom(c, '#', 0);
    var last := LastIndexBelow(c, '#', |c|);
    if first + 2 <= last then
      NoCommentLeft(c, first, last);
      c[..first] + c[last + 1..]
    else c
  }

  /** Cutting from the first `#` through the last leaves no `#`. */
  lemma NoCommentLeft(c: string, first: nat, last: nat)
    requires first <= last < |c|
    requires forall m :: 0 <= m < first ==> c[m] != '#'
    requires forall m :: last < m < |c| ==> c[m] != '#'
    ensures '#' !in c[..first] + c[last + 1..]
  {
    var r := c[..first] + c[last + 1..];
    forall k | 0 <= k < |r|
      ensures r[k] != '#'
    {
      if k >= first {
        assert r[k] == c[last + 1 + (k - first)];
      }
    }
  }

  /** A line in which no `#` has another `#` two or more positions later has
      no comment and is left as it is (so `##` survives). */
  lemma RemoveCommentsKeeps(c: string)
    requires forall i, j :: 0 <= i && i + 2 <= j < |c| ==> c[i] != '#' || c[j] != '#'
    ensures RemoveComments(c) == c
  {
    var first := IndexFrom(c, '#', 0);
    var last := LastIndexBelow(c, '#', |c|);
    if first + 2 <= last {
      assert false;
    }
  }

  /** Otherwise everything from the first `#` through the last `#` goes. */
  lemma RemoveCommentsCuts(c: string, f: nat, l: nat)
    requires f + 2 <= l < |c| && c[f] == '#' && c[l] == '#'
    requires forall k :: 0 <= k < f ==> c[k] != '#'
    requires forall k :: l < k < |c| ==> c[k] != '#'
    ensures RemoveComments(c) == c[..f] + c[l + 1..]
  {
    var first := IndexFrom(c, '#', 0);
    var last := LastIndexBelow(c, '#', |c|);
    assert first == f by {
      if first < f {
        assert false;
      }
    }
    assert last == l by {
      if last > l {
        assert false;
      }
    }
  }

  /** Stripping comments twice is the same as stripping them once. */
  lemma RemoveCommentsIdempotent(c: string)
    ensures RemoveComments(RemoveComments(c)) == RemoveComments(c)
  {
    var first := IndexFrom(c, '#', 0);
    var last := LastIndexBelow(c, '#', |c|);
    if first + 2 <= last {
      var r := c[..first] + c[last + 1..];
      assert forall k :: 0 <= k < |r| ==> r[k] != '#';
      RemoveCommentsKeeps(r);
    }
  }

  // ---------------------------------------------------------------------
  // The lexer: one leftmost match of the token pattern at a time.
  // ---------------------------------------------------------------------

  /** The first position at or after `i` that is not a space, or `|c|`. */
  function SkipSpaces(c: string, i: nat): (k: nat)
    requires i <= |c|
    ensures i <= k <= |c|
    ensures forall m :: i <= m < k ==> c[m] == ' '
    ensures k < |c| ==> c[k] != ' '
    decreases |c| - i
  {
    if i == |c| || c[i] != ' ' then i else SkipSpaces(c, i + 1)
  }

  /** The end of the run of digits that starts at `i`. */
  function DigitsEnd(c: string, i: nat): (k: nat)
    requires i <= |c|
    ensures i <= k <= |c|
    ensures forall m :: i <= m < k ==> IsDigit(c[m])
    ensures k < |c| ==> !IsDigit(c[k])
    decreases |c| - i
  {
    if i == |c| || !IsDigit(c[i]) then i else DigitsEnd(c, i + 1)
  }

  predicate IsOperatorChar(ch: char)
  {
    ch == '+' || ch == '-' || ch == '*' || ch == '/' || ch == '%' || ch == '^'
  }

  /** A match of `-?\d+`. */
  predicate IsNumeral(t: string)
  {
    if |t| >= 1 && t[0] == '-' then |t| >= 2 && AllDigits(t[1..]) else |t| >= 1 && AllDigits(t)
  }

  /** The end of the token matched at the non-space `c[i]`: a numeral takes
      every digit that follows (greedy `\d+`), an operator followed by `=`
      takes both characters, anything else is one character. */
  function TokenEnd(c: string, i: nat): (j: nat)
    requires i < |c| && c[i] != ' '
    ensures i < j <= |c|
    ensures forall m :: i <= m < j ==> c[m] != ' '
    ensures IsNumeral(c[i..j]) || (j == i + 2 && IsOperatorChar(c[i]) && c[i + 1] == '=') || j == i + 1
    ensures IsNumeral(c[i..j]) ==> j == |c| || !IsDigit(c[j])
    ensures i + 1 < |c| && IsOperatorChar(c[i]) && c[i + 1] == '=' ==> j == i + 2
    ensures (IsDigit(c[i]) || (c[i] == '-' && i + 1 < |c| && IsDigit(c[i + 1]))) <==> IsNumeral(c[i..j])
  {
    if IsDigit(c[i]) then
      var j := DigitsEnd(c, i);
      assert AllDigits(c[i..j]);
      j
    else if c[i] == '-' && i + 1 < |c| && IsDigit(c[i + 1]) then
      var j := DigitsEnd(c, i + 1);
      assert c[i..j][1..] == c[i + 1..j];
      j
    else if IsOperatorChar(c[i]) && i + 1 < |c| && c[i + 1] == '=' then
      assert c[i..i + 2][1] == '=';
      i + 2
    else
      assert c[i..i + 1] == [c[i]];
      i + 1
  }

  /** `findInLine`: the leftmost match at or after `i`, as its start and end;
      `None` when only spaces remain. */
  function FindInLine(c: string, i: nat): (r: Option<(nat, nat)>)
    requires i <= |c|
    ensures r.None? <==> SkipSpaces(c, i) == |c|
    ensures r.Some? ==> r.value.0 == SkipSpaces(c, i) && r.value.0 < r.value.1 <= |c|
    ensures r.Some? ==> r.value.1 == TokenEnd(c, r.value.0)
  {
    var k := SkipSpaces(c, i);
    if k == |c| then None else Some((k, TokenEnd(c, k)))
  }

  /** Every token from position `i` on, skipping any number of spaces; no
      token is empty or holds a space. */
  function TokensFrom(c: string, i: nat): (ts: seq<string>)
    requires i <= |c|
    ensures forall k :: 0 <= k < |ts| ==> |ts[k]| >= 1 && ' ' !in ts[k]
    ensures |ts| <= |c| - i
    decreases |c| - i
  {
    match FindInLine(c, i)
    case None => []
    case Some((s, e)) =>
      assert ' ' !in c[s..e] by {
        forall m | 0 <= m < e - s ensures c[s..e][m] != ' ' {
          assert c[s..e][m] == c[s + m];
        }
      }
      [c[s..e]] + TokensFrom(c, e)
  }

  /** The tokens of a line; gluing them together gives back the line without
      its spaces, so no character is lost or reordered. */
  function Tokens(c: string): (ts: seq<string>)
    ensures Concat(ts) == WithoutSpaces(c)
  {
    TokensConcat(c, 0);
    TokensFrom(c, 0)
  }

  function Concat(ts: seq<string>): string
  {
    if ts == [] then [] else ts[0] + Concat(ts[1..])
  }

  function WithoutSpaces(s: string): string
  {
    if s == [] then [] else (if s[0] == ' ' then [] else [s[0]]) + WithoutSpaces(s[1..])
  }

  lemma {:induction false} WithoutSpacesAppend(x: string, y: string)
    ensures WithoutSpaces(x + y) == WithoutSpaces(x) + WithoutSpaces(y)
  {
    if x == [] {
      assert x + y == y;
    } else {
      assert (x + y)[0] == x[0];
      assert (x + y)[1..] == x[1..] + y;
      WithoutSpacesAppend(x[1..], y);
    }
  }

  lemma {:induction false} WithoutSpacesOfBlanks(s: string)
    requires forall m :: 0 <= m < |s| ==> s[m] == ' '
    ensures WithoutSpaces(s) == []
  {
    if s != [] {
      WithoutSpacesOfBlanks(s[1..]);
    }
  }

  lemma {:induction false} WithoutSpacesOfWord(s: string)
    requires forall m :: 0 <= m < |s| ==> s[m] != ' '
    ensures WithoutSpaces(s) == s
  {
    if s != [] {
      WithoutSpacesOfWord(s[1..]);
    }
  }

  lemma {:induction false} TokensConcat(c: string, i: nat)
    requires i <= |c|
    ensures Concat(TokensFrom(c, i)) == WithoutSpaces(c[i..])
    decreases |c| - i
  {
    var k := SkipSpaces(c, i);
    DropBlanks(c, i, k);
    if k < |c| {
      var e := TokenEnd(c, k);
      DropWord(c, k, e);
      TokensConcat(c, e);
      var ts := TokensFrom(c, i);
      assert ts == [c[k..e]] + TokensFrom(c, e);
      assert ts[0] == c[k..e] && ts[1..] == TokensFrom(c, e);
    }
  }

  /** Leading blanks contribute nothing. */
  lemma DropBlanks(c: string, i: nat, k: nat)
    requires i <= k <= |c|
    requires forall m :: i <= m < k ==> c[m] == ' '
    ensures WithoutSpaces(c[i..]) == WithoutSpaces(c[k..])
  {
    assert c[i..] == c[i..k] + c[k..];
    WithoutSpacesAppend(c[i..k], c[k..]);
    WithoutSpacesOfBlanks(c[i..k]);
  }

  /** A leading word is kept whole. */
  lemma DropWord(c: string, k: nat, e: nat)
    requires k <= e <= |c|
    requires forall m :: k <= m < e ==> c[m] != ' '
    ensures WithoutSpaces(c[k..]) == c[k..e] + WithoutSpaces(c[e..])
  {
    assert c[k..] == c[k..e] + c[e..];
    WithoutSpacesAppend(c[k..e], c[e..]);
    WithoutSpacesOfWord(c[k..e]);
  }

  // ---------------------------------------------------------------------
  // The `Scanner` loop as written.
  // ---------------------------------------------------------------------

  /** `hasNext()`: the first call uses the default delimiter, which skips all
      white space; every later call uses the delimiter " ", which skips one
      space. Either way it asks whether anything is left after the skip. */
  predicate HasNext(c: string, i: nat, delimiterSet: bool)
    requires i <= |c|
    ensures !delimiterSet ==> (HasNext(c, i, delimiterSet) <==> FindInLine(c, i).Some?)
    ensures delimiterSet && HasNext(c, i, delimiterSet) && FindInLine(c, i).None?
            ==> i + 2 <= |c| && forall m :: i <= m < |c| ==> c[m] == ' '
  {
    if !delimiterSet then SkipSpaces(c, i) < |c|
    else (if i < |c| && c[i] == ' ' then i + 1 else i) < |c|
  }

  /** The tokens the loop hands on, and whether it then spins for ever:
      when `hasNext()` holds but `findInLine` finds nothing, the position
      does not move and every later iteration repeats the same step. */
  datatype Scan = Scan(tokens: seq<string>, hangs: bool)

  function ScanFrom(c: string, i: nat, delimiterSet: bool): (r: Scan)
    requires i <= |c|
    ensures |r.tokens| <= |c| - i
    ensures r.hangs ==> EndsWithTwoSpaces(c)
    decreases |c| - i
  {
    if !HasNext(c, i, delimiterSet) then Scan([], false)
    else
      match FindInLine(c, i)
      case None => Scan([], true)
      case Some((s, e)) =>
        var rest := ScanFrom(c, e, true);
        Scan([c[s..e]] + rest.tokens, rest.hangs)
  }

  predicate EndsWithTwoSpaces(c: string)
  {
    |c| >= 2 && c[|c| - 1] == ' ' && c[|c| - 2] == ' '
  }

  /** The scanning loop of `processCommand` on a comment-free line: it hands
      on exactly the tokens of `Tokens`, and it never finishes when the line
      holds a token and ends in two or more spaces. */
  function ScanLine(c: string): (r: Scan)
    ensures r.tokens == Tokens(c)
    ensures r.hangs <==> SkipSpaces(c, 0) < |c| && EndsWithTwoSpaces(c)
  {
    ScanTokens(c, 0, false);
    ScanLineHangs(c);
    ScanFrom(c, 0, false)
  }

  lemma ScanLineHangs(c: string)
    ensures ScanFrom(c, 0, false).hangs <==> SkipSpaces(c, 0) < |c| && EndsWithTwoSpaces(c)
  {
    if SkipSpaces(c, 0) < |c| {
      ScanHangsAfterToken(c, TokenEnd(c, SkipSpaces(c, 0)));
    }
  }

  lemma {:induction false} ScanTokens(c: string, i: nat, delimiterSet: bool)
    requires i <= |c|
    ensures ScanFrom(c, i, delimiterSet).tokens == TokensFrom(c, i)
    decreases |c| - i
  {
    match FindInLine(c, i)
    case None =>
    case Some((s, e)) =>
      ScanTokens(c, e, true);
  }

  /** Right after a token, the loop spins exactly when the line ends in two
      spaces. */
  lemma {:induction false} ScanHangsAfterToken(c: string, i: nat)
    requires 1 <= i <= |c| && c[i - 1] != ' '
    ensures ScanFrom(c, i, true).hangs <==> EndsWithTwoSpaces(c)
    decreases |c| - i
  {
    var k := SkipSpaces(c, i);
    if k < |c| {
      var e := TokenEnd(c, k);
      ScanHangsAfterToken(c, e);
    } else {
      assert |c| - i >= 2 <==> EndsWithTwoSpaces(c);
    }
  }

  /** A line that ends in two spaces after its last token never finishes;
      one trailing space does not matter. */
  lemma TrailingSpacesHang()
    ensures ScanLine("5  ").hangs
    ensures !ScanLine("5 ").hangs
  {
    assert SkipSpaces("5  ", 0) == 0;
    assert SkipSpaces("5 ", 0) == 0;
  }

  /** A `-` directly before a digit starts a negative number: `3-4` is `3`
      and `-4`, not a subtraction. */
  lemma NegativeLiteralExample()
    ensures Tokens("3-4") == ["3", "-4"]
  {
    var c := "3-4";
    assert DigitsEnd(c, 0) == 1 && TokenEnd(c, 0) == 1 && c[0..1] == "3";
    assert SkipSpaces(c, 1) == 1 && DigitsEnd(c, 2) == 3 && TokenEnd(c, 1) == 3 && c[1..3] == "-4";
    assert TokensFrom(c, 3) == [];
    assert TokensFrom(c, 1) == ["-4"];
  }

  /** A number ends at its last digit, without a space. */
  lemma NumberThenLetterExample()
    ensures Tokens("12a") == ["12", "a"]
  {
    var d := "12a";
    assert DigitsEnd(d, 0) == 2 && TokenEnd(d, 0) == 2 && d[0..2] == "12";
    assert SkipSpaces(d, 2) == 2 && TokenEnd(d, 2) == 3 && d[2..3] == "a";
    assert TokensFrom(d, 3) == [];
    assert TokensFrom(d, 2) == ["a"];
  }

  /** `op=` is one token even when a number follows without a space. */
  lemma CompoundExample()
    ensures Tokens("+=5") == ["+=", "5"]
  {
    var f := "+=5";
    assert TokenEnd(f, 0) == 2 && f[0..2] == "+=";
    assert SkipSpaces(f, 2) == 2 && DigitsEnd(f, 2) == 3 && TokenEnd(f, 2) == 3 && f[2..3] == "5";
    assert TokensFrom(f, 3) == [];
    assert TokensFrom(f, 2) == ["5"];
  }
}
