/** The handful of JavaScript string operations the journal helpers rely
    on: `trim`, the `\s` class, ASCII case mapping, `split` and `join`
    with a one-character separator, `split(/\s+/)` and `startsWith`.
    Strings are sequences of characters; lengths are counted per character. */
module Text {

  /** ECMAScript WhiteSpace and LineTerminator code points: the set that
      both `String.prototype.trim` and the regular-expression class `\s`
      use. */
  predicate IsSpace(c: char)
  {
    c == '\t' || c == '\n' || c == '\U{000B}' || c == '\U{000C}' || c == '\r' || c == ' '
    || c == '\U{00A0}' || c == '\U{1680}' || ('\U{2000}' <= c <= '\U{200A}')
    || c == '\U{2028}' || c == '\U{2029}' || c == '\U{202F}' || c == '\U{205F}'
    || c == '\U{3000}' || c == '\U{FEFF}'
  }

  predicate AllSpace(s: string)
  {
    forall k :: 0 <= k < |s| ==> IsSpace(s[k])
  }

  /** Number of whitespace characters at the front of `s`. */
  function LeadingSpaces(s: string): (n: nat)
    ensures n <= |s|
    ensures forall k :: 0 <= k < n ==> IsSpace(s[k])
    ensures n < |s| ==> !IsSpace(s[n])
  {
    if |s| == 0 || !IsSpace(s[0]) then 0 else 1 + LeadingSpaces(s[1..])
  }

  /** Number of whitespace characters at the back of `s`. */
  function TrailingSpaces(s: string): (n: nat)
    ensures n <= |s|
    ensures forall k :: |s| - n <= k < |s| ==> IsSpace(s[k])
    ensures n < |s| ==> !IsSpace(s[|s| - n - 1])
  {
    if |s| == 0 || !IsSpace(s[|s| - 1]) then 0 else 1 + TrailingSpaces(s[..|s| - 1])
  }

  /** `String.prototype.trim`: the slice left after removing leading and
      trailing whitespace. */
  function Trim(s: string): (r: string)
    ensures |r| <= |s|
    ensures |r| > 0 ==> !IsSpace(r[0]) && !IsSpace(r[|r| - 1])
    ensures exists i :: (0 <= i <= |s| - |r| && r == s[i..i + |r|]
                         && AllSpace(s[..i]) && AllSpace(s[i + |r|..]))
    ensures r == [] <==> AllSpace(s)
  {
    var i := LeadingSpaces(s);
    if i == |s| then
      LeadingSlice(s);
      assert s[..i] == s;
      assert 0 <= i <= |s| - 0 && [] == s[i..i + 0] && AllSpace(s[..i]) && AllSpace(s[i + 0..]);
      []
    else
      var j := |s| - TrailingSpaces(s);
      TrimBounds(s, i, j);
      var r := s[i..j];
      assert s[i + |r|..] == s[j..] && r[0] == s[i] && r[|r| - 1] == s[j - 1];
      assert 0 <= i <= |s| - |r| && r == s[i..i + |r|] && AllSpace(s[..i]) && AllSpace(s[i + |r|..]);
      r
  }

  /** Around the first and last non-whitespace characters. */
  lemma TrimBounds(s: string, i: nat, j: int)
    requires i == LeadingSpaces(s) < |s| && j == |s| - TrailingSpaces(s)
    ensures i < j <= |s|
    ensures AllSpace(s[..i]) && AllSpace(s[j..])
    ensures !IsSpace(s[i]) && !IsSpace(s[j - 1]) && !AllSpace(s)
  {
    assert !IsSpace(s[i]);
    LeadingSlice(s);
    TrailingSlice(s);
  }

  lemma LeadingSlice(s: string)
    ensures AllSpace(s[..LeadingSpaces(s)])
  {
    var i := LeadingSpaces(s);
    assert forall k :: 0 <= k < i ==> s[..i][k] == s[k];
  }

  lemma TrailingSlice(s: string)
    ensures AllSpace(s[|s| - TrailingSpaces(s)..])
  {
    var j := |s| - TrailingSpaces(s);
    assert forall k :: 0 <= k < |s| - j ==> s[j..][k] == s[j + k];
  }

  lemma TrimOfAllSpace(s: string)
    requires AllSpace(s)
    ensures Trim(s) == []
  {
  }

  function LowerChar(c: char): char
  {
    if 'A' <= c <= 'Z' then (c as int + 32) as char else c
  }

  function UpperChar(c: char): char
  {
    if 'a' <= c <= 'z' then (c as int - 32) as char else c
  }

  /** `toLowerCase`, restricted to the ASCII letters. */
  function ToLower(s: string): (r: string)
    ensures |r| == |s|
    ensures forall k :: 0 <= k < |s| ==> r[k] == LowerChar(s[k])
  {
    if |s| == 0 then [] else [LowerChar(s[0])] + ToLower(s[1..])
  }

  /** A text without ASCII capitals is its own lower-case form. */
  lemma ToLowerOfLower(s: string)
    requires forall k :: 0 <= k < |s| ==> !('A' <= s[k] <= 'Z')
    ensures ToLower(s) == s
  {
  }

  lemma ToLowerIdempotent(s: string)
    ensures ToLower(ToLower(s)) == ToLower(s)
  {
  }

  function StartsWith(s: string, prefix: string): bool
  {
    |prefix| <= |s| && s[..|prefix|] == prefix
  }

  /** `s.split(sep)` for a one-character separator: the pieces between the
      separators, so there is always one more piece than separators. */
  function SplitOn(s: string, sep: char): (parts: seq<string>)
    ensures |parts| >= 1
    ensures forall p :: p in parts ==> sep !in p
    decreases |s|
  {
    if sep !in s then [s]
    else
      var k := IndexOf(s, sep);
      [s[..k]] + SplitOn(s[k + 1..], sep)
  }

  function IndexOf(s: string, c: char): (k: nat)
    requires c in s
    ensures k < |s| && s[k] == c && c !in s[..k]
  {
    if s[0] == c then 0 else 1 + IndexOf(s[1..], c)
  }

  /** `parts.join(sep)`. */
  function JoinWith(parts: seq<string>, sep: char): string
  {
    if |parts| == 0 then []
    else if |parts| == 1 then parts[0]
    else parts[0] + [sep] + JoinWith(parts[1..], sep)
  }

  /** Joining the pieces of a split with the same separator gives the
      string back. */
  lemma {:induction false} JoinSplit(s: string, sep: char)
    ensures JoinWith(SplitOn(s, sep), sep) == s
    decreases |s|
  {
    if sep in s {
      var k := IndexOf(s, sep);
      var rest := SplitOn(s[k + 1..], sep);
      JoinSplit(s[k + 1..], sep);
      assert SplitOn(s, sep) == [s[..k]] + rest;
      assert SplitOn(s, sep)[1..] == rest;
      assert JoinWith(SplitOn(s, sep), sep) == s[..k] + [sep] + JoinWith(rest, sep);
      assert s == s[..k] + [sep] + s[k + 1..];
    }
  }

  /** Index of the first whitespace character, or `|s|` when there is none. */
  function FirstSpace(s: string): (k: nat)
    ensures k <= |s|
    ensures forall j :: 0 <= j < k ==> !IsSpace(s[j])
    ensures k < |s| ==> IsSpace(s[k])
  {
    if |s| == 0 || IsSpace(s[0]) then 0 else 1 + FirstSpace(s[1..])
  }

  /** `s.split(/\s+/)`: the pieces between maximal whitespace runs. A
      leading or trailing run yields an empty first or last piece, and the
      empty string splits into one empty piece. */
  function SplitWhitespace(s: string): (parts: seq<string>)
    ensures |parts| >= 1
    decreases |s|
  {
    var k := FirstSpace(s);
    if k == |s| then [s]
    else
      var rest := s[k..];
      [s[..k]] + SplitWhitespace(rest[LeadingSpaces(rest)..])
  }

  /** Number of maximal runs of non-whitespace characters in `s`, read left
      to right; `afterSpace` says whether the character before `s` was
      whitespace (or `s` is at the start of the text). A run is counted at
      its first character. */
  function CountRuns(s: string, afterSpace: bool): nat
  {
    if |s| == 0 then 0
    else (if afterSpace && !IsSpace(s[0]) then 1 else 0) + CountRuns(s[1..], IsSpace(s[0]))
  }

  /** Number of words: maximal runs of non-whitespace characters. */
  function CountWords(s: string): nat
  {
    CountRuns(s, true)
  }
}
