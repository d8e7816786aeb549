/** Word counting for journal entries. The server action
    (app/journal/actions.ts) and the entry form's live counter
    (components/journal/entry-form.tsx) both trim the content, answer 0 when
    nothing is left, and otherwise count the pieces of `split(/\s+/)`. Both
    are shown here to count the maximal runs of non-whitespace characters,
    and therefore to agree on every text. */
module WordCount {
  import opened Text

  /** A run of `n > 0` whitespace characters at the front is skipped, and the
      next character starts a new word if it is not whitespace. */
  lemma {:induction false} CountRunsSkipSpaces(s: string, n: nat, afterSpace: bool)
    requires 0 < n <= |s|
    requires forall j :: 0 <= j < n ==> IsSpace(s[j])
    ensures CountRuns(s, afterSpace) == CountRuns(s[n..], true)
    decreases n
  {
    if n > 1 {
      CountRunsSkipSpaces(s[1..], n - 1, true);
      assert s[1..][n - 1..] == s[n..];
    }
  }

  /** A word of `n > 0` characters at the front counts once, and only when
      it starts after whitespace. */
  lemma {:induction false} CountRunsSkipWord(s: string, n: nat, afterSpace: bool)
    requires 0 < n <= |s|
    requires forall j :: 0 <= j < n ==> !IsSpace(s[j])
    ensures CountRuns(s, afterSpace) == (if afterSpace then 1 else 0) + CountRuns(s[n..], false)
    decreases n
  {
    if n > 1 {
      CountRunsSkipWord(s[1..], n - 1, false);
      assert s[1..][n - 1..] == s[n..];
    }
  }

  lemma {:induction false} CountRunsAllSpace(s: string, afterSpace: bool)
    requires AllSpace(s)
    ensures CountRuns(s, afterSpace) == 0
    decreases |s|
  {
    if |s| > 0 {
      CountRunsAllSpace(s[1..], true);
    }
  }

  /** Trailing whitespace adds no word. */
  lemma {:induction false} CountRunsAppendSpaces(r: string, spaces: string, afterSpace: bool)
    requires AllSpace(spaces)
    ensures CountRuns(r + spaces, afterSpace) == CountRuns(r, afterSpace)
    decreases |r|
  {
    if |r| == 0 {
      assert r + spaces == spaces;
      CountRunsAllSpace(spaces, afterSpace);
    } else {
      assert (r + spaces)[1..] == r[1..] + spaces;
      CountRunsAppendSpaces(r[1..], spaces, IsSpace(r[0]));
    }
  }

  /** Leading whitespace adds no word. */
  lemma SkipSpacePrefix(s: string, i: nat)
    requires i <= |s| && AllSpace(s[..i])
    ensures CountRuns(s, true) == CountRuns(s[i..], true)
  {
    if i > 0 {
      assert forall j :: 0 <= j < i ==> IsSpace(s[..i][j]);
      CountRunsSkipSpaces(s, i, true);
    }
  }

  /** Whitespace on both sides of a slice adds no word. */
  lemma CountWordsOfPadded(s: string, i: nat, r: string)
    requires i + |r| <= |s| && r == s[i..i + |r|] && AllSpace(s[..i]) && AllSpace(s[i + |r|..])
    ensures CountWords(r) == CountWords(s)
  {
    SkipSpacePrefix(s, i);
    assert s[i..] == r + s[i + |r|..];
    CountRunsAppendSpaces(r, s[i + |r|..], true);
  }

  /** Trimming keeps every word. */
  lemma CountWordsOfTrim(s: string)
    ensures CountWords(Trim(s)) == CountWords(s)
  {
    var r := Trim(s);
    var i :| 0 <= i <= |s| - |r| && r == s[i..i + |r|] && AllSpace(s[..i]) && AllSpace(s[i + |r|..]);
    CountWordsOfPadded(s, i, r);
  }

  /** On a text that neither starts nor ends with whitespace, `split(/\s+/)`
      yields exactly one piece per word. */
  lemma {:induction false} SplitCountsWords(t: string)
    requires |t| > 0 && !IsSpace(t[0]) && !IsSpace(t[|t| - 1])
    ensures |SplitWhitespace(t)| == CountRuns(t, true)
    decreases |t|
  {
    var k := FirstSpace(t);
    if k == |t| {
      CountRunsSkipWord(t, k, true);
      assert t[k..] == [];
    } else {
      var rest := t[k..];
      var l := LeadingSpaces(rest);
      assert rest[|rest| - 1] == t[|t| - 1];
      assert l < |rest|;
      var next := rest[l..];
      assert next[|next| - 1] == t[|t| - 1];
      CountRunsSkipWord(t, k, true);
      CountRunsSkipSpaces(rest, l, false);
      SplitCountsWords(next);
    }
  }

  /** `calculateWordCount` of the server action. Its result is the number
      of maximal non-whitespace runs of the content. */
  function CalculateWordCount(content: string): (n: nat)
    ensures n == CountWords(content)
    ensures n == 0 <==> AllSpace(content)
  {
    var t := Trim(content);
    CountWordsOfTrim(content);
    if t == [] then
      CountRunsAllSpace(content, true);
      0
    else
      SplitCountsWords(t);
      assert CountRuns(t, true) >= 1 by { CountRunsSkipWord(t, 1, true); }
      |SplitWhitespace(t)|
  }

  /** The `wordCount` memo of the entry form: the same rule, written with an
      early return. */
  function EntryFormWordCount(content: string): (n: nat)
    ensures n == CountWords(content)
  {
    if Trim(content) == [] then
      CountRunsAllSpace(content, true);
      0
    else
      var t := Trim(content);
      CountWordsOfTrim(content);
      SplitCountsWords(t);
      |SplitWhitespace(t)|
  }

  /** The count the form shows while typing is the count the server stores. */
  lemma FormCountMatchesServer(content: string)
    ensures EntryFormWordCount(content) == CalculateWordCount(content)
  {
  }

  /** Counting words is blind to surrounding whitespace. */
  lemma WordCountIgnoresPadding(content: string, before: string, after: string)
    requires AllSpace(before) && AllSpace(after)
    ensures CalculateWordCount(before + content + after) == CalculateWordCount(content)
  {
    if |before| > 0 {
      CountRunsSkipSpaces(before + content + after, |before|, true);
      assert (before + content + after)[|before|..] == content + after;
    } else {
      assert before + content + after == content + after;
    }
    CountRunsAppendSpaces(content, after, true);
  }
}
