/** The pure parts of components/journal/entry-list.tsx: reading the
    untyped `dominant_emotions` column back into emotion records, turning a
    sentiment label into display text, and the sentiment filter. */
module EntryList {
  import opened Basics
  import opened Text

  /** A JSON value as the database hands it back. An absent analysis reads
      as `Null`, which behaves like `undefined` everywhere below. Object
      members are looked up by name; inherited members are not modelled. */
  datatype Json =
    | Null
    | Bool(b: bool)
    | Number(n: real)
    | Str(s: string)
    | Array(items: seq<Json>)
    | Object(fields: map<string, Json>)

  /** `DominantEmotion`; an optional field is `None` when it was not a string. */
  datatype DominantEmotion = DominantEmotion(
    name: string,
    confidence: real,
    colorHex: Option<string>,
    treeEffect: Option<string>)

  /** `maybe[key]` read as a string, or `None` when it is missing or is
      some other kind of value. */
  function StringField(fields: map<string, Json>, key: string): (r: Option<string>)
    ensures r.Some? <==> key in fields && fields[key].Str?
    ensures r.Some? ==> fields[key] == Str(r.value)
  {
    if key in fields && fields[key].Str? then Some(fields[key].s) else None
  }

  function NumberField(fields: map<string, Json>, key: string): (r: Option<real>)
    ensures r.Some? <==> key in fields && fields[key].Number?
    ensures r.Some? ==> fields[key] == Number(r.value)
  {
    if key in fields && fields[key].Number? then Some(fields[key].n) else None
  }

  /** An item of the array is usable when it is an object with a non-empty
      string `name` and a numeric `confidence`. Arrays are objects to
      `typeof` too, but have neither member. */
  predicate Usable(item: Json)
  {
    item.Object? && StringField(item.fields, "name").Some? && |StringField(item.fields, "name").value| > 0
    && NumberField(item.fields, "confidence").Some?
  }

  /** The callback of the `map` step: the emotion record, or `null`. */
  function ParseItem(item: Json): (r: Option<DominantEmotion>)
    ensures r.Some? <==> Usable(item)
    ensures r.Some? ==>
              item.fields["name"] == Str(r.value.name) && |r.value.name| > 0
              && item.fields["confidence"] == Number(r.value.confidence)
              && r.value.colorHex == StringField(item.fields, "colorHex")
              && r.value.treeEffect == StringField(item.fields, "treeEffect")
  {
    match item
    case Object(fields) =>
      var name := StringField(fields, "name");
      var confidence := NumberField(fields, "confidence");
      if name.None? || |name.value| == 0 || confidence.None? then None
      else Some(DominantEmotion(name.value, confidence.value,
                                StringField(fields, "colorHex"), StringField(fields, "treeEffect")))
    case _ => None
  }

  /** `.filter(Boolean)` after the `map`: the present records, in order. */
  function Present(xs: seq<Option<DominantEmotion>>): (r: seq<DominantEmotion>)
    ensures |r| <= |xs|
  {
    if |xs| == 0 then []
    else (if xs[0].Some? then [xs[0].value] else []) + Present(xs[1..])
  }

  /** `parseDominantEmotions`. */
  function ParseDominantEmotions(value: Json): (r: seq<DominantEmotion>)
    ensures !value.Array? ==> r == []
    ensures value.Array? ==> |r| <= |value.items|
  {
    match value
    case Array(items) => Present(seq(|items|, i requires 0 <= i < |items| => ParseItem(items[i])))
    case _ => []
  }

  /** Filtering distributes over concatenation, so it keeps relative order. */
  lemma {:induction false} PresentAppend(xs: seq<Option<DominantEmotion>>, ys: seq<Option<DominantEmotion>>)
    ensures Present(xs + ys) == Present(xs) + Present(ys)
  {
    if |xs| == 0 {
      assert xs + ys == ys;
    } else {
      var head := if xs[0].Some? then [xs[0].value] else [];
      assert (xs + ys)[0] == xs[0] && (xs + ys)[1..] == xs[1..] + ys;
      PresentAppend(xs[1..], ys);
      assert Present(xs + ys) == head + Present(xs[1..] + ys);
      assert head + (Present(xs[1..]) + Present(ys)) == (head + Present(xs[1..])) + Present(ys);
    }
  }

  /** Exactly the present records survive: each one is kept, nothing else
      appears, and the count is the number of present entries. */
  lemma {:induction false} PresentMembers(xs: seq<Option<DominantEmotion>>)
    ensures forall e :: e in Present(xs) <==> Some(e) in xs
    ensures |Present(xs)| == |xs| <==> forall k :: 0 <= k < |xs| ==> xs[k].Some?
  {
    if |xs| > 0 {
      PresentMembers(xs[1..]);
      assert xs == [xs[0]] + xs[1..];
      if xs[0].None? {
        assert |Present(xs)| < |xs|;
      }
    }
  }

  /** The parsed emotions are exactly the usable items, as records. */
  lemma ParsedAreTheUsableItems(items: seq<Json>, e: DominantEmotion)
    ensures e in ParseDominantEmotions(Array(items)) <==>
              exists k :: 0 <= k < |items| && ParseItem(items[k]) == Some(e)
  {
    var xs := seq(|items|, i requires 0 <= i < |items| => ParseItem(items[i]));
    PresentMembers(xs);
    if Some(e) in xs {
      var k :| 0 <= k < |xs| && xs[k] == Some(e);
      assert ParseItem(items[k]) == Some(e);
    }
    if exists k :: 0 <= k < |items| && ParseItem(items[k]) == Some(e) {
      var k :| 0 <= k < |items| && ParseItem(items[k]) == Some(e);
      assert xs[k] == Some(e);
    }
  }

  /** Nothing is dropped from an array of usable items. */
  lemma ParsedKeepsAllUsable(items: seq<Json>)
    ensures |ParseDominantEmotions(Array(items))| == |items| <==> forall k :: 0 <= k < |items| ==> Usable(items[k])
  {
    var xs := seq(|items|, i requires 0 <= i < |items| => ParseItem(items[i]));
    PresentMembers(xs);
    assert forall k :: 0 <= k < |items| ==> (xs[k].Some? <==> Usable(items[k]));
  }

  /** Parsing an array is parsing its parts: unusable items drop out
      without disturbing the order of the others. */
  lemma ParseConcat(a: seq<Json>, b: seq<Json>)
    ensures ParseDominantEmotions(Array(a + b))
            == ParseDominantEmotions(Array(a)) + ParseDominantEmotions(Array(b))
  {
    var xa := seq(|a|, i requires 0 <= i < |a| => ParseItem(a[i]));
    var xb := seq(|b|, i requires 0 <= i < |b| => ParseItem(b[i]));
    var ab := a + b;
    assert seq(|ab|, i requires 0 <= i < |ab| => ParseItem(ab[i])) == xa + xb;
    PresentAppend(xa, xb);
  }

  /** The confidence is not range-checked: any number is accepted. */
  lemma AnyConfidenceAccepted(name: string, c: real)
    requires |name| > 0
    ensures ParseDominantEmotions(Array([Object(map["name" := Str(name), "confidence" := Number(c)])]))
            == [DominantEmotion(name, c, None, None)]
  {
    var item := Object(map["name" := Str(name), "confidence" := Number(c)]);
    var xs := seq(1, i requires 0 <= i < 1 => ParseItem([item][i]));
    assert xs == [Some(DominantEmotion(name, c, None, None))];
    assert Present(xs) == [DominantEmotion(name, c, None, None)] + Present([]);
  }

  /** `SentimentLabel` without its `null`. */
  datatype SentimentLabel = VeryNegative | Negative | NeutralLabel | Positive | VeryPositive

  function LabelText(l: SentimentLabel): string
  {
    match l
    case VeryNegative => "very_negative"
    case Negative => "negative"
    case NeutralLabel => "neutral"
    case Positive => "positive"
    case VeryPositive => "very_positive"
  }

  /** `part.charAt(0).toUpperCase() + part.slice(1)`. */
  function Capitalize(part: string): (r: string)
    ensures |r| == |part|
  {
    if |part| == 0 then [] else [UpperChar(part[0])] + part[1..]
  }

  function CapitalizeAll(parts: seq<string>): (r: seq<string>)
    ensures |r| == |parts|
    ensures forall k :: 0 <= k < |parts| ==> r[k] == Capitalize(parts[k])
  {
    seq(|parts|, k requires 0 <= k < |parts| => Capitalize(parts[k]))
  }

  /** `formatSentiment`: split on "_", capitalise each part, join with a
      space. */
  function FormatSentiment(sentiment: string): string
  {
    JoinWith(CapitalizeAll(SplitOn(sentiment, '_')), ' ')
  }

  /** The character the formatted text has at position `k`: underscores
      become spaces and a letter that starts a part is upper-cased. */
  function FormattedChar(s: string, k: nat): char
    requires k < |s|
  {
    if s[k] == '_' then ' '
    else if k == 0 || s[k - 1] == '_' then UpperChar(s[k])
    else s[k]
  }

  /** A part without underscores is capitalised in place. */
  lemma CapitalizePointwise(s: string)
    requires '_' !in s
    ensures forall k :: 0 <= k < |s| ==> Capitalize(s)[k] == FormattedChar(s, k)
  {
  }

  /** One split step: the first part, a space, and the rest formatted. */
  lemma FormatStep(s: string, i: nat)
    requires '_' in s && i == IndexOf(s, '_')
    ensures FormatSentiment(s) == Capitalize(s[..i]) + [' '] + FormatSentiment(s[i + 1..])
  {
    var rest := SplitOn(s[i + 1..], '_');
    var caps := CapitalizeAll([s[..i]] + rest);
    assert caps[1..] == CapitalizeAll(rest);
  }

  /** Gluing the pointwise descriptions of the first part and of the rest. */
  lemma CombinePointwise(s: string, i: nat, t: string)
    requires i < |s| && s[i] == '_' && '_' !in s[..i]
    requires |t| == |s| - i - 1
    requires forall k :: 0 <= k < |t| ==> t[k] == FormattedChar(s[i + 1..], k)
    ensures var f := Capitalize(s[..i]) + [' '] + t;
            |f| == |s| && forall k :: 0 <= k < |s| ==> f[k] == FormattedChar(s, k)
  {
    var head := s[..i];
    CapitalizePointwise(head);
    var f := Capitalize(head) + [' '] + t;
    forall k | 0 <= k < |s|
      ensures f[k] == FormattedChar(s, k)
    {
      if k < i {
        assert f[k] == Capitalize(head)[k] == FormattedChar(head, k);
        if k > 0 {
          assert head[k - 1] == s[k - 1];
        }
      } else if k > i {
        var j := k - i - 1;
        assert f[k] == t[j] == FormattedChar(s[i + 1..], j);
        if j > 0 {
          assert s[i + 1..][j - 1] == s[k - 1];
        }
      }
    }
  }

  /** `formatSentiment` rewrites the text in place, one character for one. */
  lemma {:induction false} FormatSentimentPointwise(s: string)
    ensures |FormatSentiment(s)| == |s|
    ensures forall k :: 0 <= k < |s| ==> FormatSentiment(s)[k] == FormattedChar(s, k)
    decreases |s|
  {
    if '_' !in s {
      assert SplitOn(s, '_') == [s];
      assert CapitalizeAll([s]) == [Capitalize(s)];
      CapitalizePointwise(s);
    } else {
      var i := IndexOf(s, '_');
      FormatSentimentPointwise(s[i + 1..]);
      FormatStep(s, i);
      CombinePointwise(s, i, FormatSentiment(s[i + 1..]));
    }
  }

  /** A lower-case label without spaces formats to a text that starts with a
      capital and has a space exactly where the label has an underscore. */
  lemma FormatLabelShape(s: string)
    requires |s| > 0 && 'a' <= s[0] <= 'z' && ' ' !in s
    ensures |FormatSentiment(s)| == |s| && 'A' <= FormatSentiment(s)[0] <= 'Z'
    ensures ' ' in FormatSentiment(s) <==> '_' in s
  {
    FormatSentimentPointwise(s);
    var f := FormatSentiment(s);
    if ' ' in f {
      var k :| 0 <= k < |f| && f[k] == ' ';
      assert FormattedChar(s, k) == ' ';
      assert s[k] == '_';
    }
    if '_' in s {
      var k :| 0 <= k < |s| && s[k] == '_';
      assert f[k] == ' ';
    }
  }

  /** "very_negative" is shown as "Very Negative". */
  lemma FormattedVeryNegative(s: string)
    requires s == LabelText(VeryNegative)
    ensures FormatSentiment(s) == "Very Negative"
  {
    VeryNegativeParts(s);
    FormatStep(s, 4);
    FormatOnePart(s[5..]);
    CapitalizeWord("very", "Very");
    CapitalizeWord("negative", "Negative");
  }

  lemma VeryNegativeParts(s: string)
    requires s == LabelText(VeryNegative)
    ensures '_' in s && IndexOf(s, '_') == 4
    ensures s[..4] == "very" && s[5..] == "negative" && '_' !in s[5..]
  {
    assert s[4] == '_';
    assert s[..4] == "very";
  }

  /** A text without underscores is one part. */
  lemma FormatOnePart(p: string)
    requires '_' !in p
    ensures FormatSentiment(p) == Capitalize(p)
  {
    assert SplitOn(p, '_') == [p];
    assert CapitalizeAll([p]) == [Capitalize(p)];
  }

  lemma CapitalizeWord(w: string, c: string)
    requires |w| == |c| > 0 && 'a' <= w[0] <= 'z' && c[0] as int == w[0] as int - 32 && w[1..] == c[1..]
    ensures Capitalize(w) == c
  {
    assert c == [c[0]] + c[1..];
  }

  /** The badge text: the formatted label, or "Pending analysis" while an
      entry has no label. */
  function FriendlySentiment(sentiment: Option<SentimentLabel>): (r: string)
    ensures sentiment.None? ==> r == "Pending analysis"
    ensures sentiment.Some? ==> |r| == |LabelText(sentiment.value)| && 'A' <= r[0] <= 'Z'
    ensures sentiment.Some? ==> (' ' in r <==> '_' in LabelText(sentiment.value))
  {
    match sentiment
    case None => "Pending analysis"
    case Some(l) =>
      FormatLabelShape(LabelText(l));
      FormatSentiment(LabelText(l))
  }

  /** Only the two "very" labels show as two words. */
  lemma TwoWordLabels(l: SentimentLabel)
    ensures '_' in LabelText(l) <==> l == VeryNegative || l == VeryPositive
  {
  }

  datatype Analysis = Analysis(overallSentiment: Option<SentimentLabel>, score: Option<real>, dominantEmotions: Json)

  datatype JournalEntryItem = JournalEntryItem(id: string, content: string, analysis: Option<Analysis>)

  /** The filter menu: every entry, or one label. */
  datatype SentimentFilter = All | Only(wanted: SentimentLabel)

  /** `entry.analysis?.overall_sentiment === label`. */
  predicate HasLabel(e: JournalEntryItem, wanted: SentimentLabel)
  {
    e.analysis.Some? && e.analysis.value.overallSentiment == Some(wanted)
  }

  /** `Array.prototype.filter` with that test. */
  function KeepLabelled(entries: seq<JournalEntryItem>, wanted: SentimentLabel): (r: seq<JournalEntryItem>)
    ensures |r| <= |entries|
    ensures forall e :: e in r <==> e in entries && HasLabel(e, wanted)
  {
    if |entries| == 0 then []
    else (if HasLabel(entries[0], wanted) then [entries[0]] else []) + KeepLabelled(entries[1..], wanted)
  }

  /** The `filteredEntries` memo. */
  function FilterEntries(entries: seq<JournalEntryItem>, filter: SentimentFilter): (r: seq<JournalEntryItem>)
    ensures filter.All? ==> r == entries
    ensures filter.Only? ==> forall e :: e in r <==> e in entries && HasLabel(e, filter.wanted)
    ensures |r| <= |entries|
  {
    match filter
    case All => entries
    case Only(wanted) => KeepLabelled(entries, wanted)
  }

  /** Filtering keeps the list order: it distributes over concatenation. */
  lemma {:induction false} KeepLabelledAppend(a: seq<JournalEntryItem>, b: seq<JournalEntryItem>, wanted: SentimentLabel)
    ensures KeepLabelled(a + b, wanted) == KeepLabelled(a, wanted) + KeepLabelled(b, wanted)
  {
    if |a| == 0 {
      assert a + b == b;
    } else {
      assert (a + b)[1..] == a[1..] + b;
      KeepLabelledAppend(a[1..], b, wanted);
    }
  }

  /** Choosing the same label twice changes nothing. */
  lemma {:induction false} FilterIdempotent(entries: seq<JournalEntryItem>, filter: SentimentFilter)
    ensures FilterEntries(FilterEntries(entries, filter), filter) == FilterEntries(entries, filter)
  {
    if filter.Only? && |entries| > 0 {
      FilterIdempotent(entries[1..], filter);
      var rest := KeepLabelled(entries[1..], filter.wanted);
      if HasLabel(entries[0], filter.wanted) {
        assert ([entries[0]] + rest)[1..] == rest;
      } else {
        assert KeepLabelled(entries, filter.wanted) == rest;
      }
    }
  }

  /** An entry whose analysis is missing, or still has no label, is shown
      under "all sentiments" only. */
  lemma UnanalysedOnlyUnderAll(e: JournalEntryItem, entries: seq<JournalEntryItem>, wanted: SentimentLabel)
    requires e.analysis.None? || e.analysis.value.overallSentiment.None?
    ensures e !in FilterEntries(entries, Only(wanted))
    ensures e in entries ==> e in FilterEntries(entries, All)
  {
  }

  /** The five label filters split the labelled entries between them: their
      sizes add up to the number of entries that have a label. */
  function LabelledCount(entries: seq<JournalEntryItem>): (n: nat)
    ensures n <= |entries|
  {
    if |entries| == 0 then 0
    else
      var e := entries[0];
      (if e.analysis.Some? && e.analysis.value.overallSentiment.Some? then 1 else 0) + LabelledCount(entries[1..])
  }

  lemma {:induction false} FiltersPartition(entries: seq<JournalEntryItem>)
    ensures |KeepLabelled(entries, VeryNegative)| + |KeepLabelled(entries, Negative)| + |KeepLabelled(entries, NeutralLabel)|
            + |KeepLabelled(entries, Positive)| + |KeepLabelled(entries, VeryPositive)| == LabelledCount(entries)
  {
    if |entries| > 0 {
      FiltersPartition(entries[1..]);
      var e, rest := entries[0], entries[1..];
      forall l: SentimentLabel
        ensures |KeepLabelled(entries, l)| == (if HasLabel(e, l) then 1 else 0) + |KeepLabelled(rest, l)|
      {
      }
      if e.analysis.Some? && e.analysis.value.overallSentiment.Some? {
        var l := e.analysis.value.overallSentiment.value;
        assert forall m: SentimentLabel :: HasLabel(e, m) <==> m == l;
      }
    }
  }
}
