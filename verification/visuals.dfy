/** The visual helpers of lib/tree/visuals.ts: the emotion colour table with
    its neutral fallback, health normalisation, and the bounded leaf density
    and trunk height derived from the stored counts. A JavaScript value
    that may be `null` or `undefined` is an `Option`; a non-number health
    is `None` as well. */
module Visuals {
  import opened Basics
  import opened Text
  import opened Emotions

  /** `emotionColors`, as the `#rrggbb` text the table stores. */
  function ColorOf(e: EmotionName): string
  {
    match e
    case Joy => "#3fb544"
    case Gratitude => "#2ecc71"
    case Calm => "#4ca9d8"
    case Sadness => "#4682b4"
    case Stress => "#808080"
    case Anger => "#ff5942"
    case Fear => "#8e44ad"
    case Excitement => "#f39c12"
    case Other => "#8fbc8f"
    case Neutral => "#3f7f4f"
  }

  const NeutralColor: string := "#3f7f4f"

  predicate IsHexDigit(c: char)
  {
    '0' <= c <= '9' || 'a' <= c <= 'f'
  }

  /** A lower-case `#rrggbb` colour. */
  predicate IsHexColor(s: string)
  {
    |s| == 7 && s[0] == '#' && forall k :: 1 <= k < 7 ==> IsHexDigit(s[k])
  }

  /** `getEmotionColor`: the table colour of the lower-cased name when it is
      a key, and the neutral colour for a missing, empty or unknown name. */
  function GetEmotionColor(emotion: Option<string>): (c: string)
    ensures emotion.None? ==> c == NeutralColor
    ensures emotion.Some? ==>
              match ParseKey(ToLower(emotion.value))
              case Some(e) => c == ColorOf(e)
              case None => c == NeutralColor
  {
    var key := if emotion.Some? then ToLower(emotion.value) else "neutral";
    match ParseKey(key)
    case Some(e) => ColorOf(e)
    case None => NeutralColor
  }

  /** Every spelling of a key that differs only in ASCII case finds that
      key's colour. */
  lemma EmotionColorIsCaseInsensitive(name: string, e: EmotionName)
    requires ToLower(name) == KeyText(e)
    ensures GetEmotionColor(Some(name)) == ColorOf(e)
  {
    ParseKeyText(e);
  }

  /** A name that is no key in any case spelling, the empty name among
      them, gets the neutral colour. */
  lemma UnknownEmotionIsNeutral(name: string)
    requires forall e :: KeyText(e) != ToLower(name)
    ensures GetEmotionColor(Some(name)) == NeutralColor
  {
  }

  lemma EmptyEmotionIsNeutral()
    ensures GetEmotionColor(Some("")) == NeutralColor
    ensures GetEmotionColor(None) == NeutralColor
  {
    assert ToLower("") == "";
  }

  /** Every colour the helper can return is a well-formed `#rrggbb` text. */
  lemma EmotionColorWellFormed(emotion: Option<string>)
    ensures IsHexColor(GetEmotionColor(emotion))
  {
    var key := if emotion.Some? then ToLower(emotion.value) else "neutral";
    match ParseKey(key)
    case Some(e) => ColorOfWellFormed(e);
    case None => ColorOfWellFormed(Neutral);
  }

  lemma ColorOfWellFormed(e: EmotionName)
    ensures IsHexColor(ColorOf(e))
  {
    match e
    case Joy =>
    case Gratitude =>
    case Calm =>
    case Sadness =>
    case Stress =>
    case Anger =>
    case Fear =>
    case Excitement =>
    case Other =>
    case Neutral =>
  }

  /** `normalizeHealth`: a number is clamped to [0, 1]; anything else is 0.5. */
  function NormalizeHealth(value: Option<real>): (h: real)
    ensures 0.0 <= h <= 1.0
    ensures value.None? ==> h == 0.5
    ensures value.Some? && 0.0 <= value.value <= 1.0 ==> h == value.value
    ensures value.Some? && value.value < 0.0 ==> h == 0.0
    ensures value.Some? && value.value > 1.0 ==> h == 1.0
  {
    Clamp(value.GetOr(0.5), 0.0, 1.0)
  }

  lemma NormalizeHealthIdempotent(value: Option<real>)
    ensures NormalizeHealth(Some(NormalizeHealth(value))) == NormalizeHealth(value)
  {
  }

  /** `computeLeafDensity`: 0.1 for a missing, zero or negative count and
      `clamp(leafCount / 150, 0.1, 1.2)` otherwise. */
  function ComputeLeafDensity(leafCount: Option<real>): (d: real)
    ensures 0.1 <= d <= 1.2
    ensures leafCount.None? || leafCount.value <= 0.0 ==> d == 0.1
    ensures leafCount.Some? && 15.0 <= leafCount.value <= 180.0 ==> d == leafCount.value / 150.0
    ensures leafCount.Some? && 0.0 < leafCount.value < 15.0 ==> d == 0.1
    ensures leafCount.Some? && leafCount.value > 180.0 ==> d == 1.2
  {
    if leafCount.None? || leafCount.value <= 0.0 then 0.1
    else Clamp(leafCount.value / 150.0, 0.1, 1.2)
  }

  lemma LeafDensityMonotone(a: real, b: real)
    requires a <= b
    ensures ComputeLeafDensity(Some(a)) <= ComputeLeafDensity(Some(b))
  {
    if a > 0.0 {
      ClampMonotone(a / 150.0, b / 150.0, 0.1, 1.2);
    }
  }

  /** `computeTrunkHeight`: `clamp(2 + max(branchCount ?? 1, 1) * 0.12, 2, 5)`. */
  function ComputeTrunkHeight(branchCount: Option<real>): (h: real)
    ensures 2.0 <= h <= 5.0
    ensures branchCount.Some? && 1.0 <= branchCount.value <= 25.0 ==> h == 2.0 + branchCount.value * 0.12
  {
    var count := Max(branchCount.GetOr(1.0), 1.0);
    Clamp(2.0 + count * 0.12, 2.0, 5.0)
  }

  lemma TrunkHeightMonotone(a: real, b: real)
    requires a <= b
    ensures ComputeTrunkHeight(Some(a)) <= ComputeTrunkHeight(Some(b))
  {
    var ca, cb := Max(a, 1.0), Max(b, 1.0);
    assert ca <= cb;
    ClampMonotone(2.0 + ca * 0.12, 2.0 + cb * 0.12, 2.0, 5.0);
  }

  /** The height saturates at 5 from 25 branches on. */
  lemma TrunkHeightSaturates(count: real)
    requires count >= 25.0
    ensures ComputeTrunkHeight(Some(count)) == 5.0
  {
  }

  /** Because the count is raised to at least 1, a missing count, 0 and 1
      all give the same height 2.12. */
  lemma TrunkHeightOfSmallCounts(count: real)
    requires count <= 1.0
    ensures ComputeTrunkHeight(Some(count)) == 2.12
    ensures ComputeTrunkHeight(None) == 2.12
  {
  }
}
