/** The closed catalogue of ten emotion keys shared by the palette resolver
    (`EmotionName`, lib/tree/palette.ts) and the colour table of
    lib/tree/visuals.ts (`EmotionKey`), with its spelling as text. */
module Emotions {
  import opened Basics
  import opened Text

  datatype EmotionName =
    | Joy | Gratitude | Calm | Sadness | Stress
    | Anger | Fear | Excitement | Other | Neutral

  /** The key as it is spelled in the source's record literals. */
  function KeyText(e: EmotionName): string
  {
    match e
    case Joy => "joy"
    case Gratitude => "gratitude"
    case Calm => "calm"
    case Sadness => "sadness"
    case Stress => "stress"
    case Anger => "anger"
    case Fear => "fear"
    case Excitement => "excitement"
    case Other => "other"
    case Neutral => "neutral"
  }

  /** Membership of a text in the catalogue's own keys (the source's
      `key in BASE_PROFILES` and `emotionColors[key]`, restricted to the
      record's own properties). */
  function ParseKey(t: string): (r: Option<EmotionName>)
    ensures r.Some? ==> KeyText(r.value) == t
    ensures r.None? ==> forall e :: KeyText(e) != t
  {
    if t == "joy" then Some(Joy)
    else if t == "gratitude" then Some(Gratitude)
    else if t == "calm" then Some(Calm)
    else if t == "sadness" then Some(Sadness)
    else if t == "stress" then Some(Stress)
    else if t == "anger" then Some(Anger)
    else if t == "fear" then Some(Fear)
    else if t == "excitement" then Some(Excitement)
    else if t == "other" then Some(Other)
    else if t == "neutral" then Some(Neutral)
    else None
  }

  /** Parsing is a left inverse of spelling: the catalogue has no two keys
      with the same text. */
  lemma ParseKeyText(e: EmotionName)
    ensures ParseKey(KeyText(e)) == Some(e)
  {
  }

  /** Every key is already lower case, so a case-insensitive lookup of a
      key's own spelling finds that key. */
  lemma KeyTextIsLowerCase(e: EmotionName)
    ensures ToLower(KeyText(e)) == KeyText(e)
  {
    ToLowerOfLower(KeyText(e));
  }
}
