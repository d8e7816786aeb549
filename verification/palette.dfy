/** The emotion palette resolver of lib/tree/palette.ts: emotion names are
    normalised onto the catalogue, confidences become weights, the
    catalogue's profiles are blended by weight, a particle effect is picked
    by an order-dependent fold, and the sentiment score pulls the leaf
    colour and raises the wind. Colours are RGB triples of reals with each
    channel being the hex byte divided by 255. */
module Palette {
  import opened Basics
  import opened Text
  import opened Emotions

  datatype Rgb = Rgb(r: real, g: real, b: real)

  predicate InGamut(c: Rgb)
  {
    0.0 <= c.r <= 1.0 && 0.0 <= c.g <= 1.0 && 0.0 <= c.b <= 1.0
  }

  /** A `#rrggbb` literal, given as its three bytes. */
  function Hex(r: nat, g: nat, b: nat): (c: Rgb)
    ensures r < 0x100 && g < 0x100 && b < 0x100 ==> InGamut(c)
  {
    Rgb(r as real / 255.0, g as real / 255.0, b as real / 255.0)
  }

  const White: Rgb := Rgb(1.0, 1.0, 1.0)

  datatype Particle = Fireflies | Embers | Rain | Sparks | Motes

  datatype Mood = Uplifting | Grounded | Melancholic | Tense

  datatype EmotionPalette = EmotionPalette(
    barkColor: Rgb,
    barkHighlight: Rgb,
    leafPrimary: Rgb,
    leafSecondary: Rgb,
    accentColor: Rgb,
    ambientLight: Rgb,
    particle: Option<Particle>,
    branchLean: real,
    branchTwist: real,
    windStrength: real)

  predicate PaletteInGamut(p: EmotionPalette)
  {
    InGamut(p.barkColor) && InGamut(p.barkHighlight) && InGamut(p.leafPrimary)
    && InGamut(p.leafSecondary) && InGamut(p.accentColor) && InGamut(p.ambientLight)
  }

  datatype EmotionProfile = EmotionProfile(palette: EmotionPalette, mood: Mood)

  /** `BASE_PROFILES`. */
  function BaseProfile(e: EmotionName): EmotionProfile
  {
    match e
    case Joy => EmotionProfile(EmotionPalette(Hex(0x5a, 0x3f, 0x2e), Hex(0xa9, 0x7c, 0x50), Hex(0x3f, 0xe2, 0x7f), Hex(0xb8, 0xff, 0xcd),
      Hex(0xff, 0xe0, 0x66), Hex(0xff, 0xe9, 0xd6), Some(Fireflies), 0.12, 0.6, 0.5), Uplifting)
    case Gratitude => EmotionProfile(EmotionPalette(Hex(0x5b, 0x3c, 0x2b), Hex(0xc8, 0x9f, 0x6a), Hex(0x6a, 0xe0, 0x7c), Hex(0xd8, 0xff, 0xd9),
      Hex(0xff, 0xd0, 0x8a), Hex(0xff, 0xf1, 0xde), Some(Motes), 0.08, 0.45, 0.35), Uplifting)
    case Calm => EmotionProfile(EmotionPalette(Hex(0x3a, 0x3f, 0x56), Hex(0x69, 0x74, 0x9d), Hex(0x5a, 0xa5, 0xf5), Hex(0xc7, 0xe1, 0xff),
      Hex(0x8f, 0xd1, 0xff), Hex(0xe0, 0xf3, 0xff), Some(Motes), 0.02, 0.2, 0.2), Grounded)
    case Sadness => EmotionProfile(EmotionPalette(Hex(0x2d, 0x2f, 0x45), Hex(0x4a, 0x51, 0x70), Hex(0x4f, 0x6b, 0xbd), Hex(0x9d, 0xb0, 0xe0),
      Hex(0x6d, 0x82, 0xc4), Hex(0xd0, 0xd8, 0xee), Some(Rain), -0.18, 0.15, 0.1), Melancholic)
    case Stress => EmotionProfile(EmotionPalette(Hex(0x40, 0x3c, 0x3b), Hex(0x6d, 0x5b, 0x58), Hex(0x9a, 0xa0, 0xa6), Hex(0xc9, 0xcc, 0xcc),
      Hex(0xc1, 0x63, 0x63), Hex(0xe3, 0xe0, 0xdd), Some(Sparks), -0.05, 0.4, 0.65), Tense)
    case Anger => EmotionProfile(EmotionPalette(Hex(0x3d, 0x1f, 0x1c), Hex(0x8a, 0x3c, 0x2b), Hex(0xf0, 0x52, 0x3a), Hex(0xff, 0xc0, 0xa8),
      Hex(0xff, 0x78, 0x47), Hex(0xff, 0xe4, 0xd7), Some(Embers), -0.12, 0.75, 0.55), Tense)
    case Fear => EmotionProfile(EmotionPalette(Hex(0x2f, 0x1c, 0x3f), Hex(0x6a, 0x4f, 0x92), Hex(0x8c, 0x6f, 0xe6), Hex(0xd1, 0xb7, 0xff),
      Hex(0xc5, 0x87, 0xff), Hex(0xf2, 0xe8, 0xff), Some(Sparks), -0.08, 0.5, 0.4), Tense)
    case Excitement => EmotionProfile(EmotionPalette(Hex(0x6b, 0x40, 0x2d), Hex(0xc9, 0x8b, 0x64), Hex(0xff, 0x99, 0x33), Hex(0xff, 0xd6, 0xa8),
      Hex(0xff, 0xcd, 0x50), Hex(0xff, 0xee, 0xd9), Some(Fireflies), 0.2, 0.85, 0.7), Uplifting)
    case Other => EmotionProfile(EmotionPalette(Hex(0x44, 0x51, 0x49), Hex(0x7f, 0x89, 0x7f), Hex(0x9d, 0xd2, 0x8b), Hex(0xdf, 0xf5, 0xd8),
      Hex(0xb0, 0xdf, 0xc0), Hex(0xf1, 0xf6, 0xef), Some(Motes), 0.0, 0.35, 0.3), Grounded)
    case Neutral => EmotionProfile(EmotionPalette(Hex(0x4d, 0x4a, 0x3f), Hex(0x83, 0x7a, 0x6a), Hex(0x88, 0xc0, 0x84), Hex(0xd9, 0xeb, 0xd6),
      Hex(0xcd, 0xdb, 0xb7), Hex(0xf3, 0xf1, 0xec), None, 0.0, 0.25, 0.25), Grounded)
  }

  function Profile(e: EmotionName): EmotionPalette { BaseProfile(e).palette }

  /** Every catalogue colour lies in the RGB cube and every catalogue wind
      strength in [0, 1]. */
  lemma ProfileInGamut(e: EmotionName)
    ensures PaletteInGamut(Profile(e))
    ensures 0.0 <= Profile(e).windStrength <= 1.0
  {
    match e
    case Joy =>
    case Gratitude =>
    case Calm =>
    case Sadness =>
    case Stress =>
    case Anger =>
    case Fear =>
    case Excitement =>
    case Other =>
    case Neutral =>
  }

  // ---------------------------------------------------------------------
  // Name normalisation

  /** `normalizeEmotionName`: a missing or empty name is "neutral"; a name
      whose lower-case form is a catalogue key is that key; anything else
      is "other". */
  function NormalizeEmotionName(name: Option<string>): (e: EmotionName)
    ensures name.None? || name == Some("") ==> e == Neutral
    ensures name.Some? && name.value != [] ==>
              (KeyText(e) == ToLower(name.value) || (e == Other && forall k :: KeyText(k) != ToLower(name.value)))
  {
    if name.None? || name.value == [] then Neutral
    else match ParseKey(ToLower(name.value))
      case Some(k) => k
      case None => Other
  }

  /** Every spelling of a key that differs only in ASCII case normalises to
      that key. */
  lemma NormalizeIsCaseInsensitive(name: string, e: EmotionName)
    requires ToLower(name) == KeyText(e)
    ensures NormalizeEmotionName(Some(name)) == e
  {
    ParseKeyText(e);
  }

  /** Normalising the text of a normalised name changes nothing. */
  lemma NormalizeIdempotent(name: Option<string>)
    ensures NormalizeEmotionName(Some(KeyText(NormalizeEmotionName(name)))) == NormalizeEmotionName(name)
  {
    var e := NormalizeEmotionName(name);
    KeyTextIsLowerCase(e);
    NormalizeIsCaseInsensitive(KeyText(e), e);
  }

  // ---------------------------------------------------------------------
  // Inputs, fallbacks and weights

  /** One element of `dominantEmotions`: the confidence may be missing and
      an explicit colour may replace the profile's leaf colour. */
  datatype EmotionEntry = EmotionEntry(name: string, confidence: Option<real>, colorHex: Option<Rgb>)

  datatype EmotionInput = EmotionInput(
    lastEmotion: Option<string>,
    dominantEmotions: seq<EmotionEntry>,
    sentimentScore: real)

  /** The list the resolver blends: the given one, or a single full-confidence
      entry naming `lastEmotion`, or "neutral" when that is missing or empty. */
  function DominantOrFallback(input: EmotionInput): (d: seq<EmotionEntry>)
    ensures |d| >= 1
    ensures |input.dominantEmotions| > 0 ==> d == input.dominantEmotions
    ensures |input.dominantEmotions| == 0 ==>
              |d| == 1 && d[0].confidence == Some(1.0) && d[0].colorHex.None?
              && d[0].name == (if input.lastEmotion.Some? && input.lastEmotion.value != [] then input.lastEmotion.value else "neutral")
  {
    if |input.dominantEmotions| > 0 then input.dominantEmotions
    else if input.lastEmotion.Some? && input.lastEmotion.value != [] then [EmotionEntry(input.lastEmotion.value, Some(1.0), None)]
    else [EmotionEntry("neutral", Some(1.0), None)]
  }

  /** `clamp01(emotion.confidence ?? 0.6)`. */
  function Confidence(entry: EmotionEntry): (c: real)
    ensures 0.0 <= c <= 1.0
    ensures entry.confidence.None? ==> c == 0.6
    ensures entry.confidence.Some? && 0.0 <= entry.confidence.value <= 1.0 ==> c == entry.confidence.value
    ensures entry.confidence.Some? && entry.confidence.value < 0.0 ==> c == 0.0
    ensures entry.confidence.Some? && entry.confidence.value > 1.0 ==> c == 1.0
  {
    Clamp01(entry.confidence.GetOr(0.6))
  }

  /** One confidence per entry: a stated confidence in [0, 1] is kept as it
      is, a missing one counts as 0.6, anything else is clamped into [0, 1]. */
  function Confidences(d: seq<EmotionEntry>): (cs: seq<real>)
    ensures |cs| == |d|
    ensures forall i :: 0 <= i < |d| ==> cs[i] == Confidence(d[i])
    ensures AllNonNegative(cs)
    ensures forall i :: 0 <= i < |d| ==> cs[i] <= 1.0
    ensures forall i :: 0 <= i < |d| && d[i].confidence.None? ==> cs[i] == 0.6
    ensures forall i :: 0 <= i < |d| && d[i].confidence.Some? && 0.0 <= d[i].confidence.value <= 1.0 ==>
              cs[i] == d[i].confidence.value
  {
    seq(|d|, i requires 0 <= i < |d| => Confidence(d[i]))
  }

  /** `confidences.map(value => value / (sum || 1))`: a zero total divides
      by 1 and leaves the (all zero) confidences as they are. */
  function Weights(cs: seq<real>): (ws: seq<real>)
    requires AllNonNegative(cs)
    ensures |ws| == |cs|
    ensures AllNonNegative(ws)
    ensures Sum(cs) > 0.0 ==> Sum(ws) == 1.0
    ensures Sum(cs) > 0.0 ==> forall i :: 0 <= i < |cs| ==> ws[i] == cs[i] / Sum(cs)
    ensures Sum(cs) == 0.0 ==> forall i :: 0 <= i < |cs| ==> ws[i] == 0.0
  {
    var total := Sum(cs);
    SumNonNegative(cs);
    if total == 0.0 then
      SumZeroIff(cs);
      cs
    else
      var ws := DivideAll(cs, total);
      assert Sum(ws) == 1.0 by {
        SumDivide(cs, total);
        QuotientSelf(total);
      }
      assert AllNonNegative(ws) by {
        forall i | 0 <= i < |cs| ensures ws[i] >= 0.0 { QuotientNonNegative(cs[i], total); }
      }
      ws
  }

  lemma QuotientNonNegative(c: real, t: real)
    requires c >= 0.0 && t > 0.0
    ensures c / t >= 0.0
  {
  }

  lemma QuotientSelf(t: real)
    requires t != 0.0
    ensures t / t == 1.0
  {
  }


  /** Only the ratios of the confidences matter. */
  lemma WeightsScaleInvariant(cs: seq<real>, k: real)
    requires AllNonNegative(cs)
    requires k > 0.0
    ensures AllNonNegative(Scale(cs, k))
    ensures Weights(Scale(cs, k)) == Weights(cs)
  {
    ScaleNonNegative(cs, k);
    SumNonNegative(cs);
    if Sum(cs) == 0.0 {
      WeightsScaleZero(cs, k);
    } else {
      WeightsScalePositive(cs, k);
    }
  }

  lemma ScaleNonNegative(cs: seq<real>, k: real)
    requires AllNonNegative(cs) && k >= 0.0
    ensures AllNonNegative(Scale(cs, k))
  {
    forall i | 0 <= i < |cs| ensures Scale(cs, k)[i] >= 0.0 { ProductNonNegative(k, cs[i]); }
  }

  lemma WeightsScaleZero(cs: seq<real>, k: real)
    requires AllNonNegative(cs) && k > 0.0 && Sum(cs) == 0.0
    requires AllNonNegative(Scale(cs, k))
    ensures Weights(Scale(cs, k)) == Weights(cs)
  {
    SumScale(cs, k);
    SumZeroIff(cs);
    SumZeroIff(Scale(cs, k));
  }

  lemma WeightsScalePositive(cs: seq<real>, k: real)
    requires AllNonNegative(cs) && k > 0.0 && Sum(cs) > 0.0
    requires AllNonNegative(Scale(cs, k))
    ensures Weights(Scale(cs, k)) == Weights(cs)
  {
    var t := Sum(cs);
    assert Sum(Scale(cs, k)) == k * t by { SumScale(cs, k); }
    assert k * t > 0.0 by { ProductPositive(k, t); }
    DivideScaled(cs, k, t);
  }

  lemma ProductNonNegative(k: real, x: real)
    requires k >= 0.0 && x >= 0.0
    ensures k * x >= 0.0
  {
  }

  lemma ProductPositive(k: real, x: real)
    requires k > 0.0 && x > 0.0
    ensures k * x > 0.0
  {
  }

  // ---------------------------------------------------------------------
  // Blending

  /** `weights[index] ?? 0` for every index of an `n`-element input. */
  function AlignWeights(n: nat, ws: seq<real>): (a: seq<real>)
    ensures |a| == n
    ensures forall i :: 0 <= i < n ==> a[i] == (if i < |ws| then ws[i] else 0.0)
    ensures n == |ws| ==> a == ws
    ensures n <= |ws| ==> a == ws[..n]
    ensures AllNonNegative(ws) ==> AllNonNegative(a)
  {
    seq(n, i requires 0 <= i < n => if i < |ws| then ws[i] else 0.0)
  }

  /** The weights `blendColors` keeps: non-positive ones are skipped. */
  function PositivePart(ws: seq<real>): (p: seq<real>)
    ensures |p| == |ws|
    ensures AllNonNegative(p)
    ensures forall i :: 0 <= i < |ws| ==> p[i] == (if ws[i] > 0.0 then ws[i] else 0.0)
    ensures AllNonNegative(ws) ==> p == ws
    ensures forall i :: 0 <= i < |ws| ==> p[i] >= ws[i]
  {
    seq(|ws|, i requires 0 <= i < |ws| => if ws[i] > 0.0 then ws[i] else 0.0)
  }

  /** `blendNumbers`: the weighted mean, or 0 when the weights do not add
      up to a positive total. Every weight, negative ones included, counts. */
  function BlendNumbers(values: seq<real>, weights: seq<real>): real
  {
    var w := AlignWeights(|values|, weights);
    MeanOr(Dot(values, w), Sum(w), 0.0)
  }

  /** One channel of `blendColors`: the mean over positively weighted
      inputs, or the channel of white when there are none. */
  function BlendChannel(values: seq<real>, weights: seq<real>): real
  {
    var w := PositivePart(AlignWeights(|values|, weights));
    MeanOr(Dot(values, w), Sum(w), 1.0)
  }

  function Reds(cs: seq<Rgb>): (v: seq<real>)
    ensures |v| == |cs| && forall i :: 0 <= i < |cs| ==> v[i] == cs[i].r
  {
    seq(|cs|, i requires 0 <= i < |cs| => cs[i].r)
  }

  function Greens(cs: seq<Rgb>): (v: seq<real>)
    ensures |v| == |cs| && forall i :: 0 <= i < |cs| ==> v[i] == cs[i].g
  {
    seq(|cs|, i requires 0 <= i < |cs| => cs[i].g)
  }

  function Blues(cs: seq<Rgb>): (v: seq<real>)
    ensures |v| == |cs| && forall i :: 0 <= i < |cs| ==> v[i] == cs[i].b
  {
    seq(|cs|, i requires 0 <= i < |cs| => cs[i].b)
  }

  /** `blendColors`, channel by channel. */
  function BlendColors(colors: seq<Rgb>, weights: seq<real>): Rgb
  {
    Rgb(BlendChannel(Reds(colors), weights), BlendChannel(Greens(colors), weights), BlendChannel(Blues(colors), weights))
  }

  /** A weighted mean of non-negatively weighted values lies between any
      bounds of the values that carry weight. */
  lemma BlendNumbersBetween(values: seq<real>, weights: seq<real>, lo: real, hi: real)
    requires AllNonNegative(AlignWeights(|values|, weights))
    requires Sum(AlignWeights(|values|, weights)) > 0.0
    requires forall i :: 0 <= i < |values| && i < |weights| && weights[i] > 0.0 ==> lo <= values[i] <= hi
    ensures lo <= BlendNumbers(values, weights) <= hi
  {
    var w := AlignWeights(|values|, weights);
    DotBounds(values, w, lo, hi);
    DivideBounds(Dot(values, w), Sum(w), lo, hi);
  }

  lemma DivideBounds(d: real, t: real, lo: real, hi: real)
    requires t > 0.0
    requires lo * t <= d <= hi * t
    ensures lo <= d / t <= hi
  {
  }

  lemma BlendChannelBetween(values: seq<real>, weights: seq<real>, lo: real, hi: real)
    requires Sum(PositivePart(AlignWeights(|values|, weights))) > 0.0
    requires forall i :: 0 <= i < |values| && i < |weights| && weights[i] > 0.0 ==> lo <= values[i] <= hi
    ensures lo <= BlendChannel(values, weights) <= hi
  {
    var w := PositivePart(AlignWeights(|values|, weights));
    DotBounds(values, w, lo, hi);
    DivideBounds(Dot(values, w), Sum(w), lo, hi);
  }

  /** Blending colours that all lie in the RGB cube stays in the cube. */
  lemma BlendColorsInGamut(colors: seq<Rgb>, weights: seq<real>)
    requires forall i :: 0 <= i < |colors| ==> InGamut(colors[i])
    ensures InGamut(BlendColors(colors, weights))
  {
    if Sum(PositivePart(AlignWeights(|colors|, weights))) > 0.0 {
      BlendChannelBetween(Reds(colors), weights, 0.0, 1.0);
      BlendChannelBetween(Greens(colors), weights, 0.0, 1.0);
      BlendChannelBetween(Blues(colors), weights, 0.0, 1.0);
    }
  }

  /** With no positive weight `blendColors` gives white and `blendNumbers`
      gives 0. */
  lemma BlendWithoutWeight(colors: seq<Rgb>, values: seq<real>, weights: seq<real>)
    requires forall i :: 0 <= i < |weights| ==> weights[i] == 0.0
    ensures BlendColors(colors, weights) == White
    ensures BlendNumbers(values, weights) == 0.0
  {
    var n := |colors|;
    DotAllZero(Reds(colors), PositivePart(AlignWeights(n, weights)));
    DotAllZero(values, AlignWeights(|values|, weights));
  }

  /** With a single positively weighted input, both blends return that input. */
  lemma BlendSingle(colors: seq<Rgb>, values: seq<real>, weights: seq<real>, j: nat)
    requires |colors| == |values| == |weights| && j < |weights|
    requires weights[j] > 0.0
    requires forall i :: 0 <= i < |weights| && i != j ==> weights[i] == 0.0
    ensures BlendColors(colors, weights) == colors[j]
    ensures BlendNumbers(values, weights) == values[j]
  {
    var w := AlignWeights(|values|, weights);
    MeanSingle(values, w, j, 0.0);
    var p := PositivePart(w);
    MeanSingle(Reds(colors), p, j, 1.0);
    MeanSingle(Greens(colors), p, j, 1.0);
    MeanSingle(Blues(colors), p, j, 1.0);
  }

  /** Scaling every weight by the same positive factor changes neither blend. */
  lemma BlendScaleInvariant(colors: seq<Rgb>, values: seq<real>, weights: seq<real>, k: real)
    requires k > 0.0
    ensures BlendNumbers(values, Scale(weights, k)) == BlendNumbers(values, weights)
    ensures BlendColors(colors, Scale(weights, k)) == BlendColors(colors, weights)
  {
    var w := AlignWeights(|values|, weights);
    AlignScale(|values|, weights, k);
    MeanScaleInvariant(values, w, k, 0.0);
    var p := PositivePart(AlignWeights(|colors|, weights));
    assert PositivePart(AlignWeights(|colors|, Scale(weights, k))) == Scale(p, k) by {
      AlignScale(|colors|, weights, k);
      PositivePartScale(AlignWeights(|colors|, weights), k);
    }
    MeanScaleInvariant(Reds(colors), p, k, 1.0);
    MeanScaleInvariant(Greens(colors), p, k, 1.0);
    MeanScaleInvariant(Blues(colors), p, k, 1.0);
  }

  /** Padding with zeros keeps the total weight: a blend over more values
      than weights is normalised by the same sum as the weights themselves. */
  lemma {:induction false} AlignKeepsTotal(n: nat, ws: seq<real>)
    requires |ws| <= n
    ensures Sum(AlignWeights(n, ws)) == Sum(ws)
    decreases |ws|
  {
    var a := AlignWeights(n, ws);
    if |ws| == 0 {
      DotAllZero(a, a);
    } else {
      AlignKeepsTotal(n - 1, ws[1..]);
      assert a[1..] == AlignWeights(n - 1, ws[1..]);
    }
  }

  lemma AlignScale(n: nat, ws: seq<real>, k: real)
    ensures AlignWeights(n, Scale(ws, k)) == Scale(AlignWeights(n, ws), k)
  {
    forall i | 0 <= i < n ensures AlignWeights(n, Scale(ws, k))[i] == Scale(AlignWeights(n, ws), k)[i] {
      if i >= |ws| {
        assert k * 0.0 == 0.0;
      }
    }
  }

  lemma PositivePartScale(w: seq<real>, k: real)
    requires k > 0.0
    ensures PositivePart(Scale(w, k)) == Scale(PositivePart(w), k)
  {
    forall i | 0 <= i < |w| ensures PositivePart(Scale(w, k))[i] == Scale(PositivePart(w), k)[i] {
      PositivePartOfProduct(k, w[i]);
    }
  }

  lemma PositivePartOfProduct(k: real, x: real)
    requires k > 0.0
    ensures (if k * x > 0.0 then k * x else 0.0) == k * (if x > 0.0 then x else 0.0)
  {
    if x > 0.0 {
      ProductPositive(k, x);
    } else {
      assert k * x <= 0.0;
    }
  }

  // ---------------------------------------------------------------------
  // Particle selection

  /** One step of the `reduce` that picks the particle effect. */
  function ParticleStep(current: Option<Particle>, particle: Option<Particle>, weight: real): Option<Particle>
  {
    if current.None? && weight > 0.2 then particle
    else if current == Some(Motes) && particle.Some? && weight > 0.35 then particle
    else current
  }

  /** The fold over the first `n` profiles, left to right. */
  function ParticleAfter(ps: seq<Option<Particle>>, ws: seq<real>, n: nat): (r: Option<Particle>)
    requires |ps| == |ws| && n <= |ps|
    ensures r.None? || exists i :: 0 <= i < n && r == ps[i]
  {
    if n == 0 then None else ParticleStep(ParticleAfter(ps, ws, n - 1), ps[n - 1], ws[n - 1])
  }

  function SelectParticle(ps: seq<Option<Particle>>, ws: seq<real>): Option<Particle>
    requires |ps| == |ws|
  {
    ParticleAfter(ps, ws, |ps|)
  }

  /** Profile `i` may open the selection. */
  predicate Eligible(ps: seq<Option<Particle>>, ws: seq<real>, i: int)
    requires |ps| == |ws|
  {
    0 <= i < |ps| && ws[i] > 0.2 && ps[i].Some?
  }

  /** Profile `i` may replace a "motes" selection. */
  predicate Upgrade(ps: seq<Option<Particle>>, ws: seq<real>, i: int)
    requires |ps| == |ws|
  {
    0 <= i < |ps| && ws[i] > 0.35 && ps[i].Some? && ps[i] != Some(Motes)
  }

  /** `j` is the first profile, in list order, that may open the selection. */
  predicate FirstEligible(ps: seq<Option<Particle>>, ws: seq<real>, j: int)
    requires |ps| == |ws|
  {
    Eligible(ps, ws, j) && forall i :: 0 <= i < j ==> !Eligible(ps, ws, i)
  }

  lemma {:induction false} NoneUntilEligible(ps: seq<Option<Particle>>, ws: seq<real>, n: nat)
    requires |ps| == |ws| && n <= |ps|
    requires forall i :: 0 <= i < n ==> !Eligible(ps, ws, i)
    ensures ParticleAfter(ps, ws, n) == None
  {
    if n > 0 {
      NoneUntilEligible(ps, ws, n - 1);
      assert ParticleAfter(ps, ws, n - 1) == None;
      assert !Eligible(ps, ws, n - 1);
      assert ParticleAfter(ps, ws, n) == ParticleStep(None, ps[n - 1], ws[n - 1]);
    }
  }

  /** Once chosen, a particle other than "motes" is never replaced. */
  lemma {:induction false} FirstChoiceSticks(ps: seq<Option<Particle>>, ws: seq<real>, j: nat, n: nat)
    requires |ps| == |ws| && j < n <= |ps|
    requires FirstEligible(ps, ws, j) && ps[j] != Some(Motes)
    ensures ParticleAfter(ps, ws, n) == ps[j]
  {
    if n == j + 1 {
      NoneUntilEligible(ps, ws, j);
    } else {
      FirstChoiceSticks(ps, ws, j, n - 1);
    }
  }

  /** A "motes" choice survives until the first later profile that may
      replace it, and that profile's particle then sticks. */
  lemma {:induction false} MotesUntilUpgrade(ps: seq<Option<Particle>>, ws: seq<real>, j: nat, n: nat)
    requires |ps| == |ws| && j < n <= |ps|
    requires FirstEligible(ps, ws, j) && ps[j] == Some(Motes)
    ensures (forall k :: j < k < n ==> !Upgrade(ps, ws, k)) ==> ParticleAfter(ps, ws, n) == Some(Motes)
    ensures forall k :: j < k < n && Upgrade(ps, ws, k) && (forall m :: j < m < k ==> !Upgrade(ps, ws, m))
              ==> ParticleAfter(ps, ws, n) == ps[k]
  {
    if n == j + 1 {
      NoneUntilEligible(ps, ws, j);
      assert ParticleAfter(ps, ws, n) == ParticleStep(None, ps[j], ws[j]);
    } else {
      MotesUntilUpgrade(ps, ws, j, n - 1);
      if forall k :: j < k < n ==> !Upgrade(ps, ws, k) {
        assert ParticleAfter(ps, ws, n - 1) == Some(Motes);
        assert !Upgrade(ps, ws, n - 1);
      }
      forall k | j < k < n && Upgrade(ps, ws, k) && (forall m :: j < m < k ==> !Upgrade(ps, ws, m))
        ensures ParticleAfter(ps, ws, n) == ps[k]
      {
        if k < n - 1 {
          assert ParticleAfter(ps, ws, n - 1) == ps[k];
        } else {
          assert forall m :: j < m < n - 1 ==> !Upgrade(ps, ws, m);
          assert ParticleAfter(ps, ws, n - 1) == Some(Motes);
        }
      }
    }
  }

  /** The selection is empty exactly when no profile carries a particle with
      weight above 0.2. */
  lemma ParticleNoneIff(ps: seq<Option<Particle>>, ws: seq<real>)
    requires |ps| == |ws|
    ensures SelectParticle(ps, ws).None? <==> forall i :: 0 <= i < |ps| ==> !Eligible(ps, ws, i)
  {
    if forall i :: 0 <= i < |ps| ==> !Eligible(ps, ws, i) {
      NoneUntilEligible(ps, ws, |ps|);
    } else {
      var j := FindFirstEligible(ps, ws);
      if ps[j] == Some(Motes) {
        MotesSelectionIsSome(ps, ws, j);
      } else {
        FirstChoiceSticks(ps, ws, j, |ps|);
      }
    }
  }

  lemma MotesSelectionIsSome(ps: seq<Option<Particle>>, ws: seq<real>, j: nat)
    requires |ps| == |ws| && j < |ps|
    requires FirstEligible(ps, ws, j) && ps[j] == Some(Motes)
    ensures SelectParticle(ps, ws).Some?
  {
    MotesUntilUpgrade(ps, ws, j, |ps|);
    if exists k :: j < k < |ps| && Upgrade(ps, ws, k) {
      var k := FindFirstUpgrade(ps, ws, j);
      assert SelectParticle(ps, ws) == ps[k];
    }
  }

  lemma FindFirstEligible(ps: seq<Option<Particle>>, ws: seq<real>) returns (j: nat)
    requires |ps| == |ws|
    requires exists i :: 0 <= i < |ps| && Eligible(ps, ws, i)
    ensures j < |ps| && FirstEligible(ps, ws, j)
  {
    j := 0;
    while !Eligible(ps, ws, j)
      invariant j < |ps|
      invariant forall i :: 0 <= i < j ==> !Eligible(ps, ws, i)
      decreases |ps| - j
    {
      j := j + 1;
    }
  }

  lemma FindFirstUpgrade(ps: seq<Option<Particle>>, ws: seq<real>, j: nat) returns (k: nat)
    requires |ps| == |ws| && j < |ps|
    requires exists i :: j < i < |ps| && Upgrade(ps, ws, i)
    ensures j < k < |ps| && Upgrade(ps, ws, k)
    ensures forall m :: j < m < k ==> !Upgrade(ps, ws, m)
  {
    k := j + 1;
    while !Upgrade(ps, ws, k)
      invariant j < k < |ps|
      invariant forall m :: j < m < k ==> !Upgrade(ps, ws, m)
      decreases |ps| - k
    {
      k := k + 1;
    }
  }

  // ---------------------------------------------------------------------
  // Sentiment

  /** `clamp01((sentimentScore + 1) / 2)`: 0 is most negative, 1 most positive. */
  function SentimentFactor(score: real): (sf: real)
    ensures 0.0 <= sf <= 1.0
    ensures -1.0 <= score <= 1.0 ==> sf == (score + 1.0) / 2.0
    ensures score < -1.0 ==> sf == 0.0
    ensures score > 1.0 ==> sf == 1.0
  {
    Clamp01((score + 1.0) / 2.0)
  }

  lemma SentimentFactorMonotone(s1: real, s2: real)
    requires s1 <= s2
    ensures SentimentFactor(s1) <= SentimentFactor(s2)
  {
    ClampMonotone((s1 + 1.0) / 2.0, (s2 + 1.0) / 2.0, 0.0, 1.0);
  }

  /** One channel of three.js `Color.lerp`: move the fraction `t` of the
      way from `x` to `y`. */
  function Mix(x: real, y: real, t: real): real
  {
    x + (y - x) * t
  }

  function Lerp(a: Rgb, b: Rgb, t: real): Rgb
  {
    Rgb(Mix(a.r, b.r, t), Mix(a.g, b.g, t), Mix(a.b, b.b, t))
  }

  function Abs(x: real): real { if x < 0.0 then -x else x }

  /** The part of a distance `d` left after covering the fraction `t` of it. */
  function Remaining(t: real, d: real): real
  {
    (1.0 - t) * d
  }

  /** Mixing shrinks the distance to the target by the factor `1 - t`. */
  lemma MixDistance(x: real, y: real, t: real)
    requires 0.0 <= t <= 1.0
    ensures Abs(Mix(x, y, t) - y) == Remaining(t, Abs(x - y))
  {
    var f, d := 1.0 - t, x - y;
    assert Mix(x, y, t) - y == f * d;
    ScaledAbs(f, d);
  }

  lemma ScaledAbs(f: real, d: real)
    requires f >= 0.0
    ensures Abs(f * d) == f * Abs(d)
  {
    if d >= 0.0 {
      ProductNonNegative(f, d);
    } else {
      ProductNonNegative(f, -d);
    }
  }

  /** A mix lies between its two ends. */
  lemma MixInRange(x: real, y: real, t: real)
    requires 0.0 <= t <= 1.0
    ensures Min(x, y) <= Mix(x, y, t) <= Max(x, y)
  {
    var u := 1.0 - t;
    if x <= y {
      var a := y - x;
      assert Mix(x, y, t) == x + a * t == y - a * u;
      ProductNonNegative(a, t);
      ProductNonNegative(a, u);
    } else {
      var a := x - y;
      assert Mix(x, y, t) == x - a * t == y + a * u;
      ProductNonNegative(a, t);
      ProductNonNegative(a, u);
    }
  }

  lemma FractionBetween(d: real, t: real)
    requires 0.0 <= t <= 1.0
    ensures d >= 0.0 ==> 0.0 <= d * t <= d
    ensures d < 0.0 ==> d <= d * t <= 0.0
  {
  }

  /** A larger fraction leaves the mix no further from the target. */
  lemma MixCloser(x: real, y: real, t1: real, t2: real)
    requires 0.0 <= t1 <= t2 <= 1.0
    ensures Abs(Mix(x, y, t2) - y) <= Abs(Mix(x, y, t1) - y)
  {
    MixDistance(x, y, t1);
    MixDistance(x, y, t2);
    ShrinkMonotone(Abs(x - y), t1, t2);
  }

  lemma ShrinkMonotone(d: real, t1: real, t2: real)
    requires d >= 0.0 && t1 <= t2
    ensures Remaining(t2, d) <= Remaining(t1, d)
  {
    ProductNonNegative(t2 - t1, d);
  }

  /** Lerping by `t` in [0, 1] keeps a colour in the cube. */
  lemma LerpInGamut(a: Rgb, b: Rgb, t: real)
    requires InGamut(a) && InGamut(b) && 0.0 <= t <= 1.0
    ensures InGamut(Lerp(a, b, t))
  {
    MixInRange(a.r, b.r, t);
    MixInRange(a.g, b.g, t);
    MixInRange(a.b, b.b, t);
  }

  /** Lerping by `t` in [0, 1] shrinks every channel's distance to the
      target by the factor `1 - t`. */
  lemma LerpTowards(a: Rgb, b: Rgb, t: real)
    requires 0.0 <= t <= 1.0
    ensures Abs(Lerp(a, b, t).r - b.r) == Remaining(t, Abs(a.r - b.r))
    ensures Abs(Lerp(a, b, t).g - b.g) == Remaining(t, Abs(a.g - b.g))
    ensures Abs(Lerp(a, b, t).b - b.b) == Remaining(t, Abs(a.b - b.b))
  {
    MixDistance(a.r, b.r, t);
    MixDistance(a.g, b.g, t);
    MixDistance(a.b, b.b, t);
  }

  const BrightLeaf: Rgb := Hex(0xe8, 0xff, 0xe4)
  const MutedLeaf: Rgb := Hex(0x2f, 0x3a, 0x4c)

  /** The reference colour the leaf colour is pulled toward. */
  function SentimentTarget(sf: real): Rgb
  {
    if sf >= 0.5 then BrightLeaf else MutedLeaf
  }

  /** `Math.abs(sentimentFactor - 0.5) * 0.6`. */
  function PullAmount(sf: real): (t: real)
    requires 0.0 <= sf <= 1.0
    ensures 0.0 <= t <= 0.3
    ensures sf == 0.5 ==> t == 0.0
  {
    Abs(sf - 0.5) * 0.6
  }

  function SentimentPull(c: Rgb, score: real): Rgb
  {
    var sf := SentimentFactor(score);
    Lerp(c, SentimentTarget(sf), PullAmount(sf))
  }

  /** A neutral score leaves the colour unchanged. */
  lemma SentimentPullNeutral(c: Rgb)
    ensures SentimentPull(c, 0.0) == c
  {
    assert SentimentFactor(0.0) == 0.5;
  }

  /** The pull keeps a colour in the cube. */
  lemma SentimentPullInGamut(c: Rgb, score: real)
    requires InGamut(c)
    ensures InGamut(SentimentPull(c, score))
  {
    var sf := SentimentFactor(score);
    LerpInGamut(c, SentimentTarget(sf), PullAmount(sf));
  }

  /** A non-negative score pulls toward the bright reference and a negative
      one toward the muted one. */
  lemma SentimentTargetBySign(score: real)
    ensures SentimentTarget(SentimentFactor(score)) == if score >= 0.0 then BrightLeaf else MutedLeaf
  {
    var sf := SentimentFactor(score);
    assert (sf >= 0.5) == (score >= 0.0);
  }

  datatype Channel = Red | Green | Blue

  function Chan(c: Rgb, k: Channel): real
  {
    match k
    case Red => c.r
    case Green => c.g
    case Blue => c.b
  }

  /** The pull moves channel `k` the fraction |sf - 0.5| * 0.6 (at most
      30%) of the way to the reference colour. */
  lemma SentimentPullToward(c: Rgb, score: real, k: Channel)
    ensures Abs(Chan(SentimentPull(c, score), k) - Chan(SentimentTarget(SentimentFactor(score)), k))
            == Remaining(PullAmount(SentimentFactor(score)), Abs(Chan(c, k) - Chan(SentimentTarget(SentimentFactor(score)), k)))
  {
    var sf := SentimentFactor(score);
    assert Chan(SentimentPull(c, score), k) == Mix(Chan(c, k), Chan(SentimentTarget(sf), k), PullAmount(sf));
    MixDistance(Chan(c, k), Chan(SentimentTarget(sf), k), PullAmount(sf));
  }

  /** Among non-negative scores, a higher score leaves every channel of the
      leaf colour no further from the bright reference. */
  lemma SentimentPullMonotone(c: Rgb, s1: real, s2: real)
    requires 0.0 <= s1 <= s2
    ensures Abs(SentimentPull(c, s2).r - BrightLeaf.r) <= Abs(SentimentPull(c, s1).r - BrightLeaf.r)
    ensures Abs(SentimentPull(c, s2).g - BrightLeaf.g) <= Abs(SentimentPull(c, s1).g - BrightLeaf.g)
    ensures Abs(SentimentPull(c, s2).b - BrightLeaf.b) <= Abs(SentimentPull(c, s1).b - BrightLeaf.b)
  {
    var sf1, sf2 := SentimentFactor(s1), SentimentFactor(s2);
    assert 0.5 <= sf1 <= sf2 by { SentimentFactorMonotone(0.0, s1); SentimentFactorMonotone(s1, s2); }
    var t1, t2 := PullAmount(sf1), PullAmount(sf2);
    assert t1 <= t2;
    MixCloser(c.r, BrightLeaf.r, t1, t2);
    MixCloser(c.g, BrightLeaf.g, t1, t2);
    MixCloser(c.b, BrightLeaf.b, t1, t2);
  }

  /** `clamp01(windStrength * 0.7 + sentimentFactor * 0.3)`. */
  function Wind(blended: real, score: real): (w: real)
    ensures 0.0 <= w <= 1.0
  {
    Clamp01(blended * 0.7 + SentimentFactor(score) * 0.3)
  }

  lemma WindMonotone(blended: real, s1: real, s2: real)
    requires s1 <= s2
    ensures Wind(blended, s1) <= Wind(blended, s2)
  {
    SentimentFactorMonotone(s1, s2);
    ClampMonotone(blended * 0.7 + SentimentFactor(s1) * 0.3, blended * 0.7 + SentimentFactor(s2) * 0.3, 0.0, 1.0);
  }

  // ---------------------------------------------------------------------
  // The resolver

  function Keys(d: seq<EmotionEntry>): (ks: seq<EmotionName>)
    ensures |ks| == |d| && forall i :: 0 <= i < |d| ==> ks[i] == NormalizeEmotionName(Some(d[i].name))
  {
    seq(|d|, i requires 0 <= i < |d| => NormalizeEmotionName(Some(d[i].name)))
  }

  function Profiles(ks: seq<EmotionName>): (ps: seq<EmotionPalette>)
    ensures |ps| == |ks| && forall i :: 0 <= i < |ks| ==> ps[i] == Profile(ks[i])
  {
    seq(|ks|, i requires 0 <= i < |ks| => Profile(ks[i]))
  }

  /** The leaf colours blended into leaf-primary: an explicit colour when
      given, the profile's otherwise. */
  function LeafBases(d: seq<EmotionEntry>, ps: seq<EmotionPalette>): (cs: seq<Rgb>)
    requires |d| == |ps|
    ensures |cs| == |d|
    ensures forall i :: 0 <= i < |d| ==> cs[i] == d[i].colorHex.GetOr(ps[i].leafPrimary)
  {
    seq(|d|, i requires 0 <= i < |d| => d[i].colorHex.GetOr(ps[i].leafPrimary))
  }

  function BarkColors(ps: seq<EmotionPalette>): seq<Rgb> { seq(|ps|, i requires 0 <= i < |ps| => ps[i].barkColor) }
  function BarkHighlights(ps: seq<EmotionPalette>): seq<Rgb> { seq(|ps|, i requires 0 <= i < |ps| => ps[i].barkHighlight) }
  function LeafSecondaries(ps: seq<EmotionPalette>): seq<Rgb> { seq(|ps|, i requires 0 <= i < |ps| => ps[i].leafSecondary) }
  function Accents(ps: seq<EmotionPalette>): seq<Rgb> { seq(|ps|, i requires 0 <= i < |ps| => ps[i].accentColor) }
  function Ambients(ps: seq<EmotionPalette>): seq<Rgb> { seq(|ps|, i requires 0 <= i < |ps| => ps[i].ambientLight) }
  function Leans(ps: seq<EmotionPalette>): seq<real> { seq(|ps|, i requires 0 <= i < |ps| => ps[i].branchLean) }
  function Twists(ps: seq<EmotionPalette>): seq<real> { seq(|ps|, i requires 0 <= i < |ps| => ps[i].branchTwist) }
  function Winds(ps: seq<EmotionPalette>): seq<real> { seq(|ps|, i requires 0 <= i < |ps| => ps[i].windStrength) }
  function Particles(ps: seq<EmotionPalette>): seq<Option<Particle>> { seq(|ps|, i requires 0 <= i < |ps| => ps[i].particle) }

  predicate ExplicitColorsInGamut(d: seq<EmotionEntry>)
  {
    forall i :: 0 <= i < |d| && d[i].colorHex.Some? ==> InGamut(d[i].colorHex.value)
  }

  /** The blend of a non-empty list of entries: the body of
      `resolveEmotionPalette` after the fallback list has been chosen. */
  function ResolveEntries(d: seq<EmotionEntry>, score: real): (p: EmotionPalette)
    ensures 0.0 <= p.windStrength <= 1.0
  {
    var ps := Profiles(Keys(d));
    var ws := Weights(Confidences(d));
    EmotionPalette(
      BlendColors(BarkColors(ps), ws),
      BlendColors(BarkHighlights(ps), ws),
      SentimentPull(BlendColors(LeafBases(d, ps), ws), score),
      BlendColors(LeafSecondaries(ps), ws),
      BlendColors(Accents(ps), ws),
      BlendColors(Ambients(ps), ws),
      SelectParticle(Particles(ps), ws),
      BlendNumbers(Leans(ps), ws),
      BlendNumbers(Twists(ps), ws),
      Wind(BlendNumbers(Winds(ps), ws), score))
  }

  /** `resolveEmotionPalette`. */
  function ResolveEmotionPalette(input: EmotionInput): (p: EmotionPalette)
    ensures 0.0 <= p.windStrength <= 1.0
    ensures |input.dominantEmotions| > 0 ==> p == ResolveEntries(input.dominantEmotions, input.sentimentScore)
  {
    ResolveEntries(DominantOrFallback(input), input.sentimentScore)
  }

  /** When every explicit colour lies in the RGB cube, so does every colour
      of the resolved palette. */
  lemma ResolvedPaletteInGamut(input: EmotionInput)
    requires ExplicitColorsInGamut(input.dominantEmotions)
    ensures PaletteInGamut(ResolveEmotionPalette(input))
  {
    var d := DominantOrFallback(input);
    var ps := Profiles(Keys(d));
    var ws := Weights(Confidences(d));
    var leafBases := LeafBases(d, ps);
    ProfilesInGamut(Keys(d));
    assert forall i :: 0 <= i < |d| ==> InGamut(leafBases[i]);
    BlendColorsInGamut(leafBases, ws);
    SentimentPullInGamut(BlendColors(leafBases, ws), input.sentimentScore);
    ProfileColorsInGamut(ps, ws);
  }

  lemma ProfilesInGamut(ks: seq<EmotionName>)
    ensures forall i :: 0 <= i < |ks| ==> PaletteInGamut(Profiles(ks)[i])
  {
    forall i | 0 <= i < |ks| ensures PaletteInGamut(Profiles(ks)[i]) {
      ProfileInGamut(ks[i]);
    }
  }

  lemma ProfileColorsInGamut(ps: seq<EmotionPalette>, ws: seq<real>)
    requires forall i :: 0 <= i < |ps| ==> PaletteInGamut(ps[i])
    ensures InGamut(BlendColors(BarkColors(ps), ws))
    ensures InGamut(BlendColors(BarkHighlights(ps), ws))
    ensures InGamut(BlendColors(LeafSecondaries(ps), ws))
    ensures InGamut(BlendColors(Accents(ps), ws))
    ensures InGamut(BlendColors(Ambients(ps), ws))
  {
    BlendColorsInGamut(BarkColors(ps), ws);
    BlendColorsInGamut(BarkHighlights(ps), ws);
    BlendColorsInGamut(LeafSecondaries(ps), ws);
    BlendColorsInGamut(Accents(ps), ws);
    BlendColorsInGamut(Ambients(ps), ws);
  }

  /** The resolved particle is absent or the particle of some profile of
      the catalogue. */
  lemma ResolvedParticleFromProfile(input: EmotionInput)
    ensures var p := ResolveEmotionPalette(input).particle;
            p.None? || exists e :: p == Profile(e).particle
  {
    var d := DominantOrFallback(input);
    var ks := Keys(d);
    var ps := Profiles(ks);
    var particle := SelectParticle(Particles(ps), Weights(Confidences(d)));
    if particle.Some? {
      var i :| 0 <= i < |ps| && particle == Particles(ps)[i];
      assert particle == Profile(ks[i]).particle;
    }
  }

  /** A single emotion with positive confidence and no explicit colour
      resolves to its own profile: every blend returns the profile's value,
      its particle is kept, and only the sentiment pull and the wind formula
      act on top of it. */
  lemma ResolveSingleEmotion(name: string, c: real, score: real)
    requires c > 0.0
    ensures var p := ResolveEntries([EmotionEntry(name, Some(c), None)], score);
            var q := Profile(NormalizeEmotionName(Some(name)));
            p.barkColor == q.barkColor && p.barkHighlight == q.barkHighlight
            && p.leafSecondary == q.leafSecondary && p.accentColor == q.accentColor
            && p.ambientLight == q.ambientLight
            && p.leafPrimary == SentimentPull(q.leafPrimary, score)
            && p.particle == q.particle
            && p.branchLean == q.branchLean && p.branchTwist == q.branchTwist
            && p.windStrength == Wind(q.windStrength, score)
  {
    var d := [EmotionEntry(name, Some(c), None)];
    var ps := Profiles(Keys(d));
    var cs := Confidences(d);
    var ws := Weights(cs);
    assert cs[0] > 0.0;
    assert Sum(cs) == cs[0];
    assert ws[0] == 1.0 by { QuotientSelf(cs[0]); }
    assert LeafBases(d, ps) == [ps[0].leafPrimary];
    BlendSingle(BarkColors(ps), Leans(ps), ws, 0);
    BlendSingle(BarkHighlights(ps), Twists(ps), ws, 0);
    BlendSingle(LeafSecondaries(ps), Winds(ps), ws, 0);
    BlendSingle(Accents(ps), Leans(ps), ws, 0);
    BlendSingle(Ambients(ps), Leans(ps), ws, 0);
    BlendSingle(LeafBases(d, ps), Leans(ps), ws, 0);
  }

  /** Two entry lists that differ only in their explicit colours. */
  predicate SameExceptColors(d1: seq<EmotionEntry>, d2: seq<EmotionEntry>)
  {
    |d1| == |d2|
    && forall i :: 0 <= i < |d1| ==> d1[i].name == d2[i].name && d1[i].confidence == d2[i].confidence
  }

  /** An explicit colour feeds the leaf-primary blend only: changing the
      explicit colours changes no other part of the palette. */
  lemma ColorHexOnlyAffectsLeaf(d1: seq<EmotionEntry>, d2: seq<EmotionEntry>, score: real)
    requires SameExceptColors(d1, d2)
    ensures ResolveEntries(d1, score).(leafPrimary := White) == ResolveEntries(d2, score).(leafPrimary := White)
  {
    assert Keys(d1) == Keys(d2);
    assert Confidences(d1) == Confidences(d2);
  }
}
