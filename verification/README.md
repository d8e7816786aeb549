# Sapling core, modelled in Dafny

Sapling is a journaling app. Each entry is analysed for sentiment and
emotions, and the user's "tree" grows from that analysis. This project
models the logic underneath it:

- the seeded Park–Miller generator that drives the tree;
- the integer and real skeleton of `buildTreeGeometry`: how many branches,
  twigs, roots, leaf clusters and leaves there are, what each one hangs from,
  and which parameters are drawn for each;
- the taper of the tube radii, and the index buffers of the leaf and
  grass-blade meshes;
- the emotion palette resolver: name normalisation, confidence weights,
  weighted colour and number blends, particle choice, sentiment pull and wind;
- the small tree helpers: emotion colours, health, leaf density, trunk
  height, and the row-to-state mapping;
- the journal side:
  - the `createJournalEntry` server action (form validation, word count and
    the answer it gives);
  - the entry form's state logic;
  - the entry list's parsing, label formatting and filtering;
  - the PostgREST error messages;
  - the route guard of the middleware.

Every operation is a pure function over immutable datatypes, except the five
methods of `mesh_indices.dfy`, which are loops: the two vertex counters
`LeafVertexCount` and `GrassVertexCount`, and the three index-buffer builders
`AppendLeafRow`, `BuildLeafIndices` and `BuildGrassIndices`. Colours are RGB
triples of reals in [0, 1].

Outside calls become inputs:
- **Supabase session, insert, analysis, upsert and revalidation** are the
  `EntryActions.Backend` record.
- **The session of the middleware** is a boolean.
- **The seeded generator's output** is a draw stream `rand: nat -> real`,
  read through a cursor.
- **The one unseeded `Math.random()`** that decides leaf placement is an
  oracle, `useAssigned: nat -> bool`.
- **Fields the tree model reads but the tree state does not declare** are
  assumed inputs of `Growth.TreeInput`: `seed`, `sentimentScore`, the
  palette's `windStrength` and whether a dominant emotion carries a colour
  (sapling/components/tree/tree-model.tsx reads them at lines 69, 119, 284
  and 330). `TreeVisualState` in sapling/lib/tree/state.ts declares none of
  them, and `mapRowToVisualState` does not fill them.

Files, one module each:
- `basics.dfy` holds options, clamping, JavaScript rounding and remainder,
  and sums and weighted sums.
- `text.dfy` holds JavaScript whitespace, `trim`, case mapping, and split
  and join.
- `emotions.dfy` is the shared catalogue of ten emotion keys.
- The remaining files follow the source files:
  - `prng.dfy`, `growth.dfy`, `taper.dfy` and `mesh_indices.dfy` model
    `tree-model.tsx`;
  - `palette.dfy`, `visuals.dfy` and `tree_state.dfy` model `lib/tree`;
  - `word_count.dfy` and `entry_actions.dfy` model `actions.ts`;
  - `entry_form.dfy` and `entry_list.dfy` model the journal components;
  - `postgrest_errors.dfy` and `middleware.dfy` model `errors.ts` and
    `middleware.ts`.

`clamp` comes from `lib/utils/math`, which is not part of this model. It is
read as `min(hi, max(lo, v))`, which is how every call site uses it.

## Model

| member | source | states |
|---|---|---|
| Basics.Clamp | sapling/lib/tree/visuals.ts:34 | the result lies in [lo, hi]; a value already inside is returned unchanged, and one outside is moved to the nearer bound |
| Basics.Clamp01 | sapling/lib/tree/palette.ts:214-216 | the result lies in [0, 1], leaves values in that range unchanged, and gives 0 below it and 1 above it |
| Basics.ClampMonotone | sapling/lib/tree/visuals.ts:42 | clamping never reverses the order of two values |
| Basics.ClampIdempotent | sapling/lib/tree/visuals.ts:34 | clamping an already clamped value changes nothing |
| Basics.Round | sapling/components/tree/tree-model.tsx:288 | `Math.round` gives the integer within one half of its argument |
| Basics.JsRem | sapling/components/tree/tree-model.tsx:60 | JavaScript `%` keeps the sign of the dividend: it differs from the dividend by a multiple of the divisor, lies strictly between minus and plus the divisor, agrees with the Euclidean remainder for non-negative dividends and is never positive for negative ones |
| Basics.FloorScaledIndex | sapling/components/tree/tree-model.tsx:297-299 | `Math.floor(rand() * n)` with a draw in [0, 1) is always a valid index below n |
| Emotions.ParseKey | sapling/lib/tree/palette.ts:173-177 | a text is recognised exactly when it spells one of the ten keys, and then as that key |
| Emotions.ParseKeyText | sapling/lib/tree/palette.ts:3-13 | parsing the spelling of a key gives the key back (round trip) |
| Emotions.KeyTextIsLowerCase | sapling/lib/tree/visuals.ts:15-26 | every key is spelled in lower case, so lower-casing a key changes nothing |
| Prng.InitialState | sapling/components/tree/tree-model.tsx:60-61 | as written: a seed already in [1, M-1] is kept, and the state is 0 exactly for negative seeds congruent to 1 mod M (see Findings) |
| Prng.NegativeResidue | sapling/components/tree/tree-model.tsx:60 | the truncated remainder equals -(M-1) exactly for the negative seeds congruent to 1 mod M |
| Prng.SeedState | sapling/components/tree/tree-model.tsx:59-61 | corrected seeding: the state always lies in [1, M-1], and it agrees with the source whenever the source's state is not 0 |
| Prng.NextState | sapling/components/tree/tree-model.tsx:63 | a step of the Lehmer recurrence stays inside [1, M-1] from a valid state, and 0 maps to 0 |
| Prng.ProductNotMultiple | sapling/components/tree/tree-model.tsx:63 | from a valid state the product with 16807 is never a multiple of M, so the generator never reaches 0 |
| Prng.Output | sapling/components/tree/tree-model.tsx:64 | a valid state yields a draw in [0, 1); state 0 yields the negative value -1/(M-1) |
| Prng.StateStaysValid | sapling/components/tree/tree-model.tsx:62-65 | any number of steps from a valid state gives a valid state |
| Prng.StreamInUnitInterval | sapling/components/tree/tree-model.tsx:62-65 | every draw of a stream started from a valid state lies in [0, 1) |
| Prng.SeededStreamInUnitInterval | sapling/components/tree/tree-model.tsx:59-66 | with corrected seeding, every draw for every integer seed lies in [0, 1) |
| Prng.ZeroIsAbsorbing | sapling/components/tree/tree-model.tsx:63 | state 0 is a fixed point of the recurrence |
| Prng.DegenerateSeed | sapling/components/tree/tree-model.tsx:60-64 | for each negative seed congruent to 1 mod M, every draw equals -1/(M-1), which is below 0 |
| Prng.DegenerateSeedExample | sapling/components/tree/tree-model.tsx:60-61 | the seed -2147483646 gives state 0 as written and state M-1 after correction |
| Prng.ZeroSeed | sapling/components/tree/tree-model.tsx:61 | the seed 0 is moved to the valid state M-1 |
| Taper.TaperRadius | sapling/components/tree/tree-model.tsx:111-112 | the radius is the larger of the floor and the linear taper |
| Taper.TaperNonIncreasing | sapling/components/tree/tree-model.tsx:181-182 | with a non-negative slope, the radius never grows as the vertex's `uv.y` grows |
| Taper.TaperFloorUnbound | sapling/components/tree/tree-model.tsx:229-230 | when the taper at the tip stays above the floor, the floor never applies on [0, 1] |
| Taper.TreeRadiiWithinRange | sapling/components/tree/tree-model.tsx:270-271 | on [0, 1] and for health in [0, 1], none of the trunk, branch, twig or root floors ever binds |
| Taper.TreeRadiiNonIncreasing | sapling/components/tree/tree-model.tsx:111-112 | as a function of the vertex's `uv.y`, none of the trunk, branch, twig or root radii ever grows |
| Taper.VertexRadiusAsWritten | sapling/components/tree/tree-model.tsx:106-112 | as written, a tube vertex gets the radius law at its `uv.y`, its position around the ring; the radius never falls below the smallest floor, 0.012 (see Findings) |
| Taper.AsWrittenRingNotRound | sapling/components/tree/tree-model.tsx:106-112 | as written, the two seam vertices of every ring get different radii, so no ring is round (see Findings) |
| Taper.AsWrittenNoTaperAlongTube | sapling/components/tree/tree-model.tsx:176-182 | as written, the base ring and the tip ring have the same radius at every position around them (see Findings) |
| Taper.BranchTubeExample | sapling/components/tree/tree-model.tsx:172-182 | for a 36 by 14 branch tube, as written the base ring spans radii 0.24 to 0.07; read along the tube, the base is 0.24 and the tip 0.07 all round |
| Taper.VertexRadius | sapling/components/tree/tree-model.tsx:106-112 | corrected, a tube vertex gets the radius law at its `uv.x`, its position along the tube; the radius never falls below 0.012 (see Findings) |
| Taper.RingsAreRound | sapling/components/tree/tree-model.tsx:265-271 | with the law read at `uv.x`, all vertices of one ring get the same radius |
| Taper.RingsNarrowTowardTip | sapling/components/tree/tree-model.tsx:265-271 | with the law read at `uv.x`, a ring further along the tube is strictly narrower (for a trunk health in [0, 1]) |
| Growth.DrawIndex | sapling/components/tree/tree-model.tsx:131 | a scaled draw is an index below the length it scales |
| Growth.BranchTotal | sapling/components/tree/tree-model.tsx:120 | the tree has between 4 and 10 branches: two more than asked, clamped at either end |
| Growth.TrunkAttachedRange | sapling/components/tree/tree-model.tsx:128 | 3 or 4 branches leave the trunk, and always fewer than all of them |
| Growth.LeafTotal | sapling/components/tree/tree-model.tsx:288 | the tree has between 120 and 260 leaves: exactly 120 below 67 requested, exactly 260 above 144, and 1.8 times the count, rounded, in between |
| Growth.ClusterTotal | sapling/components/tree/tree-model.tsx:295 | there are 4 to 6 leaf clusters: exactly 4 below 160 leaves, and one per 40 leaves from 160 on |
| Growth.TwigAt | sapling/components/tree/tree-model.tsx:199-208 | a twig sits on its branch at t between 0.55 and 0.95 and is longer than 0.35 |
| Growth.Twigs | sapling/components/tree/tree-model.tsx:198-239 | every twig sits between 55% and 95% along its branch and is longer than 0.35, whatever the stream holds |
| Growth.BranchAt | sapling/components/tree/tree-model.tsx:126-163 | the first branches sit on the trunk at evenly spaced t with 1–3 twigs; later ones hang from an earlier branch at t in [0.55, 0.9] with none. Stream use: 10 draws plus the twigs' draws for a trunk branch, 6 for a branch on a branch |
| Growth.BranchesFrom | sapling/components/tree/tree-model.tsx:126-240 | every branch of the loop satisfies the attachment, parent and t rules |
| Growth.AllTwigsCount | sapling/components/tree/tree-model.tsx:198-200 | the tree has at least one twig, and every twig's t lies in [0.55, 0.95] |
| Growth.RootAt | sapling/components/tree/tree-model.tsx:247 | a root leaves the trunk at t in [0.02, 0.07) |
| Growth.Roots | sapling/components/tree/tree-model.tsx:243-282 | there are 4 to 6 roots, all starting in the trunk's lowest tenth, and the stream use is accounted for |
| Growth.ClusterAt | sapling/components/tree/tree-model.tsx:296-300 | a cluster sits on a real twig at t in [0.7, 0.98] or on a real branch at t in [0.45, 0.95] |
| Growth.Clusters | sapling/components/tree/tree-model.tsx:295-302 | all clusters satisfy those rules, and the stream use is accounted for |
| Growth.LeafScale | sapling/components/tree/tree-model.tsx:329 | a leaf's scale lies in [0.32, 1.14) |
| Growth.LeafScaleMonotone | sapling/components/tree/tree-model.tsx:329 | a more positive sentiment never shrinks a leaf |
| Growth.SwayAmplitude | sapling/components/tree/tree-model.tsx:330 | the sway amplitude is below 0.18 plus the wind share, and at least 0.06 when the wind is not negative |
| Growth.LeafAt | sapling/components/tree/tree-model.tsx:304-345 | a leaf keeps its assigned branch (i mod branches) exactly when the oracle says so, hangs on a valid curve at t in [0.05, 0.98], and has scale, sway and turn in range |
| Growth.LeavesFrom | sapling/components/tree/tree-model.tsx:304 | every leaf of the loop satisfies those rules |
| Growth.GrowthPlan | sapling/components/tree/tree-model.tsx:68-345 | the plan has the branch, leaf and cluster counts above, and 4 to 6 roots |
| Growth.GrowthPlanBounds | sapling/components/tree/tree-model.tsx:126-345 | every structure of the plan satisfies its attachment and range rules, whatever the stream |
| Growth.EveryBranchHasAssignedLeaf | sapling/components/tree/tree-model.tsx:305-311 | each branch has a leaf that hangs on it whenever the oracle keeps that leaf's assignment |
| Growth.OracleOnlyAffectsLeaves | sapling/components/tree/tree-model.tsx:311 | the unseeded draw changes only the leaves; branches, twigs, roots and clusters depend on the seed alone |
| Growth.PlanWithoutLeaves | sapling/components/tree/tree-model.tsx:126-302 | branches, twigs, roots and clusters are drawn in source order, each from where the previous part stopped |
| Growth.DegenerateDrawsIndexBeforeStart | sapling/components/tree/tree-model.tsx:197-299 | from the zero state, a branch gets no twigs and a scaled index into any list is -1, before its first element (see Findings) |
| MeshIndices.LeafVertexCount | sapling/components/tree/tree-model.tsx:619-635 | the vertex loops emit (14+1) × (8+1) leaf vertices |
| MeshIndices.LeafCellsLength | sapling/components/tree/tree-model.tsx:637-646 | each cell adds six indices |
| MeshIndices.LeafCellsInRange | sapling/components/tree/tree-model.tsx:637-646 | every leaf index names an existing vertex |
| MeshIndices.LeafCellsLayout | sapling/components/tree/tree-model.tsx:639-645 | the indices of cell (i, j) sit at position 6·(8i + j) |
| MeshIndices.AppendLeafRow | sapling/components/tree/tree-model.tsx:639-646 | the inner loop extends the index list by exactly one row of cells |
| MeshIndices.BuildLeafIndices | sapling/components/tree/tree-model.tsx:637-646 | the nested loops build the full cell list: 672 indices, all naming existing vertices |
| MeshIndices.EveryLeafVertexUsed | sapling/components/tree/tree-model.tsx:619-646 | every vertex of the leaf grid is used by some triangle |
| MeshIndices.LeafTrianglesProper | sapling/components/tree/tree-model.tsx:640-645 | both triangles of a cell have three distinct corners |
| MeshIndices.GrassVertexCount | sapling/components/tree/tree-model.tsx:773-780 | the blade has two vertices per row, over 6 rows |
| MeshIndices.GrassCellsInRange | sapling/components/tree/tree-model.tsx:782-788 | each strip cell adds six indices, all naming existing vertices |
| MeshIndices.BuildGrassIndices | sapling/components/tree/tree-model.tsx:782-788 | the loop builds the full strip: 30 indices, all naming existing vertices |
| Palette.ProfileInGamut | sapling/lib/tree/palette.ts:32-163 | every colour of every base profile is a valid colour, and every wind strength lies in [0, 1] |
| Palette.NormalizeEmotionName | sapling/lib/tree/palette.ts:171-178 | a missing or empty name is neutral; otherwise the lower-cased name is a key and becomes that key, or "other" when it is none |
| Palette.NormalizeIsCaseInsensitive | sapling/lib/tree/palette.ts:173-175 | every spelling of a key that differs only in ASCII case normalises to that key |
| Palette.NormalizeIdempotent | sapling/lib/tree/palette.ts:171-178 | normalising a normalised name changes nothing |
| Palette.DominantOrFallback | sapling/lib/tree/palette.ts:219-223 | the resolver blends the given emotions, or else one full-confidence entry for the last emotion, or else one for "neutral" |
| Palette.Confidence | sapling/lib/tree/palette.ts:227 | a confidence lies in [0, 1]: a missing one is 0.6, a stated one in [0, 1] is kept, one below 0 gives 0 and one above 1 gives 1 |
| Palette.Confidences | sapling/lib/tree/palette.ts:231 | every confidence lies in [0, 1]; a stated confidence already in [0, 1] is kept unchanged, and a missing one counts as 0.6 |
| Palette.Weights | sapling/lib/tree/palette.ts:232-233 | the weights are the confidences divided by their sum and add up to 1; when the sum is 0, all weights are 0 |
| Palette.WeightsScaleInvariant | sapling/lib/tree/palette.ts:232-233 | scaling every confidence by the same positive factor leaves the weights unchanged |
| Palette.AlignWeights | sapling/lib/tree/palette.ts:186 | weights for exactly as many values are used unchanged, surplus weights are ignored, and non-negative weights stay non-negative |
| Palette.AlignKeepsTotal | sapling/lib/tree/palette.ts:186 | padding the weights with zeros for extra values leaves their total unchanged |
| Palette.PositivePart | sapling/lib/tree/palette.ts:187 | no kept weight is below its input; weights that are all non-negative are kept unchanged, so colour and number blends then use the same weights |
| Palette.BlendNumbersBetween | sapling/lib/tree/palette.ts:203-212 | a weighted mean of numbers lies between the least and the greatest value that carries weight |
| Palette.BlendChannelBetween | sapling/lib/tree/palette.ts:185-199 | the same holds for each channel of a colour blend |
| Palette.BlendColorsInGamut | sapling/lib/tree/palette.ts:180-201 | blending valid colours always gives a valid colour |
| Palette.BlendWithoutWeight | sapling/lib/tree/palette.ts:195-196 | with no positive weight, a colour blend is white and a number blend is 0 |
| Palette.BlendSingle | sapling/lib/tree/palette.ts:180-212 | when only one entry carries weight, both blends return that entry's value |
| Palette.BlendScaleInvariant | sapling/lib/tree/palette.ts:180-212 | scaling all weights by a positive factor changes neither blend |
| Palette.ParticleAfter | sapling/lib/tree/palette.ts:270-279 | the chosen particle is absent or the particle of some profile |
| Palette.NoneUntilEligible | sapling/lib/tree/palette.ts:272-273 | no particle is chosen while no profile with weight above 0.2 has been seen |
| Palette.FirstChoiceSticks | sapling/lib/tree/palette.ts:272-278 | the first eligible particle is kept, unless it is "motes" |
| Palette.MotesUntilUpgrade | sapling/lib/tree/palette.ts:275-277 | "motes" is kept until the first later profile with a particle and weight above 0.35, and that one replaces it |
| Palette.ParticleNoneIff | sapling/lib/tree/palette.ts:270-279 | no particle is chosen exactly when no profile is eligible |
| Palette.MotesSelectionIsSome | sapling/lib/tree/palette.ts:275-279 | once "motes" has been chosen, the result is never empty |
| Palette.SentimentFactor | sapling/lib/tree/palette.ts:237 | the factor lies in [0, 1], maps scores in [-1, 1] linearly onto it, is 0 for scores below -1 and 1 for scores above 1 |
| Palette.SentimentFactorMonotone | sapling/lib/tree/palette.ts:237 | a higher score never lowers the factor |
| Palette.MixInRange | sapling/lib/tree/palette.ts:284 | a lerp stays between its two ends |
| Palette.MixCloser | sapling/lib/tree/palette.ts:284 | a larger lerp amount never moves the result away from the target |
| Palette.LerpInGamut | sapling/lib/tree/palette.ts:284 | a lerp between valid colours is a valid colour |
| Palette.LerpTowards | sapling/lib/tree/palette.ts:284 | on every channel, a lerp removes exactly the given fraction of the distance to the target |
| Palette.PullAmount | sapling/lib/tree/palette.ts:284 | the pull is at most 0.3 and is 0 for a neutral sentiment |
| Palette.SentimentPullNeutral | sapling/lib/tree/palette.ts:281-284 | a score of 0 leaves the leaf colour unchanged |
| Palette.SentimentPullInGamut | sapling/lib/tree/palette.ts:281-284 | the pull keeps a valid leaf colour valid |
| Palette.SentimentTargetBySign | sapling/lib/tree/palette.ts:282-283 | a non-negative score pulls toward the bright leaf colour, and a negative one toward the muted colour |
| Palette.SentimentPullToward | sapling/lib/tree/palette.ts:281-284 | on every channel, the pull closes a fraction \|sf − 0.5\|·0.6 of the distance to the target |
| Palette.SentimentPullMonotone | sapling/lib/tree/palette.ts:281-284 | among non-negative scores, a higher score never leaves the leaf colour further from the bright target |
| Palette.Wind | sapling/lib/tree/palette.ts:296 | the wind strength lies in [0, 1] |
| Palette.WindMonotone | sapling/lib/tree/palette.ts:296 | a higher score never lowers the wind |
| Palette.ResolveEmotionPalette | sapling/lib/tree/palette.ts:218-298 | the wind lies in [0, 1], and a non-empty emotion list is resolved as given |
| Palette.ResolvedPaletteInGamut | sapling/lib/tree/palette.ts:218-298 | when the explicit colours are valid, every colour of the resolved palette is valid |
| Palette.ResolvedParticleFromProfile | sapling/lib/tree/palette.ts:270-279 | the resolved particle is absent or some catalogue profile's particle |
| Palette.ResolveSingleEmotion | sapling/lib/tree/palette.ts:218-298 | a single emotion resolves to its own profile, with the sentiment pull and the wind formula applied on top |
| Palette.ColorHexOnlyAffectsLeaf | sapling/lib/tree/palette.ts:239-244 | explicit colours change only the primary leaf colour |
| Visuals.GetEmotionColor | sapling/lib/tree/visuals.ts:28-31 | a missing emotion is neutral; otherwise the lower-cased name's table colour is used, or the neutral colour when it is not a key |
| Visuals.EmotionColorIsCaseInsensitive | sapling/lib/tree/visuals.ts:29-30 | emotion names differing only in ASCII case get the same colour |
| Visuals.UnknownEmotionIsNeutral | sapling/lib/tree/visuals.ts:30 | a name that is no key falls back to the neutral colour |
| Visuals.EmptyEmotionIsNeutral | sapling/lib/tree/visuals.ts:29-30 | both the empty name and a missing one give the neutral colour |
| Visuals.EmotionColorWellFormed | sapling/lib/tree/visuals.ts:15-31 | every answer is a seven-character `#rrggbb` colour |
| Visuals.NormalizeHealth | sapling/lib/tree/visuals.ts:33-35 | health lies in [0, 1]: missing is 0.5, and out-of-range values go to the nearer end |
| Visuals.NormalizeHealthIdempotent | sapling/lib/tree/visuals.ts:33-35 | normalising twice is normalising once |
| Visuals.ComputeLeafDensity | sapling/lib/tree/visuals.ts:37-43 | density lies in [0.1, 1.2]: it is 0.1 for a missing or non-positive count and for counts below 15, count/150 from 15 to 180, and 1.2 above 180 |
| Visuals.LeafDensityMonotone | sapling/lib/tree/visuals.ts:37-43 | more leaves never lower the density |
| Visuals.ComputeTrunkHeight | sapling/lib/tree/visuals.ts:45-48 | height lies in [2, 5] and is 2 + 0.12·count for counts from 1 to 25 |
| Visuals.TrunkHeightMonotone | sapling/lib/tree/visuals.ts:45-48 | more branches never lower the trunk |
| Visuals.TrunkHeightSaturates | sapling/lib/tree/visuals.ts:47 | from 25 branches on, the height is the cap 5 |
| Visuals.TrunkHeightOfSmallCounts | sapling/lib/tree/visuals.ts:46 | a missing count and any count up to 1 all give 2.12 |
| TreeState.MapRowToVisualState | sapling/lib/tree/state.ts:22-34 | a missing row gives the default state; otherwise the counts are raised to their minimums 3 and 20, the health is normalised and the rest is copied, so every result is well formed |
| TreeState.MapRowOfWellFormed | sapling/lib/tree/state.ts:27-33 | a well-formed state stored as a row maps back to itself (round trip) |
| TreeState.MapRowIdempotent | sapling/lib/tree/state.ts:22-34 | mapping, storing and mapping again gives the same state |
| TreeState.MapRowKeepsValidRow | sapling/lib/tree/state.ts:28-32 | a row whose values are already in range is copied unchanged |
| Text.Trim | sapling/app/journal/actions.ts:19 | the result is a contiguous slice with only whitespace around it, begins and ends with non-whitespace, and is empty exactly for all-whitespace text |
| Text.TrimOfAllSpace | sapling/components/journal/entry-form.tsx:29 | trimming whitespace-only text gives the empty text |
| Text.ToLower | sapling/lib/tree/palette.ts:173 | lower-casing maps every character, one for one |
| Text.ToLowerIdempotent | sapling/lib/tree/visuals.ts:29 | lower-casing twice is lower-casing once |
| Text.SplitOn | sapling/components/journal/entry-list.tsx:179 | splitting gives at least one piece, and no piece contains the separator |
| Text.JoinSplit | sapling/components/journal/entry-list.tsx:178-181 | joining the pieces of a split with the same separator restores the text |
| Text.FirstSpace | sapling/app/journal/actions.ts:45 | the first whitespace character is found: nothing before it is whitespace |
| WordCount.CountWordsOfTrim | sapling/app/journal/actions.ts:45-46 | trimming never changes the number of words |
| WordCount.SplitCountsWords | sapling/app/journal/actions.ts:45 | on trimmed, non-empty text, `split(/\s+/)` gives one piece per word |
| WordCount.CalculateWordCount | sapling/app/journal/actions.ts:44-47 | the server's count is the number of maximal non-whitespace runs, and is 0 exactly for blank text |
| WordCount.EntryFormWordCount | sapling/components/journal/entry-form.tsx:28-33 | the live counter counts the same words |
| WordCount.FormCountMatchesServer | sapling/components/journal/entry-form.tsx:28-33 | the form's live count always equals the count the server stores |
| WordCount.WordCountIgnoresPadding | sapling/app/journal/actions.ts:44-47 | surrounding whitespace never changes the count |
| EntryActions.BlankToNone | sapling/app/journal/actions.ts:14 | an optional field is dropped exactly when it is blank, and is otherwise kept trimmed and non-empty |
| EntryActions.OptionalTextErrors | sapling/app/journal/actions.ts:10-13 | an optional field passes exactly when it is a string within its limit |
| EntryActions.ContentErrors | sapling/app/journal/actions.ts:15-18 | content passes exactly when it is a string of 1 to 5000 characters |
| EntryActions.ValidateEntry | sapling/app/journal/actions.ts:9-25 | a form is accepted exactly when all three length checks pass on the raw text; the stored fields are then the trimmed ones, and a rejection carries at least one message |
| EntryActions.RejectionNamesFirstFailingField | sapling/app/journal/actions.ts:60-65 | a rejected form reports its first failing field in schema order (title, content, mood), never the fallback |
| EntryActions.WhitespaceContentAccepted | sapling/app/journal/actions.ts:15-19 | whitespace-only content passes validation, is stored empty and counts zero words |
| EntryActions.LimitsMeasureRawText | sapling/app/journal/actions.ts:18-19 | the limit applies before trimming: padding alone can push content over 5000 characters |
| EntryActions.CreateJournalEntry | sapling/app/journal/actions.ts:49-132 | corrected action: success exactly when the form is valid, the session exists, the insert succeeds and revalidation does not throw; a row is sent exactly for a valid form with a session, and that row has the trimmed content and its word count |
| EntryActions.AnalysisNeverChangesAnswer | sapling/app/journal/actions.ts:103-117 | analysis and upsert failures never change the answer or the saved row |
| EntryActions.ErrorAnswers | sapling/app/journal/actions.ts:60-131 | each early stop gives its own message: validation, sign-in, save failure, or the generic error for anything thrown |
| EntryActions.CreateJournalEntryAsWritten | sapling/app/journal/actions.ts:70-73 | as written, every valid form ends in the generic error, because the client is not awaited |
| EntryActions.AsWrittenNeverSaves | sapling/app/journal/actions.ts:70-73 | as written, the action never succeeds and never inserts a row; rejected forms get the same answer as from the corrected action |
| EntryActions.MissingAwaitCounterexample | sapling/app/journal/actions.ts:70 | a valid form with every backend call succeeding is saved by the corrected action and rejected as written |
| EntryForm.FindLabel | sapling/components/journal/entry-form.tsx:137 | a label is found exactly when some option has the value, and it is the first such option's label |
| EntryForm.SelectedLabel | sapling/components/journal/entry-form.tsx:137 | a listed value shows its option's label, and any other value shows "No mood tag" |
| EntryForm.OptionValuesDistinct | sapling/components/journal/entry-form.tsx:9-20 | no two mood options share a value |
| EntryForm.SelectedLabelOfOption | sapling/components/journal/entry-form.tsx:9-20 | choosing an option shows exactly that option's label |
| EntryForm.LabelsCapitaliseValues | sapling/components/journal/entry-form.tsx:11-19 | every non-empty option is labelled with its value capitalised |
| EntryForm.OptionOf | sapling/components/journal/entry-form.tsx:10-19 | every emotion key except "neutral" is offered as a mood |
| EntryForm.MoodLabelsFollowEmotionKeys | sapling/components/journal/entry-form.tsx:9-20 | each emotion key shows as its capitalised name, and "neutral" shows as the empty choice |
| EntryForm.EmptyChoiceLabel | sapling/components/journal/entry-form.tsx:10 | the empty value shows "No mood tag" |
| EntryForm.OnActionState | sapling/components/journal/entry-form.tsx:35-43 | a success clears all three fields; any other state leaves them alone |
| EntryForm.ResetShowsEmptyForm | sapling/components/journal/entry-form.tsx:35-43 | after a success the counter shows 0 and the mood button "No mood tag", and running the reset again changes nothing |
| EntryForm.FormClearsOnlyWhenSaved | sapling/components/journal/entry-form.tsx:35-43 | a filled form is cleared exactly when the entry was saved |
| EntryList.ParseItem | sapling/components/journal/entry-list.tsx:157-173 | an item is kept exactly when it is an object with a non-empty name and a numeric confidence |
| EntryList.ParseDominantEmotions | sapling/components/journal/entry-list.tsx:154-175 | a non-array gives nothing, and an array gives at most one emotion per item |
| EntryList.PresentAppend | sapling/components/journal/entry-list.tsx:174 | dropping empty slots distributes over concatenation |
| EntryList.PresentMembers | sapling/components/journal/entry-list.tsx:174 | the kept values are exactly the present ones, and nothing is dropped exactly when all are present |
| EntryList.ParsedAreTheUsableItems | sapling/components/journal/entry-list.tsx:156-174 | an emotion is in the result exactly when some usable item parses to it |
| EntryList.ParsedKeepsAllUsable | sapling/components/journal/entry-list.tsx:156-174 | nothing is dropped exactly when every item is usable |
| EntryList.ParseConcat | sapling/components/journal/entry-list.tsx:156-174 | parsing two arrays joined is the two results joined, in order |
| EntryList.AnyConfidenceAccepted | sapling/components/journal/entry-list.tsx:163-164 | any number is accepted as a confidence, including 0 and values outside [0, 1] |
| EntryList.FormatStep | sapling/components/journal/entry-list.tsx:177-182 | formatting capitalises the piece before the first underscore and replaces the underscore with a space |
| EntryList.FormatSentimentPointwise | sapling/components/journal/entry-list.tsx:177-182 | formatting keeps the length: underscores become spaces, characters after one are capitalised, and the rest are kept |
| EntryList.FormatLabelShape | sapling/components/journal/entry-list.tsx:177-182 | a lower-case label becomes a capitalised one of the same length, with a space exactly where it had an underscore |
| EntryList.FormattedVeryNegative | sapling/components/journal/entry-list.tsx:177-182 | "very_negative" is shown as "Very Negative" |
| EntryList.FriendlySentiment | sapling/components/journal/entry-list.tsx:96 | a missing label shows "Pending analysis"; any other label shows capitalised, with a space exactly where it had an underscore |
| EntryList.TwoWordLabels | sapling/components/journal/entry-list.tsx:8-14 | only "very_negative" and "very_positive" are two words |
| EntryList.KeepLabelled | sapling/components/journal/entry-list.tsx:55-57 | the filter keeps exactly the entries with the wanted label |
| EntryList.FilterEntries | sapling/components/journal/entry-list.tsx:51-58 | "all" keeps the list as it is; a label keeps exactly the entries carrying it |
| EntryList.KeepLabelledAppend | sapling/components/journal/entry-list.tsx:55-57 | filtering distributes over concatenation, so order is kept |
| EntryList.FilterIdempotent | sapling/components/journal/entry-list.tsx:51-58 | applying the same filter twice is applying it once |
| EntryList.UnanalysedOnlyUnderAll | sapling/components/journal/entry-list.tsx:52-57 | an entry without a sentiment label appears only under "all" |
| EntryList.FiltersPartition | sapling/components/journal/entry-list.tsx:39-58 | the five label filters split the labelled entries among themselves, with none counted twice |
| PostgrestErrors.DescribePostgrestError | sapling/lib/supabase/errors.ts:12-18 | a missing error gives nothing, a known code gives its table message, and any other code gives nothing |
| PostgrestErrors.KnownCodes | sapling/lib/supabase/errors.ts:3-10 | the table knows exactly five codes |
| PostgrestErrors.SharedMessages | sapling/lib/supabase/errors.ts:5-9 | "42501" and "P0001" share the row-level-security message, and the numeric key answers the text "400" |
| PostgrestErrors.DescriptionIgnoresMessage | sapling/lib/supabase/errors.ts:17 | the answer depends on the code alone |
| PostgrestErrors.DescriptionIsTableText | sapling/lib/supabase/errors.ts:3-18 | every answer is one of the table's four texts |
| PostgrestErrors.LookupIsCaseSensitive | sapling/lib/supabase/errors.ts:17 | codes differing only in case are not recognised |
| Middleware.AnyPrefix | sapling/middleware.ts:16-18 | a path is protected exactly when some protected route is a prefix of it |
| Middleware.WithoutRemovesAll | sapling/middleware.ts:23 | removing a parameter removes every occurrence, and doing it twice changes nothing |
| Middleware.SetParamSpec | sapling/middleware.ts:23 | after `set`, the parameter occurs once with the new value and the other parameters are kept in order |
| Middleware.Guard | sapling/middleware.ts:20-27 | a request with a session, or for an unprotected path, passes; a redirect always goes to the login page |
| Middleware.RedirectCarriesOrigin | sapling/middleware.ts:20-24 | a visitor without a session on a protected path is redirected, carrying their path once in `redirectedFrom` and keeping the other parameters |
| Middleware.ProtectedPaths | sapling/middleware.ts:6-18 | "/journal", its sub-paths and "/journalfoo" are protected; "/dashboard" and "/" are not |
| Middleware.HandleRequest | sapling/middleware.ts:8-32 | behind the matcher, a redirect happens exactly for an unsigned, matched, protected path |
| Middleware.MatcherNarrowsProtection | sapling/middleware.ts:16-31 | with the matcher applied, exactly "/journal" and the paths below it are redirected, so "/journalfoo" is not |

## Left out

- Geometry is not modelled: three.js curves, tube geometry, vertex positions and normals, the leaf camber and the vertex attribute arrays. The model keeps only the integers and reals the source draws or computes for them.
- The trunk spine (`trunkHeight` at tree-model.tsx:70, lean and spiral) is not modelled; only its 16 draws are counted, so the later draws come from the right positions in the stream.
- Growth.GrowthPlan: the model keeps counts, parents, attachment t, lengths, scales and sway, but not the positions, rotations or colours of the source's structures.
- Growth.LeafAt: the leaf's colour lerps, its perpendicular, radial and lateral offsets and its rotation are only counted as draws, including the conditional draw when some emotion carries a colour. No value is kept for them.
- Growth.BranchAt: the branch normal, the control points and the per-branch curve shape are counted as draws only.
- Colours are RGB triples of reals. The parsing of `#rrggbb` texts, the sRGB-to-linear conversion three.js applies and the hex quantisation of `getHexString` are not modelled, so a blended colour is not rounded to 8 bits.
- Palette.ResolveEmotionPalette: its colours are unrounded reals, for the reason above.
- The React UI is not modelled: rendering, animation, focus handling, the dropdown, and the `useMemo` and `useEffect` scheduling. Only each hook's computed value or state change is modelled.
- Supabase, the Anthropic analysis, `revalidatePath`, `console.error` and cookies are left out. Their results are the `EntryActions.Backend` inputs, and the middleware's session lookup is a boolean input.
- The unseeded `Math.random()` of the ground and grass scatter is not modelled. The leaf one at tree-model.tsx:311 is the `useAssigned` oracle.
- NaN, infinities, `undefined` numbers and other non-number values are not modelled. Numbers are exact reals or integers.
- The JavaScript `in` operator and object indexing also accept inherited names such as "constructor". The model looks up only the record's own keys, which is what the source evidently means.
- Lengths count Dafny characters, not UTF-16 code units. Text outside the Basic Multilingual Plane would count once here and twice in the source.
- Case mapping is ASCII only. `toLowerCase` and `toUpperCase` of non-ASCII letters are left out.
- EntryActions.ValidateEntry: `formData.get` may also return a `File`. A missing field is modelled as one error message (`NotAStringMessage`), whose exact wording belongs to the validation library.
- Middleware.HandleRequest: the Next.js matcher patterns are read as "the path equals the base or lies below it". The framework's full pattern language is not modelled.
- The `tree_snapshot`, `updated_at` and `user_id` columns of the tree-state row are never read by the mapping. They are absent from the modelled row.
- The taper loops also re-centre each vertex on the curve point at `uv.y` (`getPointAt`). Vertex positions are not modelled, so only the radius each vertex gets is; the model states it for both readings of `t` (see Findings).
- `clamp` from `lib/utils/math` is not part of this model. It is assumed to be `min(hi, max(lo, v))`.

## Findings

| source | as written | input that shows it | evidently intended | confidence | as-written member | corrected member |
|---|---|---|---|---|---|---|
| sapling/components/tree/tree-model.tsx:60-61 | `seed % M` keeps the sign of the seed. Adding M−1 to a non-positive remainder gives 0 when the remainder is −(M−1), and 0 is a fixed point of the recurrence | seed −2147483646: the state is 0, so every draw is −1/2147483646. Every branch then gets `1 + floor(r·3) = 0` twigs (line 197), and the first cluster reads `branches[floor(r·n)] = branches[-1]` (line 299), whose `.geometry` is read from `undefined`: building the tree throws | every integer seed maps to a state in [1, M−1], so every draw lies in [0, 1) | not executed | Prng.InitialState (with Prng.DegenerateSeed, Prng.DegenerateSeedExample, Growth.DegenerateDrawsIndexBeforeStart) | Prng.SeedState (with Prng.SeededStreamInUnitInterval) |
| sapling/app/journal/actions.ts:70 | `createSupabaseServerClient()` is async but not awaited, so `supabase.auth` is undefined. Reading `getSession` from it throws inside the outer `try` | title "", content "hello", mood "", with every backend call succeeding: the answer is "Something went wrong. Please try again." and nothing is saved | the client is awaited; a valid form with a session is inserted, and the action answers "Entry saved and analyzed." | not executed | EntryActions.CreateJournalEntryAsWritten (with EntryActions.AsWrittenNeverSaves, EntryActions.MissingAwaitCounterexample) | EntryActions.CreateJournalEntry |
| sapling/components/tree/tree-model.tsx:106-112 | the trunk's taper loop, and likewise those at lines 176-182, 225-231 and 265-271, evaluates its radius law at `t = uv.y`. A three.js tube sets `uv.x` to the fraction along the tube and `uv.y` to the fraction around it, so the radius changes with the angle around each ring | any ring of a branch tube with 36 by 14 segments: the vertex at `uv.y = 0` is 0.24 from the curve and the one at `uv.y = 1` is 0.07, while the base and tip rings are alike | the radius law is read at `uv.x`, so every ring is round and the tube narrows from base to tip, as the comments "natural taper" and "Taper the root strongly towards the end" say | not executed | Taper.VertexRadiusAsWritten (with Taper.AsWrittenRingNotRound, Taper.AsWrittenNoTaperAlongTube, Taper.BranchTubeExample) | Taper.VertexRadius (with Taper.RingsAreRound, Taper.RingsNarrowTowardTip) |
