/** The integer and real skeleton of `buildTreeGeometry`
    (components/tree/tree-model.tsx): how many branches, twigs, roots, leaf
    clusters and leaves the tree gets, what each hangs from, and the
    parameters drawn for each. Curves, tubes and vectors are not modelled.

    The seeded generator is a draw stream `rand` read through a cursor: every
    `rand()` call of the source, including the ones that only feed the
    geometry, advances the cursor by one, so each value below is taken from
    the same position of the stream as in the source. The unseeded
    `Math.random() < 0.6` that decides whether a leaf keeps its assigned
    branch is the separate oracle `useAssigned`. */
module Growth {
  import opened Basics
  import opened Prng
  import Palette

  /** The fields of the tree state the growth plan reads. `seed`,
      `sentimentScore`, the palette's `windStrength` and the dominant-colour
      flag are read by `buildTreeGeometry` (tree-model.tsx:69, 119, 284, 330)
      but are not declared by `TreeVisualState` (lib/tree/state.ts:6-12) and
      not filled by `mapRowToVisualState`; here they are assumed inputs. */
  datatype TreeInput = TreeInput(
    branchCount: int,
    leafCount: int,
    sentimentScore: real,
    seed: int,
    windStrength: real,
    hasDominantColors: bool)   // some dominant emotion carries a colour text

  /** A value computed from the stream and the cursor just after it. */
  datatype Step<T> = Step(value: T, next: nat)

  /** Two draws per trunk segment, eight segments. */
  const TrunkDraws: nat := 16

  /** `Math.floor(rand() * n)` as an index below `n`. */
  function DrawIndex(r: real, n: nat): (j: nat)
    requires 0.0 <= r < 1.0 && n > 0
    ensures j < n
  {
    FloorScaledIndex(r, n);
    Floor(r * n as real) as nat
  }

  // ---------------------------------------------------------------------
  // Counts

  /** `Math.max(4, Math.min(10, state.branchCount + 2))`. */
  function BranchTotal(requested: int): (n: int)
    ensures 4 <= n <= 10
    ensures 2 <= requested <= 8 ==> n == requested + 2
    ensures requested < 2 ==> n == 4
    ensures requested > 8 ==> n == 10
  {
    MaxInt(4, MinInt(10, requested + 2))
  }

  /** Branches with an index below this bound grow from the trunk:
      `Math.max(3, Math.floor(branchCount * 0.4))`. */
  function TrunkAttached(n: int): int
  {
    MaxInt(3, Floor(n as real * 0.4))
  }

  /** For every possible branch total, three or four branches grow from the
      trunk and at least one grows from another branch. */
  lemma TrunkAttachedRange(n: int)
    requires 4 <= n <= 10
    ensures 3 <= TrunkAttached(n) <= 4
    ensures TrunkAttached(n) < n
    ensures n <= 9 ==> TrunkAttached(n) == 3
    ensures n == 10 ==> TrunkAttached(n) == 4
  {
    var x := n as real * 0.4;
    assert Floor(x) as real <= x < Floor(x) as real + 1.0;
  }

  /** `Math.min(260, Math.max(120, Math.round(state.leafCount * 1.8)))`. */
  function LeafTotal(leafCount: int): (n: int)
    ensures 120 <= n <= 260
    ensures 67 <= leafCount <= 144 ==> n == Round(leafCount as real * 1.8)
    ensures leafCount < 67 ==> n == 120
    ensures leafCount > 144 ==> n == 260
  {
    MinInt(260, MaxInt(120, Round(leafCount as real * 1.8)))
  }

  /** `Math.max(4, Math.floor(leafCount / 40))` for the clamped leaf total. */
  function ClusterTotal(leaves: int): (n: int)
    requires 120 <= leaves <= 260
    ensures 4 <= n <= 6
    ensures leaves >= 160 ==> n == leaves / 40
    ensures leaves < 160 ==> n == 4
  {
    MaxInt(4, leaves / 40)
  }

  // ---------------------------------------------------------------------
  // Twigs

  datatype TwigPlan = TwigPlan(baseT: real, length: real)

  /** Draws of one twig: base `t`, three for the normal seed, the side angle,
      the length and three for the end offset. */
  const TwigDraws: nat := 9

  function TwigAt(rand: nat -> real, sf: real, c: nat): (tw: TwigPlan)
    requires UnitStream(rand) && 0.0 <= sf <= 1.0
    ensures 0.55 <= tw.baseT <= 0.95
    ensures tw.length > 0.35
  {
    var baseT := Clamp(0.55 + rand(c) * 0.4, 0.55, 0.95);
    TwigPlan(baseT, 0.45 + sf * 0.35 + (1.0 - baseT) * 0.25 + (rand(c + 5) - 0.5) * 0.15)
  }

  /** `count` twigs drawn one after the other from cursor `c`. */
  function Twigs(rand: nat -> real, sf: real, c: nat, count: nat): (ts: seq<TwigPlan>)
    requires UnitStream(rand) && 0.0 <= sf <= 1.0
    ensures |ts| == count
    ensures forall j :: 0 <= j < count ==> ts[j] == TwigAt(rand, sf, c + j * TwigDraws)
    ensures forall j :: 0 <= j < count ==> 0.55 <= ts[j].baseT <= 0.95 && ts[j].length > 0.35
  {
    seq(count, j requires 0 <= j < count => TwigAt(rand, sf, c + j * TwigDraws))
  }

  // ---------------------------------------------------------------------
  // Branches

  datatype Attachment = OnTrunk | OnBranch(parent: nat)

  datatype BranchPlan = BranchPlan(attachment: Attachment, baseT: real, length: real, twigs: seq<TwigPlan>)

  /** What the source promises of branch `i` out of `n`. */
  predicate BranchOk(n: int, i: nat, b: BranchPlan)
    requires n > 0
  {
    (b.attachment.OnTrunk? <==> i < TrunkAttached(n))
    && (b.attachment.OnTrunk? ==>
          b.baseT == 0.2 + (i as real / n as real) * 0.6 && 0.2 <= b.baseT < 0.8
          && 1 <= |b.twigs| <= 3)
    && (b.attachment.OnBranch? ==>
          b.attachment.parent < i && 0.55 <= b.baseT <= 0.9 && |b.twigs| == 0)
    && b.length > 0.9
    && forall j :: 0 <= j < |b.twigs| ==> 0.55 <= b.twigs[j].baseT <= 0.95 && b.twigs[j].length > 0.35
  }

  /** `i / n` for `0 <= i < n` lies in [0, 1). */
  lemma FractionBelowOne(i: nat, n: int)
    requires i < n
    ensures 0.0 <= i as real / n as real < 1.0
  {
  }

  /** Branch `i` of `n`, drawn from cursor `k`. A trunk branch uses three
      draws for its normal seed, one for its length, one for the second
      normal's angle, one for the second control point, three for its end and
      one for its twig count, then its twigs; a branch on a branch uses one
      for its parent, one for its base `t`, three for the normal seed and one
      for its length. */
  function BranchAt(rand: nat -> real, sf: real, n: int, i: nat, k: nat): (s: Step<BranchPlan>)
    requires UnitStream(rand) && 0.0 <= sf <= 1.0
    requires 4 <= n <= 10 && i < n
    ensures BranchOk(n, i, s.value)
    ensures s.value.attachment.OnTrunk? ==> s.next == k + 10 + |s.value.twigs| * TwigDraws
    ensures s.value.attachment.OnBranch? ==> s.next == k + 6
  {
    TrunkAttachedRange(n);
    if i < TrunkAttached(n) then
      FractionBelowOne(i, n);
      var baseT := 0.2 + (i as real / Max(n as real, 1.0)) * 0.6;
      var length := 1.1 + sf * 0.9 + (1.0 - baseT) * 0.6 + (rand(k + 3) - 0.5) * 0.35;
      var twigCount := 1 + DrawIndex(rand(k + 9), 3);
      Step(BranchPlan(OnTrunk, baseT, length, Twigs(rand, sf, k + 10, twigCount)), k + 10 + twigCount * TwigDraws)
    else
      var parent := DrawIndex(rand(k), i);
      var baseT := Clamp(0.55 + rand(k + 1) * 0.35, 0.55, 0.9);
      var length := 1.1 + sf * 0.9 + (1.0 - baseT) * 0.4 + (rand(k + 5) - 0.5) * 0.35;
      Step(BranchPlan(OnBranch(parent), baseT, length, []), k + 6)
  }

  /** Branches `i` to `n - 1`, drawn one after the other from cursor `k`. */
  function BranchesFrom(rand: nat -> real, sf: real, n: int, i: nat, k: nat): (s: Step<seq<BranchPlan>>)
    requires UnitStream(rand) && 0.0 <= sf <= 1.0
    requires 4 <= n <= 10 && i <= n
    ensures |s.value| == n - i
    ensures forall j :: 0 <= j < |s.value| ==> BranchOk(n, i + j, s.value[j])
    ensures s.next >= k
    decreases n - i
  {
    if i == n then Step([], k)
    else
      var b := BranchAt(rand, sf, n, i, k);
      var rest := BranchesFrom(rand, sf, n, i + 1, b.next);
      Step([b.value] + rest.value, rest.next)
  }

  /** The twigs of all branches, in the order they were pushed. */
  function AllTwigs(bs: seq<BranchPlan>): (ts: seq<TwigPlan>)
    ensures |bs| > 0 ==> |ts| >= |bs[0].twigs|
  {
    if |bs| == 0 then [] else bs[0].twigs + AllTwigs(bs[1..])
  }

  lemma {:induction false} AllTwigsCount(bs: seq<BranchPlan>, n: int)
    requires 4 <= n <= 10 && |bs| == n
    requires forall j :: 0 <= j < |bs| ==> BranchOk(n, j, bs[j])
    ensures |AllTwigs(bs)| >= 1
    ensures forall m :: 0 <= m < |AllTwigs(bs)| ==> 0.55 <= AllTwigs(bs)[m].baseT <= 0.95
  {
    TrunkAttachedRange(n);
    assert BranchOk(n, 0, bs[0]);
    TwigsInRange(bs);
  }

  lemma {:induction false} TwigsInRange(bs: seq<BranchPlan>)
    requires forall j :: 0 <= j < |bs| ==> forall m :: 0 <= m < |bs[j].twigs| ==> 0.55 <= bs[j].twigs[m].baseT <= 0.95
    ensures forall m :: 0 <= m < |AllTwigs(bs)| ==> 0.55 <= AllTwigs(bs)[m].baseT <= 0.95
  {
    if |bs| > 0 {
      TwigsInRange(bs[1..]);
      assert forall m :: 0 <= m < |bs[0].twigs| ==> 0.55 <= bs[0].twigs[m].baseT <= 0.95;
    }
  }

  // ---------------------------------------------------------------------
  // Roots

  datatype RootPlan = RootPlan(baseT: real)

  /** Draws of one root: angle jitter, base `t`, control and end distances. */
  const RootDraws: nat := 4

  function RootAt(rand: nat -> real, c: nat): (r: RootPlan)
    requires UnitStream(rand)
    ensures 0.02 <= r.baseT < 0.07
  {
    RootPlan(Clamp(0.02 + rand(c + 1) * 0.05, 0.0, 0.1))
  }

  /** `4 + Math.floor(rand() * 3)` roots, drawn after their count. */
  function Roots(rand: nat -> real, k: nat): (s: Step<seq<RootPlan>>)
    requires UnitStream(rand)
    ensures 4 <= |s.value| <= 6
    ensures forall r :: 0 <= r < |s.value| ==> 0.0 <= s.value[r].baseT <= 0.1
    ensures s.next == k + 1 + |s.value| * RootDraws
  {
    var count := 4 + DrawIndex(rand(k), 3);
    Step(seq(count, r requires 0 <= r < count => RootAt(rand, k + 1 + r * RootDraws)), k + 1 + count * RootDraws)
  }

  // ---------------------------------------------------------------------
  // Leaf clusters

  datatype ClusterPlan = ClusterPlan(onTwig: bool, source: nat, tCenter: real)

  predicate ClusterOk(twigTotal: nat, branchTotal: nat, c: ClusterPlan)
  {
    (c.onTwig ==> twigTotal > 0 && c.source < twigTotal && 0.7 <= c.tCenter <= 0.98)
    && (!c.onTwig ==> c.source < branchTotal && 0.45 <= c.tCenter <= 0.95)
  }

  /** One cluster: the twig-or-branch draw happens only when a twig exists,
      then one draw picks the curve and one its centre. */
  function ClusterAt(rand: nat -> real, twigTotal: nat, branchTotal: nat, c: nat): (cl: ClusterPlan)
    requires UnitStream(rand) && branchTotal > 0
    ensures ClusterOk(twigTotal, branchTotal, cl)
  {
    var useTwig := twigTotal > 0 && rand(c) < 0.6;
    var d := if twigTotal > 0 then c + 1 else c;
    if useTwig then
      ClusterPlan(true, DrawIndex(rand(d), twigTotal), Clamp(0.7 + rand(d + 1) * 0.28, 0.7, 0.98))
    else
      ClusterPlan(false, DrawIndex(rand(d), branchTotal), Clamp(0.45 + rand(d + 1) * 0.45, 0.45, 0.95))
  }

  function ClusterDraws(twigTotal: nat): nat
  {
    if twigTotal > 0 then 3 else 2
  }

  function Clusters(rand: nat -> real, twigTotal: nat, branchTotal: nat, count: nat, k: nat): (s: Step<seq<ClusterPlan>>)
    requires UnitStream(rand) && branchTotal > 0
    ensures |s.value| == count
    ensures forall j :: 0 <= j < count ==> ClusterOk(twigTotal, branchTotal, s.value[j])
    ensures s.next == k + count * ClusterDraws(twigTotal)
  {
    var d := ClusterDraws(twigTotal);
    Step(seq(count, j requires 0 <= j < count => ClusterAt(rand, twigTotal, branchTotal, k + j * d)), k + count * d)
  }

  // ---------------------------------------------------------------------
  // Leaves

  datatype CurveRef = BranchCurve(index: nat) | TwigCurve(index: nat)

  predicate CurveValid(curve: CurveRef, branchTotal: nat, twigTotal: nat)
  {
    match curve
    case BranchCurve(j) => j < branchTotal
    case TwigCurve(j) => j < twigTotal
  }

  function ClusterCurve(c: ClusterPlan): CurveRef
  {
    if c.onTwig then TwigCurve(c.source) else BranchCurve(c.source)
  }

  /** `0.32 + rand() * 0.6 + sentimentFactor * 0.22`. */
  function LeafScale(r: real, sf: real): (s: real)
    requires 0.0 <= r < 1.0 && 0.0 <= sf <= 1.0
    ensures 0.32 <= s < 1.14
  {
    0.32 + r * 0.6 + sf * 0.22
  }

  /** A happier tree never has smaller leaves for the same draw. */
  lemma LeafScaleMonotone(r: real, sf1: real, sf2: real)
    requires 0.0 <= r < 1.0 && 0.0 <= sf1 <= sf2 <= 1.0
    ensures LeafScale(r, sf1) <= LeafScale(r, sf2)
  {
  }

  /** `0.06 + rand() * 0.12 + windStrength * 0.05`. */
  function SwayAmplitude(r: real, wind: real): (a: real)
    requires 0.0 <= r < 1.0
    ensures a < 0.18 + wind * 0.05
    ensures wind >= 0.0 ==> a >= 0.06
  {
    0.06 + r * 0.12 + wind * 0.05
  }

  datatype LeafPlan = LeafPlan(
    useAssigned: bool,
    curve: CurveRef,
    t: real,
    scale: real,
    swayAmplitude: real,
    swaySpeed: real,
    swayTurn: real)   // the sway offset is `swayTurn * 2 * PI`

  /** Everything a leaf reads besides the stream. */
  datatype LeafContext = LeafContext(
    branchTotal: nat,
    twigTotal: nat,
    clusters: seq<ClusterPlan>,
    sf: real,
    wind: real,
    hasDominantColors: bool)

  predicate ContextOk(ctx: LeafContext)
  {
    ctx.branchTotal > 0 && |ctx.clusters| > 0 && 0.0 <= ctx.sf <= 1.0
    && forall j :: 0 <= j < |ctx.clusters| ==> ClusterOk(ctx.twigTotal, ctx.branchTotal, ctx.clusters[j])
  }

  /** What the source promises of leaf `i`. */
  predicate LeafOk(ctx: LeafContext, i: nat, leaf: LeafPlan)
    requires ctx.branchTotal > 0
  {
    (leaf.useAssigned ==> leaf.curve == BranchCurve(i % ctx.branchTotal))
    && CurveValid(leaf.curve, ctx.branchTotal, ctx.twigTotal)
    && 0.05 <= leaf.t <= 0.98
    && 0.32 <= leaf.scale < 1.14
    && leaf.swayAmplitude < 0.18 + ctx.wind * 0.05
    && (ctx.wind >= 0.0 ==> leaf.swayAmplitude >= 0.06)
    && 0.0 <= leaf.swayTurn < 1.0
  }

  /** Leaf `i`, drawn from cursor `k`. A leaf that leaves its assigned branch
      spends one extra draw on the cluster whose curve it takes, and takes
      its base `t` from a cluster picked by a further, independent draw. */
  function LeafAt(rand: nat -> real, useAssigned: nat -> bool, ctx: LeafContext, i: nat, k: nat): (s: Step<LeafPlan>)
    requires UnitStream(rand) && ContextOk(ctx)
    ensures LeafOk(ctx, i, s.value)
    ensures s.value.useAssigned == useAssigned(i)
    ensures s.next >= k + 15
  {
    var n := |ctx.clusters|;
    var o := if useAssigned(i) then 0 else 1;
    var curve :=
      if useAssigned(i) then BranchCurve(i % ctx.branchTotal)
      else ClusterCurve(ctx.clusters[DrawIndex(rand(k), n)]);
    var baseT :=
      if useAssigned(i) then Clamp(0.35 + (i % 7) as real * 0.08 + rand(k) * 0.1, 0.2, 0.95)
      else ctx.clusters[DrawIndex(rand(k + 1), n)].tCenter;
    var t := Clamp(baseT + (rand(k + o + 1) - 0.5) * 0.12, 0.05, 0.98);
    var m := k + o + 12;
    var afterColor := if !ctx.hasDominantColors then m else if rand(m) < 0.35 then m + 2 else m + 1;
    Step(LeafPlan(
           useAssigned(i), curve, t,
           LeafScale(rand(k + o + 7), ctx.sf),
           SwayAmplitude(rand(k + o + 8), ctx.wind),
           0.6 + rand(k + o + 9) * 0.7 + ctx.wind * 0.9,
           rand(k + o + 10)),
         afterColor + 3)
  }

  /** Leaves `i` to `total - 1`, drawn one after the other from cursor `k`. */
  function LeavesFrom(rand: nat -> real, useAssigned: nat -> bool, ctx: LeafContext, i: nat, total: nat, k: nat): (s: Step<seq<LeafPlan>>)
    requires UnitStream(rand) && ContextOk(ctx) && i <= total
    ensures |s.value| == total - i
    ensures forall j :: 0 <= j < |s.value| ==> LeafOk(ctx, i + j, s.value[j]) && s.value[j].useAssigned == useAssigned(i + j)
    ensures s.next >= k
    decreases total - i
  {
    if i == total then Step([], k)
    else
      var leaf := LeafAt(rand, useAssigned, ctx, i, k);
      var rest := LeavesFrom(rand, useAssigned, ctx, i + 1, total, leaf.next);
      Step([leaf.value] + rest.value, rest.next)
  }

  // ---------------------------------------------------------------------
  // The whole plan

  datatype TreePlan = TreePlan(
    branches: seq<BranchPlan>,
    twigs: seq<TwigPlan>,
    roots: seq<RootPlan>,
    clusters: seq<ClusterPlan>,
    leaves: seq<LeafPlan>,
    drawsUsed: nat)

  /** The plan `buildTreeGeometry` follows for a given draw stream. */
  function GrowthPlan(input: TreeInput, rand: nat -> real, useAssigned: nat -> bool): (p: TreePlan)
    requires UnitStream(rand)
    ensures |p.branches| == BranchTotal(input.branchCount)
    ensures |p.leaves| == LeafTotal(input.leafCount)
    ensures |p.clusters| == ClusterTotal(LeafTotal(input.leafCount))
    ensures 4 <= |p.roots| <= 6
  {
    var sf := Palette.SentimentFactor(input.sentimentScore);
    var n := BranchTotal(input.branchCount);
    var bs := BranchesFrom(rand, sf, n, 0, TrunkDraws);
    var twigs := AllTwigs(bs.value);
    var roots := Roots(rand, bs.next);
    var leafTotal := LeafTotal(input.leafCount);
    var cls := Clusters(rand, |twigs|, n, ClusterTotal(leafTotal), roots.next);
    var ctx := LeafContext(n, |twigs|, cls.value, sf, input.windStrength, input.hasDominantColors);
    var leaves := LeavesFrom(rand, useAssigned, ctx, 0, leafTotal, cls.next);
    TreePlan(bs.value, twigs, roots.value, cls.value, leaves.value, leaves.next)
  }

  /** The plan for the tree's own seed, through the corrected seeding, whose
      stream always lies in [0, 1). */
  function SeededGrowthPlan(input: TreeInput, useAssigned: nat -> bool): TreePlan
  {
    SeededStreamInUnitInterval(input.seed);
    GrowthPlan(input, Stream(SeedState(input.seed)), useAssigned)
  }

  /** What the source promises of every structure of the plan: branch
      attachment, parent and base `t`; twig counts and ranges; root,
      cluster and leaf ranges. */
  lemma GrowthPlanBounds(input: TreeInput, rand: nat -> real, useAssigned: nat -> bool)
    requires UnitStream(rand)
    ensures var p := GrowthPlan(input, rand, useAssigned);
            var n := |p.branches|;
            && (forall i :: 0 <= i < n ==> BranchOk(n, i, p.branches[i]))
            && |p.twigs| >= 1
            && (forall m :: 0 <= m < |p.twigs| ==> 0.55 <= p.twigs[m].baseT <= 0.95)
            && (forall r :: 0 <= r < |p.roots| ==> 0.0 <= p.roots[r].baseT <= 0.1)
            && 4 <= |p.clusters| <= 6
            && (forall j :: 0 <= j < |p.clusters| ==> ClusterOk(|p.twigs|, n, p.clusters[j]))
            && (forall i :: 0 <= i < |p.leaves| ==>
                  LeafOk(LeafContext(n, |p.twigs|, p.clusters, Palette.SentimentFactor(input.sentimentScore),
                                     input.windStrength, input.hasDominantColors), i, p.leaves[i])
                  && p.leaves[i].useAssigned == useAssigned(i))
  {
    var n := BranchTotal(input.branchCount);
    var sf := Palette.SentimentFactor(input.sentimentScore);
    var bs := BranchesFrom(rand, sf, n, 0, TrunkDraws);
    assert forall i :: 0 <= i < n ==> BranchOk(n, 0 + i, bs.value[i]);
    AllTwigsCount(bs.value, n);
  }

  /** Every branch index has a leaf whose assigned curve is that branch:
      leaf `j` for branch `j`, as there are more leaves than branches. */
  lemma EveryBranchHasAssignedLeaf(input: TreeInput, rand: nat -> real, useAssigned: nat -> bool, j: nat)
    requires UnitStream(rand)
    requires j < |GrowthPlan(input, rand, useAssigned).branches|
    ensures var p := GrowthPlan(input, rand, useAssigned);
            j < |p.leaves| && (useAssigned(j) ==> p.leaves[j].curve == BranchCurve(j))
  {
    var p := GrowthPlan(input, rand, useAssigned);
    var n := |p.branches|;
    GrowthPlanBounds(input, rand, useAssigned);
    var ctx := LeafContext(n, |p.twigs|, p.clusters, Palette.SentimentFactor(input.sentimentScore),
                           input.windStrength, input.hasDominantColors);
    assert j < n <= 10 < 120 <= |p.leaves|;
    assert LeafOk(ctx, j, p.leaves[j]) && p.leaves[j].useAssigned == useAssigned(j);
    ModOfSmaller(j, n);
  }

  lemma ModOfSmaller(j: nat, n: int)
    requires j < n
    ensures j % n == j
  {
  }

  /** The unseeded oracle decides nothing but the leaves: branches, twigs,
      roots and clusters depend on the seeded stream alone. */
  lemma OracleOnlyAffectsLeaves(input: TreeInput, rand: nat -> real, a1: nat -> bool, a2: nat -> bool)
    requires UnitStream(rand)
    ensures var p1, p2 := GrowthPlan(input, rand, a1), GrowthPlan(input, rand, a2);
            p1.branches == p2.branches && p1.twigs == p2.twigs
            && p1.roots == p2.roots && p1.clusters == p2.clusters
  {
    PlanWithoutLeaves(input, rand, a1);
    PlanWithoutLeaves(input, rand, a2);
  }

  /** Every part of the plan but the leaves, which are drawn last. */
  lemma PlanWithoutLeaves(input: TreeInput, rand: nat -> real, useAssigned: nat -> bool)
    requires UnitStream(rand)
    ensures var p := GrowthPlan(input, rand, useAssigned);
            var sf := Palette.SentimentFactor(input.sentimentScore);
            var n := BranchTotal(input.branchCount);
            var bs := BranchesFrom(rand, sf, n, 0, TrunkDraws);
            var roots := Roots(rand, bs.next);
            p.branches == bs.value && p.twigs == AllTwigs(bs.value) && p.roots == roots.value
            && p.clusters == Clusters(rand, |AllTwigs(bs.value)|, n, ClusterTotal(LeafTotal(input.leafCount)), roots.next).value
  {
  }

  // ---------------------------------------------------------------------
  // The degenerate seed

  /** From the zero state every draw is `-1/(M-1)`: a branch near the trunk
      then gets `1 + floor(r * 3) == 0` twigs, and a scaled index into any
      list shorter than `M - 1` is -1, which names no element, so the cluster
      step of the source reads past the start of its branch list. */
  lemma DegenerateDrawsIndexBeforeStart(n: nat)
    requires 1 <= n < Modulus - 1
    ensures Floor(Output(0) * n as real) == -1
    ensures 1 + Floor(Output(0) * 3.0) == 0
  {
  }
}
