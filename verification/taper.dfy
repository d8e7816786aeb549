/** The radius profiles `buildTreeGeometry` (components/tree/tree-model.tsx)
    imposes on its tubes: each vertex whose texture coordinate `uv.y` is `t`
    is moved to distance `max(floor, base - slope * t)` from the curve point
    at `t`. A three.js tube sets `uv.x` to the fraction of the way along the
    tube and `uv.y` to the fraction of the way around it, so as written the
    radius varies around each ring instead of from base to tip; the tube
    vertices below model both readings. The meshes and curves themselves are
    not modelled, only the radius laws. */
module Taper {
  import opened Basics

  /** `Math.max(floor, base - t * slope)`. */
  function TaperRadius(base: real, slope: real, floor: real, t: real): (r: real)
    ensures r >= floor && r >= base - slope * t
    ensures r == floor || r == base - slope * t
  {
    Max(floor, base - t * slope)
  }

  /** The trunk: thick at the base, thicker for a healthier tree. */
  function TrunkRadius(t: real, health: real): real
  {
    TaperRadius(0.62 + health * 0.1, 0.38, 0.12, t)
  }

  function BranchRadius(t: real): real { TaperRadius(0.24, 0.17, 0.04, t) }

  function TwigRadius(t: real): real { TaperRadius(0.12, 0.09, 0.015, t) }

  function RootRadius(t: real): real { TaperRadius(0.16, 0.14, 0.012, t) }

  /** A radius never grows as its parameter grows. */
  lemma TaperNonIncreasing(base: real, slope: real, floor: real, t1: real, t2: real)
    requires slope >= 0.0 && t1 <= t2
    ensures TaperRadius(base, slope, floor, t2) <= TaperRadius(base, slope, floor, t1)
  {
    var d := t2 - t1;
    assert t2 * slope == t1 * slope + d * slope;
    ProductAtLeastZero(d, slope);
  }

  lemma ProductAtLeastZero(a: real, b: real)
    requires a >= 0.0 && b >= 0.0
    ensures a * b >= 0.0
  {
  }

  /** On [0, 1] the linear profile stays above its floor whenever it ends
      above it, so the floor never binds there. */
  lemma TaperFloorUnbound(base: real, slope: real, floor: real, t: real)
    requires 0.0 <= slope && 0.0 <= t <= 1.0
    requires base - slope > floor
    ensures TaperRadius(base, slope, floor, t) == base - slope * t
  {
    assert t * slope <= slope by { ProductAtLeastZero(1.0 - t, slope); }
  }

  /** The four radius laws of the tree: each is at least its floor, never
      grows with its parameter, and for `t` (and the health) in [0, 1] is the
      plain linear taper. */
  lemma TreeRadiiWithinRange(t: real, health: real)
    requires 0.0 <= t <= 1.0 && 0.0 <= health <= 1.0
    ensures TrunkRadius(t, health) == 0.62 - 0.38 * t + 0.1 * health
    ensures BranchRadius(t) == 0.24 - 0.17 * t
    ensures TwigRadius(t) == 0.12 - 0.09 * t
    ensures RootRadius(t) == 0.16 - 0.14 * t
  {
    TaperFloorUnbound(0.62 + health * 0.1, 0.38, 0.12, t);
    TaperFloorUnbound(0.24, 0.17, 0.04, t);
    TaperFloorUnbound(0.12, 0.09, 0.015, t);
    TaperFloorUnbound(0.16, 0.14, 0.012, t);
  }

  lemma TreeRadiiNonIncreasing(t1: real, t2: real, health: real)
    requires t1 <= t2
    ensures TrunkRadius(t2, health) <= TrunkRadius(t1, health)
    ensures BranchRadius(t2) <= BranchRadius(t1)
    ensures TwigRadius(t2) <= TwigRadius(t1)
    ensures RootRadius(t2) <= RootRadius(t1)
  {
    TaperNonIncreasing(0.62 + health * 0.1, 0.38, 0.12, t1, t2);
    TaperNonIncreasing(0.24, 0.17, 0.04, t1, t2);
    TaperNonIncreasing(0.12, 0.09, 0.015, t1, t2);
    TaperNonIncreasing(0.16, 0.14, 0.012, t1, t2);
  }

  // ---------------------------------------------------------------------
  // Tube vertices

  /** The four tubes of the tree, each with its radius law. */
  datatype Tube = TrunkTube(health: real) | BranchTube | TwigTube | RootTube

  function LawRadius(tube: Tube, t: real): real
  {
    match tube
    case TrunkTube(health) => TrunkRadius(t, health)
    case BranchTube => BranchRadius(t)
    case TwigTube => TwigRadius(t)
    case RootTube => RootRadius(t)
  }

  /** A vertex of a three.js tube with `tubular` segments along it and
      `radial` segments around it: ring `i`, position `j` on the ring. Its
      texture coordinate is `(i / tubular, j / radial)`. */
  datatype TubeVertex = TubeVertex(ring: nat, spoke: nat)

  predicate OnTube(v: TubeVertex, tubular: nat, radial: nat)
  {
    tubular > 0 && radial > 0 && v.ring <= tubular && v.spoke <= radial
  }

  /** `uv.x`: how far along the tube the vertex lies. */
  function Along(v: TubeVertex, tubular: nat): real
    requires tubular > 0
  {
    v.ring as real / tubular as real
  }

  /** `uv.y`: how far around its ring the vertex lies. */
  function Around(v: TubeVertex, radial: nat): real
    requires radial > 0
  {
    v.spoke as real / radial as real
  }

  /** As written: the radius law is evaluated at `uv.y`. */
  function VertexRadiusAsWritten(tube: Tube, v: TubeVertex, tubular: nat, radial: nat): (r: real)
    requires OnTube(v, tubular, radial)
    ensures r >= 0.012
  {
    LawRadius(tube, Around(v, radial))
  }

  /** Corrected: the radius law is evaluated at `uv.x`, so every ring is
      round and the tube narrows from base to tip. */
  function VertexRadius(tube: Tube, v: TubeVertex, tubular: nat, radial: nat): (r: real)
    requires OnTube(v, tubular, radial)
    ensures r >= 0.012
  {
    LawRadius(tube, Along(v, tubular))
  }

  /** Read at `uv.x`, every ring is round: all its vertices share one radius. */
  lemma RingsAreRound(tube: Tube, v: TubeVertex, w: TubeVertex, tubular: nat, radial: nat)
    requires OnTube(v, tubular, radial) && OnTube(w, tubular, radial)
    requires v.ring == w.ring
    ensures VertexRadius(tube, v, tubular, radial) == VertexRadius(tube, w, tubular, radial)
  {
  }

  lemma AlongInUnit(v: TubeVertex, tubular: nat, radial: nat)
    requires OnTube(v, tubular, radial)
    ensures 0.0 <= Along(v, tubular) <= 1.0
  {
  }

  /** With the law read at `uv.x`, a ring further along the tube is never
      wider, and for a health in [0, 1] it is strictly narrower. */
  lemma RingsNarrowTowardTip(tube: Tube, v: TubeVertex, w: TubeVertex, tubular: nat, radial: nat)
    requires OnTube(v, tubular, radial) && OnTube(w, tubular, radial)
    requires v.ring < w.ring
    ensures VertexRadius(tube, w, tubular, radial) <= VertexRadius(tube, v, tubular, radial)
    ensures tube.TrunkTube? ==> 0.0 <= tube.health <= 1.0 ==>
              VertexRadius(tube, w, tubular, radial) < VertexRadius(tube, v, tubular, radial)
    ensures !tube.TrunkTube? ==>
              VertexRadius(tube, w, tubular, radial) < VertexRadius(tube, v, tubular, radial)
  {
    var a, b := Along(v, tubular), Along(w, tubular);
    assert a < b by { FractionLess(v.ring, w.ring, tubular); }
    AlongInUnit(v, tubular, radial);
    AlongInUnit(w, tubular, radial);
    var health := if tube.TrunkTube? then tube.health else 0.0;
    TreeRadiiNonIncreasing(a, b, health);
    if !tube.TrunkTube? || 0.0 <= health <= 1.0 {
      TreeRadiiWithinRange(a, health);
      TreeRadiiWithinRange(b, health);
    }
  }

  lemma FractionLess(i: nat, j: nat, n: nat)
    requires n > 0 && i < j
    ensures i as real / n as real < j as real / n as real
  {
  }

  /** As written, the first and last vertices of any ring, both at the seam,
      get different radii whenever the floor does not bind: the ring is not
      round. */
  lemma AsWrittenRingNotRound(tube: Tube, ring: nat, tubular: nat, radial: nat)
    requires tubular > 0 && radial > 0 && ring <= tubular
    requires tube.TrunkTube? ==> 0.0 <= tube.health <= 1.0
    ensures VertexRadiusAsWritten(tube, TubeVertex(ring, 0), tubular, radial)
            > VertexRadiusAsWritten(tube, TubeVertex(ring, radial), tubular, radial)
  {
    var health := if tube.TrunkTube? then tube.health else 0.0;
    TreeRadiiWithinRange(0.0, health);
    TreeRadiiWithinRange(1.0, health);
  }

  /** As written, the base ring and the tip ring have the same radius at
      every position around them: the tube does not narrow toward its tip. */
  lemma AsWrittenNoTaperAlongTube(tube: Tube, spoke: nat, tubular: nat, radial: nat)
    requires tubular > 0 && radial > 0 && spoke <= radial
    ensures VertexRadiusAsWritten(tube, TubeVertex(0, spoke), tubular, radial)
            == VertexRadiusAsWritten(tube, TubeVertex(tubular, spoke), tubular, radial)
  {
  }

  /** A branch tube of 36 by 14 segments: as written, two vertices of its
      base ring are 0.24 and 0.07 from the curve, and its base and tip rings
      match; corrected, the base ring is 0.24 all round and the tip ring 0.07. */
  lemma BranchTubeExample()
    ensures VertexRadiusAsWritten(BranchTube, TubeVertex(0, 0), 36, 14) == 0.24
    ensures VertexRadiusAsWritten(BranchTube, TubeVertex(0, 14), 36, 14) == 0.07
    ensures VertexRadiusAsWritten(BranchTube, TubeVertex(36, 14), 36, 14) == 0.07
    ensures VertexRadius(BranchTube, TubeVertex(0, 14), 36, 14) == 0.24
    ensures VertexRadius(BranchTube, TubeVertex(36, 0), 36, 14) == 0.07
  {
    TreeRadiiWithinRange(0.0, 0.0);
    TreeRadiiWithinRange(1.0, 0.0);
  }
}
