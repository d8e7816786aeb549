/** The mapping of lib/tree/state.ts from a persisted `tree_state` row
    (types/database.ts) to the state the tree is drawn from. Fields the
    mapping never reads (`tree_snapshot`, `updated_at`, `user_id`) are not
    part of the row here; a field the source guards with `??` may be missing. */
module TreeState {
  import opened Basics
  import opened Visuals

  datatype TreeStateRow = TreeStateRow(
    branchCount: Option<int>,
    leafCount: Option<int>,
    overallHealth: Option<real>,
    lastEmotion: Option<string>,
    streakLength: Option<int>)

  datatype TreeVisualState = TreeVisualState(
    branchCount: int,
    leafCount: int,
    overallHealth: real,
    lastEmotion: Option<string>,
    streakLength: int)

  /** `defaultTreeVisualState`. */
  const DefaultTreeVisualState: TreeVisualState := TreeVisualState(3, 30, 0.5, None, 0)

  /** The invariant every mapped state satisfies. */
  predicate WellFormed(s: TreeVisualState)
  {
    s.branchCount >= 3 && s.leafCount >= 20 && 0.0 <= s.overallHealth <= 1.0
  }

  /** `mapRowToVisualState`: a missing row gives the default state; otherwise
      the counts are raised to their minimums, the health is normalised and
      the emotion and streak are copied. */
  function MapRowToVisualState(row: Option<TreeStateRow>): (s: TreeVisualState)
    ensures WellFormed(s)
    ensures row.None? ==> s == DefaultTreeVisualState
    ensures row.Some? ==>
              s.lastEmotion == row.value.lastEmotion
              && s.streakLength == row.value.streakLength.GetOr(0)
              && (s.branchCount == 3 || row.value.branchCount == Some(s.branchCount))
              && s.branchCount >= row.value.branchCount.GetOr(0)
              && (s.leafCount == 20 || row.value.leafCount == Some(s.leafCount))
              && s.leafCount >= row.value.leafCount.GetOr(0)
              && s.overallHealth == NormalizeHealth(row.value.overallHealth)
  {
    match row
    case None => DefaultTreeVisualState
    case Some(r) =>
      TreeVisualState(
        MaxInt(r.branchCount.GetOr(0), 3),
        MaxInt(r.leafCount.GetOr(0), 20),
        NormalizeHealth(r.overallHealth),
        r.lastEmotion,
        r.streakLength.GetOr(0))
  }

  /** The row a state would be stored as. */
  function RowOf(s: TreeVisualState): (row: TreeStateRow)
    ensures row.lastEmotion == s.lastEmotion
  {
    TreeStateRow(Some(s.branchCount), Some(s.leafCount), Some(s.overallHealth), s.lastEmotion, Some(s.streakLength))
  }

  /** Storing a well-formed state and mapping it back gives it unchanged. */
  lemma MapRowOfWellFormed(s: TreeVisualState)
    requires WellFormed(s)
    ensures MapRowToVisualState(Some(RowOf(s))) == s
  {
  }

  /** Mapping is idempotent: a row rebuilt from a mapped state maps back to
      the same state. */
  lemma MapRowIdempotent(row: Option<TreeStateRow>)
    ensures MapRowToVisualState(Some(RowOf(MapRowToVisualState(row)))) == MapRowToVisualState(row)
  {
    MapRowOfWellFormed(MapRowToVisualState(row));
  }

  /** A stored row that already meets the minimums is kept as it is, a
      negative streak included: the streak is not clamped. */
  lemma MapRowKeepsValidRow(r: TreeStateRow, b: int, l: int, h: real, k: int)
    requires r.branchCount == Some(b) && b >= 3
    requires r.leafCount == Some(l) && l >= 20
    requires r.overallHealth == Some(h) && 0.0 <= h <= 1.0
    requires r.streakLength == Some(k)
    ensures MapRowToVisualState(Some(r)) == TreeVisualState(b, l, h, r.lastEmotion, k)
  {
  }
}
