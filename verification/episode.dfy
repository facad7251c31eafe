/** The mutable fields of the brock task, held as one immutable record that
    every step function takes and returns. */
module Episode {

  /** Sentinel stored in `enemyHp` before any enemy HP has been observed. */
  const UnknownEnemyHp: real := -1.0

  /** Exploration memory and combat tracker of one task instance.
      `visitedCoord` is keyed by `(x, y)` only, without the map. */
  datatype EpisodeState = EpisodeState(
    visitedCoord: set<(int, int)>,
    visitedMap: set<int>,
    attackCount: nat,
    enemyHp: real)

  /** A reward together with the state after the step that earned it. */
  datatype Outcome = Outcome(reward: real, state: EpisodeState)

  /** The combat tracker holds either the sentinel or a real (non-negative)
      HP fraction, and a streak can only exist once an HP has been seen. */
  predicate Valid(s: EpisodeState)
  {
    && (s.enemyHp == UnknownEnemyHp || s.enemyHp >= 0.0)
    && (s.enemyHp == UnknownEnemyHp ==> s.attackCount == 0)
  }

  /** The state a freshly constructed task starts in. */
  function Initial(): (s: EpisodeState)
    ensures s.visitedCoord == {} && s.visitedMap == {}
    ensures s.attackCount == 0
    ensures s.enemyHp == UnknownEnemyHp
    ensures Valid(s)
  {
    EpisodeState({}, {}, 0, UnknownEnemyHp)
  }

  /** Both exploration sets emptied; the combat tracker is left as it is. */
  function ClearVisited(s: EpisodeState): (r: EpisodeState)
    ensures r.visitedCoord == {} && r.visitedMap == {}
    ensures r.attackCount == s.attackCount && r.enemyHp == s.enemyHp
    ensures Valid(s) ==> Valid(r)
  {
    s.(visitedCoord := {}, visitedMap := {})
  }
}
