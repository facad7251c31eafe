/** Episode control: the done and truncated decisions, each of which clears
    the exploration memory when it fires. */
module Control {
  import opened GameStats
  import opened Episode
  import opened Exploration

  /** Step budget after which an episode is truncated. */
  const MaxSteps: int := 2048

  /** A boolean decision together with the state it leaves behind. */
  datatype Decision = Decision(fired: bool, state: EpisodeState)

  /** Done when the badge count rose since the previous step's snapshot. */
  function CheckIfDone(s: EpisodeState, stats: Stats, prior: Stats): (r: Decision)
    ensures r.fired <==> stats.badges > prior.badges
    ensures r.fired ==> r.state.visitedCoord == {} && r.state.visitedMap == {}
    ensures r.fired ==> r.state.attackCount == s.attackCount && r.state.enemyHp == s.enemyHp
    ensures !r.fired ==> r.state == s
  {
    if stats.badges > prior.badges then Decision(true, ClearVisited(s)) else Decision(false, s)
  }

  /** Truncated once the step counter reaches the budget. */
  function CheckIfTruncated(s: EpisodeState, steps: int): (r: Decision)
    ensures r.fired <==> steps >= MaxSteps
    ensures r.fired ==> r.state.visitedCoord == {} && r.state.visitedMap == {}
    ensures r.fired ==> r.state.attackCount == s.attackCount && r.state.enemyHp == s.enemyHp
    ensures !r.fired ==> r.state == s
  {
    if steps >= MaxSteps then Decision(true, ClearVisited(s)) else Decision(false, s)
  }

  /** After a done step every coordinate and every map is novel again,
      while the combat streak carries over. */
  lemma DoneMakesEverythingNovel(s: EpisodeState, stats: Stats, prior: Stats, x: int, y: int, mapId: int)
    requires stats.badges > prior.badges
    ensures var d := CheckIfDone(s, stats, prior);
            && RewardNewCoord(d.state, x, y).reward == NewCoordReward
            && RewardNewMap(d.state, mapId).reward == NewMapReward
            && d.state.attackCount == s.attackCount
  {
  }

  /** After a truncated step every coordinate and every map is novel again,
      while the combat streak carries over. */
  lemma TruncatedMakesEverythingNovel(s: EpisodeState, steps: int, x: int, y: int, mapId: int)
    requires steps >= MaxSteps
    ensures var d := CheckIfTruncated(s, steps);
            && RewardNewCoord(d.state, x, y).reward == NewCoordReward
            && RewardNewMap(d.state, mapId).reward == NewMapReward
            && d.state.attackCount == s.attackCount
  {
  }

  /** Done looks only at the previous step: with badges going 0, 1, 1 the
      second step is done and the third is not, although the third snapshot
      still has more badges than the first. */
  lemma DoneComparesWithPreviousStep(s: EpisodeState, loc: Location)
    ensures var b0 := Stats(loc, 0, [], []);
            var b1 := Stats(loc, 1, [], []);
            && CheckIfDone(s, b1, b0).fired
            && !CheckIfDone(s, b1, b1).fired
  {
  }
}
