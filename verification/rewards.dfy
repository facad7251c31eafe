/** The per-step shaped reward: the sum of the novelty, grass, XP, combat
    and stationary signals, threaded through one episode state. */
module Rewards {
  import opened GameStats
  import opened Episode
  import opened Exploration
  import opened Combat

  const GrassReward: real := 0.5
  const XpReward: real := 20.0
  const NotMovingPenalty: real := -0.1

  /** The emulator readings one reward calculation makes: whether the player
      stands on grass, whether a dialog is on screen, and the enemy's current
      and maximum HP bytes. */
  datatype Observation = Observation(
    onGrass: bool,
    inDialog: bool,
    enemyCurrentHp: Byte,
    enemyMaxHp: Byte)

  /** The enemy HP bytes can be turned into a fraction without dividing by 0. */
  predicate Readable(o: Observation)
  {
    o.enemyCurrentHp == 0 || o.enemyMaxHp > 0
  }

  /** Pays on every step spent on a grass tile, not only on entering one. */
  function RewardTouchGrass(onGrass: bool): (r: real)
    ensures r == GrassReward <==> onGrass
    ensures r == 0.0 <==> !onGrass
  {
    if onGrass then GrassReward else 0.0
  }

  /** Penalises a step outside dialog that ends on the same `(x, y)` as the
      previous step; the map id is not compared. */
  function PenaltyNotMoving(newLoc: Location, priorLoc: Location, inDialog: bool): (r: real)
    ensures r == NotMovingPenalty <==> !inDialog && newLoc.x == priorLoc.x && newLoc.y == priorLoc.y
    ensures r == 0.0 <==> !(!inDialog && newLoc.x == priorLoc.x && newLoc.y == priorLoc.y)
  {
    if !inDialog && newLoc.x == priorLoc.x && newLoc.y == priorLoc.y then NotMovingPenalty else 0.0
  }

  /** Pays when the party's total XP strictly grew since the previous step;
      equal or smaller totals pay nothing. */
  function RewardGainXp(newXp: seq<int>, priorXp: seq<int>): (r: real)
    ensures r == XpReward <==> Sum(newXp) > Sum(priorXp)
    ensures r == 0.0 <==> Sum(newXp) <= Sum(priorXp)
  {
    if Sum(newXp) > Sum(priorXp) then XpReward else 0.0
  }

  /** No party member gained XP, so no XP reward, whatever the members' values. */
  lemma NoXpRewardWithoutGain(newXp: seq<int>, priorXp: seq<int>)
    requires |newXp| == |priorXp|
    requires forall i :: 0 <= i < |newXp| ==> newXp[i] <= priorXp[i]
    ensures RewardGainXp(newXp, priorXp) == 0.0
  {
    SumMonotone(newXp, priorXp);
  }

  /** The combat contribution of a step, read off the state before the step. */
  function CombatSignal(s: EpisodeState, hpNow: real): real
  {
    if hpNow == s.enemyHp then 0.0
    else if hpNow < s.enemyHp then HitReward(s.attackCount + 1)
    else if s.attackCount != 0 then StreakBrokenPenalty
    else 0.0
  }

  /** The reward of a step as a table of independent signals, each decided
      by the inputs and the state before the step. */
  function SignalTable(s: EpisodeState, o: Observation, prior: Stats, current: Stats): real
    requires Readable(o)
  {
    var loc := current.location;
    (if (loc.x, loc.y) !in s.visitedCoord then NewCoordReward else 0.0)
    + (if o.onGrass then GrassReward else 0.0)
    + (if loc.mapId !in s.visitedMap then NewMapReward else 0.0)
    + (if Sum(current.xp) > Sum(prior.xp) then XpReward else 0.0)
    + CombatSignal(s, GetEnemyHp(o.enemyCurrentHp, o.enemyMaxHp))
    + (if !o.inDialog && loc.x == prior.location.x && loc.y == prior.location.y
       then NotMovingPenalty else 0.0)
  }

  /** One step's reward, calling the signals in the order of the task:
      coordinate, grass, map, XP, combat, then the stationary penalty. */
  function CalculateReward(s: EpisodeState, o: Observation, prior: Stats, current: Stats): (r: Outcome)
    requires Readable(o)
    ensures r.reward == SignalTable(s, o, prior, current)
    ensures r.state.visitedCoord == s.visitedCoord + {(current.location.x, current.location.y)}
    ensures r.state.visitedMap == s.visitedMap + {current.location.mapId}
    ensures GetEnemyHp(o.enemyCurrentHp, o.enemyMaxHp) == s.enemyHp ==>
              r.state.attackCount == s.attackCount && r.state.enemyHp == s.enemyHp
    ensures GetEnemyHp(o.enemyCurrentHp, o.enemyMaxHp) != s.enemyHp ==>
              var a := RewardAttackPokemon(s, GetEnemyHp(o.enemyCurrentHp, o.enemyMaxHp));
              r.state.attackCount == a.state.attackCount && r.state.enemyHp == a.state.enemyHp
    ensures Valid(s) ==> Valid(r.state)
  {
    var coord := RewardNewCoord(s, current.location.x, current.location.y);
    var grass := RewardTouchGrass(o.onGrass);
    var newMap := RewardNewMap(coord.state, current.location.mapId);
    var xp := RewardGainXp(current.xp, prior.xp);
    var attack := ObserveEnemyHp(newMap.state, GetEnemyHp(o.enemyCurrentHp, o.enemyMaxHp));
    var notMoving := PenaltyNotMoving(current.location, prior.location, o.inDialog);
    Outcome(coord.reward + grass + newMap.reward + xp + attack.reward + notMoving, attack.state)
  }

  /** Whether a dialog is on screen changes only the stationary penalty: the
      combat signal runs with or without a dialog. */
  lemma DialogOnlyGatesStationaryPenalty(s: EpisodeState, o: Observation, prior: Stats, current: Stats)
    requires Readable(o)
    ensures var inDialog := CalculateReward(s, o.(inDialog := true), prior, current);
            var outside := CalculateReward(s, o.(inDialog := false), prior, current);
            && inDialog.state == outside.state
            && inDialog.reward == outside.reward - PenaltyNotMoving(current.location, prior.location, false)
  {
  }

  /** Three steps from a fresh task, with no enemy on screen: standing on
      (5,5) of map 0 pays the first coordinate and the first map minus the
      stationary penalty; moving to (6,5) while XP goes from 10 to 30 pays
      1 + 20; standing still after that costs 0.1. */
  lemma ThreeStepScenario()
    ensures var o := Observation(false, false, 0, 0);
            var a := Stats(Location(0, 5, 5), 0, [6], [10]);
            var c := Stats(Location(0, 6, 5), 0, [6], [30]);
            var first := CalculateReward(Initial(), o, a, a);
            var second := CalculateReward(first.state, o, a, c);
            var third := CalculateReward(second.state, o, c, c);
            && first.reward == 3.9
            && second.reward == 21.0
            && third.reward == -0.1
            && third.state.visitedCoord == {(5, 5), (6, 5)}
  {
  }
}
