/** Novelty rewards: first visits to a coordinate and to a map. Each is a
    single check-and-insert on one of the two visited sets. */
module Exploration {
  import opened Episode

  const NewCoordReward: real := 1.0
  const NewMapReward: real := 3.0

  /** Rewards a coordinate not yet in `visitedCoord` and records it. */
  function RewardNewCoord(s: EpisodeState, x: int, y: int): (r: Outcome)
    ensures r.reward == NewCoordReward <==> (x, y) !in s.visitedCoord
    ensures r.reward == 0.0 <==> (x, y) in s.visitedCoord
    ensures r.state.visitedCoord == s.visitedCoord + {(x, y)}
    ensures r.reward == (|r.state.visitedCoord| - |s.visitedCoord|) as real
    ensures r.state.visitedMap == s.visitedMap
    ensures r.state.attackCount == s.attackCount && r.state.enemyHp == s.enemyHp
  {
    if (x, y) !in s.visitedCoord then
      Outcome(NewCoordReward, s.(visitedCoord := s.visitedCoord + {(x, y)}))
    else
      Outcome(0.0, s)
  }

  /** Rewards a map id not yet in `visitedMap` and records it. The
      coordinate set is left alone, also when the map changes. */
  function RewardNewMap(s: EpisodeState, mapId: int): (r: Outcome)
    ensures r.reward == NewMapReward <==> mapId !in s.visitedMap
    ensures r.reward == 0.0 <==> mapId in s.visitedMap
    ensures r.state.visitedMap == s.visitedMap + {mapId}
    ensures r.reward == NewMapReward * (|r.state.visitedMap| - |s.visitedMap|) as real
    ensures r.state.visitedCoord == s.visitedCoord
    ensures r.state.attackCount == s.attackCount && r.state.enemyHp == s.enemyHp
  {
    if mapId !in s.visitedMap then
      Outcome(NewMapReward, s.(visitedMap := s.visitedMap + {mapId}))
    else
      Outcome(0.0, s)
  }

  /** Asking twice about the same coordinate: the second answer is 0 and
      changes nothing. */
  lemma NewCoordSecondCallZero(s: EpisodeState, x: int, y: int)
    ensures var first := RewardNewCoord(s, x, y);
            RewardNewCoord(first.state, x, y) == Outcome(0.0, first.state)
  {
  }

  /** Asking twice about the same map: the second answer is 0 and changes
      nothing. */
  lemma NewMapSecondCallZero(s: EpisodeState, mapId: int)
    ensures var first := RewardNewMap(s, mapId);
            RewardNewMap(first.state, mapId) == Outcome(0.0, first.state)
  {
  }

  /** Coordinate novelty ignores the map: after standing on `(x, y)` and then
      entering another map, the same `(x, y)` there earns nothing. */
  lemma CoordNoveltyIgnoresMap(s: EpisodeState, x: int, y: int, mapId: int)
    ensures var here := RewardNewCoord(s, x, y);
            var entered := RewardNewMap(here.state, mapId);
            RewardNewCoord(entered.state, x, y).reward == 0.0
  {
  }

  /** The coordinate rewards and final state of visiting `ps` in order. */
  function VisitCoords(s: EpisodeState, ps: seq<(int, int)>): Outcome
    decreases |ps|
  {
    if |ps| == 0 then Outcome(0.0, s)
    else
      var first := RewardNewCoord(s, ps[0].0, ps[0].1);
      var rest := VisitCoords(first.state, ps[1..]);
      Outcome(first.reward + rest.reward, rest.state)
  }

  /** The elements of a sequence of coordinates, as a set. */
  function CoordSet(ps: seq<(int, int)>): (r: set<(int, int)>)
    ensures forall p :: p in r <==> p in ps
  {
    set p | p in ps
  }

  /** Over any walk, the coordinate rewards add up to the number of distinct
      coordinates that were not visited before the walk: each new coordinate
      pays exactly once. */
  lemma {:induction false} VisitCoordsPaysOncePerCoordinate(s: EpisodeState, ps: seq<(int, int)>)
    ensures VisitCoords(s, ps).state.visitedCoord == s.visitedCoord + CoordSet(ps)
    ensures VisitCoords(s, ps).reward
         == (|s.visitedCoord + CoordSet(ps)| - |s.visitedCoord|) as real
    ensures VisitCoords(s, ps).state.visitedMap == s.visitedMap
    decreases |ps|
  {
    if |ps| > 0 {
      var first := RewardNewCoord(s, ps[0].0, ps[0].1);
      VisitCoordsPaysOncePerCoordinate(first.state, ps[1..]);
      assert CoordSet(ps) == {ps[0]} + CoordSet(ps[1..]) by {
        forall p | p in CoordSet(ps)
          ensures p in {ps[0]} + CoordSet(ps[1..])
        {
          var i :| 0 <= i < |ps| && ps[i] == p;
          if i > 0 { assert ps[1..][i - 1] == p; }
        }
      }
      assert (ps[0].0, ps[0].1) == ps[0];
    } else {
      assert CoordSet(ps) == {};
    }
  }
}
