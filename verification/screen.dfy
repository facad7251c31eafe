/** Helpers of the task that read the screen or name a map: the obstacle
    scan over the walkable matrix, the exploration-map table, and the
    scalar part of the observation. */
module Screen {
  import opened GameStats
  import opened Episode

  /** First and one-past-last row and column of the scanned window. */
  const WindowLo: int := 2
  const WindowHi: int := 6

  /** The matrix has every row and column the scan reads. */
  predicate CoversWindow(w: seq<seq<int>>)
  {
    |w| >= WindowHi && forall i :: WindowLo <= i < WindowHi ==> |w[i]| >= WindowHi
  }

  /** Some cell of the 4x4 window is not walkable (0). */
  predicate HasObstacle(w: seq<seq<int>>)
    requires CoversWindow(w)
  {
    exists i, j :: WindowLo <= i < WindowHi && WindowLo <= j < WindowHi && w[i][j] == 0
  }

  /** Scans rows 2..5 and columns 2..5 of the walkable matrix, stopping at
      the first 0. */
  method IsNearWallOrLake(w: seq<seq<int>>) returns (near: bool)
    requires CoversWindow(w)
    ensures near <==> HasObstacle(w)
  {
    var i := WindowLo;
    while i < WindowHi
      invariant WindowLo <= i <= WindowHi
      invariant forall i', j' :: WindowLo <= i' < i && WindowLo <= j' < WindowHi ==> w[i'][j'] != 0
    {
      var j := WindowLo;
      while j < WindowHi
        invariant WindowLo <= j <= WindowHi
        invariant forall j' :: WindowLo <= j' < j ==> w[i][j'] != 0
      {
        if w[i][j] == 0 {
          return true;
        }
        j := j + 1;
      }
      i := i + 1;
    }
    return false;
  }

  /** A display name and overview-map coordinates for a map id. */
  datatype MapInfo = MapInfo(name: string, coordinates: (int, int))

  /** The entry returned for a map id the table does not list. */
  const UnknownMap: MapInfo := MapInfo("Unknown", (80, 0))

  const ExploreMap: map<int, MapInfo> := map[
    0 := MapInfo("Pallet Town", (70, 7)),
    1 := MapInfo("Viridian City", (60, 79)),
    2 := MapInfo("Pewter City", (60, 187)),
    3 := MapInfo("Cerulean City", (240, 205)),
    62 := MapInfo("Invaded house (Cerulean City)", (290, 227)),
    63 := MapInfo("trade house (Cerulean City)", (290, 212)),
    64 := MapInfo("Pokémon Center (Cerulean City)", (290, 197)),
    65 := MapInfo("Pokémon Gym (Cerulean City)", (290, 182)),
    66 := MapInfo("Bike Shop (Cerulean City)", (290, 167)),
    67 := MapInfo("Poké Mart (Cerulean City)", (290, 152)),
    35 := MapInfo("Route 24", (250, 235)),
    36 := MapInfo("Route 25", (270, 267)),
    12 := MapInfo("Route 1", (70, 43)),
    13 := MapInfo("Route 2", (70, 151)),
    14 := MapInfo("Route 3", (100, 179)),
    15 := MapInfo("Route 4", (150, 197)),
    33 := MapInfo("Route 22", (20, 71)),
    37 := MapInfo("Red house first", (61, 9)),
    38 := MapInfo("Red house second", (61, 0)),
    39 := MapInfo("Blues house", (91, 9)),
    40 := MapInfo("oaks lab", (91, 1)),
    41 := MapInfo("Pokémon Center (Viridian City)", (100, 54)),
    42 := MapInfo("Poké Mart (Viridian City)", (100, 62)),
    43 := MapInfo("School (Viridian City)", (100, 79)),
    44 := MapInfo("House 1 (Viridian City)", (100, 71)),
    47 := MapInfo("Gate (Viridian City/Pewter City) (Route 2)", (91, 143)),
    49 := MapInfo("Gate (Route 2)", (91, 115)),
    50 := MapInfo("Gate (Route 2/Viridian Forest) (Route 2)", (91, 115)),
    51 := MapInfo("viridian forest", (35, 144)),
    52 := MapInfo("Pewter Museum (floor 1)", (60, 196)),
    53 := MapInfo("Pewter Museum (floor 2)", (60, 205)),
    54 := MapInfo("Pokémon Gym (Pewter City)", (49, 176)),
    55 := MapInfo("House with disobedient Nidoran♂ (Pewter City)", (51, 184)),
    56 := MapInfo("Poké Mart (Pewter City)", (40, 170)),
    57 := MapInfo("House with two Trainers (Pewter City)", (51, 184)),
    58 := MapInfo("Pokémon Center (Pewter City)", (45, 161)),
    59 := MapInfo("Mt. Moon (Route 3 entrance)", (153, 234)),
    60 := MapInfo("Mt. Moon Corridors", (168, 253)),
    61 := MapInfo("Mt. Moon Level 2", (197, 253)),
    68 := MapInfo("Pokémon Center (Route 3)", (135, 197)),
    193 := MapInfo("Badges check gate (Route 22)", (0, 87)),
    230 := MapInfo("Badge Man House (Cerulean City)", (290, 137))
  ]

  /** Looks a map id up in the table, falling back to the unknown entry. */
  function GetExploreMap(mapIdx: int): (r: MapInfo)
    ensures mapIdx in ExploreMap ==> r == ExploreMap[mapIdx]
    ensures r.name == UnknownMap.name <==> mapIdx !in ExploreMap
    ensures r.coordinates == UnknownMap.coordinates <==> mapIdx !in ExploreMap
  {
    if mapIdx in ExploreMap then ExploreMap[mapIdx] else UnknownMap
  }

  /** The three scalars put in front of the frame in the observation: the
      party's level total shifted by 6 and scaled by 1/5, the stored enemy HP
      and the attack streak. */
  function StatsVector(levels: seq<int>, s: EpisodeState): (r: seq<real>)
    ensures |r| == 3
    ensures 5.0 * r[0] + 6.0 == Sum(levels) as real
    ensures r[1] == s.enemyHp && r[2] == s.attackCount as real
  {
    [(Sum(levels) - 6) as real / 5.0, s.enemyHp, s.attackCount as real]
  }
}
