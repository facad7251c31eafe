/** The per-step game snapshot that the brock task reads from its base
    environment (the `game_stats` / `prior_game_stats` dictionaries), reduced
    to the fields the reward layer looks at. */
module GameStats {

  /** One byte of emulator memory, as returned by a memory read. */
  type Byte = b: int | 0 <= b < 256

  /** Tile-grid position; `mapId` identifies the map, `x` and `y` the tile. */
  datatype Location = Location(mapId: int, x: int, y: int)

  /** One snapshot: position, badge count, party levels and party XP totals. */
  datatype Stats = Stats(location: Location, badges: int, levels: seq<int>, xp: seq<int>)

  /** Python's `sum` over a list of integers; the empty list sums to 0. */
  function Sum(s: seq<int>): int
  {
    if |s| == 0 then 0 else s[0] + Sum(s[1..])
  }

  /** Summing is monotone under a pointwise comparison of equally long lists. */
  lemma {:induction false} SumMonotone(a: seq<int>, b: seq<int>)
    requires |a| == |b|
    requires forall i :: 0 <= i < |a| ==> a[i] <= b[i]
    ensures Sum(a) <= Sum(b)
  {
    if |a| > 0 {
      SumMonotone(a[1..], b[1..]);
    }
  }
}
