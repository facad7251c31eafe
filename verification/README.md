# Brock task reward layer, modelled in Dafny

This project models the reward-shaping and episode-control logic of the
`PokemonBrock` reinforcement-learning task
(`pyboy_environment/environments/pokemon/tasks/brock.py`). The task turns
successive game snapshots into three things: a shaped reward per step, the
`done` and `truncated` episode signals, and a small vector of scalar stats.

The task's mutable fields are modelled as one immutable record,
`Episode.EpisodeState`. Its fields are `visitedCoord`, `visitedMap`,
`attackCount` and `enemyHp`, and `enemyHp` starts at the sentinel -1. Every
step function takes a state and returns an `Outcome`, which pairs the reward
with the new state. The two episode checks return a `Decision`, which pairs
the boolean with the new state. The emulator reads become inputs:

- the grass-tile test, the dialog test and the two enemy-HP memory bytes are
  bundled in `Rewards.Observation`;
- the walkable matrix is a parameter of `Screen.IsNearWallOrLake`;
- the step counter and the previous step's snapshot are parameters.

Modules:

- `GameStats`: the snapshot (`Location`, `Stats`), Python's `sum`, and a byte type.
- `Episode`: the state record, its initial value, and the `Valid` invariant of the combat tracker.
- `Exploration`: coordinate novelty and map novelty.
- `Combat`: the enemy-HP fraction, the three-branch streak machine, and the gate in front of it.
- `Rewards`: the grass, XP and stationary signals, and the per-step sum.
- `Control`: the done and truncated checks.
- `Screen`: the obstacle scan, the exploration-map table, and the stats vector.

Rewards are exact `real`s (0.5, -0.1 and HP fractions included).

The model follows the code as written. In particular:

- The coordinate set is keyed by `(x, y)` alone, and a map change does not
  clear it. Coordinate novelty is therefore episode-wide, and the same
  `(x, y)` on two maps collides (`Exploration.CoordNoveltyIgnoresMap`).
- When a streak breaks, the stored enemy HP is not updated
  (`Combat.StreakBrokenOnce`).
- The combat test at brock.py line 94 names the `in_dialog` method without
  calling it, so it is always true. Combat therefore runs with or without a
  dialog (`Rewards.DialogOnlyGatesStationaryPenalty`).
- Combat runs only when the enemy HP differs from the stored value, so an
  unchanged HP never breaks a streak (`Combat.PauseKeepsStreak`).
- Done compares badges with the previous step's snapshot, not with the
  episode start (`Control.DoneComparesWithPreviousStep`).
- Neither done nor truncated resets `attackCount` or `enemyHp`.
- On the first step of a task, the first position and the first map are
  both novel (`Rewards.ThreeStepScenario`).

## Model

| member | source | states |
|---|---|---|
| Episode.Initial | pyboy_environment/environments/pokemon/tasks/brock.py:20-25 | A new task starts with both visited sets empty, no streak, and the enemy HP at the -1 sentinel; this state satisfies the combat-tracker invariant |
| Episode.ClearVisited | pyboy_environment/environments/pokemon/tasks/brock.py:116-129 | Both visited sets become empty, the streak and the stored enemy HP are kept, and the combat-tracker invariant is kept |
| Exploration.RewardNewCoord | pyboy_environment/environments/pokemon/tasks/brock.py:136-143 | Pays 1 exactly when `(x, y)` was unvisited and 0 exactly when it was visited. Afterwards the set is the old set plus `(x, y)`, the reward equals the growth of the set, and nothing else changes |
| Exploration.NewCoordSecondCallZero | pyboy_environment/environments/pokemon/tasks/brock.py:136-143 | A second call with the same coordinate pays 0 and leaves the state unchanged |
| Exploration.VisitCoordsPaysOncePerCoordinate | pyboy_environment/environments/pokemon/tasks/brock.py:136-143 | Over any walk, the coordinate rewards sum to the number of distinct coordinates that were new before the walk, and the final set is the old set plus every coordinate walked |
| Exploration.RewardNewMap | pyboy_environment/environments/pokemon/tasks/brock.py:145-154 | Pays 3 exactly when the map id was unvisited and 0 otherwise, and records the id. It never touches `visitedCoord`, `attackCount` or `enemyHp` |
| Exploration.NewMapSecondCallZero | pyboy_environment/environments/pokemon/tasks/brock.py:145-154 | A second call with the same map id pays 0 and leaves the state unchanged |
| Exploration.CoordNoveltyIgnoresMap | pyboy_environment/environments/pokemon/tasks/brock.py:136-154 | After visiting `(x, y)` and then entering any map, the same `(x, y)` pays nothing: entering a map does not clear the coordinate set |
| Combat.GetEnemyHp | pyboy_environment/environments/pokemon/tasks/brock.py:244-250 | The fraction is never negative, and it is 0 exactly when the current HP byte is 0. Multiplying it by the maximum gives back the current HP, and it is at most 1 when the current HP does not exceed the maximum. Only a zero maximum with a non-zero current HP is excluded, because it divides by zero |
| Combat.HitReward | pyboy_environment/environments/pokemon/tasks/brock.py:187 | The reward for a hit that makes the streak `count` long is never negative, and is at least 5 once the streak is non-empty |
| Combat.HitRewardEscalates | pyboy_environment/environments/pokemon/tasks/brock.py:185-187 | Extending a streak of length c by one more hit raises the hit reward by exactly 5(2c+1), so each hit pays strictly more than the one before |
| Combat.RewardAttackPokemon | pyboy_environment/environments/pokemon/tasks/brock.py:178-194 | A hit (a strict drop below the stored HP) adds 1 to the streak, stores the new HP and pays 5 times the square of the new streak. A miss during a streak pays -5, zeroes the streak and keeps the old HP. A miss outside a streak pays 0 and stores the new HP. The reward is positive exactly on a hit, the visited sets are untouched, and the invariant is kept for non-negative readings |
| Combat.ObserveEnemyHp | pyboy_environment/environments/pokemon/tasks/brock.py:93-96 | The streak machine runs exactly when the reading differs from the stored HP. An equal reading pays 0 and changes nothing |
| Combat.FirstObservationNeverHit | pyboy_environment/environments/pokemon/tasks/brock.py:183-194 | From the initial state, a non-negative first reading is never a hit: it pays 0 and is stored |
| Combat.EqualHpNeverHit | pyboy_environment/environments/pokemon/tasks/brock.py:93-96 | Reading the stored HP again is never a hit, both through the gate and in the streak machine itself |
| Combat.HitStreakEscalates | pyboy_environment/environments/pokemon/tasks/brock.py:183-187 | k strictly falling readings below the stored HP pay 5(c+1)^2, ..., 5(c+k)^2 from a starting streak c. Afterwards the streak is c+k and the last reading is stored |
| Combat.StreakBrokenOnce | pyboy_environment/environments/pokemon/tasks/brock.py:189-194 | A hit followed by a rise in HP gives exactly one -5 and a zero streak, and the stale hit value stays stored. The repeated rise is stored only on the next reading, which pays 0 |
| Combat.PauseKeepsStreak | pyboy_environment/environments/pokemon/tasks/brock.py:93-96 | A repeated reading between two hits pays 0, and the second hit still pays for a streak of two |
| Rewards.RewardTouchGrass | pyboy_environment/environments/pokemon/tasks/brock.py:156-159 | Pays 0.5 exactly when on grass and 0 otherwise, on every such step |
| Rewards.PenaltyNotMoving | pyboy_environment/environments/pokemon/tasks/brock.py:161-170 | Is -0.1 exactly when no dialog is shown and `x`, `y` equal the previous step's, and 0 otherwise. The map id plays no part |
| Rewards.RewardGainXp | pyboy_environment/environments/pokemon/tasks/brock.py:172-176 | Pays 20 exactly when the party's XP total strictly rose; an equal or smaller total pays 0 |
| Rewards.NoXpRewardWithoutGain | pyboy_environment/environments/pokemon/tasks/brock.py:172-176 | If no party member's XP rose, the XP reward is 0 |
| Rewards.CalculateReward | pyboy_environment/environments/pokemon/tasks/brock.py:84-110 | The step reward equals the independent signal table: coordinate, grass, map, XP, combat and stationary terms, each decided from the state before the step. Both visited sets gain the current position or map. An unchanged enemy HP leaves the streak and stored HP alone, a changed one moves them as the streak machine does, and the invariant is kept |
| Rewards.DialogOnlyGatesStationaryPenalty | pyboy_environment/environments/pokemon/tasks/brock.py:93-110 | Steps that differ only in the dialog flag end in the same state. Their rewards differ only by the stationary penalty, so combat is not gated by the dialog |
| Rewards.ThreeStepScenario | pyboy_environment/environments/pokemon/tasks/brock.py:84-110 | From a fresh task, standing on (5,5) pays 3.9. Moving to (6,5) while XP rises from 10 to 30 pays 21. Standing still after that pays -0.1 |
| Control.CheckIfDone | pyboy_environment/environments/pokemon/tasks/brock.py:112-121 | Fires exactly when the badge count exceeds the previous step's. When it fires it empties both visited sets and keeps the streak and stored HP; otherwise it changes nothing |
| Control.CheckIfTruncated | pyboy_environment/environments/pokemon/tasks/brock.py:123-131 | Fires exactly when the step count is at least 2048. When it fires it empties both visited sets and keeps the streak and stored HP; otherwise it changes nothing |
| Control.DoneMakesEverythingNovel | pyboy_environment/environments/pokemon/tasks/brock.py:112-121 | After done, every coordinate and every map pays its novelty reward again, and the streak carries over |
| Control.TruncatedMakesEverythingNovel | pyboy_environment/environments/pokemon/tasks/brock.py:123-131 | After truncation, every coordinate and every map pays its novelty reward again, and the streak carries over |
| Control.DoneComparesWithPreviousStep | pyboy_environment/environments/pokemon/tasks/brock.py:114 | With badges 0, 1, 1, the second step is done and the third is not |
| Screen.IsNearWallOrLake | pyboy_environment/environments/pokemon/tasks/brock.py:262-270 | The result is true exactly when some cell in rows 2-5 and columns 2-5 of the walkable matrix is 0 |
| Screen.GetExploreMap | pyboy_environment/environments/pokemon/tasks/brock.py:272-320 | A listed id gets its table entry. The name is "Unknown" exactly when the id is unlisted, and so are the coordinates (80, 0) |
| Screen.StatsVector | pyboy_environment/environments/pokemon/tasks/brock.py:59-71 | Holds three values. The first, times 5 plus 6, is the party's level total; the others are the stored enemy HP and the streak |

## Left out

- The frame half of the observation (brock.py lines 74-82) is left out: grab, grayscale, resize and tensor building are image numerics in foreign libraries.
- Emulator reads are inputs rather than modelled code. These are the memory reads, the `game_area` scan behind `in_dialog`, the grass-tile test and the walkable matrix.
- `_read_party_hp` and the `self_hp` it feeds are left out. The value is only printed, but computing it can fail (next line).
- Combat.RewardAttackPokemon: does not model the exit at brock.py line 181. That line divides by the party's summed maximum HP before any branch runs. When that sum is 0 (an empty party, for example), Python raises ZeroDivisionError and the step ends with no reward and no streak or HP update. The model always returns an outcome, because the party HP read is not one of its inputs.
- Rewards.CalculateReward: requires `Readable(o)`, which excludes the division by zero in `get_enemy_hp` (brock.py line 250) when the maximum HP byte is 0 and the current one is not. Because the test at line 94 is always true, that reading is taken on every step, so such a reading makes the whole step fail in Python. The model does not describe that failure. `Combat.GetEnemyHp` excludes the same case with the same requires.
- The button lists and the `super().__init__` call are left out: they configure foreign emulator types.
- The base class is not part of this model, so neither is the way it maintains `steps` and `prior_game_stats`. Both are parameters here, and so is the order in which it calls the reward and episode checks.
- `print` output is left out, and so is reading `map_name` and `old_map` in `reward_new_map`, which only feed printing or nothing.
- The field `is_touching_grass` is set in the constructor and never read, so it is left out.
- Dead code is left out: `penalty_near_obstacle` calls `is_near_wall_or_lake` with the wrong number of arguments and is never called. So are the unused `reward_catch_new_pokemon`, `reward_see_new_pokemon`, `_caught_reward`, `_seen_reward`, `_health_reward`, `_xp_reward` and `in_battle`, and the commented-out blocks.
- Floating point is left out: rewards and HP fractions are exact reals, not IEEE doubles.
- Python list indexing errors are left out. `Screen.IsNearWallOrLake` requires a matrix that covers the scanned window instead.
