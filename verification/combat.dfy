/** Combat tracker: enemy HP as a fraction, and the attack streak that
    escalates the reward quadratically while the enemy keeps losing HP. */
module Combat {
  import opened GameStats
  import opened Episode

  const HitRewardFactor: real := 5.0
  const StreakBrokenPenalty: real := -5.0

  /** Enemy HP as a fraction of its maximum, from the two memory bytes; 0
      when the current HP is 0. A zero maximum with a non-zero current HP
      would divide by zero, so the caller must exclude it. */
  function GetEnemyHp(current: Byte, maximum: Byte): (r: real)
    requires current == 0 || maximum > 0
    ensures r >= 0.0
    ensures r == 0.0 <==> current == 0
    ensures maximum > 0 ==> r * maximum as real == current as real
    ensures current <= maximum ==> r <= 1.0
  {
    if current == 0 then 0.0 else current as real / maximum as real
  }

  /** Reward for the `count`-th consecutive hit. */
  function HitReward(count: nat): (r: real)
    ensures r >= 0.0
    ensures count > 0 ==> r >= HitRewardFactor
  {
    HitRewardFactor * (count * count) as real
  }

  /** Each further hit in a streak pays 10c + 5 more than the one before it:
      the hit rewards grow without bound, by a growing step. */
  lemma HitRewardEscalates(count: nat)
    ensures HitReward(count + 1) - HitReward(count) == HitRewardFactor * (2 * count + 1) as real
    ensures HitReward(count + 1) > HitReward(count)
  {
    assert (count + 1) * (count + 1) == count * count + 2 * count + 1;
  }

  /** A hit is a strict drop below the stored enemy HP. */
  predicate IsHit(s: EpisodeState, hpNow: real)
  {
    hpNow < s.enemyHp
  }

  /** The three-branch streak machine: a hit extends the streak and pays for
      it; a miss during a streak ends it with a penalty and keeps the stored
      HP; a miss outside a streak just stores the new HP. */
  function RewardAttackPokemon(s: EpisodeState, hpNow: real): (r: Outcome)
    ensures r.state.visitedCoord == s.visitedCoord && r.state.visitedMap == s.visitedMap
    ensures IsHit(s, hpNow) ==>
              && r.state.attackCount == s.attackCount + 1
              && r.state.enemyHp == hpNow
              && r.reward == HitReward(r.state.attackCount)
    ensures !IsHit(s, hpNow) && s.attackCount != 0 ==>
              && r.state.attackCount == 0
              && r.state.enemyHp == s.enemyHp
              && r.reward == StreakBrokenPenalty
    ensures !IsHit(s, hpNow) && s.attackCount == 0 ==>
              && r.state.attackCount == 0
              && r.state.enemyHp == hpNow
              && r.reward == 0.0
    ensures r.reward > 0.0 <==> IsHit(s, hpNow)
    ensures Valid(s) && hpNow >= 0.0 ==> Valid(r.state)
  {
    if hpNow < s.enemyHp then
      var count := s.attackCount + 1;
      Outcome(HitReward(count), s.(attackCount := count, enemyHp := hpNow))
    else if s.attackCount != 0 then
      Outcome(StreakBrokenPenalty, s.(attackCount := 0))
    else
      Outcome(0.0, s.(enemyHp := hpNow))
  }

  /** The combat part of one step: the streak machine runs only when the
      observed HP differs from the stored one. The dialog test in front of it
      names the method without calling it, so it never blocks this call. */
  function ObserveEnemyHp(s: EpisodeState, hpNow: real): (r: Outcome)
    ensures hpNow == s.enemyHp ==> r == Outcome(0.0, s)
    ensures hpNow != s.enemyHp ==> r == RewardAttackPokemon(s, hpNow)
  {
    if s.enemyHp != hpNow then RewardAttackPokemon(s, hpNow) else Outcome(0.0, s)
  }

  /** The first HP reading of a task, which is never negative, is never a
      hit: it is stored and earns nothing. */
  lemma FirstObservationNeverHit(hpNow: real)
    requires hpNow >= 0.0
    ensures ObserveEnemyHp(Initial(), hpNow) == Outcome(0.0, Initial().(enemyHp := hpNow))
  {
  }

  /** Reading the stored HP again is never a hit and leaves the streak as it
      is: an unchanged enemy HP does not break a streak. */
  lemma EqualHpNeverHit(s: EpisodeState)
    ensures ObserveEnemyHp(s, s.enemyHp) == Outcome(0.0, s)
    ensures RewardAttackPokemon(s, s.enemyHp).reward <= 0.0
  {
  }

  /** Strictly falling consecutive readings. */
  predicate StrictlyFalling(hs: seq<real>)
  {
    forall i :: 0 < i < |hs| ==> hs[i] < hs[i - 1]
  }

  /** Rewards and final state of feeding `hs` through the combat step. */
  datatype Run = Run(rewards: seq<real>, state: EpisodeState)

  function ObserveAll(s: EpisodeState, hs: seq<real>): Run
    decreases |hs|
  {
    if |hs| == 0 then Run([], s)
    else
      var first := ObserveEnemyHp(s, hs[0]);
      var rest := ObserveAll(first.state, hs[1..]);
      Run([first.reward] + rest.rewards, rest.state)
  }

  /** k strictly falling readings below the stored HP pay
      5*(c+1)^2, 5*(c+2)^2, ..., 5*(c+k)^2 for a starting streak c, and leave
      the streak at c+k with the last reading stored. */
  lemma {:induction false} HitStreakEscalates(s: EpisodeState, hs: seq<real>)
    requires StrictlyFalling(hs)
    requires |hs| > 0 ==> hs[0] < s.enemyHp
    ensures |ObserveAll(s, hs).rewards| == |hs|
    ensures forall i :: 0 <= i < |hs| ==>
              ObserveAll(s, hs).rewards[i] == HitReward(s.attackCount + i + 1)
    ensures ObserveAll(s, hs).state.attackCount == s.attackCount + |hs|
    ensures |hs| > 0 ==> ObserveAll(s, hs).state.enemyHp == hs[|hs| - 1]
    decreases |hs|
  {
    if |hs| > 0 {
      var first := ObserveEnemyHp(s, hs[0]);
      assert first.state.enemyHp == hs[0];
      assert first.state.attackCount == s.attackCount + 1;
      HitStreakEscalates(first.state, hs[1..]);
      var run := ObserveAll(s, hs);
      var rest := ObserveAll(first.state, hs[1..]);
      assert run.rewards == [first.reward] + rest.rewards;
      forall i | 0 <= i < |hs|
        ensures run.rewards[i] == HitReward(s.attackCount + i + 1)
      {
        if i > 0 {
          assert run.rewards[i] == rest.rewards[i - 1];
        }
      }
    }
  }

  /** A streak followed by a rise in HP: exactly one -5, the streak drops to
      0, and the stored HP stays at the last hit's value, so the rise is
      only stored on the reading after that. */
  lemma StreakBrokenOnce(s: EpisodeState, hit: real, rise: real)
    requires hit < s.enemyHp && hit < rise
    ensures var a := ObserveEnemyHp(s, hit);
            var b := ObserveEnemyHp(a.state, rise);
            var c := ObserveEnemyHp(b.state, rise);
            && b.reward == StreakBrokenPenalty
            && b.state.attackCount == 0 && b.state.enemyHp == hit
            && c.reward == 0.0
            && c.state.attackCount == 0 && c.state.enemyHp == rise
  {
  }

  /** A pause between two hits (the same reading twice) does not end the
      streak: the second hit still pays for streak length two. */
  lemma PauseKeepsStreak(s: EpisodeState, h1: real, h2: real)
    requires h1 < s.enemyHp && h2 < h1
    ensures var a := ObserveEnemyHp(s, h1);
            var b := ObserveEnemyHp(a.state, h1);
            var c := ObserveEnemyHp(b.state, h2);
            && b.reward == 0.0
            && c.reward == HitReward(s.attackCount + 2)
            && c.state.attackCount == s.attackCount + 2
  {
  }
}
