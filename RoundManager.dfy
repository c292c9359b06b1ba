/** The round state machine and the difficulty profile derived from the round
    number (makeuprain/core/round_manager.py).

    Every `get_*` query of the manager reads nothing but `current_round`, so
    it is modelled as a function of the round number; `get_progress` reads the
    counter as well, and the time queries read the round start and the clock,
    which is passed in as `now` (seconds). The round time limit is a parameter
    of the time functions so that the untimed configuration can be stated;
    the game always passes `ROUND_TIME_LIMIT`. */
module Rounds {
  import opened Config
  import opened Util

  // ===== Difficulty profile =====

  /** `get_items_goal`: the goal table for the first rounds, then a linear
      continuation from its last entry. */
  function ItemsGoal(round: int): (goal: int)
    requires round >= 1
    ensures goal >= ITEMS_SEQUENCE[0]
  {
    var idx := round - 1;
    if idx < |ITEMS_SEQUENCE| then ITEMS_SEQUENCE[idx]
    else ITEMS_SEQUENCE[|ITEMS_SEQUENCE| - 1] + (idx - (|ITEMS_SEQUENCE| - 1)) * DEFAULT_ITEMS_INCREMENT
  }

  lemma ItemsGoalTable(round: int)
    requires round >= 1
    ensures round == 1 ==> ItemsGoal(round) == 10
    ensures round == 2 ==> ItemsGoal(round) == 15
    ensures round == 3 ==> ItemsGoal(round) == 25
    ensures round == 4 ==> ItemsGoal(round) == 35
    ensures round == 5 ==> ItemsGoal(round) == 50
    ensures round > 5 ==> ItemsGoal(round) == 50 + (round - 5) * 15
  {
  }

  /** Each round asks for strictly more items than every earlier one. */
  lemma {:induction false} ItemsGoalStrictlyIncreasing(r1: int, r2: int)
    requires 1 <= r1 < r2
    ensures 0 < ItemsGoal(r1) < ItemsGoal(r2)
    decreases r2 - r1
  {
    if r2 > r1 + 1 {
      ItemsGoalStrictlyIncreasing(r1, r2 - 1);
      ItemsGoalStrictlyIncreasing(r2 - 1, r2);
    } else {
      ItemsGoalTable(r1);
      ItemsGoalTable(r2);
    }
  }

  /** `get_speed_multiplier`: a linear ramp from 1.0, capped. */
  function SpeedMultiplier(round: int): (m: real)
    requires round >= 1
    ensures 1.0 <= m <= MAX_SPEED_MULTIPLIER
  {
    MinR(1.0 + (round - 1) as real * SPEED_MULTIPLIER_PER_ROUND, MAX_SPEED_MULTIPLIER)
  }

  lemma SpeedMultiplierMonotone(r1: int, r2: int)
    requires 1 <= r1 <= r2
    ensures SpeedMultiplier(r1) <= SpeedMultiplier(r2)
  {
  }

  /** The ramp reaches the cap in round 8 and stays there. */
  lemma SpeedMultiplierRamp(round: int)
    requires round >= 1
    ensures round < 8 ==> SpeedMultiplier(round) == 1.0 + (round - 1) as real * 0.3 < 3.0
    ensures round >= 8 ==> SpeedMultiplier(round) == 3.0
  {
  }

  /** `get_enemy_count`: enemies bulk-spawned at the start of a round. */
  function EnemyCount(round: int): int
  {
    ENEMY_INITIAL_COUNT + (round - 1) * ENEMY_SPAWN_INCREASE
  }

  /** `get_collectible_count`: collectibles bulk-spawned at the start of a round. */
  function CollectibleCount(round: int): int
  {
    COLLECTIBLE_INITIAL_COUNT + (round - 1) * ENEMY_SPAWN_INCREASE * 2
  }

  /** `get_enemy_cap`: enemies on screen above which continuous spawning stops. */
  function EnemyCap(round: int): int
  {
    ENEMY_MAX_ON_SCREEN_BASE + (round - 1) * ENEMY_SPAWN_INCREASE
  }

  /** `get_collectible_cap`: the same cap for collectibles (`3 // 2 + 1` per round). */
  function CollectibleCap(round: int): int
  {
    COLLECTIBLE_MAX_ON_SCREEN_BASE + (round - 1) * (ENEMY_SPAWN_INCREASE / 2 + 1)
  }

  /** Counts and caps are positive, grow every round, collectibles faster
      than enemies, and have the closed forms of the tuning table. */
  lemma CountsAndCaps(round: int)
    requires round >= 1
    ensures EnemyCount(round) == 8 + 3 * (round - 1) && CollectibleCount(round) == 20 + 6 * (round - 1)
    ensures EnemyCap(round) == 8 + 3 * (round - 1) && CollectibleCap(round) == 10 + 2 * (round - 1)
    ensures 0 < EnemyCount(round) < EnemyCount(round + 1)
    ensures 0 < CollectibleCount(round) < CollectibleCount(round + 1)
    ensures 0 < EnemyCap(round) < EnemyCap(round + 1)
    ensures 0 < CollectibleCap(round) < CollectibleCap(round + 1)
    ensures CollectibleCount(round + 1) - CollectibleCount(round) > EnemyCount(round + 1) - EnemyCount(round)
  {
  }

  /** `get_enemy_spawn_frames`: frames between continuous enemy spawns. */
  function EnemySpawnFrames(round: int): (frames: int)
    requires round >= 1
    ensures frames >= 10
  {
    Max(10, (ENEMY_SPAWN_BASE_FRAMES as real / SpeedMultiplier(round)).Floor)
  }

  /** `get_collectible_spawn_frames`: frames between continuous collectible spawns. */
  function CollectibleSpawnFrames(round: int): (frames: int)
    requires round >= 1
    ensures frames >= 8
  {
    Max(8, (COLLECTIBLE_SPAWN_BASE_FRAMES as real / SpeedMultiplier(round)).Floor)
  }

  lemma QuotientFloorAntitone(a: real, m1: real, m2: real)
    requires a >= 0.0 && 0.0 < m1 <= m2
    ensures (a / m2).Floor <= (a / m1).Floor
  {
    var q1, q2 := a / m1, a / m2;
    assert q1 >= 0.0;
    assert q2 * m2 == a == q1 * m1 <= q1 * m2;
    assert q2 <= q1;
  }

  /** Spawning never speeds up from one round to a later one. */
  lemma SpawnFramesNonIncreasing(r1: int, r2: int)
    requires 1 <= r1 <= r2
    ensures EnemySpawnFrames(r2) <= EnemySpawnFrames(r1)
    ensures CollectibleSpawnFrames(r2) <= CollectibleSpawnFrames(r1)
  {
    SpeedMultiplierMonotone(r1, r2);
    QuotientFloorAntitone(ENEMY_SPAWN_BASE_FRAMES as real, SpeedMultiplier(r1), SpeedMultiplier(r2));
    QuotientFloorAntitone(COLLECTIBLE_SPAWN_BASE_FRAMES as real, SpeedMultiplier(r1), SpeedMultiplier(r2));
  }

  /** The interval values round by round; from round 8 on they stay at 15 and 10. */
  lemma SpawnFramesTable(round: int)
    requires round >= 1
    ensures round == 1 ==> EnemySpawnFrames(round) == 45 && CollectibleSpawnFrames(round) == 30
    ensures round == 2 ==> EnemySpawnFrames(round) == 34 && CollectibleSpawnFrames(round) == 23
    ensures round == 3 ==> EnemySpawnFrames(round) == 28 && CollectibleSpawnFrames(round) == 18
    ensures round == 4 ==> EnemySpawnFrames(round) == 23 && CollectibleSpawnFrames(round) == 15
    ensures round == 5 ==> EnemySpawnFrames(round) == 20 && CollectibleSpawnFrames(round) == 13
    ensures round == 6 ==> EnemySpawnFrames(round) == 18 && CollectibleSpawnFrames(round) == 12
    ensures round == 7 ==> EnemySpawnFrames(round) == 16 && CollectibleSpawnFrames(round) == 10
    ensures round >= 8 ==> EnemySpawnFrames(round) == 15 && CollectibleSpawnFrames(round) == 10
  {
    SpeedMultiplierRamp(round);
  }

  // ===== Time, bonus, progress =====

  /** `get_time_left`: seconds left in the round, never negative; 0 when untimed. */
  function TimeLeft(limit: real, roundStart: real, now: real): (left: real)
    ensures left >= 0.0
    ensures limit <= 0.0 ==> left == 0.0
    ensures now >= roundStart ==> left <= MaxR(0.0, limit)
  {
    if limit <= 0.0 then 0.0 else MaxR(0.0, limit - (now - roundStart))
  }

  /** `is_time_up`: never true for an untimed round. */
  function IsTimeUp(limit: real, roundStart: real, now: real): bool
  {
    if limit <= 0.0 then false else TimeLeft(limit, roundStart, now) <= 0.0
  }

  /** A timed round is up exactly when the limit has elapsed since its start. */
  lemma TimeUpIff(limit: real, roundStart: real, now: real)
    ensures IsTimeUp(limit, roundStart, now) <==> limit > 0.0 && now - roundStart >= limit
  {
  }

  /** `get_round_bonus`: the clear bonus plus ten points per second left,
      the seconds truncated to tenths by `int(...)`. */
  function RoundBonus(limit: real, roundStart: real, now: real): (bonus: int)
    ensures bonus >= ROUND_CLEAR_BONUS
    ensures limit <= 0.0 ==> bonus == ROUND_CLEAR_BONUS
    ensures now >= roundStart ==> bonus <= ROUND_CLEAR_BONUS + (MaxR(0.0, limit) * TIME_BONUS_PER_SECOND as real).Floor
  {
    ROUND_CLEAR_BONUS +
      (if limit > 0.0 then (MaxR(0.0, limit - (now - roundStart)) * TIME_BONUS_PER_SECOND as real).Floor else 0)
  }

  /** `get_progress`: the share of the goal collected, clamped to 1.0. */
  function Progress(items: int, round: int): (p: real)
    requires round >= 1 && items >= 0
    ensures 0.0 <= p <= 1.0
    ensures p == 1.0 <==> items >= ItemsGoal(round)
  {
    MinR(1.0, items as real / ItemsGoal(round) as real)
  }

  // ===== The manager =====

  class RoundManager {
    var currentRound: int
    var itemsCollected: int
    var roundStartTime: real
    var roundComplete: bool

    /** The round is complete exactly when its counter has reached the goal. */
    ghost predicate Valid()
      reads this
    {
      currentRound >= 1 && itemsCollected >= 0 &&
      (roundComplete <==> itemsCollected >= ItemsGoal(currentRound))
    }

    constructor ()
      ensures Valid()
      ensures currentRound == 1 && itemsCollected == 0 && roundStartTime == 0.0 && !roundComplete
    {
      currentRound := 1;
      itemsCollected := 0;
      roundStartTime := 0.0;
      roundComplete := false;
    }

    /** `start_round`: empties the counter and restarts the clock, keeping the round. */
    method StartRound(now: real)
      requires currentRound >= 1
      modifies this
      ensures Valid()
      ensures currentRound == old(currentRound)
      ensures itemsCollected == 0 && roundStartTime == now && !roundComplete
    {
      itemsCollected := 0;
      roundStartTime := now;
      roundComplete := false;
    }

    /** `on_item_collected`: counts one item and reports whether the goal is reached. */
    method OnItemCollected() returns (complete: bool)
      requires Valid()
      modifies this
      ensures Valid()
      ensures itemsCollected == old(itemsCollected) + 1
      ensures currentRound == old(currentRound) && roundStartTime == old(roundStartTime)
      ensures complete == roundComplete
      ensures complete <==> itemsCollected >= ItemsGoal(currentRound)
    {
      itemsCollected := itemsCollected + 1;
      if itemsCollected >= ItemsGoal(currentRound) {
        roundComplete := true;
      }
      complete := roundComplete;
    }

    /** `advance_round`: moves to the next round only once the current one is complete. */
    method AdvanceRound(now: real) returns (advanced: bool)
      requires Valid()
      modifies this
      ensures Valid()
      ensures advanced == old(roundComplete)
      ensures advanced ==> currentRound == old(currentRound) + 1 && itemsCollected == 0
                           && roundStartTime == now && !roundComplete
      ensures !advanced ==> currentRound == old(currentRound) && itemsCollected == old(itemsCollected)
                            && roundStartTime == old(roundStartTime) && roundComplete == old(roundComplete)
    {
      if roundComplete {
        currentRound := currentRound + 1;
        StartRound(now);
        return true;
      }
      return false;
    }

    /** `reset`: back to round 1, started at `now`. */
    method Reset(now: real)
      modifies this
      ensures Valid()
      ensures currentRound == 1 && itemsCollected == 0 && roundStartTime == now && !roundComplete
    {
      currentRound := 1;
      itemsCollected := 0;
      roundStartTime := 0.0;
      roundComplete := false;
      StartRound(now);
    }
  }

  /** Collecting a round's goal from an empty counter: completion is reported
      on the last call and on no earlier one. */
  method CollectGoal(rm: RoundManager) returns (outcomes: seq<bool>)
    requires rm.Valid() && rm.itemsCollected == 0
    modifies rm
    ensures rm.Valid() && rm.roundComplete && rm.currentRound == old(rm.currentRound)
    ensures |outcomes| == ItemsGoal(rm.currentRound)
    ensures forall k :: 0 <= k < |outcomes| ==> (outcomes[k] <==> k == |outcomes| - 1)
  {
    var goal := ItemsGoal(rm.currentRound);
    outcomes := [];
    while |outcomes| < goal
      invariant rm.Valid() && rm.currentRound == old(rm.currentRound)
      invariant rm.itemsCollected == |outcomes| <= goal
      invariant forall k :: 0 <= k < |outcomes| ==> (outcomes[k] <==> k == goal - 1)
    {
      var complete := rm.OnItemCollected();
      outcomes := outcomes + [complete];
    }
  }

  /** First round end to end: nine items leave the round open, the tenth
      completes it, and advancing then enters round 2 with an empty counter. */
  method RoundOneScenario() returns (outcomes: seq<bool>, advanced: bool, nextRound: int, itemsAfter: int)
    ensures |outcomes| == 10
    ensures forall k :: 0 <= k < 9 ==> !outcomes[k]
    ensures outcomes[9]
    ensures advanced && nextRound == 2 && itemsAfter == 0
  {
    var rm := new RoundManager();
    rm.StartRound(0.0);
    outcomes := [];
    while |outcomes| < 10
      invariant rm.Valid() && rm.currentRound == 1
      invariant rm.itemsCollected == |outcomes| <= 10
      invariant forall k :: 0 <= k < |outcomes| ==> (outcomes[k] <==> k == 9)
    {
      var complete := rm.OnItemCollected();
      outcomes := outcomes + [complete];
    }
    advanced := rm.AdvanceRound(1.0);
    nextRound := rm.currentRound;
    itemsAfter := rm.itemsCollected;
  }
}
