/** Tuning constants of the game (makeuprain/config.py) and the few numeric
    literals the game logic hard-codes. Integer counts stay `int`; the
    floating-point settings are exact `real`s. */
module Config {

  // ===== Screen =====
  const SCREEN_WIDTH: int := 800
  const SCREEN_HEIGHT: int := 600

  // ===== Keyboard =====

  /** The keys the game logic reacts to; every other key is `OtherKey`. */
  datatype Key = LeftArrow | RightArrow | KeyA | KeyD | KeyP | KeyEscape | KeyR | KeySpace | KeyM | OtherKey

  // ===== Player =====
  const PLAYER_SPEED: real := 5.5
  const START_LIVES: int := 3
  const INVULNERABILITY_TIME_MS: int := 1000
  /** `INVULNERABILITY_TIME // (1000 / 60)` is the float 59.0: the number of
      frames a damaged player stays invulnerable. */
  const INVULNERABILITY_FRAMES: int := 59
  /** A dying player counts as dead once its death timer exceeds this. */
  const DEATH_ANIMATION_FRAMES: int := 30
  const PLAYER1_LEFT: set<Key> := {LeftArrow}
  const PLAYER1_RIGHT: set<Key> := {RightArrow}
  const PLAYER2_LEFT: set<Key> := {KeyA}
  const PLAYER2_RIGHT: set<Key> := {KeyD}

  // ===== Enemies =====
  const ENEMY_SPEED_MIN: real := 1.5
  const ENEMY_SPEED_MAX: real := 2.8
  const ENEMY_INITIAL_COUNT: int := 8

  // ===== Collectibles =====
  const COLLECTIBLE_SPEED_MIN: real := 1.2
  const COLLECTIBLE_SPEED_MAX: real := 2.2
  const COLLECTIBLE_INITIAL_COUNT: int := 20
  const POINTS_VALUE: int := 50

  // ===== Score =====
  const COMBO_TIME_WINDOW_MS: int := 2000
  /** `COMBO_TIME_WINDOW // (1000 / 60)` is the float 119.0: the combo window in frames. */
  const COMBO_WINDOW_FRAMES: int := 119
  /** The combo table, kept in the ascending key order in which the game
      iterates it (`sorted(COMBO_MULTIPLIERS.items())`). */
  const COMBO_MULTIPLIERS: seq<(int, real)> := [(3, 1.5), (5, 2.0), (10, 3.0)]

  // ===== Game loop =====
  const MAX_PARTICLES: int := 100

  // ===== Rounds =====
  const ITEMS_SEQUENCE: seq<int> := [10, 15, 25, 35, 50]
  const DEFAULT_ITEMS_INCREMENT: int := 15
  /** Seconds per round; a value <= 0 would mean "no limit". */
  const ROUND_TIME_LIMIT: real := 60.0
  const SPEED_MULTIPLIER_PER_ROUND: real := 0.3
  const MAX_SPEED_MULTIPLIER: real := 3.0
  const ENEMY_SPAWN_INCREASE: int := 3
  const ENEMY_SPAWN_BASE_FRAMES: int := 45
  const ENEMY_MAX_ON_SCREEN_BASE: int := 8
  const COLLECTIBLE_SPAWN_BASE_FRAMES: int := 30
  const COLLECTIBLE_MAX_ON_SCREEN_BASE: int := 10
  const ROUND_CLEAR_BONUS: int := 500
  const TIME_BONUS_PER_SECOND: int := 10

  // ===== Game modes =====
  const SINGLE_PLAYER: int := 1
  const COOPERATIVE: int := 2

  /** The configuration is internally consistent: the goal table is usable,
      the combo table ascends, every rate and cap is positive and the time
      bonus is switched on. */
  lemma ConfigConsistent()
    ensures |ITEMS_SEQUENCE| > 0 && DEFAULT_ITEMS_INCREMENT > 0
    ensures forall i :: 0 <= i < |ITEMS_SEQUENCE| ==> ITEMS_SEQUENCE[i] > 0
    ensures forall i, j :: 0 <= i < j < |ITEMS_SEQUENCE| ==> ITEMS_SEQUENCE[i] < ITEMS_SEQUENCE[j]
    ensures forall i, j :: 0 <= i < j < |COMBO_MULTIPLIERS| ==>
      COMBO_MULTIPLIERS[i].0 < COMBO_MULTIPLIERS[j].0 && COMBO_MULTIPLIERS[i].1 < COMBO_MULTIPLIERS[j].1
    ensures forall i :: 0 <= i < |COMBO_MULTIPLIERS| ==> COMBO_MULTIPLIERS[i].1 > 1.0
    ensures SPEED_MULTIPLIER_PER_ROUND > 0.0 && MAX_SPEED_MULTIPLIER >= 1.0
    ensures ENEMY_SPAWN_BASE_FRAMES > 0 && COLLECTIBLE_SPAWN_BASE_FRAMES > 0
    ensures ENEMY_MAX_ON_SCREEN_BASE > 0 && COLLECTIBLE_MAX_ON_SCREEN_BASE > 0
    ensures MAX_PARTICLES == 100 && START_LIVES == 3 && ROUND_CLEAR_BONUS == 500
    ensures ROUND_TIME_LIMIT > 0.0
  {
  }
}
