# Makeup Rain — a verified model of the game rules

Makeup Rain is a pygame arcade game. Make-up items and obstacles rain down the
screen; one player, or two in cooperative mode, move left and right to catch the
items and dodge the obstacles. This project models the rules that decide the
game's state, with drawing, sound and device access stripped away:

- **`Config`** (`Config.dfy`): the tuning constants. Python's float frame counts
  are named integers: the combo window is 119 frames and invulnerability lasts 59.
- **`Rounds`** (`RoundManager.dfy`): the round state machine and the difficulty
  profile. The profile covers the item goal, speed multiplier, bulk-spawn counts,
  on-screen caps, spawn intervals, time left, round bonus and progress.
- **`Scoring`** (`ScoreSystem.dfy`): the shared combo and score. The step
  multiplier comes from a threshold loop, the high score is written through, and
  each save is recorded as an event.
- **`Entities`** (`Entities.dfy`):
  - the player, covering movement with pygame's integer rectangle, lives,
    invulnerability and the death animation;
  - the falling sprites and their removal line;
  - particle lifetimes and particle bursts.
- **`Scenes`** (`BaseScene.dfy`): the fade-in and fade-out state machine every
  scene shares.
- **`FrameRules`** (`FrameRules.dfy`): the rules of the playing field as
  functions on a value snapshot of the scene, a `Field`. They cover the
  spawns, the players' updates, the fall, the collision pass player by
  player, the round transition, the particle cap and the combo timer. The
  lemmas here say what a frame promises: which sprites a collision removes,
  when a player is hit, what each player scores, how the round advances, and
  the invariant every frame keeps.
- **`GameScenes`** (`GameScene.dfy`): the playing field as a class. Each of
  its methods is proved to change the scene exactly as the matching rule of
  `FrameRules` changes its snapshot. It covers:
  - one frame of `update`, with pause and round-transition gating;
  - continuous spawning under caps, and collision resolution;
  - the particle cap;
  - round transitions with their bonus, and the all-dead rule;
  - `reset_game`, `on_enter` and the pause and escape keys.
- **`GameOver`** (`GameOverScene.dfy`): the game-over verdict (new record,
  per-player scores, winner) and the keys that leave the screen.

Classes model the objects the game updates in place: `RoundManager`,
`ScoreSystem`, `Player`, `Scene`, `GameScene` and `GameOverScene`. Their methods
are proved against pure specification functions such as `PlayerStep`, `Damage`,
`FadeStep`, `Survivors`, `LiveParticles`, `ExtendCapped` and `RoundBonus`. The
properties the game relies on are proved as lemmas about those functions. A
scene's inherited fade state is a `Scene` object held in its `base` field.

The outside world enters through parameters:

| Input | Modelled as |
|---|---|
| Pressed keys | a set of `Key`s |
| Pixel-mask collision | `Contacts`, an oracle saying which sprites touch player `i` |
| Random draws | `Rng`, two streams of draws indexed by the scene's `drawn` counter |
| Wall clock | real-valued readings: `now`, plus `tAdvance` and `tBonus` for the two readings taken while a round is cleared |

Notes on how the model reads the code:

- **Round bonus timing.** The bonus is computed after `advance_round`, and
  `advance_round` has just restarted the round clock. The time term is therefore
  measured from the start of the new round. A cleared round earns 1100 points
  (1099 when the two clock readings are up to 0.1 s apart), however long the round
  took (`BonusIgnoresRoundDuration`). The bonus goes to the players' own scores,
  not to the shared score system.
- **Movement asymmetry.** A 5.5-pixel step stored in an integer rectangle
  truncates toward zero. A left step therefore moves 6 pixels and a right step 5,
  and both keys together move one pixel left wherever x ≥ 6 (`MoveSteps`).
- **Items after the goal.** Items collected in the same frame after the one that
  clears the round are still counted, toward the next round. They are scored
  with the same shared combo.
- **Collectible guard.** The scene never observes a completed round that has not
  been advanced. The guard "items collected < goal" in `_continuous_spawn` is
  therefore always true when it is evaluated.
- **Caps.**
  - The enemy count never exceeds the round's enemy cap, because the bulk count
    equals the cap. This is a scene invariant.
  - The collectible cap can be exceeded after a bulk spawn: 20 + 6(r−1) items
    against a cap of 10 + 2(r−1). Continuous spawning then waits until the count
    falls below the cap.
- **Pause.** While paused, `update` returns before the fade is advanced, so a
  fade-out requested with Escape completes only after unpausing.

## Model

| member | source | states |
|---|---|---|
| Config.ConfigConsistent | makeuprain/config.py:91-125 | the goal table is non-empty, positive and strictly ascending; the combo thresholds and their multipliers both ascend; every rate and cap is positive; the round time limit is positive; MAX_PARTICLES 100, START_LIVES 3, ROUND_CLEAR_BONUS 500 |
| Rounds.ItemsGoal | makeuprain/core/round_manager.py:46-54 | the goal is at least the first table entry (10) |
| Rounds.ItemsGoalTable | makeuprain/core/round_manager.py:46-54 | goals are 10, 15, 25, 35, 50 for rounds 1–5, then 50 + 15(r−5) |
| Rounds.ItemsGoalStrictlyIncreasing | makeuprain/core/round_manager.py:46-54 | for 1 ≤ r1 < r2 the goals satisfy 0 < goal(r1) < goal(r2) |
| Rounds.SpeedMultiplier | makeuprain/core/round_manager.py:41-44 | the multiplier lies in [1.0, 3.0] |
| Rounds.SpeedMultiplierMonotone | makeuprain/core/round_manager.py:41-44 | the multiplier never decreases with the round |
| Rounds.SpeedMultiplierRamp | makeuprain/core/round_manager.py:41-44 | 1 + 0.3(r−1) below round 8, exactly 3.0 from round 8 on |
| Rounds.CountsAndCaps | makeuprain/core/round_manager.py:56-71 | enemy count and cap are 8 + 3(r−1), collectible count is 20 + 6(r−1) and cap 10 + 2(r−1); all are positive and strictly increasing, collectible counts growing faster than enemy counts |
| Rounds.EnemySpawnFrames | makeuprain/core/round_manager.py:73-75 | the enemy interval is at least 10 frames, so never zero |
| Rounds.CollectibleSpawnFrames | makeuprain/core/round_manager.py:77-79 | the collectible interval is at least 8 frames |
| Rounds.SpawnFramesNonIncreasing | makeuprain/core/round_manager.py:73-79 | both intervals never increase from one round to a later one |
| Rounds.SpawnFramesTable | makeuprain/core/round_manager.py:73-79 | the intervals round by round: 45/30, 34/23, 28/18, 23/15, 20/13, 18/12, 16/10, then 15/10 from round 8 |
| Rounds.TimeLeft | makeuprain/core/round_manager.py:93-99 | time left is never negative, 0 for an untimed round, and at most the limit once the clock has passed the start |
| Rounds.TimeUpIff | makeuprain/core/round_manager.py:101-105 | time is up iff the round is timed and the limit has elapsed since its start (never for an untimed round) |
| Rounds.RoundBonus | makeuprain/core/round_manager.py:81-91 | the bonus is at least 500, exactly 500 when untimed, and at most 500 plus ten per second of the limit |
| Rounds.Progress | makeuprain/core/round_manager.py:107-110 | progress lies in [0, 1] and equals 1 iff the items reach the goal |
| Rounds.RoundManager.constructor | makeuprain/core/round_manager.py:11-16 | round 1, no items, clock 0, not complete |
| Rounds.RoundManager.StartRound | makeuprain/core/round_manager.py:18-22 | empties the counter, restarts the clock, clears the flag, keeps the round |
| Rounds.RoundManager.OnItemCollected | makeuprain/core/round_manager.py:24-31 | the counter rises by exactly one; the result is true iff the counter has reached the goal, and matches the flag |
| Rounds.RoundManager.AdvanceRound | makeuprain/core/round_manager.py:33-39 | when complete: next round, counter 0, clock restarted, flag cleared, result true; otherwise nothing changes and the result is false |
| Rounds.RoundManager.Reset | makeuprain/core/round_manager.py:112-119 | back to round 1 with an empty counter and the clock started at `now` |
| Rounds.CollectGoal | makeuprain/core/round_manager.py:24-31 | from an empty counter, exactly the goal-th item reports completion and no earlier one does |
| Rounds.RoundOneScenario | makeuprain/core/round_manager.py:24-39 | an illustration on one run, not a property (`CollectGoal` is the general statement): in round 1 the first nine items report false, the tenth true, and advancing enters round 2 with an empty counter |
| Scoring.LastMatchIsLargestThreshold | makeuprain/ui/score_system.py:36-39 | over an ascending table the threshold loop yields the value of the largest threshold the combo reaches |
| Scoring.LastMatchBelowAll | makeuprain/ui/score_system.py:36-39 | below every threshold the loop leaves the multiplier at 1.0 |
| Scoring.ComboTableIsStep | makeuprain/ui/score_system.py:36-39 | over the configured table the loop yields 1.0 below 3, 1.5 for 3–4, 2.0 for 5–9 and 3.0 from 10 |
| Scoring.StepMultiplierMonotone | makeuprain/config.py:93-97 | the multiplier stays in [1.0, 3.0] and never drops as the combo grows |
| Scoring.LookupMultiplier | makeuprain/ui/score_system.py:36-39 | the loop's result is the step multiplier of the combo |
| Scoring.PointsForCombo | makeuprain/ui/score_system.py:42-44 | an item earns 50, 75, 100 or 150 points by combo band |
| Scoring.ScoreSystem.constructor | makeuprain/ui/score_system.py:14-20 | zero score and combo, multiplier 1.0, the loaded high score, no saves |
| Scoring.ScoreSystem.AddPoints | makeuprain/ui/score_system.py:22-71 | the combo rises by one and the timer refills to 119; the multiplier is the step value; the score rises by exactly the returned points; the high score becomes the maximum of itself and the score; a save is recorded exactly when the score beat the previous high score; the invariant is kept |
| Scoring.ScoreSystem.BreakCombo | makeuprain/ui/score_system.py:73-77 | combo 0 and multiplier 1.0; score, high score and timer untouched; nothing changes when the combo was already 0 |
| Scoring.ScoreSystem.Update | makeuprain/ui/score_system.py:79-85 | a live combo loses one timer frame and breaks when the timer reaches 0; with no combo nothing changes; score and high score untouched |
| Scoring.ScoreSystem.Reset | makeuprain/ui/score_system.py:98-104 | score, combo and timer zero, multiplier 1.0, high score and saves kept |
| Scoring.ScoreSystem.GetComboInfo | makeuprain/ui/score_system.py:106-109 | returns the combo and multiplier with a time ratio in [0, 1], positive while a combo is live; multiplier 1.0 at combo 0 |
| Scoring.ComboScenario | makeuprain/ui/score_system.py:22-71 | an illustration on one run, not a property (`ComboTableIsStep` and `ScoreSystem.AddPoints` are the general statements): ten unbroken collections give multipliers 1.0, 1.5, 2.0, 3.0 after items 1, 3, 5, 10 and 900 points in all |
| Entities.RandInt | makeuprain/scenes/game_scene.py:166-167 | a `randint(lo, hi)` draw lies in [lo, hi] |
| Entities.Uniform | makeuprain/scenes/game_scene.py:168 | a `uniform(lo, hi)` draw lies in [lo, hi] |
| Entities.BlinkAlpha | makeuprain/entities/game_entities.py:105-107 | the blink alpha is 128 or 255 |
| Entities.Clamp | makeuprain/entities/game_entities.py:97 | the clamped x lies in [0, SCREEN_WIDTH − width] and an on-screen x is kept |
| Entities.MoveSteps | makeuprain/entities/game_entities.py:88-97 | no key keeps x; left moves 6 px (stopping at 0); right moves 5 px (stopping at the right edge); both keys move 1 px left when x ≥ 6 |
| Entities.StepPreservesInv | makeuprain/entities/game_entities.py:81-107 | an update keeps the reachable-state invariant (lives in [0,3], dying iff no lives, alpha 128/255, timers in range) |
| Entities.DyingStep | makeuprain/entities/game_entities.py:84-86 | a dying player's update only increments the death timer |
| Entities.StepStaysOnScreen | makeuprain/entities/game_entities.py:96-97 | after a living player's update x lies in [0, SCREEN_WIDTH − width] |
| Entities.StepCountsDown | makeuprain/entities/game_entities.py:99-107 | the invulnerability timer drops by one; at ≤ 0 the player is vulnerable with alpha 255, else alpha follows the parity of timer // 5 |
| Entities.DamageCases | makeuprain/entities/game_entities.py:109-124 | a hit counts iff vulnerable with a life left; it costs exactly one life; the last life starts the death animation at timer 0 without invulnerability, another grants 59 frames of invulnerability; a hit that does not count changes nothing |
| Entities.DyingRun | makeuprain/entities/game_entities.py:84-86 | any number of updates of a dying player only advance the death timer by that number |
| Entities.DeathAfterAnimation | makeuprain/entities/game_entities.py:109-128 | after the last life is lost the player is dead iff at least 31 updates followed; once dead, updates and hits keep it dead |
| Entities.InvulnerabilityRun | makeuprain/entities/game_entities.py:99-107 | an invulnerable player stays so for exactly timer − 1 updates, its timer dropping by one each |
| Entities.NotInvulnerableRun | makeuprain/entities/game_entities.py:99-107 | updates alone never make a vulnerable living player invulnerable |
| Entities.HitGrantsInvulnerability | makeuprain/entities/game_entities.py:109-119 | after a non-lethal hit the player is invulnerable for the next 58 updates and not after the 59th |
| Entities.Player.constructor | makeuprain/entities/game_entities.py:39-62 | three lives, vulnerable, opaque, not dying, score 0; empty control lists fall back to the arrow keys |
| Entities.Player.Update | makeuprain/entities/game_entities.py:81-107 | the new state is `PlayerStep` of the old one for the pressed keys; invariant and score kept |
| Entities.Player.TakeDamage | makeuprain/entities/game_entities.py:109-119 | the new state and the result are `Damage` of the old state; invariant and score kept |
| Entities.Player.StartDeathAnimation | makeuprain/entities/game_entities.py:121-124 | sets dying with death timer 0 and changes nothing else |
| Entities.Player.IsDead | makeuprain/entities/game_entities.py:126-128 | dead iff dying with death timer above 30 |
| Entities.LastLifeScenario | makeuprain/entities/game_entities.py:109-128 | an illustration on one run, not a property (`DeathAfterAnimation` is the general statement): a player hit on its last life is not dead after 30 updates and dead after the 31st |
| Entities.FallAdvances | makeuprain/entities/game_entities.py:159-161 | a sprite at least one pixel per frame fast moves down at least one pixel, keeping column and speed |
| Entities.FallNAdvances | makeuprain/entities/game_entities.py:159-161 | n updates move such a sprite down at least n pixels |
| Entities.LeavesScreen | makeuprain/entities/game_entities.py:159-166 | a sprite starting at or below row `top` is past the removal line after 701 − top updates |
| Entities.Survivors | makeuprain/entities/game_entities.py:159-166 | the kept sprites are moved sprites of the group, none past the removal line, and every moved sprite not past it is kept |
| Entities.SurvivorsStayInPlay | makeuprain/entities/game_entities.py:187-200 | a group update keeps every kept sprite between its spawn band and the removal line |
| Entities.UpdateGroup | makeuprain/entities/game_entities.py:159-166 | the loop over a group yields `Survivors` of the group |
| Entities.ParticleLifespan | makeuprain/entities/game_entities.py:232-253 | n updates lower a particle's lifetime by exactly n; it is expired iff n ≥ its lifetime |
| Entities.StepParticles | makeuprain/scenes/game_scene.py:287-290 | the particle loop yields `LiveParticles` of the list |
| Entities.CreateParticleBurst | makeuprain/entities/game_entities.py:256-270 | `count` particles (none for a negative count), each with a lifetime in [30, 60] |
| Entities.LiveParticlesExact | makeuprain/scenes/game_scene.py:287-290 | every particle left is the one-frame update of a particle of the list that had more than one frame of life, and is not expired; every such particle's update is left; no particle is invented |
| Entities.BurstOf | makeuprain/entities/game_entities.py:256-270 | a burst of `count` particles, each starting with a full life of 30 to 60 frames |
| Scenes.FadeInClosedForm | makeuprain/scenes/base_scene.py:54-57 | from k steps of opacity, n fade-in frames leave max(0, k − n) steps: never negative |
| Scenes.FadeInFromOpaque | makeuprain/scenes/base_scene.py:33-57 | from 255 the overlay is never negative and is gone exactly from the 17th frame on |
| Scenes.FadeOutClosedForm | makeuprain/scenes/base_scene.py:50-53 | n fade-out frames raise the opacity by exactly 15n |
| Scenes.FadeOutCompletes | makeuprain/scenes/base_scene.py:48-53 | the n-th fade-out frame reports completion iff alpha + 15n ≥ 255, so always by the 17th |
| Scenes.Scene.constructor | makeuprain/scenes/base_scene.py:12-16 | no target, alpha 0, not fading out |
| Scenes.Scene.OnEnter | makeuprain/scenes/base_scene.py:33-37 | alpha 255, not fading out, no target |
| Scenes.Scene.StartTransition | makeuprain/scenes/base_scene.py:43-46 | records the target and starts fading out, alpha untouched |
| Scenes.Scene.UpdateTransition | makeuprain/scenes/base_scene.py:48-57 | the new alpha and the result are `FadeStep` of the old alpha; true only while fading out; target and direction kept |
| FrameRules.SpriteCollidePartitions | makeuprain/scenes/game_scene.py:229 | the collision test splits a group: every sprite it returns touches the player, every sprite it leaves does not, and together they are the group |
| FrameRules.SpriteCollideExact | makeuprain/scenes/game_scene.py:229 | every touching sprite of the group is returned and every other one is left; something is returned iff some sprite of the group touches the player |
| FrameRules.CollideKeepsInPlay | makeuprain/scenes/game_scene.py:257 | the sprites a collision leaves are in play and no more numerous than before |
| FrameRules.PySliceTo | makeuprain/scenes/game_scene.py:249 | Python's `s[:k]` is a prefix, of length min(k, len) for k ≥ 0 and max(0, len + k) for k < 0 |
| FrameRules.ExtendCappedKeepsCap | makeuprain/scenes/game_scene.py:249 | within the cap, a capped extend keeps the old particles in front, appends a prefix of the burst, and yields min(100, len + burst) particles |
| FrameRules.ExtendCappedOverCap | makeuprain/scenes/game_scene.py:278 | an illustration on one list length, not a property: at 101 particles the negative slice admits 19 of a 20-particle burst, which is why the cap needs its invariant |
| FrameRules.SpawnFaller | makeuprain/scenes/game_scene.py:166-168 | a spawned sprite is within the screen width, between its band top and just above the screen, with a base speed in range scaled by the multiplier, and in play |
| FrameRules.Spawned | makeuprain/scenes/game_scene.py:163-179 | a spawn call yields exactly `count` sprites, each within the screen width, above the screen, with its speed in the scaled range, and in play |
| FrameRules.ContinuousSpawnRule | makeuprain/scenes/game_scene.py:304-321 | the continuous spawn changes nothing but the two groups, the random draws used and the two last-spawn frames |
| FrameRules.ContinuousSpawnBounds | makeuprain/scenes/game_scene.py:304-321 | at most one enemy and one collectible are added, behind the sprites already there; a cap that held still holds; an enemy only once its interval has passed; a collectible only while the goal is open and its interval has passed; the groups stay in play |
| FrameRules.BulkSpawnBounds | makeuprain/scenes/game_scene.py:154-179 | the bulk spawn appends exactly the round's enemy and collectible counts, all in play, and changes nothing else |
| FrameRules.CreditBonus | makeuprain/scenes/game_scene.py:337-339 | every player with lives > 0 gains the bonus and every other player is unchanged, in list order |
| FrameRules.ComboPoints | makeuprain/scenes/game_scene.py:230-236 | n items collected in a row earn between 50 and 150 points each |
| FrameRules.CollectStepEffect | makeuprain/scenes/game_scene.py:230-253 | one item: combo +1; the shared score and the collector gain the points of the new combo; high score is the maximum; 20 particles within the cap; round progress +1; a met goal empties the field, shows the transition for 120 frames from `tAdvance` and credits the bonus to every player with a life; otherwise the field is untouched; no player state or keys change |
| FrameRules.CollectStepScore | makeuprain/scenes/game_scene.py:230-249 | one item, the score side: combo +1, the points of the new combo, the high score, the capped burst |
| FrameRules.CollectStepRounds | makeuprain/scenes/game_scene.py:239-253 | one item, the round side: progress +1, and the transition exactly when the goal is met |
| FrameRules.CollectStepPlayer | makeuprain/scenes/game_scene.py:230-253 | one item seen from player k: state and keys kept; the item's points if k collected it; the bonus if the item cleared the round and k has a life |
| FrameRules.CollectNScore | makeuprain/scenes/game_scene.py:230-249 | n items in a row: combo +n, shared score + the combo points of those items, high score following the score, min(100, len + 20n) particles |
| FrameRules.CollectNRounds | makeuprain/scenes/game_scene.py:230-253 | n items advance the round progress by exactly n, items beyond a goal counting towards the next round; after a cleared round the field is empty and in transition from `tAdvance`, otherwise untouched |
| FrameRules.CollectNKeeps | makeuprain/scenes/game_scene.py:230-253 | n items change no player's state or keys, and raise the combo by n |
| FrameRules.CollectNPlayer | makeuprain/scenes/game_scene.py:230-253 | n items seen from player k: the collector gains exactly what the shared score gains, and a player with a life gains one bonus per round cleared |
| FrameRules.CollectNPlayers | makeuprain/scenes/game_scene.py:230-253 | the same for all players at once: no state or key changes, the collector gains the combo points of its items, every player with a life one bonus per round cleared |
| FrameRules.ObstacleStepOracle | makeuprain/scenes/game_scene.py:255-278 | for a living player: hit once (`Damage` counts, combo 0) iff vulnerable and touching some obstacle, otherwise player and combo unchanged; the obstacles left are exactly those not touching it; an invulnerable player changes nothing; scores, round and other players untouched |
| FrameRules.PlayerPassCollects | makeuprain/scenes/game_scene.py:224-253 | the items taken are exactly those the oracle reports touching, none left touches the player; round progress and combo grow by their number (the combo is 0 after a hit); the shared score by their combo points |
| FrameRules.PlayerPassHits | makeuprain/scenes/game_scene.py:224-278 | the player is hit iff vulnerable and touching an obstacle still on the field after its items (a cleared round empties it first); the touched obstacles are removed and the others kept |
| FrameRules.PlayerPassEffect | makeuprain/scenes/game_scene.py:224-278 | one player's collisions leave every state reachable, give each player at most a `CollisionEffect` (score never drops, keys kept, untouched or hit once, a dying or dead player unchanged), and change no other player's state |
| FrameRules.PassUpToEffect | makeuprain/scenes/game_scene.py:224-278 | the same for the pass over the first n players, which leaves the states of the others untouched |
| FrameRules.PassEffect | makeuprain/scenes/game_scene.py:224-278 | the whole pass: every player keeps a reachable state, is hit at most once, never loses points, and is unchanged when dying or out of lives |
| FrameRules.FrameEffect | makeuprain/scenes/game_scene.py:207-302 | a playing frame: the frame counter +1; each player's state is its own update for its keys followed by at most one hit; scores never drop; the round's counter stays below its goal |
| FrameRules.RestartedInv | makeuprain/scenes/game_scene.py:132-149 | a new game starts within the invariant: round 1 from `now`, 8 enemies, 20 collectibles, no particles, counters at zero, players untouched |
| FrameRules.CountdownKeepsInv | makeuprain/scenes/game_scene.py:200-205 | a transition frame keeps the invariant; the screen ends exactly when its timer runs out, and then the round's counts are on the field |
| FrameRules.SteppedKeepsInv | makeuprain/scenes/game_scene.py:211-212 | the players' updates keep the invariant |
| FrameRules.MoveFieldKeepsInv | makeuprain/scenes/game_scene.py:207-221 | the first part of a frame keeps the invariant and shows no transition |
| FrameRules.ScoreStepKeepsInv | makeuprain/scenes/game_scene.py:230-236 | scoring an item keeps the invariant |
| FrameRules.ResetKeepsInv | makeuprain/scenes/game_scene.py:93-152 | `reset_game` establishes the invariant, given new players that keep theirs |
| FrameRules.CountStepKeepsInv | makeuprain/scenes/game_scene.py:239-253 | counting an item keeps the invariant, whether or not it clears the round |
| FrameRules.CollectNKeepsInv | makeuprain/scenes/game_scene.py:230-253 | collecting any number of items keeps the invariant |
| FrameRules.HitKeepsInv | makeuprain/scenes/game_scene.py:258-278 | a hit keeps the invariant |
| FrameRules.TakeTouchedKeepsInv | makeuprain/scenes/game_scene.py:229-257 | removing the touched sprites from either group keeps the invariant |
| FrameRules.ObstacleStepKeepsInv | makeuprain/scenes/game_scene.py:255-278 | one player's obstacles keep the invariant |
| FrameRules.PlayerPassKeepsInv | makeuprain/scenes/game_scene.py:224-278 | one player's collisions keep the invariant |
| FrameRules.PassUpToKeepsInv | makeuprain/scenes/game_scene.py:224-278 | the collision pass keeps the invariant |
| FrameRules.FinishKeepsInv | makeuprain/scenes/game_scene.py:286-293 | the end of a frame keeps the invariant and the players |
| FrameRules.FrameKeepsInv | makeuprain/scenes/game_scene.py:207-302 | every playing frame keeps the invariant: at most 100 particles, enemies within the round's cap, the counter below the goal, every sprite in play, every player reachable with a non-negative score |
| GameScenes.AllDead | makeuprain/scenes/game_scene.py:281 | true iff every player is dead (vacuously for no players) |
| GameScenes.BonusIgnoresRoundDuration | makeuprain/scenes/game_scene.py:333-336 | the bonus depends only on the gap between the two clock readings: 1100 when equal, 1099 when up to 0.1 s apart |
| GameScenes.StartViews | makeuprain/scenes/game_scene.py:96-130 | one player in single mode, two otherwise, each with full lives, no score, alive and in a reachable state |
| GameScenes.GameScene.constructor | makeuprain/scenes/game_scene.py:22-57 | empty field and player list, round 1 with no items collected and the round not complete, no random draws used, no transition, not paused, frame 0, single-player mode; the invariant holds |
| GameScenes.GameScene.SpawnEnemies | makeuprain/scenes/game_scene.py:163-170 | the enemies become the old ones followed by max(0, count) new ones, three draws each (`EnemyWave`; by `Spawned`, each within the width, in [−500, −height], speed in [1.5, 2.8] × multiplier) |
| GameScenes.GameScene.SpawnCollectibles | makeuprain/scenes/game_scene.py:172-179 | the same for collectibles, in [−800, −height] with speed in [1.2, 2.2] × multiplier |
| GameScenes.GameScene.SpawnRoundEntities | makeuprain/scenes/game_scene.py:154-161 | the scene changes as `BulkSpawn`: the round's enemy count, then its collectible count |
| GameScenes.GameScene.ContinuousSpawn | makeuprain/scenes/game_scene.py:304-321 | the scene changes as `ContinuousSpawnRule` and keeps its invariant; by `ContinuousSpawnBounds`, at most one sprite per group, only when due and below the cap |
| GameScenes.GameScene.SpawnEnemyWhenDue | makeuprain/scenes/game_scene.py:307-312 | one enemy, with the frame recorded, iff its interval has passed and the group is below its cap; otherwise nothing changes |
| GameScenes.GameScene.SpawnCollectibleWhenDue | makeuprain/scenes/game_scene.py:314-321 | one collectible, with the frame recorded, iff the goal is open, its interval has passed and the group is below its cap |
| GameScenes.GameScene.AddBurst | makeuprain/scenes/game_scene.py:243-249 | the burst is appended through the Python slice `[:100 − len]`, drawing max(0, count) lifetimes |
| GameScenes.GameScene.StartRoundTransition | makeuprain/scenes/game_scene.py:323-339 | the scene changes as `ClearRound`: both groups empty, transition shown for 120 frames, next round started at `tAdvance`, every player with a life gains the bonus measured from that new start |
| GameScenes.GameScene.ClearField | makeuprain/scenes/game_scene.py:325-330 | transition on for 120 frames and both groups emptied, nothing else |
| GameScenes.GameScene.AdvanceRound | makeuprain/scenes/game_scene.py:333 | next round, counter 0, clock restarted at `now`, flag cleared |
| GameScenes.GameScene.CreditRoundBonus | makeuprain/scenes/game_scene.py:336-339 | the players become `CreditBonus` of their views: exactly those with lives > 0 gain the bonus, nothing else changes |
| GameScenes.GameScene.CreditEach | makeuprain/scenes/game_scene.py:337-339 | the bonus loop leaves every player as its `CreditBonus` entry |
| GameScenes.GameScene.CreditIfAlive | makeuprain/scenes/game_scene.py:338-339 | player i gains the bonus iff it has a life left; the other players are untouched |
| GameScenes.GameScene.CollectItem | makeuprain/scenes/game_scene.py:230-253 | the scene changes as `CollectStep` (see `CollectStepEffect`) and keeps its invariant |
| GameScenes.GameScene.ScoreItem | makeuprain/scenes/game_scene.py:232-236 | the shared score system scores the item and the collecting player gains exactly the same points; the invariant is kept |
| GameScenes.GameScene.AddPoints | makeuprain/scenes/game_scene.py:232-235 | the points are those of the new combo; combo +1, timer refilled, score + points, high score the maximum, a save recorded iff it was beaten |
| GameScenes.GameScene.CreditPoints | makeuprain/scenes/game_scene.py:236 | player i's score rises by the points, nothing else changes |
| GameScenes.GameScene.CountItem | makeuprain/scenes/game_scene.py:239-253 | the scene changes as `CountStep`: the item counts, 20 particles burst within the cap, a met goal starts the round transition; the invariant is kept |
| GameScenes.GameScene.CountAndBurst | makeuprain/scenes/game_scene.py:239-253 | the same steps in the source's order, leaving the round manager never complete |
| GameScenes.GameScene.ClearIfComplete | makeuprain/scenes/game_scene.py:252-253 | the round transition exactly when the round is complete, otherwise nothing changes |
| GameScenes.GameScene.OnItemCollected | makeuprain/scenes/game_scene.py:239 | the counter rises by one and nothing else changes; the result is true iff the counter reached the goal |
| GameScenes.GameScene.HitObstacle | makeuprain/scenes/game_scene.py:258-278 | the scene changes as `Hit`: exactly one `Damage`, the combo broken with the score untouched, a burst of 50 particles if the player is now dying, 25 otherwise; the invariant is kept |
| GameScenes.GameScene.TakeDamage | makeuprain/scenes/game_scene.py:259 | player i's state becomes its `Damage`; nothing else changes |
| GameScenes.GameScene.BreakCombo | makeuprain/scenes/game_scene.py:260 | the combo becomes 0; nothing else in the scene changes |
| GameScenes.GameScene.CollectAll | makeuprain/scenes/game_scene.py:230-253 | for the touched items `got`, the scene changes as `CollectN` over them in order; with `CollectNPlayers`, the collector's score rises by the combo points of those items and each player with a life gains one bonus per round cleared |
| GameScenes.GameScene.ResolvePlayer | makeuprain/scenes/game_scene.py:224-278 | the scene changes as `PlayerPass`: by `PlayerPassCollects` and `PlayerPassHits`, the items taken are those the oracle reports, the player is hit iff vulnerable and touching an obstacle, and the touched obstacles go |
| GameScenes.GameScene.CollideItems | makeuprain/scenes/game_scene.py:229 | returns the items the collision test reports and leaves the group without them |
| GameScenes.GameScene.CollideEnemies | makeuprain/scenes/game_scene.py:257 | the same for the obstacles |
| GameScenes.GameScene.ObstaclePass | makeuprain/scenes/game_scene.py:255-278 | the scene changes as `ObstacleStep`: by `ObstacleStepOracle`, an invulnerable player changes nothing; otherwise the touching obstacles are removed and the player takes one `Damage` with the combo broken iff one touched |
| GameScenes.GameScene.ResolveCollisions | makeuprain/scenes/game_scene.py:223-278 | the scene changes as `Pass`, each player's collisions in list order; by `PassEffect`, each player is hit at most once and never loses points |
| GameScenes.GameScene.ResolveNext | makeuprain/scenes/game_scene.py:223-224 | one iteration of the loop over the players: if the scene is the pass over the first `i` players, it becomes the pass over the first `i + 1`, and the invariant is kept |
| GameScenes.GameScene.Update | makeuprain/scenes/game_scene.py:194-302 | the players, the pause flag and the game mode are never changed. Paused: nothing changes. Transition: the scene changes as `Countdown`. Otherwise the scene changes as `Frame` (move, collisions, particles, combo timer), the game-over fade starts iff all players are dead, and one fade step reports the change |
| GameScenes.GameScene.PlayFrame | makeuprain/scenes/game_scene.py:207-302 | the scene changes as `Frame` (see `FrameEffect`, `FrameKeepsInv`); the game-over fade starts iff all are dead; one fade step reports the change |
| GameScenes.GameScene.TransitionCountdown | makeuprain/scenes/game_scene.py:200-205 | the scene changes as `Countdown`: the timer drops by one; at 0 the transition ends and the round's counts are spawned |
| GameScenes.GameScene.TickTransition | makeuprain/scenes/game_scene.py:201 | the transition timer drops by one |
| GameScenes.GameScene.EndTransition | makeuprain/scenes/game_scene.py:203 | the transition screen is switched off |
| GameScenes.GameScene.MoveWorld | makeuprain/scenes/game_scene.py:207-221 | the scene changes as `MoveField`: frame +1, each player's update, both groups become their `Survivors`, then the continuous spawn; the invariant is kept |
| GameScenes.GameScene.TickFrame | makeuprain/scenes/game_scene.py:208 | the frame counter rises by one |
| GameScenes.GameScene.StepPlayers | makeuprain/scenes/game_scene.py:211-212 | each player's new state is `PlayerStep` for its own keys, scores and keys kept; the invariant is kept |
| GameScenes.GameScene.StepEach | makeuprain/scenes/game_scene.py:211-212 | the same, for players that keep their own invariant |
| GameScenes.GameScene.StepAll | makeuprain/scenes/game_scene.py:211-212 | the loop leaves every player as its `StepViews` entry |
| GameScenes.GameScene.StepOne | makeuprain/scenes/game_scene.py:212 | player i takes its `PlayerStep`; the other players are untouched |
| GameScenes.GameScene.FallGroups | makeuprain/scenes/game_scene.py:215-218 | both groups become their `Survivors`, still in play |
| GameScenes.GameScene.FinishFrame | makeuprain/scenes/game_scene.py:280-302 | the scene changes as `Finish`: the particles become `LiveParticles`, then the combo timer ticks as `ScoreSystem.update`; the game-over fade iff all players are dead; one `FadeStep` reporting the change |
| GameScenes.GameScene.AgeParticles | makeuprain/scenes/game_scene.py:287-290 | the particle list becomes `LiveParticles` of the old list |
| GameScenes.GameScene.TickCombo | makeuprain/scenes/game_scene.py:293 | a live combo loses a frame and breaks when its timer reaches 0 |
| GameScenes.GameScene.CheckGameOver | makeuprain/scenes/game_scene.py:281-284 | all dead: fade-out to the game-over screen; otherwise the fade state is untouched |
| GameScenes.GameScene.ResetGame | makeuprain/scenes/game_scene.py:93-152 | the players of the mode (`StartViews`), an empty field with round 1's 8 enemies and 20 collectibles, counters zero, score and combo zero with the high score kept; the invariant holds |
| GameScenes.GameScene.ResetWorld | makeuprain/scenes/game_scene.py:132-152 | the field, rounds and counters restart as `Restarted`, and the score and combo go to zero |
| GameScenes.GameScene.ResetScore | makeuprain/scenes/game_scene.py:152 | score, combo and timer zero; high score kept |
| GameScenes.GameScene.ResetField | makeuprain/scenes/game_scene.py:132-149 | the scene changes as `Restarted`: round 1 from `now` with its bulk spawn, no particles, no transition, counters zero, not paused |
| GameScenes.GameScene.EmptyField | makeuprain/scenes/game_scene.py:133-135 | both groups and the particles emptied |
| GameScenes.GameScene.RestartRounds | makeuprain/scenes/game_scene.py:138 | round 1, empty counter, clock at `now` |
| GameScenes.GameScene.ResetCounters | makeuprain/scenes/game_scene.py:139-142 | transition off and both spawn frames at 0 |
| GameScenes.GameScene.ResetFrameCount | makeuprain/scenes/game_scene.py:148-149 | frame counter 0 and not paused |
| GameScenes.GameScene.CreatePlayers | makeuprain/scenes/game_scene.py:96-130 | the players become fresh, distinct players seen as `StartViews` of the mode, with ids 1 and 2, 20 px above the bottom |
| GameScenes.GameScene.NewPlayers | makeuprain/scenes/game_scene.py:96-130 | one centred player with the arrow keys, or two at a third and two thirds of the width (the second with A/D) |
| GameScenes.GameScene.OnEnter | makeuprain/scenes/game_scene.py:83-91 | fade-in started and the mode taken over. The scene becomes `Restarted` with `StartViews` of the new mode: fresh players numbered from 1 on the start row, round 1 from `now` with its 8 enemies and 20 collectibles, counters zero, not paused, score and combo zero with the high score kept; the invariant holds |
| GameScenes.GameScene.HandleEvents | makeuprain/scenes/game_scene.py:181-192 | pause flips once per P press; Escape starts the fade-out to the menu; no Escape leaves the fade untouched |
| GameOver.Winner | makeuprain/scenes/gameover_scene.py:105-111 | with two entries, player 1 iff its score is higher and player 2 iff the other's is; none on a tie or with any other number of entries |
| GameOver.LastRequest | makeuprain/scenes/gameover_scene.py:113-122 | no request iff no key asks for a scene; otherwise the request of the last such key |
| GameOver.GameOverScene.constructor | makeuprain/scenes/gameover_scene.py:14-69 | no record, no scores, no winner |
| GameOver.GameOverScene.OnEnter | makeuprain/scenes/gameover_scene.py:79-111 | fade-in started; new record iff score == high score and score > 0; one entry per player in order with its id and score; the winner rule applied to that table |
| GameOver.GameOverScene.RetryGame | makeuprain/scenes/gameover_scene.py:71-73 | starts the fade-out to the game |
| GameOver.GameOverScene.GoToMenu | makeuprain/scenes/gameover_scene.py:75-77 | starts the fade-out to the menu |
| GameOver.GameOverScene.HandleEvents | makeuprain/scenes/gameover_scene.py:113-122 | R/Space request the game and Escape/M the menu, the last such key winning; no such key changes nothing |
| GameOver.GameOverScene.Update | makeuprain/scenes/gameover_scene.py:130-136 | one `FadeStep`; a scene change is reported exactly when the fade-out completes, and it is the target |

## Left out

- Drawing, the HUD, the combo bar and pause panel, floating score texts, fonts, images, tints and masks are presentation.
- Music and sound, and asset loading, are I/O.
- The high score is loaded as a constructor argument. Each save is recorded in `savedHighScores` instead of writing the JSON file.
- The menu scene and the game manager (window, main loop, scene switching) are plumbing. A scene change is returned as `change`.
- The game-over screen's mouse buttons (makeuprain/scenes/gameover_scene.py:124-128) are not modelled. They call the same `retry_game` and `go_to_menu` as the keys, which are modelled, and their hover state is presentation.
- Pixel-mask collision is not computed. The `Contacts` oracle stands in for `spritecollide`: it says which collectibles and which obstacles touch player `i`, and the model is proved to remove and react to exactly those.
- Random draws are not computed. `Rng` streams stand in for them.
- The collectibles' sideways bob is not modelled. A fractional step stored in an integer rectangle truncates, so an item drifts one pixel left on every frame where the cosine is negative and x ≥ 1, and never right. Nothing in the model reads an item's x, because collisions come from the `Contacts` oracle.
- Sprite images too large for their spawn band are excluded: the scene's constructor requires enemies at most 500 px high, collectibles at most 800 px high, and both at most as wide as the screen. With a larger image the source's `randint` calls (makeuprain/scenes/game_scene.py:166-167 and 175-176) would raise `ValueError`.
- Enemy rotation and particle position, velocity, size and colour are not modelled, for the same reason.
- Falling sprites and particles are values in sequences rather than objects updated in place. Nothing else refers to them, so no aliasing is lost.
- `Player.rect` is modelled by its x coordinate and width. The y coordinate is fixed.
- The unused `game_complete` flag, `DIFFICULTY_INTERVAL`, `ROUND_TRANSITION_TIME` and the `SPAWN_MULTIPLIER` constants are never read by the game logic.
- GameScenes.GameScene.CollectAll: the `for item in collected` loop is written as recursion on the list's prefix (the items before the last, then the last). The items are collected in the same order.
- GameScenes.GameScene.Update: one frame takes the same two clock readings for every round cleared in it. The game would read the clock anew for each.
- Entities.Player.StartDeathAnimation has no precondition and its ensures does not mention the invariant. It is only called on the last life, where `TakeDamage` re-establishes the invariant.
