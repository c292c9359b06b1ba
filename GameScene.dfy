/** The playing field (makeuprain/scenes/game_scene.py): one frame of the
    game, with pause and round-transition gating, continuous spawning under
    the round's caps, collision handling, the particle cap, round
    transitions with their bonus, and the all-dead rule that ends the game.

    Every method that changes the field is proved to change it exactly as
    the matching rule of `FrameRules` changes the scene's `Snapshot`; what
    a frame promises is proved about those rules. The things the frame
    reads from the outside world are parameters: the pressed keys, which
    sprites touch which player (pygame's pixel-mask test), the random
    draws, and the two clock readings taken when a round is cleared. The
    score system belongs to the game manager and is shared with the
    game-over screen; the scene holds a reference to it. */
module GameScenes {
  import opened Util
  import opened Config
  import opened Rounds
  import opened Scoring
  import opened Entities
  import opened Scenes
  import opened FrameRules

  /** A player as the frame rules see it. */
  function View(p: Player): PlayerView
    reads p
  {
    PlayerView(p.State(), p.score, p.controlsLeft, p.controlsRight)
  }

  /** The players as the frame rules see them, in list order. */
  function Views(ps: seq<Player>): (vs: seq<PlayerView>)
    reads ps
    ensures |vs| == |ps|
    decreases |ps|
  {
    if ps == [] then [] else Views(ps[..|ps| - 1]) + [View(ps[|ps| - 1])]
  }

  /** Entry `k` of the views is the view of player `k`. */
  lemma {:induction false} ViewsAt(ps: seq<Player>)
    ensures forall k :: 0 <= k < |ps| ==> Views(ps)[k] == View(ps[k])
    decreases |ps|
  {
    if ps != [] {
      ViewsAt(ps[..|ps| - 1]);
    }
  }

  /** Views that agree with the players entry by entry are their views. */
  lemma ViewsAre(ps: seq<Player>, vs: seq<PlayerView>)
    requires |vs| == |ps| && forall k :: 0 <= k < |ps| ==> View(ps[k]) == vs[k]
    ensures Views(ps) == vs
  {
    ViewsAt(ps);
  }

  /** `all(player.is_dead() for player in players)`, true of no players. */
  function AllDead(players: seq<Player>): (all: bool)
    reads players
    ensures all <==> forall k :: 0 <= k < |players| ==> Dead(players[k].State())
    decreases |players|
  {
    if players == [] then true else players[0].IsDead() && AllDead(players[1..])
  }

  /** The bonus credited at a round transition is measured from the start
      of the NEW round, which `advance_round` has just set: it depends on
      nothing but the gap between the two clock readings, so clearing a
      round fast or slow earns the same 1100 points (1099 when the readings
      are up to a tenth of a second apart). */
  lemma BonusIgnoresRoundDuration(tAdvance: real, tBonus: real)
    requires tAdvance <= tBonus <= tAdvance + ROUND_TIME_LIMIT
    ensures RoundBonus(ROUND_TIME_LIMIT, tAdvance, tBonus)
      == ROUND_CLEAR_BONUS + ((ROUND_TIME_LIMIT - (tBonus - tAdvance)) * TIME_BONUS_PER_SECOND as real).Floor
    ensures tBonus == tAdvance ==> RoundBonus(ROUND_TIME_LIMIT, tAdvance, tBonus) == 1100
    ensures tAdvance < tBonus <= tAdvance + 0.1 ==> RoundBonus(ROUND_TIME_LIMIT, tAdvance, tBonus) == 1099
  {
  }

  /** Every player has the scene's sprite width, and no player is listed twice. */
  ghost predicate PlayersOk(ps: seq<Player>, width: int)
  {
    (forall k :: 0 <= k < |ps| ==> ps[k].width == width) &&
    (forall j, k :: 0 <= j < |ps| && 0 <= k < |ps| && j != k ==> ps[j] != ps[k])
  }

  /** The players `reset_game` creates, as the frame rules see them: one
      centred player with the arrow keys, or two at a third and two thirds
      of the width, the second with A and D; full lives, no score. */
  function StartViews(mode: int, width: int): (vs: seq<PlayerView>)
    ensures |vs| == (if mode == SINGLE_PLAYER then 1 else 2) && PlayersInv(vs)
    ensures forall k :: 0 <= k < |vs| ==> vs[k].score == 0 && vs[k].state.lives == START_LIVES && !Dead(vs[k].state)
  {
    var centre := PlayerState(SCREEN_WIDTH / 2 - width / 2, START_LIVES, false, 0, 255, false, 0);
    var left := PlayerState(SCREEN_WIDTH / 3 - width / 2, START_LIVES, false, 0, 255, false, 0);
    var right := PlayerState(2 * SCREEN_WIDTH / 3 - width / 2, START_LIVES, false, 0, 255, false, 0);
    if mode == SINGLE_PLAYER then [PlayerView(centre, 0, PLAYER1_LEFT, PLAYER1_RIGHT)]
    else [PlayerView(left, 0, PLAYER1_LEFT, PLAYER1_RIGHT), PlayerView(right, 0, PLAYER2_LEFT, PLAYER2_RIGHT)]
  }

  class GameScene {
    const base: Scene
    const roundManager: RoundManager
    const scoreSystem: ScoreSystem
    const playerWidth: int
    const playerHeight: int
    const enemyWidth: int
    const enemyHeight: int
    const collectibleWidth: int
    const collectibleHeight: int
    var players: seq<Player>
    var enemies: seq<Faller>
    var collectibles: seq<Faller>
    var particles: seq<Particle>
    var showingRoundTransition: bool
    var transitionTimer: int
    var lastEnemySpawnFrame: int
    var lastCollectibleSpawnFrame: int
    var paused: bool
    var frameCount: int
    var gameMode: int
    /** Random draws consumed so far. */
    var drawn: nat

    /** The sprite image sizes the spawn rules use. */
    function Sizes(): Dims
    {
      Dims(playerWidth, enemyWidth, enemyHeight, collectibleWidth, collectibleHeight)
    }

    /** The sprite images fit the spawn ranges `randint` is called with. */
    predicate SizesOk()
    {
      DimsOk(Sizes()) && 0 < playerHeight
    }

    /** The scene as a value: everything the frame rules read and write. */
    ghost function Snapshot(): Field
      reads this, roundManager, scoreSystem, players
    {
      Field(Views(players), enemies, collectibles, particles, drawn, frameCount,
            lastEnemySpawnFrame, lastCollectibleSpawnFrame, showingRoundTransition, transitionTimer,
            roundManager.currentRound, roundManager.itemsCollected, roundManager.roundStartTime,
            scoreSystem.combo, scoreSystem.comboTimer, scoreSystem.score, scoreSystem.highScore,
            scoreSystem.savedHighScores)
    }

    /** The scene's invariant: its parts are consistent, a cleared round has
        always been advanced, and the snapshot keeps the field invariant.
        The fade of the base scene keeps its own invariant, `base.Valid()`. */
    ghost predicate Valid()
      reads this, roundManager, scoreSystem, players
    {
      SizesOk() && scoreSystem.Valid() && roundManager.Valid() && !roundManager.roundComplete &&
      PlayersOk(players, playerWidth) && FieldInv(Snapshot())
    }

    /** The scene as built at start-up, before its first `on_enter`. */
    constructor (pw: int, ph: int, ew: int, eh: int, cw: int, ch: int, scores: ScoreSystem)
      requires 0 < pw <= SCREEN_WIDTH && 0 < ph && 0 < ew <= SCREEN_WIDTH && 0 < eh <= 500
      requires 0 < cw <= SCREEN_WIDTH && 0 < ch <= 800
      requires scores.Valid()
      ensures Valid() && base.Valid() && fresh(base) && fresh(roundManager) && scoreSystem == scores
      ensures players == [] && enemies == [] && collectibles == [] && particles == []
      ensures !showingRoundTransition && transitionTimer == 0 && !paused && frameCount == 0 && gameMode == SINGLE_PLAYER
      ensures lastEnemySpawnFrame == 0 && lastCollectibleSpawnFrame == 0
      ensures roundManager.currentRound == 1 && roundManager.itemsCollected == 0 && !roundManager.roundComplete && drawn == 0
    {
      base := new Scene();
      roundManager := new RoundManager();
      scoreSystem := scores;
      playerWidth, playerHeight := pw, ph;
      enemyWidth, enemyHeight := ew, eh;
      collectibleWidth, collectibleHeight := cw, ch;
      players := [];
      enemies := [];
      collectibles := [];
      particles := [];
      showingRoundTransition := false;
      transitionTimer := 0;
      lastEnemySpawnFrame := 0;
      lastCollectibleSpawnFrame := 0;
      paused := false;
      frameCount := 0;
      gameMode := SINGLE_PLAYER;
      drawn := 0;
    }

    // ===== Spawning =====

    /** `spawn_enemies`: `count` enemies behind the ones already there, three
        random draws each. */
    method SpawnEnemies(count: int, multiplier: real, rng: Rng)
      requires SizesOk() && multiplier >= 1.0
      modifies this`enemies, this`drawn
      ensures Snapshot() == WithEnemies(old(Snapshot()), Sizes(), rng, Max(0, count), multiplier)
    {
      var k := 0;
      while k < count
        invariant 0 <= k <= Max(0, count)
        invariant enemies == old(enemies) + EnemyWave(Sizes(), rng, old(drawn), k, multiplier)
        invariant drawn == old(drawn) + 3 * k
      {
        enemies := enemies + [SpawnFaller(rng, drawn, enemyWidth, enemyHeight, -500, ENEMY_SPEED_MIN, ENEMY_SPEED_MAX, multiplier)];
        drawn := drawn + 3;
        k := k + 1;
      }
    }

    /** `spawn_collectibles`: the same for collectibles. */
    method SpawnCollectibles(count: int, multiplier: real, rng: Rng)
      requires SizesOk() && multiplier >= 1.0
      modifies this`collectibles, this`drawn
      ensures Snapshot() == WithItems(old(Snapshot()), Sizes(), rng, Max(0, count), multiplier)
    {
      var k := 0;
      while k < count
        invariant 0 <= k <= Max(0, count)
        invariant collectibles == old(collectibles) + ItemWave(Sizes(), rng, old(drawn), k, multiplier)
        invariant drawn == old(drawn) + 3 * k
      {
        collectibles := collectibles + [SpawnFaller(rng, drawn, collectibleWidth, collectibleHeight, -800, COLLECTIBLE_SPEED_MIN, COLLECTIBLE_SPEED_MAX, multiplier)];
        drawn := drawn + 3;
        k := k + 1;
      }
    }

    /** `spawn_round_entities`: the round's bulk spawn. */
    method SpawnRoundEntities(rng: Rng)
      requires SizesOk() && roundManager.currentRound >= 1
      modifies this`enemies, this`collectibles, this`drawn
      ensures Snapshot() == BulkSpawn(old(Snapshot()), Sizes(), rng)
    {
      var round := roundManager.currentRound;
      CountsAndCaps(round);
      var multiplier := SpeedMultiplier(round);
      SpawnEnemies(EnemyCount(round), multiplier, rng);
      SpawnCollectibles(CollectibleCount(round), multiplier, rng);
    }

    /** `_continuous_spawn`: at most one enemy and one collectible a frame,
        each only once its interval has passed and below its cap;
        collectibles only while the round's goal is not yet met. */
    method ContinuousSpawn(rng: Rng)
      requires Valid() && !showingRoundTransition
      modifies this`enemies, this`collectibles, this`drawn, this`lastEnemySpawnFrame, this`lastCollectibleSpawnFrame
      ensures Valid()
      ensures Snapshot() == ContinuousSpawnRule(old(Snapshot()), Sizes(), rng)
    {
      ghost var s0 := Snapshot();
      SpawnEnemyWhenDue(rng);
      SpawnCollectibleWhenDue(rng);
      ContinuousSpawnBounds(s0, Sizes(), rng);
    }

    /** The enemy half of `_continuous_spawn`. */
    method SpawnEnemyWhenDue(rng: Rng)
      requires SizesOk() && roundManager.currentRound >= 1
      modifies this`enemies, this`drawn, this`lastEnemySpawnFrame
      ensures Snapshot() == EnemySpawn(old(Snapshot()), Sizes(), rng)
    {
      var round := roundManager.currentRound;
      var multiplier := SpeedMultiplier(round);
      if frameCount - lastEnemySpawnFrame >= EnemySpawnFrames(round) && |enemies| < EnemyCap(round) {
        SpawnEnemies(1, multiplier, rng);
        lastEnemySpawnFrame := frameCount;
      }
    }

    /** The collectible half of `_continuous_spawn`. */
    method SpawnCollectibleWhenDue(rng: Rng)
      requires SizesOk() && roundManager.currentRound >= 1
      modifies this`collectibles, this`drawn, this`lastCollectibleSpawnFrame
      ensures Snapshot() == ItemSpawn(old(Snapshot()), Sizes(), rng)
    {
      var round := roundManager.currentRound;
      var multiplier := SpeedMultiplier(round);
      if roundManager.itemsCollected < ItemsGoal(round) {
        if frameCount - lastCollectibleSpawnFrame >= CollectibleSpawnFrames(round) && |collectibles| < CollectibleCap(round) {
          SpawnCollectibles(1, multiplier, rng);
          lastCollectibleSpawnFrame := frameCount;
        }
      }
    }

    // ===== Particles =====

    /** A burst of `count` particles appended within the cap. */
    method AddBurst(count: int, rng: Rng)
      modifies this`particles, this`drawn
      ensures Snapshot() == Burst(old(Snapshot()), Max(0, count), rng)
    {
      var burst := CreateParticleBurst(count, rng, drawn);
      drawn := drawn + Max(0, count);
      particles := ExtendCapped(particles, burst);
    }

    // ===== Round transition =====

    /** `_start_round_transition`: clears the field, advances the round and
        credits the round bonus to every player with a life left. The clock
        is read once by `advance_round` (`tAdvance`) and once by
        `get_round_bonus` (`tBonus`). */
    method StartRoundTransition(tAdvance: real, tBonus: real)
      requires roundManager.Valid() && roundManager.roundComplete && PlayersOk(players, playerWidth)
      modifies this`showingRoundTransition, this`transitionTimer, this`enemies, this`collectibles, roundManager, players
      ensures roundManager.Valid() && !roundManager.roundComplete
      ensures Snapshot() == ClearRound(old(Snapshot()), RoundBonus(ROUND_TIME_LIMIT, tAdvance, tBonus), tAdvance)
    {
      ClearField();
      AdvanceRound(tAdvance);
      var bonus := RoundBonus(ROUND_TIME_LIMIT, roundManager.roundStartTime, tBonus);
      CreditRoundBonus(bonus);
    }

    /** The transition screen is shown and both groups are emptied. */
    method ClearField()
      modifies this`showingRoundTransition, this`transitionTimer, this`enemies, this`collectibles
      ensures Snapshot() == Cleared(old(Snapshot()))
    {
      showingRoundTransition := true;
      transitionTimer := ROUND_TRANSITION_FRAMES;
      enemies := [];
      collectibles := [];
    }

    /** `advance_round` of a complete round. */
    method AdvanceRound(now: real)
      requires roundManager.Valid() && roundManager.roundComplete
      modifies roundManager
      ensures roundManager.Valid() && !roundManager.roundComplete && roundManager.roundStartTime == now
      ensures Snapshot() == Advanced(old(Snapshot()), now)
    {
      var advanced := roundManager.AdvanceRound(now);
    }

    /** The bonus loop of `_start_round_transition`: every player with a
        life left gets the bonus; nothing else about the players changes. */
    method CreditRoundBonus(bonus: int)
      requires PlayersOk(players, playerWidth)
      modifies players
      ensures Snapshot() == CreditAll(old(Snapshot()), bonus)
    {
      ghost var s0 := Snapshot();
      ViewsAt(players);
      CreditEach(bonus, s0.players);
      ViewsAre(players, CreditBonus(s0.players, bonus));
      assert Snapshot() == s0.(players := CreditBonus(s0.players, bonus));
    }

    /** The loop itself, over the players' views `before` at its start. */
    method CreditEach(bonus: int, ghost before: seq<PlayerView>)
      requires PlayersOk(players, playerWidth) && |before| == |players|
      requires forall k :: 0 <= k < |players| ==> View(players[k]) == before[k]
      modifies players
      ensures forall k :: 0 <= k < |players| ==> View(players[k]) == CreditBonus(before, bonus)[k]
    {
      ghost var credited := CreditBonus(before, bonus);
      var i := 0;
      while i < |players|
        invariant 0 <= i <= |players|
        invariant forall k :: 0 <= k < i ==> View(players[k]) == credited[k]
        invariant forall k :: i <= k < |players| ==> View(players[k]) == before[k]
      {
        CreditIfAlive(i, bonus);
        i := i + 1;
      }
    }

    /** One turn of that loop: player `i` gets the bonus if it has a life
        left, and the other players are untouched. */
    method CreditIfAlive(i: int, bonus: int)
      requires PlayersOk(players, playerWidth) && 0 <= i < |players|
      modifies players[i]
      ensures View(players[i]) == if old(players[i].lives) > 0 then old(View(players[i])).(score := old(players[i].score) + bonus) else old(View(players[i]))
      ensures forall k :: 0 <= k < |players| && k != i ==> View(players[k]) == old(View(players[k]))
    {
      if players[i].lives > 0 {
        players[i].score := players[i].score + bonus;
      }
    }

    // ===== Collisions =====

    /** `_collect_item` for player `i`: the item is scored, then counted. */
    method CollectItem(i: int, rng: Rng, tAdvance: real, tBonus: real)
      requires Valid() && 0 <= i < |players|
      modifies this`particles, this`drawn, this`showingRoundTransition, this`transitionTimer, this`enemies,
        this`collectibles, roundManager, scoreSystem, players
      ensures Valid()
      ensures Snapshot() == CollectStep(old(Snapshot()), i, rng, RoundBonus(ROUND_TIME_LIMIT, tAdvance, tBonus), tAdvance)
    {
      ScoreItem(i);
      CountItem(rng, tAdvance, tBonus);
    }

    /** The scoring half of `_collect_item`: the shared score system scores
        the item and the collecting player is credited the same points. */
    method ScoreItem(i: int)
      requires Valid() && 0 <= i < |players|
      modifies scoreSystem, players[i]
      ensures Valid()
      ensures Snapshot() == ScoreStep(old(Snapshot()), i)
    {
      ghost var s0 := Snapshot();
      var points := AddPoints();
      CreditPoints(i, points);
      ScoreStepKeepsInv(s0, i);
    }

    /** `add_points` of the shared score system. */
    method AddPoints() returns (points: int)
      requires scoreSystem.Valid()
      modifies scoreSystem
      ensures scoreSystem.Valid()
      ensures points == ItemPoints(old(scoreSystem.combo) + 1)
      ensures Snapshot() == Scored(old(Snapshot()))
    {
      points := scoreSystem.AddPoints();
      PointsForCombo(scoreSystem.combo);
    }

    /** Player `i` is credited `points`. */
    method CreditPoints(i: int, points: int)
      requires PlayersOk(players, playerWidth) && 0 <= i < |players|
      modifies players[i]
      ensures Snapshot() == Credited(old(Snapshot()), i, points)
    {
      ViewsAt(players);
      players[i].score := players[i].score + points;
      ViewsAt(players);
    }

    /** The round half of `_collect_item`: the item counts towards the
        round's goal, 20 particles burst, and a goal now met starts the
        round transition. */
    method CountItem(rng: Rng, tAdvance: real, tBonus: real)
      requires Valid()
      modifies this`particles, this`drawn, this`showingRoundTransition, this`transitionTimer, this`enemies,
        this`collectibles, roundManager, players
      ensures Snapshot() == CountStep(old(Snapshot()), rng, RoundBonus(ROUND_TIME_LIMIT, tAdvance, tBonus), tAdvance)
      ensures Valid()
    {
      ghost var s0 := Snapshot();
      CountAndBurst(rng, tAdvance, tBonus);
      CountStepKeepsInv(s0, rng, RoundBonus(ROUND_TIME_LIMIT, tAdvance, tBonus), tAdvance);
    }

    /** The steps of `_collect_item` after the scoring, in order. */
    method CountAndBurst(rng: Rng, tAdvance: real, tBonus: real)
      requires roundManager.Valid() && !roundManager.roundComplete && PlayersOk(players, playerWidth)
      requires Snapshot().round >= 1
      modifies this`particles, this`drawn, this`showingRoundTransition, this`transitionTimer, this`enemies,
        this`collectibles, roundManager, players
      ensures roundManager.Valid() && !roundManager.roundComplete
      ensures Snapshot() == CountStep(old(Snapshot()), rng, RoundBonus(ROUND_TIME_LIMIT, tAdvance, tBonus), tAdvance)
    {
      var complete := OnItemCollected();
      ghost var counting := Snapshot();
      AddBurst(COLLECT_BURST, rng);
      ghost var counted := Snapshot();
      assert counted == Burst(counting, COLLECT_BURST, rng);
      assert complete <==> counted.items >= ItemsGoal(counted.round);
      ClearIfComplete(complete, tAdvance, tBonus);
    }

    /** A round whose goal is met ends with the transition. */
    method ClearIfComplete(complete: bool, tAdvance: real, tBonus: real)
      requires roundManager.Valid() && complete == roundManager.roundComplete && PlayersOk(players, playerWidth)
      modifies this`showingRoundTransition, this`transitionTimer, this`enemies, this`collectibles, roundManager, players
      ensures roundManager.Valid() && !roundManager.roundComplete
      ensures Snapshot() == if complete then ClearRound(old(Snapshot()), RoundBonus(ROUND_TIME_LIMIT, tAdvance, tBonus), tAdvance)
        else old(Snapshot())
    {
      if complete {
        StartRoundTransition(tAdvance, tBonus);
      }
    }

    /** `on_item_collected` of the round manager. */
    method OnItemCollected() returns (complete: bool)
      requires roundManager.Valid()
      modifies roundManager
      ensures roundManager.Valid() && complete == roundManager.roundComplete
      ensures Snapshot() == old(Snapshot()).(items := old(Snapshot()).items + 1)
      ensures complete <==> Snapshot().items >= ItemsGoal(Snapshot().round)
    {
      complete := roundManager.OnItemCollected();
    }

    /** A hit by obstacles: one life lost, the shared combo broken, and a
        burst of 50 particles if it was the last life, 25 otherwise. */
    method HitObstacle(i: int, rng: Rng)
      requires Valid() && 0 <= i < |players|
      modifies this`particles, this`drawn, players[i], scoreSystem
      ensures Valid()
      ensures Snapshot() == Hit(old(Snapshot()), i, rng)
    {
      ghost var s0 := Snapshot();
      ViewsAt(players);
      TakeDamage(i);
      BreakCombo();
      ViewsAt(players);
      if players[i].dying {
        AddBurst(DEATH_BURST, rng);
      } else {
        AddBurst(HIT_BURST, rng);
      }
      HitKeepsInv(s0, i, rng);
    }

    /** `take_damage` of player `i`. */
    method TakeDamage(i: int)
      requires PlayersOk(players, playerWidth) && 0 <= i < |players| && players[i].Valid()
      modifies players[i]
      ensures Snapshot() == Damaged(old(Snapshot()), i)
    {
      ViewsAt(players);
      var damaged := players[i].TakeDamage();
      ViewsAt(players);
    }

    /** `break_combo` of the shared score system. */
    method BreakCombo()
      requires scoreSystem.Valid()
      modifies scoreSystem
      ensures scoreSystem.Valid()
      ensures Snapshot() == old(Snapshot()).(combo := 0)
    {
      scoreSystem.BreakCombo();
    }

    /** The loop over the items `got` that player `i` touched this frame,
        taken in order: the items before the last, then the last. Items
        after the one that clears the round still count, towards the next
        round. */
    method CollectAll(i: int, got: seq<Faller>, rng: Rng, tAdvance: real, tBonus: real)
      requires Valid() && 0 <= i < |players|
      modifies this`particles, this`drawn, this`showingRoundTransition, this`transitionTimer, this`enemies,
        this`collectibles, roundManager, scoreSystem, players
      ensures Valid()
      ensures Snapshot() == CollectN(old(Snapshot()), i, |got|, rng, RoundBonus(ROUND_TIME_LIMIT, tAdvance, tBonus), tAdvance)
      decreases |got|
    {
      if |got| > 0 {
        CollectAll(i, got[..|got| - 1], rng, tAdvance, tBonus);
        CollectItem(i, rng, tAdvance, tBonus);
      }
    }

    /** The collisions of one player: skipped when dying or out of lives;
        otherwise the items it touches are taken and collected, then the
        obstacles are dealt with. */
    method ResolvePlayer(i: int, contacts: Contacts, rng: Rng, tAdvance: real, tBonus: real)
      requires Valid() && 0 <= i < |players|
      modifies this`particles, this`drawn, this`showingRoundTransition, this`transitionTimer, this`enemies,
        this`collectibles, roundManager, scoreSystem, players
      ensures Valid()
      ensures Snapshot() == PlayerPass(old(Snapshot()), i, contacts, rng, RoundBonus(ROUND_TIME_LIMIT, tAdvance, tBonus), tAdvance)
    {
      ViewsAt(players);
      if players[i].lives <= 0 || players[i].dying {
        return;
      }
      var collected := CollideItems(i, contacts.item);
      CollectAll(i, collected, rng, tAdvance, tBonus);
      ObstaclePass(i, contacts, rng);
    }

    /** `spritecollide(player, collectibles, True)`: the touching items are
        taken out of the group and returned. */
    method CollideItems(i: int, touches: (int, Faller) -> bool) returns (got: seq<Faller>)
      requires Valid()
      modifies this`collectibles
      ensures Valid()
      ensures got == SpriteCollide(old(collectibles), touches, i).0
      ensures Snapshot() == old(Snapshot()).(collectibles := SpriteCollide(old(collectibles), touches, i).1)
    {
      TakeTouchedKeepsInv(Snapshot(), touches, i);
      var rest;
      got, rest := SpriteCollide(collectibles, touches, i).0, SpriteCollide(collectibles, touches, i).1;
      collectibles := rest;
    }

    /** `spritecollide(player, enemies, True)`: the same for obstacles. */
    method CollideEnemies(i: int, touches: (int, Faller) -> bool) returns (hit: seq<Faller>)
      requires Valid()
      modifies this`enemies
      ensures Valid()
      ensures hit == SpriteCollide(old(enemies), touches, i).0
      ensures Snapshot() == old(Snapshot()).(enemies := SpriteCollide(old(enemies), touches, i).1)
    {
      TakeTouchedKeepsInv(Snapshot(), touches, i);
      var rest;
      hit, rest := SpriteCollide(enemies, touches, i).0, SpriteCollide(enemies, touches, i).1;
      enemies := rest;
    }

    /** The obstacle half of one player's collisions: an invulnerable
        player is left alone; otherwise the obstacles it touches are removed
        and, if there were any, it is hit once. */
    method ObstaclePass(i: int, contacts: Contacts, rng: Rng)
      requires Valid() && 0 <= i < |players|
      modifies this`particles, this`drawn, this`enemies, players[i], scoreSystem
      ensures Valid()
      ensures Snapshot() == ObstacleStep(old(Snapshot()), i, contacts.obstacle, rng)
    {
      ViewsAt(players);
      if !players[i].invulnerable {
        var hit := CollideEnemies(i, contacts.obstacle);
        if hit != [] {
          HitObstacle(i, rng);
        }
      }
    }

    /** The collision pass of `update`, player by player in list order. */
    method ResolveCollisions(contacts: Contacts, rng: Rng, tAdvance: real, tBonus: real)
      requires Valid()
      modifies this`particles, this`drawn, this`showingRoundTransition, this`transitionTimer, this`enemies,
        this`collectibles, roundManager, scoreSystem, players
      ensures Valid()
      ensures Snapshot() == Pass(old(Snapshot()), contacts, rng, RoundBonus(ROUND_TIME_LIMIT, tAdvance, tBonus), tAdvance)
    {
      ghost var s0 := Snapshot();
      ghost var bonus := RoundBonus(ROUND_TIME_LIMIT, tAdvance, tBonus);
      var i := 0;
      while i < |players|
        invariant 0 <= i <= |players|
        invariant Valid()
        invariant Snapshot() == PassUpTo(s0, i, contacts, rng, bonus, tAdvance)
      {
        ResolveNext(s0, i, contacts, rng, tAdvance, tBonus);
        i := i + 1;
      }
    }

    /** One more player of the collision pass: after the first `i` players
        the field is the pass over them, and then over `i + 1`. */
    method ResolveNext(ghost s0: Field, i: int, contacts: Contacts, rng: Rng, tAdvance: real, tBonus: real)
      requires Valid() && 0 <= i < |players| && s0.round >= 1 && |s0.players| == |players|
      requires Snapshot() == PassUpTo(s0, i, contacts, rng, RoundBonus(ROUND_TIME_LIMIT, tAdvance, tBonus), tAdvance)
      modifies this`particles, this`drawn, this`showingRoundTransition, this`transitionTimer, this`enemies,
        this`collectibles, roundManager, scoreSystem, players
      ensures Valid()
      ensures Snapshot() == PassUpTo(s0, i + 1, contacts, rng, RoundBonus(ROUND_TIME_LIMIT, tAdvance, tBonus), tAdvance)
    {
      ResolvePlayer(i, contacts, rng, tAdvance, tBonus);
    }

    // ===== The frame =====

    /** `update`: nothing while paused; during a round transition only its
        countdown, ending in the next round's bulk spawn; otherwise one full
        frame. `change` is the scene to switch to once a fade-out is done. */
    method Update(pressed: set<Key>, contacts: Contacts, rng: Rng, tAdvance: real, tBonus: real)
      returns (change: Option<SceneName>)
      requires Valid() && base.Valid()
      modifies this`frameCount, this`enemies, this`collectibles, this`particles, this`drawn, this`lastEnemySpawnFrame,
        this`lastCollectibleSpawnFrame, this`showingRoundTransition, this`transitionTimer
      modifies base, roundManager, scoreSystem, players
      ensures Valid() && base.Valid() && players == old(players) && paused == old(paused) && gameMode == old(gameMode)
      ensures old(paused) ==> change == None && unchanged(this, base, roundManager, scoreSystem) && unchanged(players)
      ensures !old(paused) && old(showingRoundTransition) ==>
        change == None && unchanged(base, roundManager, scoreSystem) && unchanged(players) &&
        Snapshot() == Countdown(old(Snapshot()), Sizes(), rng)
      ensures !old(paused) && !old(showingRoundTransition) ==>
        Snapshot() == Frame(old(Snapshot()), Sizes(), pressed, contacts, rng, RoundBonus(ROUND_TIME_LIMIT, tAdvance, tBonus), tAdvance) &&
        (EveryoneDead(Snapshot().players) ==> base.nextScene == Some(GameOver) && base.transitioningOut) &&
        (!EveryoneDead(Snapshot().players) ==> base.nextScene == old(base.nextScene) && base.transitioningOut == old(base.transitioningOut)) &&
        (var fade := FadeStep(old(base.transitionAlpha), base.transitioningOut);
          base.transitionAlpha == fade.0 && (change != None <==> fade.1)) &&
        (change != None ==> change == base.nextScene)
    {
      if paused {
        return None;
      }
      if showingRoundTransition {
        TransitionCountdown(rng);
        return None;
      }
      change := PlayFrame(pressed, contacts, rng, tAdvance, tBonus);
    }

    /** One playing frame of `update`, neither paused nor in a round transition. */
    method PlayFrame(pressed: set<Key>, contacts: Contacts, rng: Rng, tAdvance: real, tBonus: real)
      returns (change: Option<SceneName>)
      requires Valid() && base.Valid() && !showingRoundTransition
      modifies this`frameCount, this`enemies, this`collectibles, this`particles, this`drawn, this`lastEnemySpawnFrame,
        this`lastCollectibleSpawnFrame, this`showingRoundTransition, this`transitionTimer
      modifies base, roundManager, scoreSystem, players
      ensures Valid() && base.Valid()
      ensures Snapshot() == Frame(old(Snapshot()), Sizes(), pressed, contacts, rng, RoundBonus(ROUND_TIME_LIMIT, tAdvance, tBonus), tAdvance)
      ensures EveryoneDead(Snapshot().players) ==> base.nextScene == Some(GameOver) && base.transitioningOut
      ensures !EveryoneDead(Snapshot().players) ==> base.nextScene == old(base.nextScene) && base.transitioningOut == old(base.transitioningOut)
      ensures var fade := FadeStep(old(base.transitionAlpha), base.transitioningOut);
        base.transitionAlpha == fade.0 && (change != None <==> fade.1)
      ensures change != None ==> change == base.nextScene
    {
      MoveWorld(pressed, rng);
      ResolveCollisions(contacts, rng, tAdvance, tBonus);
      change := FinishFrame();
    }

    /** A frame of the round-transition screen: the countdown, and once it
        runs out the next round's bulk spawn. */
    method TransitionCountdown(rng: Rng)
      requires Valid() && showingRoundTransition
      modifies this`transitionTimer, this`showingRoundTransition, this`enemies, this`collectibles, this`drawn
      ensures Valid()
      ensures Snapshot() == Countdown(old(Snapshot()), Sizes(), rng)
    {
      ghost var s0 := Snapshot();
      TickTransition();
      if transitionTimer <= 0 {
        EndTransition();
        SpawnRoundEntities(rng);
      }
      CountdownKeepsInv(s0, Sizes(), rng);
    }

    /** `transition_timer -= 1`. */
    method TickTransition()
      modifies this`transitionTimer
      ensures Snapshot() == old(Snapshot()).(timer := old(transitionTimer) - 1)
    {
      transitionTimer := transitionTimer - 1;
    }

    /** The transition screen is switched off. */
    method EndTransition()
      modifies this`showingRoundTransition
      ensures Snapshot() == old(Snapshot()).(showing := false)
    {
      showingRoundTransition := false;
    }

    /** The first part of a playing frame: the frame counter, the players'
        own updates, the falling sprites' fall (dropping those below the
        screen), and the continuous spawn. */
    method MoveWorld(pressed: set<Key>, rng: Rng)
      requires Valid() && !showingRoundTransition
      modifies this`frameCount, this`enemies, this`collectibles, this`drawn, this`lastEnemySpawnFrame,
        this`lastCollectibleSpawnFrame, players
      ensures Valid()
      ensures Snapshot() == MoveField(old(Snapshot()), Sizes(), pressed, rng)
    {
      TickFrame();
      StepPlayers(pressed);
      FallGroups();
      ContinuousSpawn(rng);
    }

    /** `frame_count += 1`. */
    method TickFrame()
      requires Valid()
      modifies this`frameCount
      ensures Valid()
      ensures Snapshot() == old(Snapshot()).(frameCount := old(frameCount) + 1)
    {
      frameCount := frameCount + 1;
    }

    /** The players' own updates, in list order. */
    method StepPlayers(pressed: set<Key>)
      requires Valid()
      modifies players
      ensures Snapshot() == Stepped(old(Snapshot()), playerWidth, pressed)
      ensures Valid()
    {
      ghost var s0 := Snapshot();
      ViewsAt(players);
      StepEach(pressed);
      SteppedKeepsInv(s0, playerWidth, pressed);
    }

    /** The loop over the players, each updated with the pressed keys. */
    method StepEach(pressed: set<Key>)
      requires PlayersOk(players, playerWidth) && forall k :: 0 <= k < |players| ==> players[k].Valid()
      modifies players
      ensures Snapshot() == Stepped(old(Snapshot()), playerWidth, pressed)
    {
      ViewsAt(players);
      ghost var stepped := StepViews(Views(players), playerWidth, pressed);
      StepAll(pressed, Views(players));
      ViewsAt(players);
      assert Views(players) == stepped;
    }

    /** The loop itself, over the players' views `before` at its start. */
    method StepAll(pressed: set<Key>, ghost before: seq<PlayerView>)
      requires PlayersOk(players, playerWidth) && |before| == |players|
      requires forall k :: 0 <= k < |players| ==> players[k].Valid() && View(players[k]) == before[k]
      modifies players
      ensures forall k :: 0 <= k < |players| ==> View(players[k]) == StepViews(before, playerWidth, pressed)[k]
    {
      ghost var stepped := StepViews(before, playerWidth, pressed);
      var i := 0;
      while i < |players|
        invariant 0 <= i <= |players|
        invariant forall k :: 0 <= k < i ==> View(players[k]) == stepped[k]
        invariant forall k :: i <= k < |players| ==> players[k].Valid() && View(players[k]) == before[k]
      {
        StepOne(i, pressed);
        i := i + 1;
      }
    }

    /** One turn of that loop: `update` of player `i`; the other players
        are untouched. */
    method StepOne(i: int, pressed: set<Key>)
      requires PlayersOk(players, playerWidth) && 0 <= i < |players| && players[i].Valid()
      modifies players[i]
      ensures var v := old(View(players[i]));
        View(players[i]) == v.(state := PlayerStep(v.state, playerWidth, Pressed(v.left, pressed), Pressed(v.right, pressed)))
      ensures forall k :: 0 <= k < |players| && k != i ==>
        View(players[k]) == old(View(players[k])) && (old(players[k].Valid()) ==> players[k].Valid())
    {
      players[i].Update(pressed);
    }

    /** `enemies.update()` and `collectibles.update()`: every sprite falls
        and those below the screen are dropped. */
    method FallGroups()
      requires Valid()
      modifies this`enemies, this`collectibles
      ensures Valid()
      ensures Snapshot() == Fallen(old(Snapshot()))
    {
      SurvivorsStayInPlay(enemies, -500, ENEMY_SPEED_MIN);
      SurvivorsStayInPlay(collectibles, -800, COLLECTIBLE_SPEED_MIN);
      var keptEnemies := UpdateGroup(enemies);
      var keptItems := UpdateGroup(collectibles);
      enemies, collectibles := keptEnemies, keptItems;
    }

    /** The last part of a playing frame: the fade to the game-over screen
        once every player is dead, the particles' ageing, the combo timer,
        and one frame of the scene fade. */
    method FinishFrame() returns (change: Option<SceneName>)
      requires Valid() && base.Valid()
      modifies base, this`particles, scoreSystem
      ensures Snapshot() == Finish(old(Snapshot()))
      ensures Valid() && base.Valid()
      ensures EveryoneDead(Snapshot().players) ==> base.nextScene == Some(GameOver) && base.transitioningOut
      ensures !EveryoneDead(Snapshot().players) ==>
        base.nextScene == old(base.nextScene) && base.transitioningOut == old(base.transitioningOut)
      ensures var fade := FadeStep(old(base.transitionAlpha), base.transitioningOut);
        base.transitionAlpha == fade.0 && (change != None <==> fade.1)
      ensures change != None ==> change == base.nextScene
    {
      ghost var s0 := Snapshot();
      CheckGameOver();
      AgeParticles();
      TickCombo();
      var done := base.UpdateTransition();
      change := if done then base.nextScene else None;
      FinishKeepsInv(s0);
    }

    /** The particles' update: each ages a frame and the expired ones are dropped. */
    method AgeParticles()
      modifies this`particles
      ensures Snapshot() == Aged(old(Snapshot()))
    {
      var live := StepParticles(particles);
      particles := live;
    }

    /** `update` of the shared score system: the combo timer. */
    method TickCombo()
      requires scoreSystem.Valid()
      modifies scoreSystem
      ensures scoreSystem.Valid()
      ensures Snapshot() == ComboTick(old(Snapshot()))
    {
      scoreSystem.Update();
    }

    /** The all-dead rule: once every player's death animation is over,
        the scene starts fading out to the game-over screen. */
    method CheckGameOver()
      requires base.Valid()
      modifies base
      ensures base.Valid() && base.transitionAlpha == old(base.transitionAlpha)
      ensures Snapshot() == old(Snapshot())
      ensures EveryoneDead(Snapshot().players) ==> base.nextScene == Some(GameOver) && base.transitioningOut
      ensures !EveryoneDead(Snapshot().players) ==> unchanged(base)
    {
      ViewsAt(players);
      if AllDead(players) {
        base.StartTransition(GameOver);
      }
    }

    // ===== Entering, resetting, keys =====

    /** `reset_game`: new players for the game mode, an empty field, round 1
        with its bulk spawn, counters at zero and a fresh score. */
    method ResetGame(rng: Rng, now: real)
      requires SizesOk() && scoreSystem.Valid()
      modifies this`players, this`enemies, this`collectibles, this`particles, this`showingRoundTransition,
        this`transitionTimer, this`lastEnemySpawnFrame, this`lastCollectibleSpawnFrame, this`frameCount, this`paused,
        this`drawn, roundManager, scoreSystem
      ensures Snapshot() == Restarted(old(Snapshot()).(players := StartViews(gameMode, playerWidth)), Sizes(), rng, now)
        .(score := 0, combo := 0, comboTimer := 0)
      ensures Valid() && !paused && scoreSystem.highScore == old(scoreSystem.highScore)
      ensures forall k :: 0 <= k < |players| ==>
        fresh(players[k]) && players[k].playerId == k + 1 && players[k].y == SCREEN_HEIGHT - playerHeight - 20
      ensures |enemies| == ENEMY_INITIAL_COUNT && |collectibles| == COLLECTIBLE_INITIAL_COUNT && particles == []
      ensures roundManager.currentRound == 1 && roundManager.itemsCollected == 0 && roundManager.roundStartTime == now
      ensures !showingRoundTransition && transitionTimer == 0 && lastEnemySpawnFrame == 0 && lastCollectibleSpawnFrame == 0
      ensures frameCount == 0 && scoreSystem.score == 0 && scoreSystem.combo == 0
    {
      CreatePlayers();
      ResetWorld(rng, now);
    }

    /** `reset_game` once the players are in place: the field, the rounds
        and the score are reset. */
    method ResetWorld(rng: Rng, now: real)
      requires SizesOk() && scoreSystem.Valid() && PlayersOk(players, playerWidth) && PlayersInv(Views(players))
      modifies this`enemies, this`collectibles, this`particles, this`showingRoundTransition, this`transitionTimer,
        this`lastEnemySpawnFrame, this`lastCollectibleSpawnFrame, this`frameCount, this`paused, this`drawn,
        roundManager, scoreSystem
      ensures Snapshot() == Restarted(old(Snapshot()), Sizes(), rng, now).(score := 0, combo := 0, comboTimer := 0)
      ensures Valid() && !paused && scoreSystem.highScore == old(scoreSystem.highScore)
      ensures |enemies| == ENEMY_INITIAL_COUNT && |collectibles| == COLLECTIBLE_INITIAL_COUNT && particles == []
      ensures roundManager.currentRound == 1 && roundManager.itemsCollected == 0 && roundManager.roundStartTime == now
      ensures !showingRoundTransition && transitionTimer == 0 && lastEnemySpawnFrame == 0 && lastCollectibleSpawnFrame == 0
      ensures frameCount == 0 && scoreSystem.score == 0 && scoreSystem.combo == 0
    {
      ghost var s0 := Snapshot();
      ResetField(rng, now);
      ResetScore();
      RestartedInv(s0, Sizes(), rng, now);
      ResetKeepsInv(s0, Sizes(), rng, now, s0.players);
    }

    /** `reset` of the shared score system: score and combo back to zero,
        the high score and the saved table kept. */
    method ResetScore()
      requires scoreSystem.Valid()
      modifies scoreSystem
      ensures scoreSystem.Valid() && scoreSystem.highScore == old(scoreSystem.highScore)
      ensures Snapshot() == old(Snapshot()).(score := 0, combo := 0, comboTimer := 0)
    {
      scoreSystem.Reset();
    }

    /** The rest of `reset_game` apart from the players and the score: an
        empty field, round 1 with its bulk spawn, counters at zero. */
    method ResetField(rng: Rng, now: real)
      requires SizesOk()
      modifies this`enemies, this`collectibles, this`particles, this`showingRoundTransition, this`transitionTimer,
        this`lastEnemySpawnFrame, this`lastCollectibleSpawnFrame, this`frameCount, this`paused, this`drawn, roundManager
      ensures roundManager.Valid() && !roundManager.roundComplete && !paused
      ensures Snapshot() == Restarted(old(Snapshot()), Sizes(), rng, now)
    {
      EmptyField();
      RestartRounds(now);
      ResetCounters();
      SpawnRoundEntities(rng);
      ResetFrameCount();
    }

    /** The groups and the particles are emptied. */
    method EmptyField()
      modifies this`enemies, this`collectibles, this`particles
      ensures Snapshot() == old(Snapshot()).(enemies := [], collectibles := [], particles := [])
    {
      enemies := [];
      collectibles := [];
      particles := [];
    }

    /** `reset` of the round manager. */
    method RestartRounds(now: real)
      modifies roundManager
      ensures roundManager.Valid() && !roundManager.roundComplete
      ensures Snapshot() == old(Snapshot()).(round := 1, items := 0, roundStart := now)
    {
      roundManager.Reset(now);
    }

    /** The transition is switched off and the spawn frames are reset. */
    method ResetCounters()
      modifies this`showingRoundTransition, this`transitionTimer, this`lastEnemySpawnFrame, this`lastCollectibleSpawnFrame
      ensures Snapshot() == old(Snapshot()).(showing := false, timer := 0, lastEnemySpawn := 0, lastItemSpawn := 0)
    {
      showingRoundTransition := false;
      transitionTimer := 0;
      lastEnemySpawnFrame := 0;
      lastCollectibleSpawnFrame := 0;
    }

    /** The frame counter restarts and the pause is lifted. */
    method ResetFrameCount()
      modifies this`frameCount, this`paused
      ensures !paused
      ensures Snapshot() == old(Snapshot()).(frameCount := 0)
    {
      frameCount := 0;
      paused := false;
    }

    /** The players of `reset_game` take the place of the old ones. */
    method CreatePlayers()
      requires SizesOk()
      modifies this`players
      ensures Snapshot() == old(Snapshot()).(players := StartViews(gameMode, playerWidth))
      ensures PlayersOk(players, playerWidth) && PlayersInv(Views(players))
      ensures forall k :: 0 <= k < |players| ==>
        fresh(players[k]) && players[k].playerId == k + 1 && players[k].y == SCREEN_HEIGHT - playerHeight - 20
    {
      var ps := NewPlayers(gameMode);
      players := ps;
    }

    /** The players of `reset_game`: one centred player with the arrow
        keys, or two at a third and two thirds of the width, the second
        with A and D; all of them 20 pixels above the bottom edge. */
    method NewPlayers(mode: int) returns (ps: seq<Player>)
      requires SizesOk()
      ensures Views(ps) == StartViews(mode, playerWidth) && PlayersOk(ps, playerWidth)
      ensures forall k :: 0 <= k < |ps| ==>
        fresh(ps[k]) && ps[k].playerId == k + 1 && ps[k].y == SCREEN_HEIGHT - playerHeight - 20
    {
      var y := SCREEN_HEIGHT - playerHeight - 20;
      if mode == SINGLE_PLAYER {
        var p1 := new Player(1, SCREEN_WIDTH / 2 - playerWidth / 2, y, playerWidth, PLAYER1_LEFT, PLAYER1_RIGHT);
        ps := [p1];
      } else {
        var p1 := new Player(1, SCREEN_WIDTH / 3 - playerWidth / 2, y, playerWidth, PLAYER1_LEFT, PLAYER1_RIGHT);
        var p2 := new Player(2, 2 * SCREEN_WIDTH / 3 - playerWidth / 2, y, playerWidth, PLAYER2_LEFT, PLAYER2_RIGHT);
        ps := [p1, p2];
      }
      ViewsAt(ps);
    }

    /** `on_enter`: fade in and start a new game in the chosen mode. */
    method OnEnter(mode: int, rng: Rng, now: real)
      requires Valid()
      modifies this`gameMode, this`players, this`enemies, this`collectibles, this`particles, this`showingRoundTransition,
        this`transitionTimer, this`lastEnemySpawnFrame, this`lastCollectibleSpawnFrame, this`frameCount, this`paused,
        this`drawn, base, roundManager, scoreSystem
      ensures Valid() && base.Valid()
      ensures base.transitionAlpha == OPAQUE && !base.transitioningOut && base.nextScene == None
      ensures gameMode == mode && |players| == (if mode == SINGLE_PLAYER then 1 else 2)
      ensures Snapshot() == Restarted(old(Snapshot()).(players := StartViews(mode, playerWidth)), Sizes(), rng, now)
        .(score := 0, combo := 0, comboTimer := 0)
      ensures !paused && scoreSystem.highScore == old(scoreSystem.highScore)
      ensures forall k :: 0 <= k < |players| ==>
        fresh(players[k]) && players[k].playerId == k + 1 && players[k].y == SCREEN_HEIGHT - playerHeight - 20
      ensures |enemies| == ENEMY_INITIAL_COUNT && |collectibles| == COLLECTIBLE_INITIAL_COUNT && particles == []
      ensures roundManager.currentRound == 1 && roundManager.itemsCollected == 0 && roundManager.roundStartTime == now
      ensures !showingRoundTransition && transitionTimer == 0 && lastEnemySpawnFrame == 0 && lastCollectibleSpawnFrame == 0
      ensures frameCount == 0 && scoreSystem.score == 0 && scoreSystem.combo == 0
    {
      base.OnEnter();
      gameMode := mode;
      ResetGame(rng, now);
    }

    /** `handle_events`: each P toggles the pause, Escape starts the fade
        back to the menu. */
    method HandleEvents(keys: seq<Key>)
      requires base.Valid()
      modifies this`paused, base
      ensures base.Valid()
      ensures paused == (old(paused) != (multiset(keys)[KeyP] % 2 == 1))
      ensures KeyEscape in keys ==> base.nextScene == Some(Menu) && base.transitioningOut
      ensures KeyEscape !in keys ==> unchanged(base)
      ensures base.transitionAlpha == old(base.transitionAlpha)
    {
      var i := 0;
      while i < |keys|
        invariant 0 <= i <= |keys|
        invariant base.Valid() && base.transitionAlpha == old(base.transitionAlpha)
        invariant paused == (old(paused) != (multiset(keys[..i])[KeyP] % 2 == 1))
        invariant KeyEscape in keys[..i] ==> base.nextScene == Some(Menu) && base.transitioningOut
        invariant KeyEscape !in keys[..i] ==> unchanged(base)
      {
        assert keys[..i + 1] == keys[..i] + [keys[i]];
        if keys[i] == KeyP {
          paused := !paused;
        } else if keys[i] == KeyEscape {
          base.StartTransition(Menu);
        }
        i := i + 1;
      }
      assert keys[..i] == keys;
    }
  }
}
