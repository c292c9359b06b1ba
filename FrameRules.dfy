/** The rules of the playing field (makeuprain/scenes/game_scene.py) as
    functions on a value snapshot of the scene, a `Field`: the players, the
    sprite groups, the particles, the random draws used, the frame counters,
    the round and the shared score. The scene's methods are proved to change
    the scene exactly as these rules change its snapshot; the lemmas here
    state what the rules promise about a frame.

    What the frame reads from the outside world is a parameter: the pressed
    keys, which sprites touch which player (pygame's pixel-mask test), the
    random draws, and the round bonus fixed by the two clock readings taken
    when a round is cleared. */
module FrameRules {
  import opened Util
  import opened Config
  import opened Rounds
  import opened Scoring
  import opened Entities

  /** Which sprites touch player `i` this frame: collectibles and obstacles
      are matched against the player with different images, hence two oracles. */
  datatype Contacts = Contacts(item: (int, Faller) -> bool, obstacle: (int, Faller) -> bool)

  /** Frames a round transition is shown. */
  const ROUND_TRANSITION_FRAMES: int := 120
  /** Particles in the burst of a collected item, a hit, and a lethal hit. */
  const COLLECT_BURST: int := 20
  const HIT_BURST: int := 25
  const DEATH_BURST: int := 50

  /** The sprite image sizes the scene measured at start-up. */
  datatype Dims = Dims(playerWidth: int, enemyWidth: int, enemyHeight: int, collectibleWidth: int, collectibleHeight: int)

  /** The images fit the spawn ranges `randint` is called with. */
  predicate DimsOk(d: Dims)
  {
    0 < d.playerWidth <= SCREEN_WIDTH &&
    0 < d.enemyWidth <= SCREEN_WIDTH && 0 < d.enemyHeight <= 500 &&
    0 < d.collectibleWidth <= SCREEN_WIDTH && 0 < d.collectibleHeight <= 800
  }

  /** A player as a frame sees it: its state, its score and its keys. */
  datatype PlayerView = PlayerView(state: PlayerState, score: int, left: set<Key>, right: set<Key>)

  /** Everything a frame of the playing field reads or writes, apart from
      the pause flag and the scene fade. */
  datatype Field = Field(
    players: seq<PlayerView>,
    enemies: seq<Faller>,
    collectibles: seq<Faller>,
    particles: seq<Particle>,
    drawn: nat,
    frameCount: int,
    lastEnemySpawn: int,
    lastItemSpawn: int,
    showing: bool,
    timer: int,
    round: int,
    items: int,
    roundStart: real,
    combo: int,
    comboTimer: int,
    score: int,
    highScore: int,
    saves: seq<int>)

  /** Whether a player's control set has a pressed key. */
  predicate Pressed(controls: set<Key>, pressed: set<Key>)
  {
    controls * pressed != {}
  }

  // ===== Collision test =====

  /** `pygame.sprite.spritecollide(player, group, True, ...)`: the touching
      sprites, in group order, and the group without them. */
  function SpriteCollide(group: seq<Faller>, touches: (int, Faller) -> bool, i: int): (seq<Faller>, seq<Faller>)
    decreases |group|
  {
    if group == [] then ([], [])
    else
      var r := SpriteCollide(group[..|group| - 1], touches, i);
      var f := group[|group| - 1];
      if touches(i, f) then (r.0 + [f], r.1) else (r.0, r.1 + [f])
  }

  /** The collision test splits a group: every sprite it returns touches
      the player, every sprite it leaves does not, and together they are
      exactly the group. */
  lemma {:induction false} SpriteCollidePartitions(group: seq<Faller>, touches: (int, Faller) -> bool, i: int)
    ensures var (hit, rest) := SpriteCollide(group, touches, i);
      (forall k :: 0 <= k < |hit| ==> touches(i, hit[k])) &&
      (forall k :: 0 <= k < |rest| ==> !touches(i, rest[k])) &&
      multiset(hit) + multiset(rest) == multiset(group)
    decreases |group|
  {
    if group != [] {
      var front := group[..|group| - 1];
      var f := group[|group| - 1];
      SpriteCollidePartitions(front, touches, i);
      assert group == front + [f];
    }
  }

  /** The test returns exactly the touching sprites: a sprite of the group
      that touches the player is among those returned, one that does not is
      among those left, and something is returned exactly when some sprite
      touches. */
  lemma SpriteCollideExact(group: seq<Faller>, touches: (int, Faller) -> bool, i: int)
    ensures var (hit, rest) := SpriteCollide(group, touches, i);
      (forall k :: 0 <= k < |group| && touches(i, group[k]) ==> group[k] in hit) &&
      (forall k :: 0 <= k < |group| && !touches(i, group[k]) ==> group[k] in rest) &&
      (hit != [] <==> exists k :: 0 <= k < |group| && touches(i, group[k]))
  {
    var (hit, rest) := SpriteCollide(group, touches, i);
    SpriteCollidePartitions(group, touches, i);
    forall k | 0 <= k < |group|
      ensures group[k] in hit || group[k] in rest
    {
      assert group[k] in multiset(group);
    }
    if hit != [] {
      assert hit[0] in multiset(group);
    }
  }

  /** The sprites left in a group are sprites the group had. */
  lemma CollideKeepsInPlay(group: seq<Faller>, touches: (int, Faller) -> bool, i: int, top: int, minSpeed: real)
    requires AllInPlay(group, top, minSpeed)
    ensures AllInPlay(SpriteCollide(group, touches, i).1, top, minSpeed)
    ensures |SpriteCollide(group, touches, i).1| <= |group|
  {
    var (hit, rest) := SpriteCollide(group, touches, i);
    SpriteCollidePartitions(group, touches, i);
    assert |multiset(rest)| <= |multiset(group)|;
    forall k | 0 <= k < |rest|
      ensures InPlay(rest[k], top, minSpeed)
    {
      assert rest[k] in multiset(rest);
      assert rest[k] in multiset(group);
      var j :| 0 <= j < |group| && group[j] == rest[k];
    }
  }

  // ===== Particle cap =====

  /** Python's `s[:k]`: a negative `k` counts from the end. */
  function PySliceTo<T>(s: seq<T>, k: int): (r: seq<T>)
    ensures r <= s
    ensures |r| == if k >= 0 then Min(k, |s|) else Max(0, |s| + k)
  {
    if k >= 0 then s[..Min(k, |s|)] else s[..Max(0, |s| + k)]
  }

  /** `particles.extend(burst[:MAX_PARTICLES - len(particles)])`. */
  function ExtendCapped(particles: seq<Particle>, burst: seq<Particle>): seq<Particle>
  {
    particles + PySliceTo(burst, MAX_PARTICLES - |particles|)
  }

  /** While the list is within the cap, a burst is cut to the room left:
      the old particles stay in front and the cap is never exceeded. */
  lemma ExtendCappedKeepsCap(particles: seq<Particle>, burst: seq<Particle>)
    requires |particles| <= MAX_PARTICLES
    ensures |ExtendCapped(particles, burst)| == Min(MAX_PARTICLES, |particles| + |burst|)
    ensures ExtendCapped(particles, burst)[..|particles|] == particles
    ensures ExtendCapped(particles, burst)[|particles|..] <= burst
  {
    var e := ExtendCapped(particles, burst);
    assert e[..|particles|] == particles;
    assert e[|particles|..] == PySliceTo(burst, MAX_PARTICLES - |particles|);
  }

  /** Why the cap relies on that invariant: over the cap, the negative
      slice admits all but one particle of a burst (a worked instance). */
  lemma ExtendCappedOverCap(particles: seq<Particle>, burst: seq<Particle>)
    requires |particles| == MAX_PARTICLES + 1 && |burst| == COLLECT_BURST
    ensures |ExtendCapped(particles, burst)| == MAX_PARTICLES + COLLECT_BURST
  {
  }

  // ===== Spawning =====

  /** One sprite of `spawn_enemies` / `spawn_collectibles`, from draws
      `k`, `k + 1` and `k + 2`: anywhere across the screen, between `top`
      and just above it, with a base speed in `[lo, hi]` scaled by the
      round's multiplier. */
  function SpawnFaller(rng: Rng, k: nat, width: int, height: int, top: int, lo: real, hi: real, multiplier: real): (f: Faller)
    requires 0 < width <= SCREEN_WIDTH && 0 < height && top <= -height && 0.0 <= lo <= hi && multiplier >= 1.0
    ensures 0 <= f.x <= SCREEN_WIDTH - width && top <= f.y <= -height
    ensures lo * multiplier <= f.speed <= hi * multiplier
    ensures InPlay(f, top, lo)
  {
    var speed := Uniform(rng, lo, hi, k + 2);
    ScaleBetween(speed, lo, hi, multiplier);
    Faller(RandInt(rng, 0, SCREEN_WIDTH - width, k), RandInt(rng, top, -height, k + 1), speed * multiplier)
  }

  /** `uniform(lo, hi) * multiplier` stays between the scaled bounds, and
      a multiplier of at least 1 never slows a sprite below `lo`. */
  lemma ScaleBetween(v: real, lo: real, hi: real, multiplier: real)
    requires 0.0 <= lo <= v <= hi && multiplier >= 1.0
    ensures lo * multiplier <= v * multiplier <= hi * multiplier
    ensures lo <= v * multiplier
  {
    assert (v - lo) * multiplier >= 0.0;
    assert (hi - v) * multiplier >= 0.0;
    assert v * (multiplier - 1.0) >= 0.0;
  }

  /** The `count` sprites of one spawn call, three draws each from draw
      `first` on: every one of them spawns above the screen, within the
      scaled speed range, and in play. */
  function Spawned(rng: Rng, first: nat, count: nat, width: int, height: int, top: int, lo: real, hi: real, multiplier: real): (wave: seq<Faller>)
    requires 0 < width <= SCREEN_WIDTH && 0 < height && top <= -height && 0.0 <= lo <= hi && multiplier >= 1.0
    ensures |wave| == count
    ensures forall k :: 0 <= k < count ==>
      0 <= wave[k].x <= SCREEN_WIDTH - width && top <= wave[k].y <= -height &&
      lo * multiplier <= wave[k].speed <= hi * multiplier && InPlay(wave[k], top, lo)
    decreases count
  {
    if count == 0 then []
    else
      Spawned(rng, first, count - 1, width, height, top, lo, hi, multiplier) +
        [SpawnFaller(rng, first + 3 * (count - 1), width, height, top, lo, hi, multiplier)]
  }

  /** `spawn_enemies(count)`: from 500 pixels above the screen. */
  function EnemyWave(d: Dims, rng: Rng, first: nat, count: nat, multiplier: real): seq<Faller>
    requires DimsOk(d) && multiplier >= 1.0
  {
    Spawned(rng, first, count, d.enemyWidth, d.enemyHeight, -500, ENEMY_SPEED_MIN, ENEMY_SPEED_MAX, multiplier)
  }

  /** `spawn_collectibles(count)`: from 800 pixels above the screen. */
  function ItemWave(d: Dims, rng: Rng, first: nat, count: nat, multiplier: real): seq<Faller>
    requires DimsOk(d) && multiplier >= 1.0
  {
    Spawned(rng, first, count, d.collectibleWidth, d.collectibleHeight, -800, COLLECTIBLE_SPEED_MIN, COLLECTIBLE_SPEED_MAX, multiplier)
  }

  /** `spawn_enemies(count)` on the field: the wave behind the enemies there. */
  function WithEnemies(f: Field, d: Dims, rng: Rng, count: nat, multiplier: real): Field
    requires DimsOk(d) && multiplier >= 1.0
  {
    f.(enemies := f.enemies + EnemyWave(d, rng, f.drawn, count, multiplier), drawn := f.drawn + 3 * count)
  }

  /** `spawn_collectibles(count)` on the field. */
  function WithItems(f: Field, d: Dims, rng: Rng, count: nat, multiplier: real): Field
    requires DimsOk(d) && multiplier >= 1.0
  {
    f.(collectibles := f.collectibles + ItemWave(d, rng, f.drawn, count, multiplier), drawn := f.drawn + 3 * count)
  }

  /** `spawn_round_entities`: the round's enemies, then its collectibles. */
  function BulkSpawn(f: Field, d: Dims, rng: Rng): Field
    requires DimsOk(d) && f.round >= 1
  {
    CountsAndCaps(f.round);
    var m := SpeedMultiplier(f.round);
    WithItems(WithEnemies(f, d, rng, EnemyCount(f.round), m), d, rng, CollectibleCount(f.round), m)
  }

  /** `reset_game` apart from the players and the score: round 1 started
      at `now` on an empty field with its bulk spawn, the transition off and
      the counters at zero. */
  function Restarted(f: Field, d: Dims, rng: Rng, now: real): Field
    requires DimsOk(d)
  {
    var empty := f.(enemies := [], collectibles := [], particles := [], round := 1, items := 0, roundStart := now,
                    showing := false, timer := 0, lastEnemySpawn := 0, lastItemSpawn := 0);
    BulkSpawn(empty, d, rng).(frameCount := 0)
  }

  /** A frame of the round-transition screen: the countdown, and once it
      runs out the next round's bulk spawn. */
  function Countdown(f: Field, d: Dims, rng: Rng): Field
    requires DimsOk(d) && f.round >= 1
  {
    var t := f.(timer := f.timer - 1);
    if t.timer <= 0 then BulkSpawn(t.(showing := false), d, rng) else t
  }

  /** The enemy half of `_continuous_spawn`: one enemy once its interval
      has passed and below its cap. */
  function EnemySpawn(f: Field, d: Dims, rng: Rng): Field
    requires DimsOk(d) && f.round >= 1
  {
    if f.frameCount - f.lastEnemySpawn >= EnemySpawnFrames(f.round) && |f.enemies| < EnemyCap(f.round) then
      WithEnemies(f, d, rng, 1, SpeedMultiplier(f.round)).(lastEnemySpawn := f.frameCount)
    else f
  }

  /** The collectible half: likewise, and only while the round's goal is open. */
  function ItemSpawn(f: Field, d: Dims, rng: Rng): Field
    requires DimsOk(d) && f.round >= 1
  {
    if f.items < ItemsGoal(f.round) &&
       f.frameCount - f.lastItemSpawn >= CollectibleSpawnFrames(f.round) && |f.collectibles| < CollectibleCap(f.round) then
      WithItems(f, d, rng, 1, SpeedMultiplier(f.round)).(lastItemSpawn := f.frameCount)
    else f
  }

  /** `_continuous_spawn`: the enemy, then the collectible. */
  function ContinuousSpawnRule(f: Field, d: Dims, rng: Rng): (r: Field)
    requires DimsOk(d) && f.round >= 1
    ensures r == f.(enemies := r.enemies, collectibles := r.collectibles, drawn := r.drawn,
                    lastEnemySpawn := r.lastEnemySpawn, lastItemSpawn := r.lastItemSpawn)
  {
    ItemSpawn(EnemySpawn(f, d, rng), d, rng)
  }

  /** Each player's own update under the pressed keys. */
  function StepViews(vs: seq<PlayerView>, width: int, pressed: set<Key>): (stepped: seq<PlayerView>)
    ensures |stepped| == |vs|
  {
    seq(|vs|, k requires 0 <= k < |vs| =>
      vs[k].(state := PlayerStep(vs[k].state, width, Pressed(vs[k].left, pressed), Pressed(vs[k].right, pressed))))
  }

  /** The players' updates on the field. */
  function Stepped(f: Field, width: int, pressed: set<Key>): Field
  {
    f.(players := StepViews(f.players, width, pressed))
  }

  /** The fall of both groups, dropping the sprites below the screen. */
  function Fallen(f: Field): Field
  {
    f.(enemies := Survivors(f.enemies), collectibles := Survivors(f.collectibles))
  }

  /** The first part of a playing frame: the frame counter, the players'
      updates, the fall of every sprite, and the continuous spawn. */
  function MoveField(f: Field, d: Dims, pressed: set<Key>, rng: Rng): Field
    requires DimsOk(d) && f.round >= 1
  {
    ContinuousSpawnRule(Fallen(Stepped(f.(frameCount := f.frameCount + 1), d.playerWidth, pressed)), d, rng)
  }

  // ===== Collisions =====

  /** The score half of `_collect_item`: the combo grows, the item scores
      at the new multiplier for the shared score and for player `i`, and a
      new high score is saved. */
  function ScoreStep(f: Field, i: int): Field
    requires 0 <= i < |f.players|
  {
    Credited(Scored(f), i, ItemPoints(f.combo + 1))
  }

  /** `add_points` on the shared score. */
  function Scored(f: Field): Field
  {
    var combo := f.combo + 1;
    var score := f.score + ItemPoints(combo);
    f.(combo := combo, comboTimer := COMBO_WINDOW_FRAMES, score := score,
       highScore := Max(f.highScore, score), saves := f.saves + (if score > f.highScore then [score] else []))
  }

  /** Player `i` is credited `points`. */
  function Credited(f: Field, i: int, points: int): Field
    requires 0 <= i < |f.players|
  {
    f.(players := f.players[i := f.players[i].(score := f.players[i].score + points)])
  }

  /** The bonus loop of `_start_round_transition`. */
  function CreditBonus(vs: seq<PlayerView>, bonus: int): (credited: seq<PlayerView>)
    ensures |credited| == |vs|
    ensures forall k :: 0 <= k < |vs| ==>
      credited[k] == if vs[k].state.lives > 0 then vs[k].(score := vs[k].score + bonus) else vs[k]
    decreases |vs|
  {
    if vs == [] then []
    else
      var v := vs[|vs| - 1];
      CreditBonus(vs[..|vs| - 1], bonus) + [if v.state.lives > 0 then v.(score := v.score + bonus) else v]
  }

  /** `_start_round_transition`: the field is cleared, the next round
      starts at `tAdvance`, and every player with a life gets the bonus. */
  function ClearRound(f: Field, bonus: int, tAdvance: real): Field
  {
    CreditAll(Advanced(Cleared(f), tAdvance), bonus)
  }

  /** The transition screen is shown over an empty field. */
  function Cleared(f: Field): Field
  {
    f.(showing := true, timer := ROUND_TRANSITION_FRAMES, enemies := [], collectibles := [])
  }

  /** `advance_round` of a complete round at time `t`. */
  function Advanced(f: Field, t: real): Field
  {
    f.(round := f.round + 1, items := 0, roundStart := t)
  }

  /** Every player with a life gets the bonus. */
  function CreditAll(f: Field, bonus: int): Field
  {
    f.(players := CreditBonus(f.players, bonus))
  }

  /** A burst of `count` particles, added within the cap. */
  function Burst(f: Field, count: nat, rng: Rng): Field
  {
    f.(particles := ExtendCapped(f.particles, BurstOf(count, rng, f.drawn)), drawn := f.drawn + count)
  }

  /** The round half of `_collect_item`: the item counts, 20 particles
      burst, and a goal now met clears the round. */
  function CountStep(f: Field, rng: Rng, bonus: int, tAdvance: real): Field
    requires f.round >= 1
  {
    var counted := Burst(f.(items := f.items + 1), COLLECT_BURST, rng);
    if counted.items >= ItemsGoal(counted.round) then ClearRound(counted, bonus, tAdvance) else counted
  }

  /** `_collect_item` for player `i`. */
  function CollectStep(f: Field, i: int, rng: Rng, bonus: int, tAdvance: real): (r: Field)
    requires f.round >= 1 && 0 <= i < |f.players|
    ensures r.round >= f.round && |r.players| == |f.players| && r.frameCount == f.frameCount
  {
    CountStep(ScoreStep(f, i), rng, bonus, tAdvance)
  }

  /** `n` items collected by player `i`, one after the other. */
  function CollectN(f: Field, i: int, n: nat, rng: Rng, bonus: int, tAdvance: real): (r: Field)
    requires f.round >= 1 && 0 <= i < |f.players|
    ensures r.round >= f.round && |r.players| == |f.players| && r.frameCount == f.frameCount
    decreases n, 1
  {
    if n == 0 then f else CollectNth(f, i, n, rng, bonus, tAdvance)
  }

  /** The field once the `n`-th of those items is collected (a function of
      its own, so that proofs unfold one item at a time). */
  function CollectNth(f: Field, i: int, n: nat, rng: Rng, bonus: int, tAdvance: real): (r: Field)
    requires f.round >= 1 && 0 <= i < |f.players| && n >= 1
    ensures r.round >= f.round && |r.players| == |f.players| && r.frameCount == f.frameCount
    decreases n, 0
  {
    CollectStep(CollectN(f, i, n - 1, rng, bonus, tAdvance), i, rng, bonus, tAdvance)
  }

  /** A hit by obstacles: the damage, the combo broken, and a burst of 50
      particles if it was the last life, 25 otherwise. */
  function Hit(f: Field, i: int, rng: Rng): Field
    requires 0 <= i < |f.players|
  {
    var g := Damaged(f, i).(combo := 0);
    Burst(g, if g.players[i].state.dying then DEATH_BURST else HIT_BURST, rng)
  }

  /** `take_damage` of player `i`. */
  function Damaged(f: Field, i: int): Field
    requires 0 <= i < |f.players|
  {
    f.(players := f.players[i := f.players[i].(state := Damage(f.players[i].state).0)])
  }

  /** The obstacle half of one player's collisions: an invulnerable player
      is left alone; otherwise the obstacles it touches are removed and, if
      there were any, it is hit once. */
  function ObstacleStep(f: Field, i: int, touches: (int, Faller) -> bool, rng: Rng): Field
    requires 0 <= i < |f.players|
  {
    if f.players[i].state.invulnerable then f
    else
      var (hit, rest) := SpriteCollide(f.enemies, touches, i);
      var cleared := f.(enemies := rest);
      if hit != [] then Hit(cleared, i, rng) else cleared
  }

  /** The collisions of player `i`: none while dying or out of lives;
      otherwise the items it touches are taken from the field and
      collected, then the obstacles are dealt with. */
  function PlayerPass(f: Field, i: int, contacts: Contacts, rng: Rng, bonus: int, tAdvance: real): (r: Field)
    requires f.round >= 1 && 0 <= i < |f.players|
    ensures r.round >= f.round && |r.players| == |f.players| && r.frameCount == f.frameCount
  {
    var st := f.players[i].state;
    if st.lives <= 0 || st.dying then f
    else
      var (got, rest) := SpriteCollide(f.collectibles, contacts.item, i);
      var collected := CollectN(f.(collectibles := rest), i, |got|, rng, bonus, tAdvance);
      ObstacleStep(collected, i, contacts.obstacle, rng)
  }

  /** The collision pass over the first `n` players, in list order. */
  function PassUpTo(f: Field, n: nat, contacts: Contacts, rng: Rng, bonus: int, tAdvance: real): (r: Field)
    requires f.round >= 1 && n <= |f.players|
    ensures r.round >= f.round && |r.players| == |f.players| && r.frameCount == f.frameCount
    decreases n
  {
    if n == 0 then f
    else PlayerPass(PassUpTo(f, n - 1, contacts, rng, bonus, tAdvance), n - 1, contacts, rng, bonus, tAdvance)
  }

  /** The collision pass of `update`. */
  function Pass(f: Field, contacts: Contacts, rng: Rng, bonus: int, tAdvance: real): (r: Field)
    requires f.round >= 1
    ensures r.round >= f.round && |r.players| == |f.players| && r.frameCount == f.frameCount
  {
    PassUpTo(f, |f.players|, contacts, rng, bonus, tAdvance)
  }

  // ===== End of the frame =====

  /** `ScoreSystem.update`: a live combo loses a frame and ends when its
      time is up. */
  function ComboTick(f: Field): Field
  {
    if f.combo > 0 then
      var t := f.comboTimer - 1;
      if t <= 0 then f.(comboTimer := t, combo := 0) else f.(comboTimer := t)
    else f
  }

  /** The last part of a playing frame: the particles age, then the combo
      timer ticks. */
  function Finish(f: Field): Field
  {
    ComboTick(Aged(f))
  }

  /** The particles' update: each ages a frame and the expired ones go. */
  function Aged(f: Field): Field
  {
    f.(particles := LiveParticles(f.particles))
  }

  /** `all(player.is_dead() for player in players)`, true of no players. */
  predicate EveryoneDead(vs: seq<PlayerView>)
  {
    forall k :: 0 <= k < |vs| ==> Dead(vs[k].state)
  }

  /** One playing frame, neither paused nor in a round transition. */
  function Frame(f: Field, d: Dims, pressed: set<Key>, contacts: Contacts, rng: Rng, bonus: int, tAdvance: real): Field
    requires DimsOk(d) && f.round >= 1
  {
    Finish(Pass(MoveField(f, d, pressed, rng), contacts, rng, bonus, tAdvance))
  }

  // ===== What the rules promise =====

  /** The continuous spawn adds at most one enemy and one collectible,
      behind the sprites already there, never beyond a cap that held
      before, each only once its interval has passed, and collectibles only
      while the round's goal is open. */
  lemma ContinuousSpawnBounds(f: Field, d: Dims, rng: Rng)
    requires DimsOk(d) && f.round >= 1
    ensures var r := ContinuousSpawnRule(f, d, rng);
      f.enemies <= r.enemies && |r.enemies| <= |f.enemies| + 1 &&
      f.collectibles <= r.collectibles && |r.collectibles| <= |f.collectibles| + 1 &&
      (|f.enemies| <= EnemyCap(f.round) ==> |r.enemies| <= EnemyCap(f.round)) &&
      (|f.collectibles| <= CollectibleCap(f.round) ==> |r.collectibles| <= CollectibleCap(f.round)) &&
      (|r.enemies| > |f.enemies| ==> f.frameCount - f.lastEnemySpawn >= EnemySpawnFrames(f.round)) &&
      (|r.collectibles| > |f.collectibles| ==>
        f.items < ItemsGoal(f.round) && f.frameCount - f.lastItemSpawn >= CollectibleSpawnFrames(f.round)) &&
      (AllInPlay(f.enemies, -500, ENEMY_SPEED_MIN) ==> AllInPlay(r.enemies, -500, ENEMY_SPEED_MIN)) &&
      (AllInPlay(f.collectibles, -800, COLLECTIBLE_SPEED_MIN) ==> AllInPlay(r.collectibles, -800, COLLECTIBLE_SPEED_MIN))
  {
  }

  /** The bulk spawn adds exactly the round's counts of enemies and
      collectibles behind the sprites already there, every one of them in
      play, and changes nothing else. */
  lemma BulkSpawnBounds(f: Field, d: Dims, rng: Rng)
    requires DimsOk(d) && f.round >= 1
    ensures var r := BulkSpawn(f, d, rng);
      f.enemies <= r.enemies && |r.enemies| == |f.enemies| + EnemyCount(f.round) &&
      f.collectibles <= r.collectibles && |r.collectibles| == |f.collectibles| + CollectibleCount(f.round) &&
      (AllInPlay(f.enemies, -500, ENEMY_SPEED_MIN) ==> AllInPlay(r.enemies, -500, ENEMY_SPEED_MIN)) &&
      (AllInPlay(f.collectibles, -800, COLLECTIBLE_SPEED_MIN) ==> AllInPlay(r.collectibles, -800, COLLECTIBLE_SPEED_MIN)) &&
      r == f.(enemies := r.enemies, collectibles := r.collectibles, drawn := r.drawn)
  {
    CountsAndCaps(f.round);
  }

  /** Items needed to get from the start of round 1 to the start of `round`. */
  function CumGoal(round: int): (total: int)
    requires round >= 1
    ensures total >= 0
    decreases round
  {
    if round == 1 then 0 else CumGoal(round - 1) + ItemsGoal(round - 1)
  }

  /** Points for `n` items collected in a row from combo `c`: 50 to 150 each. */
  function ComboPoints(c: int, n: nat): (total: int)
    ensures 50 * n <= total <= 150 * n
    decreases n
  {
    if n == 0 then 0 else ComboPoints(c, n - 1) + ItemPoints(c + n)
  }

  /** The round bonuses credited to a player with a life over `n`
      cleared rounds. */
  function Credits(n: nat, bonus: int): (total: int)
    ensures bonus >= 0 ==> total >= 0
    decreases n
  {
    if n == 0 then 0 else Credits(n - 1, bonus) + bonus
  }

  /** One collected item: the combo grows by one, the item's points go to
      the shared score and to player `i`, the round progress advances by
      one, and a goal met clears the field and credits the bonus. */
  lemma CollectStepEffect(p: Field, i: int, rng: Rng, bonus: int, tAdvance: real)
    requires p.round >= 1 && 0 <= p.items < ItemsGoal(p.round) && 0 <= i < |p.players|
    ensures var r := CollectStep(p, i, rng, bonus, tAdvance);
      var cleared := p.items + 1 >= ItemsGoal(p.round);
      var points := ItemPoints(p.combo + 1);
      r.combo == p.combo + 1 && r.score == p.score + points && r.highScore == Max(p.highScore, r.score) &&
      r.drawn == p.drawn + COLLECT_BURST &&
      r.particles == ExtendCapped(p.particles, BurstOf(COLLECT_BURST, rng, p.drawn)) &&
      r.round == p.round + (if cleared then 1 else 0) &&
      0 <= r.items < ItemsGoal(r.round) &&
      CumGoal(r.round) + r.items == CumGoal(p.round) + p.items + 1 &&
      (cleared ==>
        r.enemies == [] && r.collectibles == [] && r.showing && r.timer == ROUND_TRANSITION_FRAMES && r.roundStart == tAdvance) &&
      (!cleared ==>
        r.enemies == p.enemies && r.collectibles == p.collectibles && r.showing == p.showing && r.timer == p.timer &&
        r.roundStart == p.roundStart) &&
      |r.players| == |p.players| &&
      forall k :: 0 <= k < |p.players| ==>
        r.players[k].state == p.players[k].state &&
        r.players[k].left == p.players[k].left && r.players[k].right == p.players[k].right &&
        r.players[k].score == p.players[k].score + (if k == i then points else 0) +
          (if cleared && p.players[k].state.lives > 0 then bonus else 0)
  {
    var s := ScoreStep(p, i);
    var c := Burst(s.(items := s.items + 1), COLLECT_BURST, rng);
    assert CollectStep(p, i, rng, bonus, tAdvance) == CountStep(s, rng, bonus, tAdvance);
    if c.items >= ItemsGoal(c.round) {
      assert CumGoal(c.round + 1) == CumGoal(p.round) + ItemsGoal(p.round);
    }
  }

  /** One collected item, the score side: the combo grows by one, the
      item's points go to the shared score, and 20 particles burst. */
  lemma CollectStepScore(p: Field, i: int, rng: Rng, bonus: int, tAdvance: real)
    requires p.round >= 1 && 0 <= p.items < ItemsGoal(p.round) && 0 <= i < |p.players|
    ensures var r := CollectStep(p, i, rng, bonus, tAdvance);
      r.combo == p.combo + 1 && r.score == p.score + ItemPoints(p.combo + 1) && r.highScore == Max(p.highScore, r.score) &&
      r.drawn == p.drawn + COLLECT_BURST &&
      r.particles == ExtendCapped(p.particles, BurstOf(COLLECT_BURST, rng, p.drawn)) &&
      0 <= r.items < ItemsGoal(r.round)
  {
    CollectStepEffect(p, i, rng, bonus, tAdvance);
  }

  /** Collecting `n` items, the score side: the combo grows by `n`, the
      shared score by the combo points of those items, the high score
      follows the score, and each item bursts its 20 particles within the
      cap. */
  lemma {:induction false} CollectNScore(f: Field, i: int, n: nat, rng: Rng, bonus: int, tAdvance: real)
    requires f.round >= 1 && 0 <= f.items < ItemsGoal(f.round) && 0 <= i < |f.players|
    ensures var r := CollectN(f, i, n, rng, bonus, tAdvance);
      r.combo == f.combo + n && r.score == f.score + ComboPoints(f.combo, n) &&
      r.highScore == (if n == 0 then f.highScore else Max(f.highScore, r.score)) &&
      r.drawn == f.drawn + COLLECT_BURST * n &&
      (|f.particles| <= MAX_PARTICLES ==> |r.particles| == Min(MAX_PARTICLES, |f.particles| + COLLECT_BURST * n)) &&
      0 <= r.items < ItemsGoal(r.round)
    decreases n
  {
    if n > 0 {
      CollectNScore(f, i, n - 1, rng, bonus, tAdvance);
      var p := CollectN(f, i, n - 1, rng, bonus, tAdvance);
      CollectNLast(f, i, n, rng, bonus, tAdvance);
      CollectStepScore(p, i, rng, bonus, tAdvance);
      if |p.particles| <= MAX_PARTICLES {
        ExtendCappedKeepsCap(p.particles, BurstOf(COLLECT_BURST, rng, p.drawn));
      }
      ScoreGain(f, p, CollectN(f, i, n, rng, bonus, tAdvance), n);
    }
  }

  /** The last of `n` collected items. */
  lemma CollectNLast(f: Field, i: int, n: nat, rng: Rng, bonus: int, tAdvance: real)
    requires f.round >= 1 && 0 <= i < |f.players| && n >= 1
    ensures CollectN(f, i, n, rng, bonus, tAdvance) == CollectStep(CollectN(f, i, n - 1, rng, bonus, tAdvance), i, rng, bonus, tAdvance)
  {
    assert CollectN(f, i, n, rng, bonus, tAdvance) == CollectNth(f, i, n, rng, bonus, tAdvance);
  }

  /** The score side of `n - 1` items from `f` to `p`, then one more from
      `p` to `r`, is the score side of `n` items. */
  lemma ScoreGain(f: Field, p: Field, r: Field, n: nat)
    requires n >= 1
    requires p.combo == f.combo + (n - 1) && p.score == f.score + ComboPoints(f.combo, n - 1) &&
      p.highScore == (if n - 1 == 0 then f.highScore else Max(f.highScore, p.score)) &&
      p.drawn == f.drawn + COLLECT_BURST * (n - 1) &&
      (|f.particles| <= MAX_PARTICLES ==> |p.particles| == Min(MAX_PARTICLES, |f.particles| + COLLECT_BURST * (n - 1)))
    requires r.combo == p.combo + 1 && r.score == p.score + ItemPoints(p.combo + 1) &&
      r.highScore == Max(p.highScore, r.score) && r.drawn == p.drawn + COLLECT_BURST
    requires |p.particles| <= MAX_PARTICLES ==> |r.particles| == Min(MAX_PARTICLES, |p.particles| + COLLECT_BURST)
    ensures r.combo == f.combo + n && r.score == f.score + ComboPoints(f.combo, n) &&
      r.highScore == Max(f.highScore, r.score) && r.drawn == f.drawn + COLLECT_BURST * n &&
      (|f.particles| <= MAX_PARTICLES ==> |r.particles| == Min(MAX_PARTICLES, |f.particles| + COLLECT_BURST * n))
  {
  }

  /** One collected item, the round side: the round progress advances by
      one, and a goal met clears the field. */
  lemma CollectStepRounds(p: Field, i: int, rng: Rng, bonus: int, tAdvance: real)
    requires p.round >= 1 && 0 <= p.items < ItemsGoal(p.round) && 0 <= i < |p.players|
    ensures var r := CollectStep(p, i, rng, bonus, tAdvance);
      var cleared := p.items + 1 >= ItemsGoal(p.round);
      r.round == p.round + (if cleared then 1 else 0) &&
      0 <= r.items < ItemsGoal(r.round) &&
      CumGoal(r.round) + r.items == CumGoal(p.round) + p.items + 1 &&
      (cleared ==>
        r.enemies == [] && r.collectibles == [] && r.showing && r.timer == ROUND_TRANSITION_FRAMES && r.roundStart == tAdvance) &&
      (!cleared ==>
        r.enemies == p.enemies && r.collectibles == p.collectibles && r.showing == p.showing && r.timer == p.timer &&
        r.roundStart == p.roundStart)
  {
    CollectStepEffect(p, i, rng, bonus, tAdvance);
  }

  /** The round side of `n` collected items taking `f` to `r`: the round
      progress advanced by exactly `n` (items beyond a goal count towards
      the next round); a cleared round left an empty field in transition,
      started at `tAdvance`; otherwise the field is untouched. */
  ghost predicate RoundsAfter(f: Field, r: Field, n: int, tAdvance: real)
    requires f.round >= 1 && r.round >= 1
  {
    0 <= r.items < ItemsGoal(r.round) &&
    CumGoal(r.round) + r.items == CumGoal(f.round) + f.items + n &&
    (r.round == f.round ==>
      r.enemies == f.enemies && r.collectibles == f.collectibles && r.showing == f.showing && r.timer == f.timer) &&
    (r.round > f.round ==>
      r.enemies == [] && r.collectibles == [] && r.showing && r.timer == ROUND_TRANSITION_FRAMES && r.roundStart == tAdvance)
  }

  /** Collecting `n` items, the round side. */
  lemma {:induction false} CollectNRounds(f: Field, i: int, n: nat, rng: Rng, bonus: int, tAdvance: real)
    requires f.round >= 1 && 0 <= f.items < ItemsGoal(f.round) && 0 <= i < |f.players|
    ensures RoundsAfter(f, CollectN(f, i, n, rng, bonus, tAdvance), n, tAdvance)
    decreases n
  {
    if n > 0 {
      CollectNRounds(f, i, n - 1, rng, bonus, tAdvance);
      var p := CollectN(f, i, n - 1, rng, bonus, tAdvance);
      CollectNLast(f, i, n, rng, bonus, tAdvance);
      CollectStepRounds(p, i, rng, bonus, tAdvance);
      RoundsGain(f, p, CollectN(f, i, n, rng, bonus, tAdvance), n, tAdvance);
    }
  }

  /** The round side of `n - 1` items from `f` to `p`, then one more from
      `p` to `r`, is the round side of `n` items. */
  lemma RoundsGain(f: Field, p: Field, r: Field, n: nat, tAdvance: real)
    requires n >= 1 && 1 <= f.round <= p.round
    requires RoundsAfter(f, p, n - 1, tAdvance)
    requires var cleared := p.items + 1 >= ItemsGoal(p.round);
      r.round == p.round + (if cleared then 1 else 0) &&
      0 <= r.items < ItemsGoal(r.round) &&
      CumGoal(r.round) + r.items == CumGoal(p.round) + p.items + 1 &&
      (cleared ==>
        r.enemies == [] && r.collectibles == [] && r.showing && r.timer == ROUND_TRANSITION_FRAMES && r.roundStart == tAdvance) &&
      (!cleared ==>
        r.enemies == p.enemies && r.collectibles == p.collectibles && r.showing == p.showing && r.timer == p.timer &&
        r.roundStart == p.roundStart)
    ensures RoundsAfter(f, r, n, tAdvance)
  {
  }

  /** One collected item, seen from player `k`: its state and keys stay;
      it gains the item's points if it is the collector and the round
      bonus if the item cleared the round and it has a life. */
  lemma CollectStepPlayer(p: Field, i: int, k: int, rng: Rng, bonus: int, tAdvance: real)
    requires p.round >= 1 && 0 <= i < |p.players| && 0 <= k < |p.players|
    ensures var r := CollectStep(p, i, rng, bonus, tAdvance);
      r.combo == p.combo + 1 && (r.round == p.round || r.round == p.round + 1) &&
      r.players[k].state == p.players[k].state &&
      r.players[k].left == p.players[k].left && r.players[k].right == p.players[k].right &&
      r.score == p.score + ItemPoints(p.combo + 1) &&
      r.players[k].score == p.players[k].score + (if k == i then r.score - p.score else 0) +
        (if r.round > p.round && p.players[k].state.lives > 0 then bonus else 0)
  {
  }

  /** Collecting `n` items changes no player's state or keys. */
  lemma {:induction false} CollectNKeeps(f: Field, i: int, n: nat, k: int, rng: Rng, bonus: int, tAdvance: real)
    requires f.round >= 1 && 0 <= i < |f.players| && 0 <= k < |f.players|
    ensures var r := CollectN(f, i, n, rng, bonus, tAdvance);
      r.combo == f.combo + n && r.round >= f.round &&
      r.players[k].state == f.players[k].state &&
      r.players[k].left == f.players[k].left && r.players[k].right == f.players[k].right
    decreases n
  {
    if n > 0 {
      CollectNKeeps(f, i, n - 1, k, rng, bonus, tAdvance);
      var p := CollectN(f, i, n - 1, rng, bonus, tAdvance);
      assert CollectNth(f, i, n, rng, bonus, tAdvance) == CollectStep(p, i, rng, bonus, tAdvance);
      CollectStepPlayer(p, i, k, rng, bonus, tAdvance);
    }
  }

  /** The `n`-th collected item, seen from player `k`. */
  lemma CollectNthPlayer(f: Field, i: int, n: nat, k: int, rng: Rng, bonus: int, tAdvance: real)
    requires f.round >= 1 && 0 <= i < |f.players| && 0 <= k < |f.players| && n >= 1
    ensures var p := CollectN(f, i, n - 1, rng, bonus, tAdvance);
      var r := CollectN(f, i, n, rng, bonus, tAdvance);
      (r.round == p.round || r.round == p.round + 1) && r.players[k].state == p.players[k].state &&
      r.players[k].score == p.players[k].score + (if k == i then r.score - p.score else 0) +
        (if r.round > p.round && p.players[k].state.lives > 0 then bonus else 0)
  {
    var p := CollectN(f, i, n - 1, rng, bonus, tAdvance);
    assert CollectNth(f, i, n, rng, bonus, tAdvance) == CollectStep(p, i, rng, bonus, tAdvance);
    CollectStepPlayer(p, i, k, rng, bonus, tAdvance);
  }

  /** Collecting `n` items, seen from player `k`: the collector gains what
      the shared score gains, and a player with a life gains one round bonus
      per round cleared. */
  lemma {:induction false} CollectNPlayer(f: Field, i: int, n: nat, k: int, rng: Rng, bonus: int, tAdvance: real)
    requires f.round >= 1 && 0 <= i < |f.players| && 0 <= k < |f.players|
    ensures var r := CollectN(f, i, n, rng, bonus, tAdvance);
      r.players[k].state == f.players[k].state &&
      r.players[k].score == f.players[k].score + (if k == i then r.score - f.score else 0) +
        (if f.players[k].state.lives > 0 then Credits(r.round - f.round, bonus) else 0)
    decreases n
  {
    if n > 0 {
      CollectNPlayer(f, i, n - 1, k, rng, bonus, tAdvance);
      CollectNthPlayer(f, i, n, k, rng, bonus, tAdvance);
      GainStep(f, CollectN(f, i, n - 1, rng, bonus, tAdvance), CollectN(f, i, n, rng, bonus, tAdvance), i, k, bonus);
    }
  }

  /** What player `k` has gained from `f` to `p`, plus what it gains from
      `p` to `r`, is what it has gained from `f` to `r`. */
  lemma GainStep(f: Field, p: Field, r: Field, i: int, k: int, bonus: int)
    requires 0 <= k < |f.players| && k < |p.players| && k < |r.players|
    requires f.round <= p.round
    requires p.players[k].state == f.players[k].state &&
      p.players[k].score == f.players[k].score + (if k == i then p.score - f.score else 0) +
        (if f.players[k].state.lives > 0 then Credits(p.round - f.round, bonus) else 0)
    requires (r.round == p.round || r.round == p.round + 1) && r.players[k].state == p.players[k].state &&
      r.players[k].score == p.players[k].score + (if k == i then r.score - p.score else 0) +
        (if r.round > p.round && p.players[k].state.lives > 0 then bonus else 0)
    ensures r.players[k].state == f.players[k].state
    ensures r.players[k].score == f.players[k].score + (if k == i then r.score - f.score else 0) +
      (if f.players[k].state.lives > 0 then Credits(r.round - f.round, bonus) else 0)
  {
    if r.round > p.round {
      CreditsStep(p.round - f.round, r.round - f.round, bonus);
    }
  }

  /** One more cleared round credits one more bonus. */
  lemma CreditsStep(m: nat, next: nat, bonus: int)
    requires next == m + 1
    ensures Credits(next, bonus) == Credits(m, bonus) + bonus
  {
  }

  /** Collecting `n` items, the players' side: no state and no key changes;
      the collecting player gains the combo points of those items, and every
      player with a life gains one round bonus per round cleared. */
  lemma CollectNPlayers(f: Field, i: int, n: nat, rng: Rng, bonus: int, tAdvance: real)
    requires f.round >= 1 && 0 <= f.items < ItemsGoal(f.round) && 0 <= i < |f.players|
    ensures var r := CollectN(f, i, n, rng, bonus, tAdvance);
      0 <= r.items < ItemsGoal(r.round) && |r.players| == |f.players| &&
      forall k :: 0 <= k < |f.players| ==>
        r.players[k].state == f.players[k].state &&
        r.players[k].left == f.players[k].left && r.players[k].right == f.players[k].right &&
        r.players[k].score == f.players[k].score + (if k == i then ComboPoints(f.combo, n) else 0) +
          (if f.players[k].state.lives > 0 then Credits(r.round - f.round, bonus) else 0)
  {
    CollectNScore(f, i, n, rng, bonus, tAdvance);
    var r := CollectN(f, i, n, rng, bonus, tAdvance);
    forall k | 0 <= k < |f.players|
      ensures r.players[k].state == f.players[k].state
      ensures r.players[k].left == f.players[k].left && r.players[k].right == f.players[k].right
      ensures r.players[k].score == f.players[k].score + (if k == i then ComboPoints(f.combo, n) else 0) +
          (if f.players[k].state.lives > 0 then Credits(r.round - f.round, bonus) else 0)
    {
      CollectNKeeps(f, i, n, k, rng, bonus, tAdvance);
      CollectNPlayer(f, i, n, k, rng, bonus, tAdvance);
    }
  }

  /** The obstacle rule is tied to the collision test: for a living player
      that is not dying, the player is hit (one counted hit, the combo
      broken) exactly when it is vulnerable and touches some obstacle, and
      is otherwise left as it was; the obstacles left are exactly the ones
      that do not touch it; no score and no other player changes. */
  lemma ObstacleStepOracle(f: Field, i: int, touches: (int, Faller) -> bool, rng: Rng)
    requires 0 <= i < |f.players| && PlayerInv(f.players[i].state) && f.players[i].state.lives > 0
    ensures var st := f.players[i].state;
      var r := ObstacleStep(f, i, touches, rng);
      var touched := !st.invulnerable && exists k :: 0 <= k < |f.enemies| && touches(i, f.enemies[k]);
      |r.players| == |f.players| &&
      (forall k :: 0 <= k < |f.players| && k != i ==> r.players[k] == f.players[k]) &&
      (touched ==> Damage(st).1 && r.players[i] == f.players[i].(state := Damage(st).0) && r.combo == 0) &&
      (!touched ==> r.players[i] == f.players[i] && r.combo == f.combo) &&
      r.score == f.score && r.highScore == f.highScore && r.round == f.round && r.items == f.items &&
      r.collectibles == f.collectibles &&
      (st.invulnerable ==> r == f) &&
      (!st.invulnerable ==>
        (forall k :: 0 <= k < |r.enemies| ==> !touches(i, r.enemies[k])) &&
        (forall k :: 0 <= k < |f.enemies| && !touches(i, f.enemies[k]) ==> f.enemies[k] in r.enemies) &&
        multiset(r.enemies) <= multiset(f.enemies))
  {
    if !f.players[i].state.invulnerable {
      SpriteCollidePartitions(f.enemies, touches, i);
      SpriteCollideExact(f.enemies, touches, i);
    }
  }

  /** What the collision pass may do to one player: the score never drops,
      the keys stay, the state is untouched or hit once, and a player that
      is out of lives or dying is left exactly as it was. */
  predicate CollisionEffect(before: PlayerView, after: PlayerView)
  {
    after.score >= before.score && HitAtMostOnce(before.state, after.state) &&
    after.left == before.left && after.right == before.right &&
    (before.state.lives <= 0 || before.state.dying ==> after == before)
  }

  /** A player's state across the collision pass: untouched, or hit once. */
  predicate HitAtMostOnce(before: PlayerState, after: PlayerState)
  {
    after == before || (after, true) == Damage(before)
  }

  /** One player's collisions, seen from the items: the round progress
      advances by exactly the number of items the player touches, the
      items it touches are the ones taken, none of the items left touches
      it, and the combo ends up grown by those items unless the player was
      hit, which breaks it. */
  lemma PlayerPassCollects(f: Field, i: int, contacts: Contacts, rng: Rng, bonus: int, tAdvance: real)
    requires f.round >= 1 && 0 <= f.items < ItemsGoal(f.round) && 0 <= i < |f.players|
    requires PlayerInv(f.players[i].state) && f.players[i].state.lives > 0
    ensures var r := PlayerPass(f, i, contacts, rng, bonus, tAdvance);
      var got := SpriteCollide(f.collectibles, contacts.item, i).0;
      (forall k :: 0 <= k < |got| ==> contacts.item(i, got[k])) &&
      (forall k :: 0 <= k < |f.collectibles| && contacts.item(i, f.collectibles[k]) ==> f.collectibles[k] in got) &&
      multiset(got) <= multiset(f.collectibles) &&
      CumGoal(r.round) + r.items == CumGoal(f.round) + f.items + |got| &&
      (forall k :: 0 <= k < |r.collectibles| ==> !contacts.item(i, r.collectibles[k])) &&
      r.score == f.score + ComboPoints(f.combo, |got|) &&
      r.combo == (if r.players[i].state == f.players[i].state then f.combo + |got| else 0)
  {
    var (got, rest) := SpriteCollide(f.collectibles, contacts.item, i);
    SpriteCollidePartitions(f.collectibles, contacts.item, i);
    SpriteCollideExact(f.collectibles, contacts.item, i);
    var f1 := f.(collectibles := rest);
    CollectNScore(f1, i, |got|, rng, bonus, tAdvance);
    CollectNRounds(f1, i, |got|, rng, bonus, tAdvance);
    CollectNPlayers(f1, i, |got|, rng, bonus, tAdvance);
    var c := CollectN(f1, i, |got|, rng, bonus, tAdvance);
    ObstacleStepOracle(c, i, contacts.obstacle, rng);
    DamageCases(f.players[i].state);
  }

  /** One player's collisions, seen from the obstacles: the player is hit
      exactly when it is vulnerable and touches an obstacle still on the
      field after its items, which are the field's obstacles unless one of
      those items cleared the round (the clear empties the field first);
      the obstacles it touches are removed, and its score and keys are
      untouched by the hit. */
  lemma PlayerPassHits(f: Field, i: int, contacts: Contacts, rng: Rng, bonus: int, tAdvance: real)
    requires f.round >= 1 && 0 <= f.items < ItemsGoal(f.round) && 0 <= i < |f.players|
    requires PlayerInv(f.players[i].state) && f.players[i].state.lives > 0
    ensures var st := f.players[i].state;
      var r := PlayerPass(f, i, contacts, rng, bonus, tAdvance);
      var left := if r.round > f.round then [] else f.enemies;
      var touched := !st.invulnerable && exists k :: 0 <= k < |left| && contacts.obstacle(i, left[k]);
      (touched ==> (r.players[i].state, true) == Damage(st)) &&
      (!touched ==> r.players[i].state == st) &&
      (st.invulnerable ==> r.enemies == left) &&
      (!st.invulnerable ==>
        (forall k :: 0 <= k < |r.enemies| ==> !contacts.obstacle(i, r.enemies[k])) &&
        (forall k :: 0 <= k < |left| && !contacts.obstacle(i, left[k]) ==> left[k] in r.enemies) &&
        multiset(r.enemies) <= multiset(left))
  {
    var (got, rest) := SpriteCollide(f.collectibles, contacts.item, i);
    var f1 := f.(collectibles := rest);
    CollectNRounds(f1, i, |got|, rng, bonus, tAdvance);
    CollectNKeeps(f1, i, |got|, i, rng, bonus, tAdvance);
    var c := CollectN(f1, i, |got|, rng, bonus, tAdvance);
    ObstacleStepOracle(c, i, contacts.obstacle, rng);
    assert PlayerPass(f, i, contacts, rng, bonus, tAdvance) == ObstacleStep(c, i, contacts.obstacle, rng);
  }

  /** Collisions taking players `before` to the field `r` keep the round
      progress in range and every player's state reachable, have at most a
      `CollisionEffect` on each player, and change the state of none outside
      `lo..hi`. */
  ghost predicate CollisionsWithin(before: seq<PlayerView>, r: Field, lo: int, hi: int)
    requires r.round >= 1
  {
    0 <= r.items < ItemsGoal(r.round) && |r.players| == |before| &&
    forall k :: 0 <= k < |before| ==>
      CollisionEffect(before[k], r.players[k]) && PlayerInv(r.players[k].state) &&
      (k < lo || hi <= k ==> r.players[k].state == before[k].state)
  }

  /** Collisions of players `0..n-1` followed by those of player `n`
      are collisions of players `0..n`. */
  lemma CollisionsCompose(f: Field, p: Field, r: Field, n: nat)
    requires p.round >= 1 && r.round >= 1
    requires CollisionsWithin(f.players, p, 0, n) && CollisionsWithin(p.players, r, n, n + 1)
    ensures CollisionsWithin(f.players, r, 0, n + 1)
  {
    forall k | 0 <= k < |f.players|
      ensures CollisionEffect(f.players[k], r.players[k])
    {
      if k != n {
        assert r.players[k].state == p.players[k].state;
      } else {
        assert p.players[k].state == f.players[k].state;
      }
    }
  }

  /** Player `i`'s items taking the players of `f` to those of `c`, then its
      obstacles taking `c` to `r`, are collisions of player `i` alone. */
  lemma OneCollision(f: Field, c: Field, r: Field, i: int, n: nat, bonus: int)
    requires 0 <= i < |f.players| && 1 <= f.round <= c.round && r.round >= 1 && bonus >= 0
    requires forall k :: 0 <= k < |f.players| ==> PlayerInv(f.players[k].state)
    requires f.players[i].state.lives > 0 && !f.players[i].state.dying
    requires |c.players| == |f.players| &&
      forall k :: 0 <= k < |f.players| ==>
        c.players[k].state == f.players[k].state &&
        c.players[k].left == f.players[k].left && c.players[k].right == f.players[k].right &&
        c.players[k].score == f.players[k].score + (if k == i then ComboPoints(f.combo, n) else 0) +
          (if f.players[k].state.lives > 0 then Credits(c.round - f.round, bonus) else 0)
    requires var st := c.players[i].state;
      0 <= r.items < ItemsGoal(r.round) && |r.players| == |c.players| &&
      (forall k :: 0 <= k < |c.players| && k != i ==> r.players[k] == c.players[k]) &&
      (r.players[i] == c.players[i] || (Damage(st).1 && r.players[i] == c.players[i].(state := Damage(st).0)))
    ensures CollisionsWithin(f.players, r, i, i + 1)
  {
    forall k | 0 <= k < |f.players|
      ensures CollisionEffect(f.players[k], r.players[k]) && PlayerInv(r.players[k].state)
    {
      assert c.players[k].score >= f.players[k].score;
      if k == i {
        DamageCases(f.players[i].state);
      }
    }
  }

  /** One player's collisions keep every player's state reachable and have
      at most a `CollisionEffect` on each; only player `i`'s state can change. */
  lemma PlayerPassEffect(f: Field, i: int, contacts: Contacts, rng: Rng, bonus: int, tAdvance: real)
    requires f.round >= 1 && 0 <= f.items < ItemsGoal(f.round) && 0 <= i < |f.players| && bonus >= 0
    requires forall k :: 0 <= k < |f.players| ==> PlayerInv(f.players[k].state)
    ensures CollisionsWithin(f.players, PlayerPass(f, i, contacts, rng, bonus, tAdvance), i, i + 1)
  {
    var st := f.players[i].state;
    if !(st.lives <= 0 || st.dying) {
      var (got, rest) := SpriteCollide(f.collectibles, contacts.item, i);
      var f1 := f.(collectibles := rest);
      CollectNPlayers(f1, i, |got|, rng, bonus, tAdvance);
      var c := CollectN(f1, i, |got|, rng, bonus, tAdvance);
      ObstacleStepOracle(c, i, contacts.obstacle, rng);
      var r := PlayerPass(f, i, contacts, rng, bonus, tAdvance);
      assert r == ObstacleStep(c, i, contacts.obstacle, rng);
      OneCollision(f1, c, r, i, |got|, bonus);
    }
  }

  /** The collision pass over the first `n` players: every player's state
      stays reachable, each has at most a `CollisionEffect`, and the
      players not yet reached are untouched apart from round bonuses. */
  lemma {:induction false} PassUpToEffect(f: Field, n: nat, contacts: Contacts, rng: Rng, bonus: int, tAdvance: real)
    requires f.round >= 1 && 0 <= f.items < ItemsGoal(f.round) && n <= |f.players| && bonus >= 0
    requires forall k :: 0 <= k < |f.players| ==> PlayerInv(f.players[k].state)
    ensures CollisionsWithin(f.players, PassUpTo(f, n, contacts, rng, bonus, tAdvance), 0, n)
    decreases n
  {
    if n > 0 {
      PassUpToEffect(f, n - 1, contacts, rng, bonus, tAdvance);
      var p := PassUpTo(f, n - 1, contacts, rng, bonus, tAdvance);
      PlayerPassEffect(p, n - 1, contacts, rng, bonus, tAdvance);
      CollisionsCompose(f, p, PassUpTo(f, n, contacts, rng, bonus, tAdvance), n - 1);
    }
  }

  /** The whole collision pass: every player keeps a reachable state,
      loses at most one life, never loses points, and is left exactly as
      it was when it was dying or out of lives. */
  lemma PassEffect(f: Field, contacts: Contacts, rng: Rng, bonus: int, tAdvance: real)
    requires f.round >= 1 && 0 <= f.items < ItemsGoal(f.round) && bonus >= 0
    requires forall k :: 0 <= k < |f.players| ==> PlayerInv(f.players[k].state)
    ensures var r := Pass(f, contacts, rng, bonus, tAdvance);
      0 <= r.items < ItemsGoal(r.round) && |r.players| == |f.players| &&
      forall k :: 0 <= k < |f.players| ==> CollisionEffect(f.players[k], r.players[k]) && PlayerInv(r.players[k].state)
  {
    PassUpToEffect(f, |f.players|, contacts, rng, bonus, tAdvance);
  }

  /** A whole playing frame: the frame counter advances by one, and every
      player ends in a reachable state that is its own update followed by
      at most one hit, with a score that never drops. */
  lemma FrameEffect(f: Field, d: Dims, pressed: set<Key>, contacts: Contacts, rng: Rng, bonus: int, tAdvance: real)
    requires DimsOk(d) && f.round >= 1 && 0 <= f.items < ItemsGoal(f.round) && bonus >= 0
    requires forall k :: 0 <= k < |f.players| ==> PlayerInv(f.players[k].state)
    ensures var r := Frame(f, d, pressed, contacts, rng, bonus, tAdvance);
      r.frameCount == f.frameCount + 1 && 0 <= r.items < ItemsGoal(r.round) && |r.players| == |f.players| &&
      forall k :: 0 <= k < |f.players| ==>
        var stepped := PlayerStep(f.players[k].state, d.playerWidth,
          Pressed(f.players[k].left, pressed), Pressed(f.players[k].right, pressed));
        HitAtMostOnce(stepped, r.players[k].state) && r.players[k].score >= f.players[k].score &&
        PlayerInv(r.players[k].state)
  {
    var moved := Fallen(Stepped(f.(frameCount := f.frameCount + 1), d.playerWidth, pressed));
    var m := MoveField(f, d, pressed, rng);
    assert m == ContinuousSpawnRule(moved, d, rng);
    assert m.players == moved.players && m.items == f.items && m.round == f.round && m.frameCount == f.frameCount + 1;
    forall k | 0 <= k < |f.players|
      ensures m.players[k].state == PlayerStep(f.players[k].state, d.playerWidth,
          Pressed(f.players[k].left, pressed), Pressed(f.players[k].right, pressed))
      ensures PlayerInv(m.players[k].state) && m.players[k].score == f.players[k].score
    {
      StepPreservesInv(f.players[k].state, d.playerWidth, Pressed(f.players[k].left, pressed), Pressed(f.players[k].right, pressed));
    }
    PassEffect(m, contacts, rng, bonus, tAdvance);
    var p := Pass(m, contacts, rng, bonus, tAdvance);
    assert Frame(f, d, pressed, contacts, rng, bonus, tAdvance) == Finish(p);
  }
  // ===== The field invariant =====

  /** Every player is in a reachable state and has a score that is not negative. */
  predicate PlayersInv(vs: seq<PlayerView>)
  {
    forall k :: 0 <= k < |vs| ==> PlayerInv(vs[k].state) && vs[k].score >= 0
  }

  /** The rest of the field between frames: the round is open, every
      sprite is in play, the enemies never outnumber the round's cap, the
      particles stay within theirs, a transition shows an empty field with
      time left, and the spawn frames lie in the past. */
  predicate WorldInv(f: Field)
  {
    f.round >= 1 && 0 <= f.items < ItemsGoal(f.round) &&
    AllInPlay(f.enemies, -500, ENEMY_SPEED_MIN) && AllInPlay(f.collectibles, -800, COLLECTIBLE_SPEED_MIN) &&
    |f.enemies| <= EnemyCap(f.round) && |f.particles| <= MAX_PARTICLES &&
    (f.showing ==> f.enemies == [] && f.collectibles == [] && 0 < f.timer <= ROUND_TRANSITION_FRAMES) &&
    0 <= f.lastEnemySpawn <= f.frameCount && 0 <= f.lastItemSpawn <= f.frameCount
  }

  /** The invariant of the playing field. */
  predicate FieldInv(f: Field)
  {
    PlayersInv(f.players) && WorldInv(f)
  }

  /** A new game starts within the invariant, with round 1's 8 enemies and
      20 collectibles, no particles and the players untouched. */
  lemma RestartedInv(f: Field, d: Dims, rng: Rng, now: real)
    requires DimsOk(d)
    ensures var r := Restarted(f, d, rng, now);
      WorldInv(r) && r.players == f.players &&
      |r.enemies| == ENEMY_INITIAL_COUNT && |r.collectibles| == COLLECTIBLE_INITIAL_COUNT && r.particles == [] &&
      r.round == 1 && r.items == 0 && r.roundStart == now && !r.showing && r.timer == 0 &&
      r.frameCount == 0 && r.lastEnemySpawn == 0 && r.lastItemSpawn == 0
  {
    var empty := f.(enemies := [], collectibles := [], particles := [], round := 1, items := 0, roundStart := now,
                    showing := false, timer := 0, lastEnemySpawn := 0, lastItemSpawn := 0);
    BulkSpawnBounds(empty, d, rng);
  }

  /** A frame of the transition screen keeps the invariant; the screen ends
      exactly when its timer runs out, and then the round's counts of
      enemies and collectibles are on the field. */
  lemma CountdownKeepsInv(f: Field, d: Dims, rng: Rng)
    requires DimsOk(d) && FieldInv(f) && f.showing
    ensures var r := Countdown(f, d, rng);
      FieldInv(r) && r.players == f.players && r.round == f.round && r.items == f.items &&
      (r.showing <==> f.timer > 1) &&
      (!r.showing ==> |r.enemies| == EnemyCount(f.round) && |r.collectibles| == CollectibleCount(f.round))
  {
    var t := f.(timer := f.timer - 1);
    if t.timer <= 0 {
      BulkSpawnBounds(t.(showing := false), d, rng);
    }
  }

  /** The players' updates keep the invariant. */
  lemma SteppedKeepsInv(f: Field, width: int, pressed: set<Key>)
    requires FieldInv(f)
    ensures FieldInv(Stepped(f, width, pressed))
  {
    var g := Stepped(f, width, pressed);
    forall k | 0 <= k < |g.players|
      ensures PlayerInv(g.players[k].state) && g.players[k].score >= 0
    {
      StepPreservesInv(f.players[k].state, width, Pressed(f.players[k].left, pressed), Pressed(f.players[k].right, pressed));
    }
  }

  /** The first part of a playing frame keeps the invariant. */
  lemma MoveFieldKeepsInv(f: Field, d: Dims, pressed: set<Key>, rng: Rng)
    requires DimsOk(d) && FieldInv(f) && !f.showing
    ensures FieldInv(MoveField(f, d, pressed, rng)) && !MoveField(f, d, pressed, rng).showing
  {
    var g := Fallen(Stepped(f.(frameCount := f.frameCount + 1), d.playerWidth, pressed));
    SteppedKeepsInv(f.(frameCount := f.frameCount + 1), d.playerWidth, pressed);
    SurvivorsStayInPlay(f.enemies, -500, ENEMY_SPEED_MIN);
    SurvivorsStayInPlay(f.collectibles, -800, COLLECTIBLE_SPEED_MIN);
    ContinuousSpawnBounds(g, d, rng);
  }

  /** Scoring an item keeps the invariant. */
  lemma ScoreStepKeepsInv(f: Field, i: int)
    requires FieldInv(f) && 0 <= i < |f.players|
    ensures FieldInv(ScoreStep(f, i))
  {
    PointsForCombo(f.combo + 1);
  }

  /** `reset_game` establishes the invariant, given new players that keep theirs. */
  lemma ResetKeepsInv(f: Field, d: Dims, rng: Rng, now: real, vs: seq<PlayerView>)
    requires DimsOk(d) && PlayersInv(vs)
    ensures FieldInv(Restarted(f, d, rng, now).(players := vs, score := 0, combo := 0, comboTimer := 0))
  {
    RestartedInv(f, d, rng, now);
  }

  /** Counting an item keeps the invariant, whether or not it clears the round. */
  lemma CountStepKeepsInv(f: Field, rng: Rng, bonus: int, tAdvance: real)
    requires FieldInv(f) && bonus >= 0
    ensures FieldInv(CountStep(f, rng, bonus, tAdvance))
  {
    ExtendCappedKeepsCap(f.particles, BurstOf(COLLECT_BURST, rng, f.drawn));
  }

  /** Collecting `n` items keeps the invariant. */
  lemma {:induction false} CollectNKeepsInv(f: Field, i: int, n: nat, rng: Rng, bonus: int, tAdvance: real)
    requires FieldInv(f) && 0 <= i < |f.players| && bonus >= 0
    ensures FieldInv(CollectN(f, i, n, rng, bonus, tAdvance))
    decreases n
  {
    if n > 0 {
      CollectNKeepsInv(f, i, n - 1, rng, bonus, tAdvance);
      var p := CollectN(f, i, n - 1, rng, bonus, tAdvance);
      ScoreStepKeepsInv(p, i);
      CountStepKeepsInv(ScoreStep(p, i), rng, bonus, tAdvance);
    }
  }

  /** A hit keeps the invariant. */
  lemma HitKeepsInv(f: Field, i: int, rng: Rng)
    requires FieldInv(f) && 0 <= i < |f.players|
    ensures FieldInv(Hit(f, i, rng))
  {
    DamageCases(f.players[i].state);
    var g := Damaged(f, i).(combo := 0);
    ExtendCappedKeepsCap(g.particles, BurstOf(if g.players[i].state.dying then DEATH_BURST else HIT_BURST, rng, g.drawn));
  }

  /** Taking the sprites that touch a player out of either group keeps the
      invariant. */
  lemma TakeTouchedKeepsInv(f: Field, touches: (int, Faller) -> bool, i: int)
    requires FieldInv(f)
    ensures FieldInv(f.(enemies := SpriteCollide(f.enemies, touches, i).1))
    ensures FieldInv(f.(collectibles := SpriteCollide(f.collectibles, touches, i).1))
  {
    CollideKeepsInPlay(f.enemies, touches, i, -500, ENEMY_SPEED_MIN);
    CollideKeepsInPlay(f.collectibles, touches, i, -800, COLLECTIBLE_SPEED_MIN);
  }

  /** One player's obstacles keep the invariant. */
  lemma ObstacleStepKeepsInv(f: Field, i: int, touches: (int, Faller) -> bool, rng: Rng)
    requires FieldInv(f) && 0 <= i < |f.players|
    ensures FieldInv(ObstacleStep(f, i, touches, rng))
  {
    TakeTouchedKeepsInv(f, touches, i);
    HitKeepsInv(f.(enemies := SpriteCollide(f.enemies, touches, i).1), i, rng);
  }

  /** One player's collisions keep the invariant. */
  lemma PlayerPassKeepsInv(f: Field, i: int, contacts: Contacts, rng: Rng, bonus: int, tAdvance: real)
    requires FieldInv(f) && 0 <= i < |f.players| && bonus >= 0
    ensures FieldInv(PlayerPass(f, i, contacts, rng, bonus, tAdvance))
  {
    var (got, rest) := SpriteCollide(f.collectibles, contacts.item, i);
    TakeTouchedKeepsInv(f, contacts.item, i);
    CollectNKeepsInv(f.(collectibles := rest), i, |got|, rng, bonus, tAdvance);
    ObstacleStepKeepsInv(CollectN(f.(collectibles := rest), i, |got|, rng, bonus, tAdvance), i, contacts.obstacle, rng);
  }

  /** The collision pass keeps the invariant. */
  lemma {:induction false} PassUpToKeepsInv(f: Field, n: nat, contacts: Contacts, rng: Rng, bonus: int, tAdvance: real)
    requires FieldInv(f) && n <= |f.players| && bonus >= 0
    ensures FieldInv(PassUpTo(f, n, contacts, rng, bonus, tAdvance))
    decreases n
  {
    if n > 0 {
      PassUpToKeepsInv(f, n - 1, contacts, rng, bonus, tAdvance);
      PlayerPassKeepsInv(PassUpTo(f, n - 1, contacts, rng, bonus, tAdvance), n - 1, contacts, rng, bonus, tAdvance);
    }
  }

  /** The end of a playing frame keeps the invariant and the players. */
  lemma FinishKeepsInv(f: Field)
    requires FieldInv(f)
    ensures FieldInv(Finish(f)) && Finish(f).players == f.players
  {
  }

  /** Every playing frame keeps the invariant: in particular the particle
      list never grows beyond 100, the enemies never outnumber the round's
      cap, and every player stays in a reachable state. */
  lemma FrameKeepsInv(f: Field, d: Dims, pressed: set<Key>, contacts: Contacts, rng: Rng, bonus: int, tAdvance: real)
    requires DimsOk(d) && FieldInv(f) && !f.showing && bonus >= 0
    ensures FieldInv(Frame(f, d, pressed, contacts, rng, bonus, tAdvance))
  {
    var m := MoveField(f, d, pressed, rng);
    MoveFieldKeepsInv(f, d, pressed, rng);
    PassUpToKeepsInv(m, |m.players|, contacts, rng, bonus, tAdvance);
  }
}
