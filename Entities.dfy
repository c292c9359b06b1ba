/** The game's sprites (makeuprain/entities/game_entities.py): the player
    with its lives, invulnerability and death animation, the falling enemies
    and collectibles, and the particles of the visual bursts.

    Sprite rectangles hold integer coordinates: a float step such as
    `rect.x -= 5.5` stores the truncated result, and the model does the same
    with `Trunc`. Images, masks, tints, rotation, the collectibles' sideways
    bob and the particles' motion are presentation and are not modelled. */
module Entities {
  import opened Config
  import opened Util

  // ===== Random draws =====

  /** The random source, as two streams of draws indexed by a running
      counter: raw integers for `randint` and unit reals for `uniform`. */
  datatype Rng = Rng(ints: nat -> int, units: nat -> real)

  /** `random.randint(lo, hi)` taken from draw `k`. */
  function RandInt(rng: Rng, lo: int, hi: int, k: nat): (v: int)
    requires lo <= hi
    ensures lo <= v <= hi
  {
    lo + rng.ints(k) % (hi - lo + 1)
  }

  /** `random.uniform(lo, hi)` taken from draw `k`. */
  function Uniform(rng: Rng, lo: real, hi: real, k: nat): (v: real)
    requires lo <= hi
    ensures lo <= v <= hi
  {
    var u := rng.units(k);
    var unit := if u < 0.0 then 0.0 else if u > 1.0 then 1.0 else u;
    var span := hi - lo;
    ScaleWithinSpan(span, unit);
    assert lo + span == hi;
    lo + span * unit
  }

  lemma ScaleWithinSpan(span: real, unit: real)
    requires span >= 0.0 && 0.0 <= unit <= 1.0
    ensures 0.0 <= span * unit <= span
  {
    assert span * unit + span * (1.0 - unit) == span;
    assert span * (1.0 - unit) >= 0.0;
  }

  // ===== Player =====

  /** The player's frame-to-frame state (everything `update` and
      `take_damage` read or write, apart from the score). */
  datatype PlayerState = PlayerState(
    x: int,
    lives: int,
    invulnerable: bool,
    invulnerableTimer: int,
    alpha: int,
    dying: bool,
    deathTimer: int)

  /** What every reachable player state satisfies: lives within the starting
      count, dying exactly when no life is left, invulnerability only while
      alive and with time left, full opacity outside invulnerability, and a
      death clock that runs only while dying. */
  predicate PlayerInv(s: PlayerState)
  {
    0 <= s.lives <= START_LIVES &&
    (s.dying <==> s.lives == 0) &&
    (s.dying ==> !s.invulnerable) &&
    0 <= s.invulnerableTimer <= INVULNERABILITY_FRAMES &&
    (s.invulnerable ==> s.invulnerableTimer > 0) &&
    (s.alpha == 128 || s.alpha == 255) &&
    (!s.invulnerable ==> s.alpha == 255) &&
    s.deathTimer >= 0 &&
    (!s.dying ==> s.deathTimer == 0)
  }

  /** The blink of an invulnerable player: half transparent on even
      five-frame blocks of the remaining time. */
  function BlinkAlpha(timer: int): (alpha: int)
    requires timer > 0
    ensures alpha == 128 || alpha == 255
  {
    if (timer / 5) % 2 == 0 then 128 else 255
  }

  /** `max(0, min(x, SCREEN_WIDTH - width))`: keeps the sprite on screen. */
  function Clamp(x: int, width: int): (c: int)
    ensures 0 <= c
    ensures width <= SCREEN_WIDTH ==> c <= SCREEN_WIDTH - width
    ensures 0 <= x <= SCREEN_WIDTH - width ==> c == x
  {
    Max(0, Min(x, SCREEN_WIDTH - width))
  }

  /** Horizontal movement of one update: left, then right, each truncated
      into the integer rectangle, then clamped. */
  function Move(x: int, width: int, left: bool, right: bool): int
  {
    var afterLeft := if left then Trunc(x as real - PLAYER_SPEED) else x;
    var afterRight := if right then Trunc(afterLeft as real + PLAYER_SPEED) else afterLeft;
    Clamp(afterRight, width)
  }

  /** What a key press does to an on-screen player: because the 5.5-pixel
      step is truncated toward zero, a left step moves 6 pixels and a right
      step 5, both keys together drift one pixel left, and the screen edges
      stop the sprite. */
  lemma MoveSteps(x: int, width: int)
    requires 0 <= width <= SCREEN_WIDTH && 0 <= x <= SCREEN_WIDTH - width
    ensures Move(x, width, false, false) == x
    ensures Move(x, width, true, false) == Max(0, x - 6)
    ensures Move(x, width, false, true) == Min(x + 5, SCREEN_WIDTH - width)
    ensures Move(x, width, true, true) == (if x >= 6 then x - 1 else x)
  {
    if x >= 6 {
      assert Trunc(x as real - PLAYER_SPEED) == x - 6;
      assert Trunc((x - 6) as real + PLAYER_SPEED) == x - 1;
    } else {
      assert Trunc(x as real - PLAYER_SPEED) == x - 5;
      assert Trunc((x - 5) as real + PLAYER_SPEED) == x;
    }
    assert Trunc(x as real + PLAYER_SPEED) == x + 5;
  }

  /** `Player.update`: a dying player only advances its death clock; any
      other player moves, is clamped, and counts its invulnerability down. */
  function PlayerStep(s: PlayerState, width: int, left: bool, right: bool): PlayerState
  {
    if s.dying then s.(deathTimer := s.deathTimer + 1)
    else
      var moved := s.(x := Move(s.x, width, left, right));
      if !moved.invulnerable then moved
      else
        var t := moved.invulnerableTimer - 1;
        if t <= 0 then moved.(invulnerable := false, invulnerableTimer := t, alpha := 255)
        else moved.(invulnerableTimer := t, alpha := BlinkAlpha(t))
  }

  /** `take_damage`: the new state and whether the hit counted. */
  function Damage(s: PlayerState): (PlayerState, bool)
  {
    if !s.invulnerable && s.lives > 0 then
      var hit := s.(lives := s.lives - 1);
      if hit.lives <= 0 then (hit.(dying := true, deathTimer := 0), true)
      else (hit.(invulnerable := true, invulnerableTimer := INVULNERABILITY_FRAMES), true)
    else (s, false)
  }

  /** `is_dead`: the death animation has run its course. */
  predicate Dead(s: PlayerState)
  {
    s.dying && s.deathTimer > DEATH_ANIMATION_FRAMES
  }

  /** An update keeps every reachable-state property. */
  lemma StepPreservesInv(s: PlayerState, width: int, left: bool, right: bool)
    requires PlayerInv(s)
    ensures PlayerInv(PlayerStep(s, width, left, right))
  {
  }

  /** A dying player's update touches nothing but the death clock. */
  lemma DyingStep(s: PlayerState, width: int, left: bool, right: bool)
    requires s.dying
    ensures var t := PlayerStep(s, width, left, right);
      t.deathTimer == s.deathTimer + 1 && t.x == s.x && t.lives == s.lives &&
      t.invulnerable == s.invulnerable && t.invulnerableTimer == s.invulnerableTimer &&
      t.alpha == s.alpha && t.dying
  {
  }

  /** After an update of a living player the sprite lies within the screen. */
  lemma StepStaysOnScreen(s: PlayerState, width: int, left: bool, right: bool)
    requires !s.dying && 0 <= width <= SCREEN_WIDTH
    ensures 0 <= PlayerStep(s, width, left, right).x <= SCREEN_WIDTH - width
  {
  }

  /** The invulnerability countdown of one update: the timer drops by one;
      at zero the player is vulnerable and opaque again, otherwise it blinks
      by the parity of the remaining time in five-frame blocks. */
  lemma StepCountsDown(s: PlayerState, width: int, left: bool, right: bool)
    requires PlayerInv(s) && !s.dying && s.invulnerable
    ensures var t := PlayerStep(s, width, left, right);
      t.invulnerableTimer == s.invulnerableTimer - 1 &&
      (t.invulnerableTimer <= 0 ==> !t.invulnerable && t.alpha == 255) &&
      (t.invulnerableTimer > 0 ==>
         t.invulnerable && t.alpha == (if (t.invulnerableTimer / 5) % 2 == 0 then 128 else 255))
  {
  }

  /** A hit counts exactly when the player is vulnerable and has a life
      left; it then costs exactly one life, and either starts the death
      animation (last life, no invulnerability) or grants the full
      invulnerability window. A hit that does not count changes nothing. */
  lemma DamageCases(s: PlayerState)
    requires PlayerInv(s)
    ensures var (t, hit) := Damage(s);
      (hit <==> !s.invulnerable && s.lives > 0) &&
      (!hit ==> t == s) &&
      (hit ==> t.lives == s.lives - 1 && t.x == s.x) &&
      (hit && s.lives == 1 ==> t.dying && t.deathTimer == 0 && !t.invulnerable) &&
      (hit && s.lives > 1 ==> !t.dying && t.invulnerable && t.invulnerableTimer == INVULNERABILITY_FRAMES > 0) &&
      PlayerInv(t)
  {
  }

  /** A sequence of updates, one pair of (left, right) inputs per frame. */
  function Run(s: PlayerState, width: int, inputs: seq<(bool, bool)>): PlayerState
    decreases |inputs|
  {
    if inputs == [] then s
    else Run(PlayerStep(s, width, inputs[0].0, inputs[0].1), width, inputs[1..])
  }

  /** Whatever the inputs, a dying player's updates only run the death clock. */
  lemma {:induction false} DyingRun(s: PlayerState, width: int, inputs: seq<(bool, bool)>)
    requires s.dying
    ensures Run(s, width, inputs) == s.(deathTimer := s.deathTimer + |inputs|)
    decreases |inputs|
  {
    if inputs != [] {
      DyingRun(PlayerStep(s, width, inputs[0].0, inputs[0].1), width, inputs[1..]);
    }
  }

  /** The last life lost: the player counts as dead after exactly 31 more
      updates, and from then on updates and hits keep it dead. */
  lemma {:induction false} DeathAfterAnimation(s: PlayerState, width: int, inputs: seq<(bool, bool)>)
    requires PlayerInv(s) && s.lives == 1 && !s.invulnerable
    ensures var d := Damage(s).0;
      d.dying && !Dead(d) &&
      (Dead(Run(d, width, inputs)) <==> |inputs| >= DEATH_ANIMATION_FRAMES + 1)
    ensures var r := Run(Damage(s).0, width, inputs);
      Dead(r) ==> Damage(r) == (r, false) && Dead(PlayerStep(r, width, false, false))
  {
    var d := Damage(s).0;
    DyingRun(d, width, inputs);
  }

  /** An invulnerable living player stays invulnerable for as many updates
      as its timer has frames minus one, and loses it on the next. */
  lemma {:induction false} InvulnerabilityRun(s: PlayerState, width: int, inputs: seq<(bool, bool)>)
    requires PlayerInv(s) && !s.dying && s.invulnerable
    ensures var r := Run(s, width, inputs);
      !r.dying && r.lives == s.lives &&
      (r.invulnerable <==> |inputs| < s.invulnerableTimer) &&
      (r.invulnerable ==> r.invulnerableTimer == s.invulnerableTimer - |inputs|)
    decreases |inputs|
  {
    if inputs != [] {
      var t := PlayerStep(s, width, inputs[0].0, inputs[0].1);
      if t.invulnerable {
        InvulnerabilityRun(t, width, inputs[1..]);
      } else {
        NotInvulnerableRun(t, width, inputs[1..]);
      }
    }
  }

  /** A living player that is not invulnerable does not become so by updates alone. */
  lemma {:induction false} NotInvulnerableRun(s: PlayerState, width: int, inputs: seq<(bool, bool)>)
    requires PlayerInv(s) && !s.dying && !s.invulnerable
    ensures var r := Run(s, width, inputs);
      !r.dying && !r.invulnerable && r.lives == s.lives && r.alpha == 255
    decreases |inputs|
  {
    if inputs != [] {
      NotInvulnerableRun(PlayerStep(s, width, inputs[0].0, inputs[0].1), width, inputs[1..]);
    }
  }

  /** A non-lethal hit protects the player for the next 58 updates; the
      59th update makes it vulnerable again. */
  lemma HitGrantsInvulnerability(s: PlayerState, width: int, inputs: seq<(bool, bool)>)
    requires PlayerInv(s) && s.lives > 1 && !s.invulnerable
    ensures Run(Damage(s).0, width, inputs).invulnerable <==> |inputs| < INVULNERABILITY_FRAMES
  {
    InvulnerabilityRun(Damage(s).0, width, inputs);
  }

  class Player {
    const playerId: int
    const width: int
    const y: int
    const controlsLeft: set<Key>
    const controlsRight: set<Key>
    var x: int
    var lives: int
    var invulnerable: bool
    var invulnerableTimer: int
    var alpha: int
    var score: int
    var dying: bool
    var deathTimer: int

    function State(): PlayerState
      reads this
    {
      PlayerState(x, lives, invulnerable, invulnerableTimer, alpha, dying, deathTimer)
    }

    ghost predicate Valid()
      reads this
    {
      PlayerInv(State()) && score >= 0
    }

    /** A new player with full lives; empty control lists fall back to the
        first player's arrow keys. */
    constructor (id: int, x0: int, y0: int, w: int, left: set<Key>, right: set<Key>)
      ensures Valid()
      ensures playerId == id && width == w && y == y0
      ensures controlsLeft == (if left == {} then PLAYER1_LEFT else left)
      ensures controlsRight == (if right == {} then PLAYER1_RIGHT else right)
      ensures State() == PlayerState(x0, START_LIVES, false, 0, 255, false, 0) && score == 0
    {
      playerId := id;
      width := w;
      y := y0;
      controlsLeft := if left == {} then PLAYER1_LEFT else left;
      controlsRight := if right == {} then PLAYER1_RIGHT else right;
      x := x0;
      lives := START_LIVES;
      invulnerable := false;
      invulnerableTimer := 0;
      alpha := 255;
      score := 0;
      dying := false;
      deathTimer := 0;
    }

    /** `update`, with the currently pressed keys passed in. */
    method Update(pressed: set<Key>)
      requires Valid()
      modifies this
      ensures Valid()
      ensures State() == PlayerStep(old(State()), width, controlsLeft * pressed != {}, controlsRight * pressed != {})
      ensures score == old(score)
    {
      StepPreservesInv(State(), width, controlsLeft * pressed != {}, controlsRight * pressed != {});
      if dying {
        deathTimer := deathTimer + 1;
        return;
      }
      if controlsLeft * pressed != {} {
        x := Trunc(x as real - PLAYER_SPEED);
      }
      if controlsRight * pressed != {} {
        x := Trunc(x as real + PLAYER_SPEED);
      }
      x := Clamp(x, width);
      if invulnerable {
        invulnerableTimer := invulnerableTimer - 1;
        if invulnerableTimer <= 0 {
          invulnerable := false;
          alpha := 255;
        } else {
          alpha := BlinkAlpha(invulnerableTimer);
        }
      }
    }

    /** `take_damage`; `damaged` is its return value. */
    method TakeDamage() returns (damaged: bool)
      requires Valid()
      modifies this
      ensures Valid()
      ensures (State(), damaged) == Damage(old(State()))
      ensures score == old(score)
    {
      if !invulnerable && lives > 0 {
        lives := lives - 1;
        if lives <= 0 {
          StartDeathAnimation();
        } else {
          invulnerable := true;
          invulnerableTimer := INVULNERABILITY_FRAMES;
        }
        return true;
      }
      return false;
    }

    /** `start_death_animation`. */
    method StartDeathAnimation()
      modifies this
      ensures dying && deathTimer == 0
      ensures x == old(x) && lives == old(lives) && invulnerable == old(invulnerable)
      ensures invulnerableTimer == old(invulnerableTimer) && alpha == old(alpha) && score == old(score)
    {
      dying := true;
      deathTimer := 0;
    }

    /** `is_dead`. */
    function IsDead(): (dead: bool)
      reads this
      ensures dead <==> Dead(State())
    {
      dying && deathTimer > 30
    }
  }

  /** A player with one life left is hit: after 30 updates its death
      animation is still running, and the 31st update makes it dead. */
  method LastLifeScenario() returns (deadAfter30: bool, deadAfter31: bool)
    ensures !deadAfter30 && deadAfter31
  {
    var p := new Player(1, 400, 500, 40, PLAYER1_LEFT, PLAYER1_RIGHT);
    p.lives := 1;
    var damaged := p.TakeDamage();
    var n := 0;
    while n < 30
      invariant 0 <= n <= 30
      invariant p.Valid() && p.dying && p.deathTimer == n
    {
      p.Update({LeftArrow});
      n := n + 1;
    }
    deadAfter30 := p.IsDead();
    p.Update({});
    deadAfter31 := p.IsDead();
  }

  // ===== Falling sprites =====

  /** An enemy or a collectible: its rectangle's position and its speed. */
  datatype Faller = Faller(x: int, y: int, speed: real)

  /** `Enemy.update` / `Collectible.update`, vertical part. */
  function Fall(f: Faller): Faller
  {
    f.(y := Trunc(f.y as real + f.speed))
  }

  /** The removal test of the falling sprites. */
  predicate Gone(f: Faller)
  {
    f.y > SCREEN_HEIGHT + 100
  }

  /** A sprite at least as fast as one pixel per frame moves down by at
      least one pixel, keeping its column and speed. */
  lemma FallAdvances(f: Faller)
    requires f.speed >= 1.0
    ensures Fall(f).y >= f.y + 1 && Fall(f).x == f.x && Fall(f).speed == f.speed
  {
  }

  /** `n` updates of one sprite. */
  function FallN(f: Faller, n: nat): Faller
  {
    if n == 0 then f else Fall(FallN(f, n - 1))
  }

  lemma {:induction false} FallNAdvances(f: Faller, n: nat)
    requires f.speed >= 1.0
    ensures FallN(f, n).y >= f.y + n && FallN(f, n).speed == f.speed
  {
    if n > 0 {
      FallNAdvances(f, n - 1);
      FallAdvances(FallN(f, n - 1));
    }
  }

  /** A sprite starting at or below row `top` with speed at least 1 has
      left the play area after `SCREEN_HEIGHT + 101 - top` updates. */
  lemma LeavesScreen(f: Faller, top: int, n: nat)
    requires f.speed >= 1.0 && f.y >= top && n >= SCREEN_HEIGHT + 101 - top
    ensures Gone(FallN(f, n))
  {
    FallNAdvances(f, n);
  }

  /** The sprites a group keeps after `group.update()`: each one moved, the
      ones below the removal line dropped, order preserved. */
  function Survivors(group: seq<Faller>): (kept: seq<Faller>)
    ensures |kept| <= |group|
    ensures forall k :: 0 <= k < |kept| ==> !Gone(kept[k]) && exists j :: 0 <= j < |group| && kept[k] == Fall(group[j])
    ensures forall j :: 0 <= j < |group| && !Gone(Fall(group[j])) ==> Fall(group[j]) in kept
    decreases |group|
  {
    if group == [] then []
    else
      var rest := Survivors(group[..|group| - 1]);
      var f := Fall(group[|group| - 1]);
      if Gone(f) then rest else rest + [f]
  }

  /** A sprite still in the game: spawned at or below row `top`, not yet
      past the removal line, and at least as fast as `minSpeed`. */
  predicate InPlay(f: Faller, top: int, minSpeed: real)
  {
    top <= f.y <= SCREEN_HEIGHT + 100 && f.speed >= minSpeed
  }

  predicate AllInPlay(group: seq<Faller>, top: int, minSpeed: real)
  {
    forall k :: 0 <= k < |group| ==> InPlay(group[k], top, minSpeed)
  }

  /** A group update keeps every sprite it keeps in play. */
  lemma SurvivorsStayInPlay(group: seq<Faller>, top: int, minSpeed: real)
    requires minSpeed >= 1.0 && AllInPlay(group, top, minSpeed)
    ensures AllInPlay(Survivors(group), top, minSpeed)
  {
    var kept := Survivors(group);
    forall k | 0 <= k < |kept|
      ensures InPlay(kept[k], top, minSpeed)
    {
      var j :| 0 <= j < |group| && kept[k] == Fall(group[j]);
      FallAdvances(group[j]);
    }
  }

  /** `group.update()` on a group of falling sprites. */
  method UpdateGroup(group: seq<Faller>) returns (kept: seq<Faller>)
    ensures kept == Survivors(group)
  {
    kept := [];
    var i := 0;
    while i < |group|
      invariant 0 <= i <= |group|
      invariant kept == Survivors(group[..i])
    {
      assert group[..i + 1][..i] == group[..i];
      var f := Fall(group[i]);
      if !Gone(f) {
        kept := kept + [f];
      }
      i := i + 1;
    }
    assert group[..i] == group;
  }

  // ===== Particles =====

  /** A burst particle: only its life counter matters to the game logic. */
  datatype Particle = Particle(lifetime: int, maxLifetime: int)

  /** `Particle.update`, life part. */
  function Age(p: Particle): Particle
  {
    p.(lifetime := p.lifetime - 1)
  }

  /** `Particle.is_dead`. */
  predicate Expired(p: Particle)
  {
    p.lifetime <= 0
  }

  /** `n` updates of one particle. */
  function AgeN(p: Particle, n: nat): Particle
  {
    if n == 0 then p else Age(AgeN(p, n - 1))
  }

  /** A particle is removed on exactly the update that brings its life to zero. */
  lemma {:induction false} ParticleLifespan(p: Particle, n: nat)
    ensures AgeN(p, n).lifetime == p.lifetime - n
    ensures Expired(AgeN(p, n)) <==> n >= p.lifetime
  {
    if n > 0 {
      ParticleLifespan(p, n - 1);
    }
  }

  /** The particles left after the scene's particle loop: every particle
      updated, the expired ones removed, order preserved. */
  function LiveParticles(ps: seq<Particle>): (live: seq<Particle>)
    ensures |live| <= |ps|
    decreases |ps|
  {
    if ps == [] then []
    else
      var rest := LiveParticles(ps[..|ps| - 1]);
      var p := Age(ps[|ps| - 1]);
      if Expired(p) then rest else rest + [p]
  }

  /** The loop keeps exactly the particles that survive their update: each
      particle left is the update of a particle that had more than one frame
      of life and is not expired, and every such particle's update is left. */
  lemma {:induction false} LiveParticlesExact(ps: seq<Particle>)
    ensures var live := LiveParticles(ps);
      (forall k :: 0 <= k < |live| ==>
        !Expired(live[k]) && exists j :: 0 <= j < |ps| && ps[j].lifetime > 1 && live[k] == Age(ps[j])) &&
      (forall j :: 0 <= j < |ps| && ps[j].lifetime > 1 ==> Age(ps[j]) in live)
    decreases |ps|
  {
    if ps != [] {
      var front := ps[..|ps| - 1];
      LiveParticlesExact(front);
      var live := LiveParticles(ps);
      var rest := LiveParticles(front);
      forall k | 0 <= k < |live|
        ensures !Expired(live[k]) && exists j :: 0 <= j < |ps| && ps[j].lifetime > 1 && live[k] == Age(ps[j])
      {
        if k < |rest| {
          var j :| 0 <= j < |front| && front[j].lifetime > 1 && rest[k] == Age(front[j]);
          assert ps[j] == front[j];
        } else {
          assert ps[|ps| - 1].lifetime > 1;
        }
      }
      forall j | 0 <= j < |ps| && ps[j].lifetime > 1
        ensures Age(ps[j]) in live
      {
        if j < |front| {
          assert front[j] == ps[j];
        }
      }
    }
  }

  /** The particle loop of the game scene's update. */
  method StepParticles(ps: seq<Particle>) returns (live: seq<Particle>)
    ensures live == LiveParticles(ps)
  {
    live := [];
    var i := 0;
    while i < |ps|
      invariant 0 <= i <= |ps|
      invariant live == LiveParticles(ps[..i])
    {
      assert ps[..i + 1][..i] == ps[..i];
      var p := Age(ps[i]);
      if !Expired(p) {
        live := live + [p];
      }
      i := i + 1;
    }
    assert ps[..i] == ps;
  }

  /** The `count` particles of a burst whose lifetimes come from draws
      `first`, `first + 1`, ...: each starts with a full life of 30 to 60
      frames. */
  function BurstOf(count: nat, rng: Rng, first: nat): (ps: seq<Particle>)
    ensures |ps| == count
    ensures forall k :: 0 <= k < count ==> 30 <= ps[k].lifetime <= 60 && ps[k].maxLifetime == ps[k].lifetime
    decreases count, first  // `first` keeps a literal `count` from being unrolled
  {
    if count == 0 then []
    else
      var lifetime := RandInt(rng, 30, 60, first + count - 1);
      BurstOf(count - 1, rng, first) + [Particle(lifetime, lifetime)]
  }

  /** `create_particle_burst`: `count` particles (none for a negative
      count), each living between 30 and 60 frames; the lifetimes come
      from draws `first`, `first + 1`, .... */
  method CreateParticleBurst(count: int, rng: Rng, first: nat) returns (ps: seq<Particle>)
    ensures ps == BurstOf(Max(0, count), rng, first)
    ensures |ps| == Max(0, count)
    ensures forall k :: 0 <= k < |ps| ==> 30 <= ps[k].lifetime <= 60 && ps[k].maxLifetime == ps[k].lifetime
  {
    ps := [];
    var k := 0;
    while k < count
      invariant 0 <= k <= Max(0, count)
      invariant ps == BurstOf(k, rng, first)
    {
      var lifetime := RandInt(rng, 30, 60, first + k);
      ps := ps + [Particle(lifetime, lifetime)];
      k := k + 1;
    }
  }
}
