/** The fade-in / fade-out machinery every scene inherits
    (makeuprain/scenes/base_scene.py). A scene fades in from black after
    `on_enter` and fades out to black before handing over to the scene it
    names; the overlay's opacity moves 15 units per frame. */
module Scenes {
  import opened Util

  /** The scenes the game manager can switch to. */
  datatype SceneName = Menu | Game | GameOver

  /** Opacity change of the black overlay per frame. */
  const FADE_STEP: int := 15
  /** Fully opaque overlay. */
  const OPAQUE: int := 255

  /** One `update_transition` on the overlay opacity: the new opacity and
      whether the fade-out is complete. */
  function FadeStep(alpha: int, out: bool): (int, bool)
  {
    if out then (alpha + FADE_STEP, alpha + FADE_STEP >= OPAQUE)
    else if alpha > 0 then (alpha - FADE_STEP, false)
    else (alpha, false)
  }

  /** The opacity after `n` fade-in frames. */
  function FadeInAfter(alpha: int, n: nat): int
  {
    if n == 0 then alpha else FadeStep(FadeInAfter(alpha, n - 1), false).0
  }

  /** The opacity after `n` fade-out frames. */
  function FadeOutAfter(alpha: int, n: nat): int
  {
    if n == 0 then alpha else FadeStep(FadeOutAfter(alpha, n - 1), true).0
  }

  /** From a multiple of the step, fading in lowers the opacity by one step
      per frame and then rests at 0: it never goes negative. */
  lemma {:induction false} FadeInClosedForm(k: nat, n: nat)
    ensures FadeInAfter(k * FADE_STEP, n) == Max(0, k - n) * FADE_STEP
  {
    if n > 0 {
      FadeInClosedForm(k, n - 1);
    }
  }

  /** After `on_enter` the overlay is gone after exactly 17 frames. */
  lemma FadeInFromOpaque(n: nat)
    ensures FadeInAfter(OPAQUE, n) >= 0
    ensures FadeInAfter(OPAQUE, n) == 0 <==> n >= 17
  {
    FadeInClosedForm(17, n);
  }

  /** Fading out raises the opacity by one step per frame. */
  lemma {:induction false} FadeOutClosedForm(alpha: int, n: nat)
    ensures FadeOutAfter(alpha, n) == alpha + n * FADE_STEP
  {
    if n > 0 {
      FadeOutClosedForm(alpha, n - 1);
    }
  }

  /** A fade-out that starts from any non-negative opacity reports
      completion within 17 frames: on frame `n` (counting from 1) exactly
      when `alpha + 15 n` reaches 255. */
  lemma FadeOutCompletes(alpha: int, n: nat)
    requires alpha >= 0 && n >= 1
    ensures FadeStep(FadeOutAfter(alpha, n - 1), true).1 <==> alpha + n * FADE_STEP >= OPAQUE
    ensures n >= 17 ==> FadeStep(FadeOutAfter(alpha, n - 1), true).1
  {
    FadeOutClosedForm(alpha, n - 1);
  }

  /** The fade state of a scene (the `Scene` base class). */
  class Scene {
    var nextScene: Option<SceneName>
    var transitionAlpha: int
    var transitioningOut: bool

    /** The opacity is a non-negative multiple of the fade step, and a
        fade-out always has a target. */
    ghost predicate Valid()
      reads this
    {
      transitionAlpha >= 0 && transitionAlpha % FADE_STEP == 0 &&
      (transitioningOut ==> nextScene != None)
    }

    constructor ()
      ensures Valid()
      ensures nextScene == None && transitionAlpha == 0 && !transitioningOut
    {
      nextScene := None;
      transitionAlpha := 0;
      transitioningOut := false;
    }

    /** `on_enter`: start fully black, fading in, with no target. */
    method OnEnter()
      modifies this
      ensures Valid()
      ensures transitionAlpha == OPAQUE && !transitioningOut && nextScene == None
    {
      transitionAlpha := OPAQUE;
      transitioningOut := false;
      nextScene := None;
    }

    /** `start_transition`: remember the target and start fading out. */
    method StartTransition(target: SceneName)
      requires Valid()
      modifies this
      ensures Valid()
      ensures nextScene == Some(target) && transitioningOut
      ensures transitionAlpha == old(transitionAlpha)
    {
      nextScene := Some(target);
      transitioningOut := true;
    }

    /** `update_transition`: one frame of the fade; `done` is true only
        while fading out, once the overlay is opaque. */
    method UpdateTransition() returns (done: bool)
      requires Valid()
      modifies this
      ensures Valid()
      ensures (transitionAlpha, done) == FadeStep(old(transitionAlpha), transitioningOut)
      ensures done ==> transitioningOut
      ensures transitioningOut == old(transitioningOut) && nextScene == old(nextScene)
    {
      if transitioningOut {
        transitionAlpha := transitionAlpha + FADE_STEP;
        if transitionAlpha >= OPAQUE {
          return true;
        }
      } else {
        if transitionAlpha > 0 {
          transitionAlpha := transitionAlpha - FADE_STEP;
        }
      }
      return false;
    }
  }
}
