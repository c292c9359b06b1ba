/** Combo counter, multiplier and score with a write-through high score
    (makeuprain/ui/score_system.py). The floating "+points" texts are not
    modelled; persisting the high score is recorded as an event in
    `savedHighScores` instead of a file write. */
module Scoring {
  import opened Config
  import opened Util

  /** The multiplier the design promises for a combo count: the value of the
      largest threshold not above the count, and 1.0 below every threshold. */
  function StepMultiplier(combo: int): real
  {
    if combo >= 10 then 3.0 else if combo >= 5 then 2.0 else if combo >= 3 then 1.5 else 1.0
  }

  /** What the threshold loop of `add_points` leaves in `multiplier` after
      visiting `table` in order: the value of the last entry whose threshold
      the combo reaches, or 1.0 if there is none. */
  function LastMatch(table: seq<(int, real)>, combo: int): real
  {
    if table == [] then 1.0
    else if combo >= table[|table| - 1].0 then table[|table| - 1].1
    else LastMatch(table[..|table| - 1], combo)
  }

  predicate Ascending(table: seq<(int, real)>)
  {
    forall i, j :: 0 <= i < j < |table| ==> table[i].0 < table[j].0
  }

  /** Over an ascending table the loop yields the value of the largest
      threshold the combo reaches. */
  lemma {:induction false} LastMatchIsLargestThreshold(table: seq<(int, real)>, combo: int, k: int)
    requires Ascending(table)
    requires 0 <= k < |table| && table[k].0 <= combo
    requires k == |table| - 1 || combo < table[k + 1].0
    ensures LastMatch(table, combo) == table[k].1
  {
    if k < |table| - 1 {
      var prefix := table[..|table| - 1];
      assert combo < table[|table| - 1].0;
      LastMatchIsLargestThreshold(prefix, combo, k);
    }
  }

  /** Below the first threshold the loop leaves the multiplier at 1.0. */
  lemma {:induction false} LastMatchBelowAll(table: seq<(int, real)>, combo: int)
    requires Ascending(table)
    requires table == [] || combo < table[0].0
    ensures LastMatch(table, combo) == 1.0
  {
    if table != [] {
      var prefix := table[..|table| - 1];
      assert combo < table[|table| - 1].0;
      LastMatchBelowAll(prefix, combo);
    }
  }

  /** The configured table yields the promised step function. */
  lemma ComboTableIsStep(combo: int)
    ensures LastMatch(COMBO_MULTIPLIERS, combo) == StepMultiplier(combo)
  {
    var t := COMBO_MULTIPLIERS;
    assert Ascending(t);
    if combo < 3 {
      LastMatchBelowAll(t, combo);
    } else if combo < 5 {
      LastMatchIsLargestThreshold(t, combo, 0);
    } else if combo < 10 {
      LastMatchIsLargestThreshold(t, combo, 1);
    } else {
      LastMatchIsLargestThreshold(t, combo, 2);
    }
  }

  /** The multiplier never drops as the combo grows. */
  lemma StepMultiplierMonotone(c1: int, c2: int)
    requires c1 <= c2
    ensures 1.0 <= StepMultiplier(c1) <= StepMultiplier(c2) <= 3.0
  {
  }

  /** The threshold loop of `add_points`: starting from 1.0, every entry of
      the (ascending) table whose threshold the combo reaches overwrites the
      multiplier. */
  method LookupMultiplier(combo: int) returns (m: real)
    ensures m == StepMultiplier(combo)
  {
    m := 1.0;
    var i := 0;
    while i < |COMBO_MULTIPLIERS|
      invariant 0 <= i <= |COMBO_MULTIPLIERS|
      invariant m == LastMatch(COMBO_MULTIPLIERS[..i], combo)
    {
      assert COMBO_MULTIPLIERS[..i + 1][..i] == COMBO_MULTIPLIERS[..i];
      if combo >= COMBO_MULTIPLIERS[i].0 {
        m := COMBO_MULTIPLIERS[i].1;
      }
      i := i + 1;
    }
    assert COMBO_MULTIPLIERS[..i] == COMBO_MULTIPLIERS;
    ComboTableIsStep(combo);
  }

  /** `int(base_points * multiplier)`: points for one collected item. */
  function Points(multiplier: real): int
  {
    (POINTS_VALUE as real * multiplier).Floor
  }

  /** Points per item for every combo count: 50, 75, 100 or 150. */
  lemma PointsForCombo(combo: int)
    ensures combo < 3 ==> Points(StepMultiplier(combo)) == 50
    ensures 3 <= combo < 5 ==> Points(StepMultiplier(combo)) == 75
    ensures 5 <= combo < 10 ==> Points(StepMultiplier(combo)) == 100
    ensures combo >= 10 ==> Points(StepMultiplier(combo)) == 150
  {
  }

  /** The same points as whole numbers: what `Points(StepMultiplier(combo))`
      comes to, by `PointsForCombo`. */
  function ItemPoints(combo: int): int
  {
    if combo >= 10 then 150 else if combo >= 5 then 100 else if combo >= 3 then 75 else 50
  }

  class ScoreSystem {
    var score: int
    var combo: int
    var comboTimer: int
    var multiplier: real
    var highScore: int
    /** Every value handed to the high-score store, in order. */
    var savedHighScores: seq<int>

    /** The multiplier always matches the combo (so it is 1.0 whenever the
        combo is 0), a live combo has time left, and a positive score never
        exceeds the high score. */
    ghost predicate Valid()
      reads this
    {
      Coherent() && (combo > 0 ==> comboTimer > 0)
    }

    /** Valid() except that a live combo may have just run out of time. */
    ghost predicate Coherent()
      reads this
    {
      score >= 0 && (score > 0 ==> score <= highScore) &&
      combo >= 0 && 0 <= comboTimer <= COMBO_WINDOW_FRAMES &&
      multiplier == StepMultiplier(combo)
    }

    /** `loadedHighScore` is what the high-score store returned (0 when missing). */
    constructor (loadedHighScore: int)
      ensures Valid()
      ensures score == 0 && combo == 0 && comboTimer == 0 && multiplier == 1.0
      ensures highScore == loadedHighScore && savedHighScores == []
    {
      score := 0;
      combo := 0;
      comboTimer := 0;
      multiplier := 1.0;
      highScore := loadedHighScore;
      savedHighScores := [];
    }

    /** `add_points`: extends the combo, refills its window, recomputes the
        multiplier, scores the item and writes a new high score through. */
    method AddPoints() returns (points: int)
      requires Valid()
      modifies this
      ensures Valid()
      ensures combo == old(combo) + 1 && comboTimer == COMBO_WINDOW_FRAMES
      ensures multiplier == StepMultiplier(combo) && points == Points(multiplier)
      ensures points == 50 || points == 75 || points == 100 || points == 150
      ensures score == old(score) + points
      ensures highScore == Max(old(highScore), score) && highScore >= score
      ensures savedHighScores == old(savedHighScores) + (if score > old(highScore) then [score] else [])
    {
      combo := combo + 1;
      comboTimer := COMBO_WINDOW_FRAMES;
      multiplier := LookupMultiplier(combo);
      PointsForCombo(combo);
      points := Points(multiplier);
      score := score + points;
      if score > highScore {
        highScore := score;
        savedHighScores := savedHighScores + [highScore];
      }
    }

    /** `break_combo`: drops the combo and its multiplier; the score is untouched. */
    method BreakCombo()
      requires Coherent()
      modifies this
      ensures Valid()
      ensures combo == 0 && multiplier == 1.0
      ensures score == old(score) && highScore == old(highScore) && comboTimer == old(comboTimer)
      ensures savedHighScores == old(savedHighScores)
      ensures old(combo) == 0 ==> unchanged(this)
    {
      if combo > 0 {
        combo := 0;
        multiplier := 1.0;
      }
    }

    /** `update`, combo part: a live combo loses one frame and breaks when its time is out. */
    method Update()
      requires Valid()
      modifies this
      ensures Valid()
      ensures old(combo) == 0 ==> unchanged(this)
      ensures old(combo) > 0 ==> comboTimer == old(comboTimer) - 1
      ensures old(combo) > 0 ==> combo == (if comboTimer <= 0 then 0 else old(combo))
      ensures score == old(score) && highScore == old(highScore) && savedHighScores == old(savedHighScores)
    {
      if combo > 0 {
        comboTimer := comboTimer - 1;
        if comboTimer <= 0 {
          BreakCombo();
        }
      }
    }

    /** `reset`: a new game's score and combo; the high score survives. */
    method Reset()
      requires Valid()
      modifies this
      ensures Valid()
      ensures score == 0 && combo == 0 && comboTimer == 0 && multiplier == 1.0
      ensures highScore == old(highScore) && savedHighScores == old(savedHighScores)
    {
      score := 0;
      combo := 0;
      comboTimer := 0;
      multiplier := 1.0;
    }

    /** `get_combo_info`: the combo, its multiplier and the share of its window left. */
    function GetComboInfo(): (info: (int, real, real))
      requires Valid()
      reads this
      ensures info.0 == combo && info.1 == multiplier
      ensures 0.0 <= info.2 <= 1.0
      ensures info.0 == 0 ==> info.1 == 1.0
      ensures info.0 > 0 ==> info.2 > 0.0
    {
      (combo, multiplier, MaxR(0.0, comboTimer as real / COMBO_WINDOW_FRAMES as real))
    }
  }

  /** Ten collections with no break in between: the multiplier is 1.0 after
      the first, 1.5 after the third, 2.0 after the fifth and 3.0 after the
      tenth, and the items earn 900 points in all. */
  method ComboScenario() returns (multipliers: seq<real>, total: int)
    ensures |multipliers| == 10
    ensures multipliers[0] == 1.0 && multipliers[2] == 1.5 && multipliers[4] == 2.0 && multipliers[9] == 3.0
    ensures total == 900
  {
    var s := new ScoreSystem(0);
    multipliers := [];
    total := 0;
    while |multipliers| < 10
      invariant s.Valid() && s.combo == |multipliers| <= 10
      invariant forall k :: 0 <= k < |multipliers| ==> multipliers[k] == StepMultiplier(k + 1)
      invariant total == s.score
      invariant total == (if |multipliers| <= 2 then 50 * |multipliers|
                          else if |multipliers| <= 4 then 100 + 75 * (|multipliers| - 2)
                          else if |multipliers| <= 9 then 250 + 100 * (|multipliers| - 4)
                          else 900)
    {
      var points := s.AddPoints();
      PointsForCombo(s.combo);
      multipliers := multipliers + [s.multiplier];
      total := total + points;
    }
  }
}
