/** The game-over screen (makeuprain/scenes/gameover_scene.py): the verdict
    it takes over from the finished game (new record, per-player scores and,
    with two players, the winner) and the keys that leave it. Its buttons,
    mouse handling and drawing are not modelled. */
module GameOver {
  import opened Util
  import opened Config
  import opened Scoring
  import opened Entities
  import opened Scenes

  /** One entry of the score table shown on the screen. */
  datatype PlayerScore = PlayerScore(id: int, score: int)

  /** The winner of a two-player game, by position in the table: 1 when the
      first player scored more, 2 when the second did, none on a tie or with
      any other number of players. */
  function Winner(table: seq<PlayerScore>): (winner: Option<int>)
    ensures winner == Some(1) <==> |table| == 2 && table[0].score > table[1].score
    ensures winner == Some(2) <==> |table| == 2 && table[1].score > table[0].score
    ensures winner == None <==> |table| != 2 || table[0].score == table[1].score
  {
    if |table| == 2 then
      if table[0].score > table[1].score then Some(1)
      else if table[1].score > table[0].score then Some(2)
      else None
    else None
  }

  /** The scene a key asks for on this screen, if any. */
  function KeyTarget(key: Key): Option<SceneName>
  {
    match key
    case KeyR => Some(Game)
    case KeySpace => Some(Game)
    case KeyEscape => Some(Menu)
    case KeyM => Some(Menu)
    case _ => None
  }

  /** The request a batch of key presses leaves behind: the last key that
      asks for a scene wins. */
  function LastRequest(keys: seq<Key>): (request: Option<SceneName>)
    ensures request == None <==> forall k :: 0 <= k < |keys| ==> KeyTarget(keys[k]) == None
    ensures request != None ==>
      exists k :: 0 <= k < |keys| && KeyTarget(keys[k]) == request &&
        forall j :: k < j < |keys| ==> KeyTarget(keys[j]) == None
    decreases |keys|
  {
    if keys == [] then None
    else if KeyTarget(keys[|keys| - 1]) != None then KeyTarget(keys[|keys| - 1])
    else LastRequest(keys[..|keys| - 1])
  }

  class GameOverScene {
    const base: Scene
    var isNewRecord: bool
    var playerScores: seq<PlayerScore>
    var winnerId: Option<int>

    constructor ()
      ensures fresh(base) && base.Valid()
      ensures !isNewRecord && playerScores == [] && winnerId == None
    {
      base := new Scene();
      isNewRecord := false;
      playerScores := [];
      winnerId := None;
    }

    /** `on_enter`: starts the fade-in and takes the verdict from the
        shared score system and the game scene's players. */
    method OnEnter(scores: ScoreSystem, players: seq<Player>)
      modifies this, base
      ensures base.Valid()
      ensures base.transitionAlpha == OPAQUE && !base.transitioningOut && base.nextScene == None
      ensures isNewRecord <==> scores.score == scores.highScore && scores.score > 0
      ensures |playerScores| == |players|
      ensures forall k :: 0 <= k < |players| ==> playerScores[k] == PlayerScore(players[k].playerId, players[k].score)
      ensures winnerId == Winner(playerScores)
    {
      base.OnEnter();
      isNewRecord := scores.score == scores.highScore && scores.score > 0;
      playerScores := [];
      winnerId := None;
      var i := 0;
      while i < |players|
        invariant 0 <= i <= |players| && |playerScores| == i
        invariant base.Valid() && base.transitionAlpha == OPAQUE && !base.transitioningOut && base.nextScene == None
        invariant isNewRecord <==> scores.score == scores.highScore && scores.score > 0
        invariant forall k :: 0 <= k < i ==> playerScores[k] == PlayerScore(players[k].playerId, players[k].score)
      {
        playerScores := playerScores + [PlayerScore(players[i].playerId, players[i].score)];
        i := i + 1;
      }
      winnerId := Winner(playerScores);
    }

    /** `retry_game`. */
    method RetryGame()
      requires base.Valid()
      modifies base
      ensures base.Valid()
      ensures base.nextScene == Some(Game) && base.transitioningOut
      ensures base.transitionAlpha == old(base.transitionAlpha)
    {
      base.StartTransition(Game);
    }

    /** `go_to_menu`. */
    method GoToMenu()
      requires base.Valid()
      modifies base
      ensures base.Valid()
      ensures base.nextScene == Some(Menu) && base.transitioningOut
      ensures base.transitionAlpha == old(base.transitionAlpha)
    {
      base.StartTransition(Menu);
    }

    /** `handle_events`, keyboard part: R or Space retries, Escape or M
        returns to the menu; with several such keys the last one wins. */
    method HandleEvents(keys: seq<Key>)
      requires base.Valid()
      modifies base
      ensures base.Valid()
      ensures base.transitionAlpha == old(base.transitionAlpha)
      ensures LastRequest(keys) == None ==>
        base.nextScene == old(base.nextScene) && base.transitioningOut == old(base.transitioningOut)
      ensures LastRequest(keys) != None ==> base.nextScene == LastRequest(keys) && base.transitioningOut
    {
      var i := 0;
      while i < |keys|
        invariant 0 <= i <= |keys|
        invariant base.Valid()
        invariant base.transitionAlpha == old(base.transitionAlpha)
        invariant LastRequest(keys[..i]) == None ==>
          base.nextScene == old(base.nextScene) && base.transitioningOut == old(base.transitioningOut)
        invariant LastRequest(keys[..i]) != None ==> base.nextScene == LastRequest(keys[..i]) && base.transitioningOut
      {
        assert keys[..i + 1][..i] == keys[..i];
        var key := keys[i];
        if key == KeyR || key == KeySpace {
          RetryGame();
        } else if key == KeyEscape || key == KeyM {
          GoToMenu();
        }
        i := i + 1;
      }
      assert keys[..i] == keys;
    }

    /** `update`: one fade frame; `change` is the scene to switch to once
        the fade-out is complete. */
    method Update() returns (change: Option<SceneName>)
      requires base.Valid()
      modifies base
      ensures base.Valid()
      ensures (base.transitionAlpha, change != None) == FadeStep(old(base.transitionAlpha), base.transitioningOut)
      ensures change != None ==> change == base.nextScene
      ensures base.nextScene == old(base.nextScene) && base.transitioningOut == old(base.transitioningOut)
    {
      var done := base.UpdateTransition();
      change := if done then base.nextScene else None;
    }
  }
}
