/** The app and the main scene together: every score the scene reports is
    handed to the router's `handleScoreUpdate` while the game is on show. */
module Session {
  import opened Scoring
  import MainScene
  import Router
  import Scene

  /** The router after the game screen delivered `reports`, in order. */
  function Deliver(app: Router.State, reports: seq<int>): Router.State
    decreases |reports|
  {
    if |reports| == 0 then app
    else Deliver(Router.Step(app, Router.ScoreReported(reports[0])), reports[1..])
  }

  /** Reports below 67 leave the router exactly as it was. */
  lemma {:induction false} LowReportsKeepScreen(app: Router.State, reports: seq<int>)
    requires forall i :: 0 <= i < |reports| ==> reports[i] < Router.ExitThreshold
    ensures Deliver(app, reports) == app
    decreases |reports|
  {
    if |reports| > 0 {
      LowReportsKeepScreen(app, reports[1..]);
    }
  }

  /** A coin that brings the score to the cap (exactly or by overflow)
      moves an app showing the game to the void screen; any other coin
      leaves the app showing the game. */
  lemma CoinAtCapShowsVoid(app: Router.State, s: MainScene.State, k: nat, value: int)
    requires Router.Current(app) == Router.Game
    requires k < |s.coins| && DrawnValue(value)
    ensures var next := Deliver(app, MainScene.CollectCoin(s, k, value).reports);
            Router.Current(next) == Router.Void <==> s.score + value >= MaxScore
    ensures var next := Deliver(app, MainScene.CollectCoin(s, k, value).reports);
            s.score + value < MaxScore ==> next == app
  {
    var reports := MainScene.CollectCoin(s, k, value).reports;
    assert reports[1..] == [];
  }

  /** The 0 reported by a reset never leaves the game screen. */
  lemma ResetKeepsGame(app: Router.State, s: MainScene.State, rolls: Scene.LevelRolls)
    requires Scene.ValidLevelRolls(rolls)
    ensures Deliver(app, MainScene.ResetLevel(s, rolls).reports) == app
  {
    LowReportsKeepScreen(app, MainScene.ResetLevel(s, rolls).reports);
  }
}
