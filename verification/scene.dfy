/** What the two full scenes (src/components/PhaserGame.jsx and
    other/PhaserGameD.jsx) share: the draws that build a level, and the
    shape of a transition that may call onScoreUpdate. */
module Scene {
  import Level
  import Coins
  import Movement

  /** Where `create` places the player and where `resetLevel` puts it back. */
  const SpawnPos: Movement.Vec := Movement.Vec(100, 450)

  /** A transition's new state and the scores it passed to onScoreUpdate. */
  datatype Outcome<S> = Outcome(state: S, reports: seq<int>)

  /** The draws of one `createLevel` plus one `spawnCoins`. */
  datatype LevelRolls = LevelRolls(platforms: seq<Level.PlatformRoll>, coins: seq<Coins.CoinRoll>)

  predicate ValidLevelRolls(r: LevelRolls) {
    Level.ValidRolls(r.platforms) && Coins.ValidRolls(r.coins)
  }
}
