/** The second simple scene (other/PhaserGame2.jsx): one floor, a fixed row
    of eleven coins worth 6 or 7 each, the trick star that ends the game,
    slower steering, a higher jump, and the gravity glitch. There is no
    reset and no score observer. */
module SceneTwo {
  import opened Scoring
  import opened Movement
  import Coins

  const RunSpeed: int := 160
  const JumpImpulse: int := -330

  datatype State = State(
    score: int,
    gameOver: bool,
    gravity: int,
    vel: Vec,                       // last velocity the scene requested
    bodyGravity: bool,              // the player's body.allowGravity
    physicsPaused: bool,
    coins: seq<Coins.Coin>,         // coins whose bodies are still enabled
    starActive: bool)               // the trick star's body is enabled

  predicate Valid(s: State) {
    && InScoreRange(s.score)
    && InGravityRange(s.gravity)
    && |s.coins| <= Coins.RowCount
    && s.physicsPaused == s.gameOver
    && s.bodyGravity == !s.gameOver
    && (s.gameOver ==> s.vel == Vec(0, 0) && !s.starActive)
  }

  /** `create`: score 0, the coin row, the trick star in play. */
  function Create(): (s: State)
    ensures Valid(s) && s.score == 0 && !s.gameOver && s.starActive
    ensures s.coins == Coins.CoinRow()
  {
    State(0, false, BaseGravity, Vec(0, 0), true, false, Coins.CoinRow(), true)
  }

  /** `collectCoin`: disables coin k and adds 6 or 7, clamped at 67; nothing
      is reported and no glitch starts. */
  function CollectCoin(s: State, k: nat, value: int): (r: State)
    requires k < |s.coins|
    requires RowValue(value)
    ensures r.score == Min(s.score + value, MaxScore)
    ensures s.score <= MaxScore ==> s.score <= r.score
    ensures r.coins == Coins.RemoveAt(s.coins, k)
    ensures r == s.(score := r.score, coins := r.coins)
    ensures Valid(s) ==> Valid(r)
  {
    s.(coins := Coins.RemoveAt(s.coins, k), score := AddCoin(s.score, value).score)
  }

  /** `collectTrickStar`: disables the star and latches game over, stopping
      the player, switching off its gravity and pausing physics. */
  function CollectTrickStar(s: State): (r: State)
    ensures r.gameOver && r.physicsPaused && !r.bodyGravity && !r.starActive
    ensures r.vel == Vec(0, 0)
    ensures r == s.(gameOver := true, physicsPaused := true, bodyGravity := false,
                    starActive := false, vel := Vec(0, 0))
    ensures Valid(s) ==> Valid(r)
  {
    s.(starActive := false, gameOver := true, vel := Vec(0, 0), bodyGravity := false, physicsPaused := true)
  }

  /** `update`: nothing once the game is over; otherwise steer at 160 (left
      first), jump at -330 only when up is held on the ground, and replace
      gravity only when the glitch roll is below 3. */
  function Update(s: State, keys: Keys, grounded: bool, gravityRoll: int, newGravity: int): (r: State)
    requires ValidGravityRolls(gravityRoll, newGravity)
    ensures s.gameOver ==> r == s
    ensures !s.gameOver ==> r.vel.x == -RunSpeed || r.vel.x == 0 || r.vel.x == RunSpeed
    ensures !s.gameOver ==> (r.vel.x == -RunSpeed <==> keys.left)
                            && (r.vel.x == RunSpeed <==> !keys.left && keys.right)
                            && (r.vel.x == 0 <==> !keys.left && !keys.right)
    ensures !s.gameOver && keys.up && grounded ==> r.vel.y == JumpImpulse
    ensures !(keys.up && grounded) ==> r.vel.y == s.vel.y
    ensures !s.gameOver && gravityRoll < GlitchOdds ==> r.gravity == newGravity
    ensures gravityRoll >= GlitchOdds ==> r.gravity == s.gravity
    ensures r == s.(vel := r.vel, gravity := r.gravity)
    ensures Valid(s) ==> Valid(r)
  {
    if s.gameOver then s
    else
      s.(vel := Vec(Steer(keys, RunSpeed), Jump(s.vel.y, keys, grounded, JumpImpulse)),
         gravity := GravityGlitch(s.gravity, gravityRoll, newGravity))
  }

  /** The 6.7 s timeout that disables the trick star if nobody touched it. */
  function ExpireStar(s: State): (r: State)
    ensures !r.starActive && r == s.(starActive := false)
    ensures Valid(s) ==> Valid(r)
  {
    s.(starActive := false)
  }

  datatype Event =
    | CoinOverlap(coin: nat, value: int)
    | StarOverlap
    | Frame(keys: Keys, grounded: bool, gravityRoll: int, newGravity: int)
    | StarTimeout

  predicate ValidEvent(e: Event) {
    match e
    case CoinOverlap(_, v) => RowValue(v)
    case Frame(_, _, g, ng) => ValidGravityRolls(g, ng)
    case _ => true
  }

  /** Dispatch one event; the engine reports overlaps only while the world
      runs and only for enabled bodies. No event lowers the score (there is
      no reset), and none changes anything that matters once the game is over. */
  function Step(s: State, e: Event): (r: State)
    requires ValidEvent(e)
    ensures Valid(s) ==> Valid(r) && s.score <= r.score
    ensures Valid(s) && s.gameOver ==> r.gameOver && r.score == s.score && r.vel == s.vel
                                        && r.gravity == s.gravity && r.coins == s.coins
  {
    match e
    case CoinOverlap(k, v) => if !s.physicsPaused && k < |s.coins| then CollectCoin(s, k, v) else s
    case StarOverlap => if !s.physicsPaused && s.starActive then CollectTrickStar(s) else s
    case Frame(keys, grounded, g, ng) => Update(s, keys, grounded, g, ng)
    case StarTimeout => ExpireStar(s)
  }

  /** Apply a sequence of events. */
  function Run(s: State, es: seq<Event>): State
    requires forall i :: 0 <= i < |es| ==> ValidEvent(es[i])
    decreases |es|
  {
    if |es| == 0 then s else Run(Step(s, es[0]), es[1..])
  }

  /** From any valid state, every run stays valid and the score only grows;
      from the initial 0 it stays within [0, 67]. */
  lemma {:induction false} RunScoreNeverFalls(s: State, es: seq<Event>)
    requires Valid(s)
    requires forall i :: 0 <= i < |es| ==> ValidEvent(es[i])
    ensures Valid(Run(s, es))
    ensures s.score <= Run(s, es).score <= MaxScore
    decreases |es|
  {
    if |es| > 0 {
      RunScoreNeverFalls(Step(s, es[0]), es[1..]);
    }
  }

  /** Game over is absorbing and freezes score, velocity and gravity. */
  lemma {:induction false} GameOverStaysOver(s: State, es: seq<Event>)
    requires Valid(s) && s.gameOver
    requires forall i :: 0 <= i < |es| ==> ValidEvent(es[i])
    ensures var t := Run(s, es);
            t.gameOver && t.score == s.score && t.vel == s.vel && t.gravity == s.gravity
            && t.coins == s.coins
    decreases |es|
  {
    if |es| > 0 {
      GameOverStaysOver(Step(s, es[0]), es[1..]);
    }
  }
}
