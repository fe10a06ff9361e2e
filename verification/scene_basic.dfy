/** The first, simplest scene (src/PhaserGame.jsx): one floor, a fixed row of
    eleven coins worth 6 or 7 each, steering at 160, a jump of -330 and the
    gravity glitch. There is no hazard, no game over and no reset. */
module SceneBasic {
  import opened Scoring
  import opened Movement
  import Coins

  const RunSpeed: int := 160
  const JumpImpulse: int := -330

  datatype State = State(
    score: int,
    gravity: int,
    vel: Vec,                       // last velocity the scene requested
    coins: seq<Coins.Coin>)         // coins whose bodies are still enabled

  predicate Valid(s: State) {
    InScoreRange(s.score) && InGravityRange(s.gravity) && |s.coins| <= Coins.RowCount
  }

  /** `create`: score 0 and the coin row. */
  function Create(): (s: State)
    ensures Valid(s) && s.score == 0 && s.coins == Coins.CoinRow()
  {
    State(0, BaseGravity, Vec(0, 0), Coins.CoinRow())
  }

  /** `collectCoin`: disables coin k and adds 6 or 7, clamped at 67. */
  function CollectCoin(s: State, k: nat, value: int): (r: State)
    requires k < |s.coins|
    requires RowValue(value)
    ensures r.score == Min(s.score + value, MaxScore)
    ensures s.score <= MaxScore ==> s.score <= r.score
    ensures r.coins == Coins.RemoveAt(s.coins, k)
    ensures r == s.(score := r.score, coins := r.coins)
    ensures Valid(s) ==> Valid(r)
  {
    s.(coins := Coins.RemoveAt(s.coins, k), score := AddCoin(s.score, value).score)
  }

  /** `update`: always acts; steer at 160 (left first), jump at -330 only
      when up is held on the ground, and replace gravity only when the glitch
      roll is below 3. */
  function Update(s: State, keys: Keys, grounded: bool, gravityRoll: int, newGravity: int): (r: State)
    requires ValidGravityRolls(gravityRoll, newGravity)
    ensures r.vel.x == -RunSpeed || r.vel.x == 0 || r.vel.x == RunSpeed
    ensures r.vel.x == -RunSpeed <==> keys.left
    ensures r.vel.x == RunSpeed <==> !keys.left && keys.right
    ensures r.vel.x == 0 <==> !keys.left && !keys.right
    ensures keys.up && grounded ==> r.vel.y == JumpImpulse
    ensures !(keys.up && grounded) ==> r.vel.y == s.vel.y
    ensures gravityRoll < GlitchOdds ==> r.gravity == newGravity
    ensures gravityRoll >= GlitchOdds ==> r.gravity == s.gravity
    ensures r.score == s.score && r.coins == s.coins
    ensures Valid(s) ==> Valid(r)
  {
    s.(vel := Vec(Steer(keys, RunSpeed), Jump(s.vel.y, keys, grounded, JumpImpulse)),
       gravity := GravityGlitch(s.gravity, gravityRoll, newGravity))
  }

  datatype Event =
    | CoinOverlap(coin: nat, value: int)
    | Frame(keys: Keys, grounded: bool, gravityRoll: int, newGravity: int)

  predicate ValidEvent(e: Event) {
    match e
    case CoinOverlap(_, v) => RowValue(v)
    case Frame(_, _, g, ng) => ValidGravityRolls(g, ng)
  }

  /** Dispatch one event; the engine reports overlaps only for enabled coins. */
  function Step(s: State, e: Event): (r: State)
    requires ValidEvent(e)
    ensures Valid(s) ==> Valid(r) && s.score <= r.score
  {
    match e
    case CoinOverlap(k, v) => if k < |s.coins| then CollectCoin(s, k, v) else s
    case Frame(keys, grounded, g, ng) => Update(s, keys, grounded, g, ng)
  }

  /** Apply a sequence of events. */
  function Run(s: State, es: seq<Event>): State
    requires forall i :: 0 <= i < |es| ==> ValidEvent(es[i])
    decreases |es|
  {
    if |es| == 0 then s else Run(Step(s, es[0]), es[1..])
  }

  /** The values of the coins actually collected during a run, in order. */
  function Collected(s: State, es: seq<Event>): seq<int>
    requires forall i :: 0 <= i < |es| ==> ValidEvent(es[i])
    decreases |es|
  {
    if |es| == 0 then []
    else
      var here := if es[0].CoinOverlap? && es[0].coin < |s.coins| then [es[0].value] else [];
      here + Collected(Step(s, es[0]), es[1..])
  }

  /** A run's score is the clamped sum of the coins it collected. */
  lemma {:induction false} RunIsAccumulation(s: State, es: seq<Event>)
    requires Valid(s)
    requires forall i :: 0 <= i < |es| ==> ValidEvent(es[i])
    ensures Run(s, es).score == Accumulate(s.score, Collected(s, es))
    ensures AllWithin(Collected(s, es), 6, 7)
    ensures Valid(Run(s, es))
    decreases |es|
  {
    if |es| > 0 {
      var t := Step(s, es[0]);
      RunIsAccumulation(t, es[1..]);
      var rest := Collected(t, es[1..]);
      if es[0].CoinOverlap? && es[0].coin < |s.coins| {
        var cs := [es[0].value] + rest;
        assert cs[0] == es[0].value && cs[1..] == rest;
        assert t.score == AddCoin(s.score, es[0].value).score;
      } else {
        assert Collected(s, es) == rest;
      }
    }
  }

  /** After n collections from the initial score 0, the score lies between
      min(6n, 67) and min(7n, 67). */
  lemma ScoreAfterCollections(es: seq<Event>)
    requires forall i :: 0 <= i < |es| ==> ValidEvent(es[i])
    ensures var n := |Collected(Create(), es)|;
            Min(6 * n, MaxScore) <= Run(Create(), es).score <= Min(7 * n, MaxScore)
  {
    RunIsAccumulation(Create(), es);
    AccumulateBounds(0, Collected(Create(), es), 6, 7);
  }
}
