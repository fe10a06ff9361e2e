/** The merged main scene (src/components/PhaserGame.jsx): score, game over,
    world gravity, the player's reset position and requested velocity, the
    platforms, the coins, the trick star and the running glitch timers.
    Every random draw is a parameter; collisions and overlaps are events the
    engine delivers. */
module MainScene {
  import opened Scoring
  import opened Movement
  import Level
  import Coins
  import Glitch
  import opened Scene

  const RunSpeed: int := 300
  const JumpImpulse: int := -300

  datatype State = State(
    score: int,
    gameOver: bool,
    gravity: int,
    pos: Vec,                       // last position the scene set
    vel: Vec,                       // last velocity the scene requested
    bodyGravity: bool,              // the player's body.allowGravity
    physicsPaused: bool,
    platforms: seq<Level.Platform>,
    coins: seq<Coins.Coin>,         // coins whose bodies are still enabled
    starActive: bool,               // the trick star's body is enabled
    flashTimers: seq<nat>)          // flashes made by each running glitch timer

  /** The draws of one frame: the kick roll and the two gravity-glitch rolls. */
  datatype FrameRolls = FrameRolls(kick: int, gravityRoll: int, newGravity: int)

  predicate ValidFrameRolls(r: FrameRolls) {
    ValidKickRoll(r.kick) && ValidGravityRolls(r.gravityRoll, r.newGravity)
  }

  /** What holds of every state the scene can reach. */
  predicate Valid(s: State) {
    && InScoreRange(s.score)
    && InGravityRange(s.gravity)
    && Level.WellFormed(s.platforms)
    && |s.coins| <= Coins.CoinCount
    && (forall i :: 0 <= i < |s.coins| ==> Coins.Spawnable(s.coins[i]))
    && s.physicsPaused == s.gameOver
    && s.bodyGravity == !s.gameOver
    && (s.gameOver ==> s.vel == Vec(0, 0) && !s.starActive)
  }

  /** `create`: a fresh level, eighty coins, the player at (100, 450), the
      trick star in play, score 0 and base gravity. */
  function Create(rolls: LevelRolls): (s: State)
    requires ValidLevelRolls(rolls)
    ensures Valid(s)
    ensures s.score == 0 && !s.gameOver && s.gravity == BaseGravity
    ensures s.pos == SpawnPos && s.vel == Vec(0, 0) && s.starActive && s.flashTimers == []
    ensures !s.physicsPaused && s.bodyGravity
    ensures s.platforms == Level.CreateLevel(rolls.platforms)
    ensures s.coins == Coins.SpawnCoins(rolls.coins) && |s.coins| == Coins.CoinCount
  {
    State(0, false, BaseGravity, SpawnPos, Vec(0, 0), true, false,
          Level.CreateLevel(rolls.platforms), Coins.SpawnCoins(rolls.coins), true, [])
  }

  /** `resetLevel`: does nothing once the game is over; otherwise zeroes and
      reports the score, regenerates platforms and coins, returns the player
      to (100, 450) and restores base gravity, leaving all else as it was. */
  function ResetLevel(s: State, rolls: LevelRolls): (r: Outcome<State>)
    requires ValidLevelRolls(rolls)
    ensures s.gameOver ==> r == Outcome(s, [])
    ensures !s.gameOver ==> r.reports == [0] && r.state.score == 0
    ensures !s.gameOver ==> r.state.pos == SpawnPos && r.state.gravity == BaseGravity
    ensures !s.gameOver ==> r.state.platforms == Level.CreateLevel(rolls.platforms)
    ensures !s.gameOver ==> r.state.coins == Coins.SpawnCoins(rolls.coins)
    ensures !s.gameOver ==> r.state == s.(score := 0, pos := SpawnPos, gravity := BaseGravity,
                                          platforms := r.state.platforms, coins := r.state.coins)
    ensures Valid(s) ==> Valid(r.state)
  {
    if s.gameOver then Outcome(s, [])
    else
      var s' := s.(score := 0, platforms := Level.CreateLevel(rolls.platforms),
                   coins := Coins.SpawnCoins(rolls.coins), pos := SpawnPos, gravity := BaseGravity);
      Outcome(s', [0])
  }

  /** `triggerGlitch`: starts one more flash timer with no flashes made. */
  function TriggerGlitch(s: State): (r: State)
    ensures |r.flashTimers| == |s.flashTimers| + 1
    ensures r.flashTimers[|s.flashTimers|] == 0
    ensures r == s.(flashTimers := r.flashTimers) && r.flashTimers[..|s.flashTimers|] == s.flashTimers
  {
    s.(flashTimers := s.flashTimers + [0])
  }

  /** `collectCoin`: disables coin k, adds the drawn value clamped at 67,
      starts a glitch only when the raw sum passed 67, and always reports
      the new score. */
  function CollectCoin(s: State, k: nat, value: int): (r: Outcome<State>)
    requires k < |s.coins|
    requires DrawnValue(value)
    ensures r.state.score == Min(s.score + value, MaxScore)
    ensures s.score <= MaxScore ==> s.score <= r.state.score
    ensures r.reports == [r.state.score]
    ensures r.state.coins == Coins.RemoveAt(s.coins, k)
    ensures s.score + value > MaxScore ==> r.state.flashTimers == s.flashTimers + [0]
    ensures s.score + value <= MaxScore ==> r.state.flashTimers == s.flashTimers
    ensures r.state == s.(score := r.state.score, coins := r.state.coins, flashTimers := r.state.flashTimers)
    ensures Valid(s) ==> Valid(r.state)
  {
    var collected := AddCoin(s.score, value);
    var s1 := s.(coins := Coins.RemoveAt(s.coins, k), score := collected.score);
    var s2 := if collected.overflowed then TriggerGlitch(s1) else s1;
    Outcome(s2, [collected.score])
  }

  /** `collectTrickStar`: disables the star and latches game over, stopping
      the player, switching off its gravity and pausing physics. */
  function CollectTrickStar(s: State): (r: State)
    ensures r.gameOver && r.physicsPaused && !r.bodyGravity && !r.starActive
    ensures r.vel == Vec(0, 0)
    ensures r == s.(gameOver := true, physicsPaused := true, bodyGravity := false,
                    starActive := false, vel := Vec(0, 0))
    ensures Valid(s) ==> Valid(r)
  {
    s.(starActive := false, gameOver := true, vel := Vec(0, 0), bodyGravity := false, physicsPaused := true)
  }

  /** `update` with `introduceRandomMovement`: nothing once the game is over;
      otherwise steer at 300 (left first), jump at -300 only when up is held on
      the ground, let a kick roll of 6 or 7 override the horizontal speed with
      800 or -800, and replace gravity only when the glitch roll is below 3. */
  function Update(s: State, keys: Keys, grounded: bool, rolls: FrameRolls): (r: State)
    requires ValidFrameRolls(rolls)
    ensures s.gameOver ==> r == s
    ensures !s.gameOver ==> SteerOrKickSpeed(r.vel.x, RunSpeed)
    ensures !s.gameOver && rolls.kick != KickRight && rolls.kick != KickLeft ==>
              (r.vel.x == -RunSpeed <==> keys.left)
              && (r.vel.x == RunSpeed <==> !keys.left && keys.right)
              && (r.vel.x == 0 <==> !keys.left && !keys.right)
    ensures !s.gameOver && rolls.kick == KickRight ==> r.vel.x == KickSpeed
    ensures !s.gameOver && rolls.kick == KickLeft ==> r.vel.x == -KickSpeed
    ensures !s.gameOver && keys.up && grounded ==> r.vel.y == JumpImpulse
    ensures !(keys.up && grounded) ==> r.vel.y == s.vel.y
    ensures !s.gameOver && rolls.gravityRoll < GlitchOdds ==> r.gravity == rolls.newGravity
    ensures rolls.gravityRoll >= GlitchOdds ==> r.gravity == s.gravity
    ensures r == s.(vel := r.vel, gravity := r.gravity)
    ensures Valid(s) ==> Valid(r)
  {
    if s.gameOver then s
    else
      var vx := Steer(keys, RunSpeed);
      var vy := Jump(s.vel.y, keys, grounded, JumpImpulse);
      var vx' := Kick(vx, rolls.kick);
      s.(vel := Vec(vx', vy), gravity := GravityGlitch(s.gravity, rolls.gravityRoll, rolls.newGravity))
  }

  /** One tick of glitch timer k: count a flash; on the tenth, remove the
      timer and reset the level (which the game-over guard may refuse). */
  function FlashTick(s: State, k: nat, rolls: LevelRolls): (r: Outcome<State>)
    requires k < |s.flashTimers|
    requires ValidLevelRolls(rolls)
    ensures s.flashTimers[k] + 1 >= Glitch.MaxFlashes ==>
              r == ResetLevel(s.(flashTimers := Glitch.RemoveTimer(s.flashTimers, k)), rolls)
    ensures s.flashTimers[k] + 1 < Glitch.MaxFlashes ==>
              r == Outcome(s.(flashTimers := s.flashTimers[k := s.flashTimers[k] + 1]), [])
    ensures Valid(s) ==> Valid(r.state)
  {
    match Glitch.FlashTick(s.flashTimers[k])
    case Running(f) => Outcome(s.(flashTimers := s.flashTimers[k := f]), [])
    case Finished => ResetLevel(s.(flashTimers := Glitch.RemoveTimer(s.flashTimers, k)), rolls)
  }

  /** The 6.7 s timeout that disables the trick star if nobody touched it. */
  function ExpireStar(s: State): (r: State)
    ensures !r.starActive
    ensures r == s.(starActive := false)
    ensures Valid(s) ==> Valid(r)
  {
    s.(starActive := false)
  }

  /** The 3000 ms variation timer: sets world gravity whether or not the
      game is over, since pausing physics does not stop the scene clock. */
  function VaryGravity(s: State, g: int): (r: State)
    requires ValidVariedGravity(g)
    ensures r.gravity == g && InGravityRange(r.gravity)
    ensures r == s.(gravity := g)
    ensures Valid(s) ==> Valid(r)
  {
    s.(gravity := g)
  }

  /** What can happen to the scene. Overlaps and collisions are reported by
      the engine; frames and timer ticks by the scene's clock. */
  datatype Event =
    | CoinOverlap(coin: nat, value: int)
    | StarOverlap
    | SpikeContact(level: LevelRolls)
    | Frame(keys: Keys, grounded: bool, rolls: FrameRolls)
    | FlashTimerTick(timer: nat, level: LevelRolls)
    | StarTimeout
    | GravityVariation(gravity: int)

  predicate ValidEvent(e: Event) {
    match e
    case CoinOverlap(_, v) => DrawnValue(v)
    case StarOverlap => true
    case SpikeContact(l) => ValidLevelRolls(l)
    case Frame(_, _, r) => ValidFrameRolls(r)
    case FlashTimerTick(_, l) => ValidLevelRolls(l)
    case StarTimeout => true
    case GravityVariation(g) => ValidVariedGravity(g)
  }

  /** Dispatch one event. The engine reports overlaps and collisions only
      while the world runs and only for enabled bodies; the scene clock
      keeps ticking when physics is paused. */
  function Step(s: State, e: Event): (r: Outcome<State>)
    requires ValidEvent(e)
    ensures Valid(s) ==> Valid(r.state)
  {
    match e
    case CoinOverlap(k, v) =>
      if !s.physicsPaused && k < |s.coins| then CollectCoin(s, k, v) else Outcome(s, [])
    case StarOverlap =>
      if !s.physicsPaused && s.starActive then Outcome(CollectTrickStar(s), []) else Outcome(s, [])
    case SpikeContact(l) =>
      if !s.physicsPaused then ResetLevel(s, l) else Outcome(s, [])
    case Frame(keys, grounded, rolls) => Outcome(Update(s, keys, grounded, rolls), [])
    case FlashTimerTick(t, l) =>
      if t < |s.flashTimers| then FlashTick(s, t, l) else Outcome(s, [])
    case StarTimeout => Outcome(ExpireStar(s), [])
    case GravityVariation(g) => Outcome(VaryGravity(s, g), [])
  }

  /** Game over is absorbing: no event clears it, reports, or changes the
      score, the player's velocity, the level or the coins. World gravity
      still changes, but only through the variation timer. */
  lemma GameOverIsAbsorbing(s: State, e: Event)
    requires Valid(s) && ValidEvent(e) && s.gameOver
    ensures Step(s, e).state.gameOver
    ensures Step(s, e).reports == []
    ensures var t := Step(s, e).state;
            t.score == s.score && t.vel == s.vel
            && t.platforms == s.platforms && t.coins == s.coins
    ensures var t := Step(s, e).state;
            t.gravity == s.gravity || (e.GravityVariation? && t.gravity == e.gravity)
  {
    match e
    case FlashTimerTick(k, l) =>
      if k < |s.flashTimers| {
        var s' := s.(flashTimers := Glitch.RemoveTimer(s.flashTimers, k));
        assert s'.gameOver;
      }
    case _ =>
  }

  /** The score falls only through a reset, which sets it to 0 and reports
      it; every other event leaves it equal or higher. */
  lemma ScoreFallsOnlyOnReset(s: State, e: Event)
    requires Valid(s) && ValidEvent(e)
    ensures var r := Step(s, e);
            s.score <= r.state.score || (r.state.score == 0 && r.reports == [0])
  {
  }

  /** onScoreUpdate sees every change of score, and is only ever told the
      score the scene now holds. */
  lemma ObserverSeesEveryChange(s: State, e: Event)
    requires ValidEvent(e)
    ensures var r := Step(s, e);
            (r.reports == [] || r.reports == [r.state.score])
            && (r.state.score != s.score ==> r.reports == [r.state.score])
  {
  }

  /** A glitch starts exactly when a delivered coin pushes the raw sum past
      67; a coin that lands exactly on 67 starts none. */
  lemma GlitchOnlyOnOverflow(s: State, e: Event)
    requires ValidEvent(e)
    ensures var r := Step(s, e);
            |r.state.flashTimers| > |s.flashTimers| <==>
              e.CoinOverlap? && !s.physicsPaused && e.coin < |s.coins| && s.score + e.value > MaxScore
  {
  }

  /** Apply a sequence of events, gathering every report in order. */
  function Run(s: State, es: seq<Event>): Outcome<State>
    requires forall i :: 0 <= i < |es| ==> ValidEvent(es[i])
    decreases |es|
  {
    if |es| == 0 then Outcome(s, [])
    else
      var first := Step(s, es[0]);
      var rest := Run(first.state, es[1..]);
      Outcome(rest.state, first.reports + rest.reports)
  }

  /** Any run of events from a valid state stays valid: score in [0, 67],
      gravity in [100, 600], a well-formed level, at most eighty coins in
      the spawn box, and a frozen player once the game is over. */
  lemma {:induction false} RunPreservesValid(s: State, es: seq<Event>)
    requires Valid(s)
    requires forall i :: 0 <= i < |es| ==> ValidEvent(es[i])
    ensures Valid(Run(s, es).state)
    ensures InScoreRange(Run(s, es).state.score)
    decreases |es|
  {
    if |es| > 0 {
      RunPreservesValid(Step(s, es[0]).state, es[1..]);
    }
  }

  /** Once over, a game stays over for any run of events, with the score,
      the player's velocity, the level and the coins frozen and nothing
      reported; world gravity is the old one or the value of some
      variation-timer event of the run. */
  lemma {:induction false} GameOverStaysOver(s: State, es: seq<Event>)
    requires Valid(s) && s.gameOver
    requires forall i :: 0 <= i < |es| ==> ValidEvent(es[i])
    ensures var t := Run(s, es).state;
            t.gameOver && t.score == s.score && t.vel == s.vel
            && t.platforms == s.platforms && t.coins == s.coins
    ensures var t := Run(s, es).state;
            t.gravity == s.gravity
            || exists i :: 0 <= i < |es| && es[i].GravityVariation? && t.gravity == es[i].gravity
    ensures Run(s, es).reports == []
    decreases |es|
  {
    if |es| > 0 {
      var s1 := Step(s, es[0]).state;
      GameOverIsAbsorbing(s, es[0]);
      GameOverStaysOver(s1, es[1..]);
      RunPreservesValid(s1, es[1..]);
      var t := Run(s, es).state;
      assert t == Run(s1, es[1..]).state;
      if t.gravity != s1.gravity {
        var j :| 0 <= j < |es[1..]| && es[1..][j].GravityVariation? && t.gravity == es[1..][j].gravity;
        assert es[j + 1] == es[1..][j];
      } else if t.gravity != s.gravity {
        assert es[0].GravityVariation? && t.gravity == es[0].gravity;
      }
    }
  }

  /** Timer k ticked n times with nothing else happening; the reports of
      all ticks are gathered. Ticking stops once the timer is gone. */
  function TickTimer(s: State, k: nat, n: nat, rolls: LevelRolls): Outcome<State>
    requires ValidLevelRolls(rolls)
  {
    if n == 0 then Outcome(s, [])
    else
      var o := TickTimer(s, k, n - 1, rolls);
      if k < |o.state.flashTimers| then
        var o' := FlashTick(o.state, k, rolls);
        Outcome(o'.state, o.reports + o'.reports)
      else o
  }

  /** A glitch timer freshly started by `triggerGlitch` and ticked n < 10
      times is where the bare counter `Glitch.AfterTicks(n)` is: still
      running with n flashes, without a reset or a report. */
  lemma {:induction false} NoResetBeforeTenthTick(s: State, k: nat, n: nat, rolls: LevelRolls)
    requires ValidLevelRolls(rolls)
    requires k < |s.flashTimers| && s.flashTimers[k] == 0
    requires n < Glitch.MaxFlashes
    ensures Glitch.AfterTicks(n).Running?
    ensures TickTimer(s, k, n, rolls)
            == Outcome(s.(flashTimers := s.flashTimers[k := Glitch.AfterTicks(n).flashes]), [])
    ensures Glitch.AfterTicks(n).flashes == n
  {
    if n > 0 {
      NoResetBeforeTenthTick(s, k, n - 1, rolls);
      var before := s.(flashTimers := s.flashTimers[k := Glitch.AfterTicks(n - 1).flashes]);
      assert Glitch.FlashTick(before.flashTimers[k]) == Glitch.AfterTicks(n);
      var after := FlashTick(before, k, rolls);
      assert after == Outcome(before.(flashTimers := before.flashTimers[k := Glitch.AfterTicks(n).flashes]), []);
      assert before.flashTimers[k := Glitch.AfterTicks(n).flashes] == s.flashTimers[k := Glitch.AfterTicks(n).flashes];
      assert after.state == s.(flashTimers := s.flashTimers[k := Glitch.AfterTicks(n).flashes]);
      assert TickTimer(s, k, n, rolls) == Outcome(after.state, [] + []);
    } else {
      assert Glitch.AfterTicks(0) == Glitch.Running(0);
      assert s.flashTimers[k := 0] == s.flashTimers;
    }
  }

  /** The tenth tick, the one on which the bare counter finishes, removes
      the timer and performs the level reset. */
  lemma ResetOnTenthTick(s: State, k: nat, rolls: LevelRolls)
    requires ValidLevelRolls(rolls)
    requires k < |s.flashTimers| && s.flashTimers[k] == 0
    ensures Glitch.AfterTicks(Glitch.MaxFlashes).Finished?
    ensures TickTimer(s, k, Glitch.MaxFlashes, rolls)
            == ResetLevel(s.(flashTimers := Glitch.RemoveTimer(s.flashTimers, k)), rolls)
  {
    NoResetBeforeTenthTick(s, k, Glitch.MaxFlashes - 1, rolls);
    var t := s.(flashTimers := s.flashTimers[k := Glitch.MaxFlashes - 1]);
    assert Glitch.RemoveTimer(t.flashTimers, k) == Glitch.RemoveTimer(s.flashTimers, k);
    assert t.(flashTimers := Glitch.RemoveTimer(t.flashTimers, k))
           == s.(flashTimers := Glitch.RemoveTimer(s.flashTimers, k));
  }
}
