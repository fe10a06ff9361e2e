/** The earlier full scene (other/PhaserGameD.jsx): the same level, coins,
    scoring and glitch as the main scene, but no trick star, no game over
    and no gravity glitch in `update`, so `resetLevel` always runs. */
module SceneD {
  import opened Scoring
  import opened Movement
  import Level
  import Coins
  import Glitch
  import opened Scene

  const RunSpeed: int := 300
  const JumpImpulse: int := -300

  datatype State = State(
    score: int,
    gravity: int,
    pos: Vec,                       // last position the scene set
    vel: Vec,                       // last velocity the scene requested
    platforms: seq<Level.Platform>,
    coins: seq<Coins.Coin>,         // coins whose bodies are still enabled
    flashTimers: seq<nat>)          // flashes made by each running glitch timer

  /** What holds of every state the scene can reach. */
  predicate Valid(s: State) {
    && InScoreRange(s.score)
    && InGravityRange(s.gravity)
    && Level.WellFormed(s.platforms)
    && |s.coins| <= Coins.CoinCount
    && (forall i :: 0 <= i < |s.coins| ==> Coins.Spawnable(s.coins[i]))
  }

  /** `create`: a fresh level, eighty coins, the player at (100, 450),
      score 0 and base gravity. */
  function Create(rolls: LevelRolls): (s: State)
    requires ValidLevelRolls(rolls)
    ensures Valid(s)
    ensures s.score == 0 && s.gravity == BaseGravity && s.flashTimers == []
    ensures s.pos == SpawnPos && s.vel == Vec(0, 0)
    ensures s.platforms == Level.CreateLevel(rolls.platforms)
    ensures s.coins == Coins.SpawnCoins(rolls.coins) && |s.coins| == Coins.CoinCount
  {
    State(0, BaseGravity, SpawnPos, Vec(0, 0),
          Level.CreateLevel(rolls.platforms), Coins.SpawnCoins(rolls.coins), [])
  }

  /** `resetLevel`, unguarded: always zeroes and reports the score,
      regenerates platforms and coins, returns the player to (100, 450) and
      sets gravity to 300, leaving velocity and glitch timers alone. */
  function ResetLevel(s: State, rolls: LevelRolls): (r: Outcome<State>)
    requires ValidLevelRolls(rolls)
    ensures r.reports == [0] && r.state.score == 0
    ensures r.state.pos == SpawnPos && r.state.gravity == BaseGravity
    ensures r.state.platforms == Level.CreateLevel(rolls.platforms)
    ensures r.state.coins == Coins.SpawnCoins(rolls.coins) && |r.state.coins| == Coins.CoinCount
    ensures r.state.vel == s.vel && r.state.flashTimers == s.flashTimers
    ensures Valid(r.state)
  {
    Outcome(State(0, BaseGravity, SpawnPos, s.vel, Level.CreateLevel(rolls.platforms),
                  Coins.SpawnCoins(rolls.coins), s.flashTimers), [0])
  }

  /** The coin-overlap handler: adds the drawn value clamped at 67, starts a
      glitch only when the raw sum passed 67, always reports the new score,
      and disables the coin. */
  function CollectCoin(s: State, k: nat, value: int): (r: Outcome<State>)
    requires k < |s.coins|
    requires DrawnValue(value)
    ensures r.state.score == Min(s.score + value, MaxScore)
    ensures s.score <= MaxScore ==> s.score <= r.state.score
    ensures r.reports == [r.state.score]
    ensures r.state.coins == Coins.RemoveAt(s.coins, k)
    ensures s.score + value > MaxScore ==> r.state.flashTimers == s.flashTimers + [0]
    ensures s.score + value <= MaxScore ==> r.state.flashTimers == s.flashTimers
    ensures r.state == s.(score := r.state.score, coins := r.state.coins, flashTimers := r.state.flashTimers)
    ensures Valid(s) ==> Valid(r.state)
  {
    var collected := AddCoin(s.score, value);
    var timers := if collected.overflowed then s.flashTimers + [0] else s.flashTimers;
    Outcome(s.(score := collected.score, flashTimers := timers, coins := Coins.RemoveAt(s.coins, k)),
            [collected.score])
  }

  /** `update` with `introduceRandomeMovement`: always acts; steer at 300
      (left first), let a kick roll of 6 or 7 override that with 800 or -800,
      then jump at -300 only when up is held on the ground. */
  function Update(s: State, keys: Keys, grounded: bool, kick: int): (r: State)
    requires ValidKickRoll(kick)
    ensures SteerOrKickSpeed(r.vel.x, RunSpeed)
    ensures kick != KickRight && kick != KickLeft ==>
              (r.vel.x == -RunSpeed <==> keys.left)
              && (r.vel.x == RunSpeed <==> !keys.left && keys.right)
              && (r.vel.x == 0 <==> !keys.left && !keys.right)
    ensures kick == KickRight ==> r.vel.x == KickSpeed
    ensures kick == KickLeft ==> r.vel.x == -KickSpeed
    ensures keys.up && grounded ==> r.vel.y == JumpImpulse
    ensures !(keys.up && grounded) ==> r.vel.y == s.vel.y
    ensures r == s.(vel := r.vel)
  {
    var vx := Kick(Steer(keys, RunSpeed), kick);
    s.(vel := Vec(vx, Jump(s.vel.y, keys, grounded, JumpImpulse)))
  }

  /** One tick of glitch timer k: count a flash; on the tenth, remove the
      timer and reset the level. */
  function FlashTick(s: State, k: nat, rolls: LevelRolls): (r: Outcome<State>)
    requires k < |s.flashTimers|
    requires ValidLevelRolls(rolls)
    ensures s.flashTimers[k] + 1 >= Glitch.MaxFlashes ==>
              r == ResetLevel(s.(flashTimers := Glitch.RemoveTimer(s.flashTimers, k)), rolls)
    ensures s.flashTimers[k] + 1 < Glitch.MaxFlashes ==>
              r == Outcome(s.(flashTimers := s.flashTimers[k := s.flashTimers[k] + 1]), [])
    ensures Valid(s) ==> Valid(r.state)
  {
    match Glitch.FlashTick(s.flashTimers[k])
    case Running(f) => Outcome(s.(flashTimers := s.flashTimers[k := f]), [])
    case Finished => ResetLevel(s.(flashTimers := Glitch.RemoveTimer(s.flashTimers, k)), rolls)
  }

  /** The 3000 ms variation timer: sets world gravity. */
  function VaryGravity(s: State, g: int): (r: State)
    requires ValidVariedGravity(g)
    ensures r.gravity == g && InGravityRange(r.gravity)
    ensures r == s.(gravity := g)
    ensures Valid(s) ==> Valid(r)
  {
    s.(gravity := g)
  }

  datatype Event =
    | CoinOverlap(coin: nat, value: int)
    | SpikeContact(level: LevelRolls)
    | Frame(keys: Keys, grounded: bool, kick: int)
    | FlashTimerTick(timer: nat, level: LevelRolls)
    | GravityVariation(gravity: int)

  predicate ValidEvent(e: Event) {
    match e
    case CoinOverlap(_, v) => DrawnValue(v)
    case SpikeContact(l) => ValidLevelRolls(l)
    case Frame(_, _, kick) => ValidKickRoll(kick)
    case FlashTimerTick(_, l) => ValidLevelRolls(l)
    case GravityVariation(g) => ValidVariedGravity(g)
  }

  /** Dispatch one event; the engine reports overlaps only for coins still
      enabled. This scene never pauses physics. */
  function Step(s: State, e: Event): (r: Outcome<State>)
    requires ValidEvent(e)
    ensures Valid(s) ==> Valid(r.state)
  {
    match e
    case CoinOverlap(k, v) => if k < |s.coins| then CollectCoin(s, k, v) else Outcome(s, [])
    case SpikeContact(l) => ResetLevel(s, l)
    case Frame(keys, grounded, kick) => Outcome(Update(s, keys, grounded, kick), [])
    case FlashTimerTick(t, l) => if t < |s.flashTimers| then FlashTick(s, t, l) else Outcome(s, [])
    case GravityVariation(g) => Outcome(VaryGravity(s, g), [])
  }

  /** The score falls only through a reset, which sets it to 0 and reports it. */
  lemma ScoreFallsOnlyOnReset(s: State, e: Event)
    requires Valid(s) && ValidEvent(e)
    ensures var r := Step(s, e);
            s.score <= r.state.score || (r.state.score == 0 && r.reports == [0])
  {
  }

  /** onScoreUpdate is called on every collection and every reset, always
      with the score the scene now holds. */
  lemma ObserverSeesEveryChange(s: State, e: Event)
    requires ValidEvent(e)
    ensures var r := Step(s, e);
            (r.reports == [] || r.reports == [r.state.score])
            && (r.state.score != s.score ==> r.reports == [r.state.score])
            && (e.CoinOverlap? && e.coin < |s.coins| ==> r.reports == [r.state.score])
            && (e.SpikeContact? ==> r.reports == [0])
  {
  }

  /** A glitch starts exactly when a delivered coin pushes the raw sum past 67. */
  lemma GlitchOnlyOnOverflow(s: State, e: Event)
    requires ValidEvent(e)
    ensures var r := Step(s, e);
            |r.state.flashTimers| > |s.flashTimers| <==>
              e.CoinOverlap? && e.coin < |s.coins| && s.score + e.value > MaxScore
  {
  }

  /** Timer k ticked n times with nothing else happening. */
  function TickTimer(s: State, k: nat, n: nat, rolls: LevelRolls): Outcome<State>
    requires ValidLevelRolls(rolls)
  {
    if n == 0 then Outcome(s, [])
    else
      var o := TickTimer(s, k, n - 1, rolls);
      if k < |o.state.flashTimers| then
        var o' := FlashTick(o.state, k, rolls);
        Outcome(o'.state, o.reports + o'.reports)
      else o
  }

  /** A fresh glitch timer ticked n < 10 times is where the bare counter
      `Glitch.AfterTicks(n)` is: still running with n flashes, without a
      reset or a report. */
  lemma {:induction false} NoResetBeforeTenthTick(s: State, k: nat, n: nat, rolls: LevelRolls)
    requires ValidLevelRolls(rolls)
    requires k < |s.flashTimers| && s.flashTimers[k] == 0
    requires n < Glitch.MaxFlashes
    ensures Glitch.AfterTicks(n).Running?
    ensures TickTimer(s, k, n, rolls)
            == Outcome(s.(flashTimers := s.flashTimers[k := Glitch.AfterTicks(n).flashes]), [])
    ensures Glitch.AfterTicks(n).flashes == n
  {
    if n > 0 {
      NoResetBeforeTenthTick(s, k, n - 1, rolls);
      var before := s.(flashTimers := s.flashTimers[k := Glitch.AfterTicks(n - 1).flashes]);
      assert Glitch.FlashTick(before.flashTimers[k]) == Glitch.AfterTicks(n);
      var after := FlashTick(before, k, rolls);
      assert after.state == s.(flashTimers := s.flashTimers[k := Glitch.AfterTicks(n).flashes]);
      assert TickTimer(s, k, n, rolls) == Outcome(after.state, [] + []);
    } else {
      assert Glitch.AfterTicks(0) == Glitch.Running(0);
      assert s.flashTimers[k := 0] == s.flashTimers;
    }
  }

  /** The tenth tick, the one on which the bare counter finishes, removes
      the timer and always resets the level. */
  lemma ResetOnTenthTick(s: State, k: nat, rolls: LevelRolls)
    requires ValidLevelRolls(rolls)
    requires k < |s.flashTimers| && s.flashTimers[k] == 0
    ensures Glitch.AfterTicks(Glitch.MaxFlashes).Finished?
    ensures TickTimer(s, k, Glitch.MaxFlashes, rolls)
            == ResetLevel(s.(flashTimers := Glitch.RemoveTimer(s.flashTimers, k)), rolls)
    ensures TickTimer(s, k, Glitch.MaxFlashes, rolls).state.score == 0
    ensures TickTimer(s, k, Glitch.MaxFlashes, rolls).reports == [0]
  {
    NoResetBeforeTenthTick(s, k, Glitch.MaxFlashes - 1, rolls);
    var t := s.(flashTimers := s.flashTimers[k := Glitch.MaxFlashes - 1]);
    assert Glitch.RemoveTimer(t.flashTimers, k) == Glitch.RemoveTimer(s.flashTimers, k);
  }
}
