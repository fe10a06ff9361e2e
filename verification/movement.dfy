/** The per-frame input handling shared by the scenes: steering, jumping,
    the random horizontal kick and the random gravity glitch. Velocities are
    the values the scene asks the physics body to take. */
module Movement {

  /** A velocity or position pair. */
  datatype Vec = Vec(x: int, y: int)

  /** The cursor keys held during a frame. */
  datatype Keys = Keys(left: bool, right: bool, up: bool)

  /** The horizontal kick of `introduceRandomMovement`. */
  const KickSpeed: int := 800
  /** Roll of Between(1, 50) that kicks right, and the one that kicks left. */
  const KickRight: int := 6
  const KickLeft: int := 7

  /** The gravity glitch fires when Between(0, 1000) is below this. */
  const GlitchOdds: int := 3
  /** World gravity as every scene's config sets it, and as a reset restores it. */
  const BaseGravity: int := 300

  const MinGlitchGravity: int := 100
  const MaxGlitchGravity: int := 600

  /** Horizontal velocity from the arrow keys; left wins over right. */
  function Steer(keys: Keys, speed: int): (vx: int)
    requires speed > 0
    ensures vx == -speed || vx == 0 || vx == speed
    ensures vx == -speed <==> keys.left
    ensures vx == speed <==> !keys.left && keys.right
    ensures vx == 0 <==> !keys.left && !keys.right
  {
    if keys.left then -speed
    else if keys.right then speed
    else 0
  }

  predicate ValidKickRoll(chance: int) {
    1 <= chance <= 50
  }

  /** `introduceRandomMovement`: a roll of 6 or 7 replaces the horizontal
      velocity by a kick of 800 to the right or left; any other roll keeps it. */
  function Kick(vx: int, chance: int): (r: int)
    requires ValidKickRoll(chance)
    ensures chance == KickRight ==> r == KickSpeed
    ensures chance == KickLeft ==> r == -KickSpeed
    ensures r != vx ==> chance == KickRight || chance == KickLeft
    ensures chance != KickRight && chance != KickLeft ==> r == vx
  {
    if chance == KickRight then KickSpeed
    else if chance == KickLeft then -KickSpeed
    else vx
  }

  /** The jump: the vertical velocity becomes `impulse` only when up is held
      and the body touches down; otherwise the scene leaves it alone. */
  function Jump(vy: int, keys: Keys, grounded: bool, impulse: int): (r: int)
    requires impulse < 0
    ensures keys.up && grounded ==> r == impulse
    ensures !(keys.up && grounded) ==> r == vy
    ensures r < 0 || r == vy
  {
    if keys.up && grounded then impulse else vy
  }

  /** The two draws of the gravity glitch: Between(0, 1000), then
      Between(100, 600) (the second is only used when the first is below 3). */
  predicate ValidGravityRolls(roll: int, newGravity: int) {
    0 <= roll <= 1000 && MinGlitchGravity <= newGravity <= MaxGlitchGravity
  }

  predicate InGravityRange(g: int) {
    MinGlitchGravity <= g <= MaxGlitchGravity
  }

  /** The occasional gravity glitch: world gravity is replaced only when
      the roll is below 3, and then by the second draw. */
  function GravityGlitch(gravity: int, roll: int, newGravity: int): (g: int)
    requires ValidGravityRolls(roll, newGravity)
    ensures roll < GlitchOdds ==> g == newGravity
    ensures roll >= GlitchOdds ==> g == gravity
    ensures g != gravity ==> roll < GlitchOdds && InGravityRange(g)
    ensures InGravityRange(gravity) ==> InGravityRange(g)
  {
    if roll < GlitchOdds then newGravity else gravity
  }

  /** The looping 3000 ms variation timer sets world gravity to
      300 * FloatBetween(0.9, 1.1); on integers, a value in [270, 330]. */
  const MinVariedGravity: int := 270
  const MaxVariedGravity: int := 330

  predicate ValidVariedGravity(g: int) {
    MinVariedGravity <= g <= MaxVariedGravity
  }

  /** The horizontal velocities a frame that steers and may kick can request. */
  predicate SteerOrKickSpeed(vx: int, speed: int) {
    vx == -KickSpeed || vx == -speed || vx == 0 || vx == speed || vx == KickSpeed
  }
}
