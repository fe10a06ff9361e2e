/** The platform staircase that `createLevel` builds: twenty platforms, each
    displaced from its nominal point by a bounded random jitter. */
module Level {

  const PlatformCount: nat := 20
  const OriginX: int := 100
  const StepX: int := 150
  const JitterX: int := 40
  const BaseY: int := 580
  const StepY: int := 100
  const JitterY: int := 25

  /** A static platform, placed by its centre (the 0.5 scale is left out). */
  datatype Platform = Platform(x: int, y: int)

  /** The two draws made for one platform: Between(-40, 40) and Between(-25, 25). */
  datatype PlatformRoll = PlatformRoll(dx: int, dy: int)

  predicate ValidRoll(r: PlatformRoll) {
    -JitterX <= r.dx <= JitterX && -JitterY <= r.dy <= JitterY
  }

  /** The draws of one full `createLevel` call. */
  predicate ValidRolls(rolls: seq<PlatformRoll>) {
    |rolls| == PlatformCount && forall i :: 0 <= i < |rolls| ==> ValidRoll(rolls[i])
  }

  function NominalX(i: int): int { OriginX + i * StepX }

  function NominalY(i: int): int { BaseY - i * StepY }

  /** Platform `p` lies in the jitter box around the i-th nominal point. */
  predicate WithinJitter(p: Platform, i: int) {
    && NominalX(i) - JitterX <= p.x <= NominalX(i) + JitterX
    && NominalY(i) - JitterY <= p.y <= NominalY(i) + JitterY
  }

  /** Later platforms are strictly further right and strictly higher up. */
  predicate Rising(ps: seq<Platform>) {
    forall i, j :: 0 <= i < j < |ps| ==> ps[i].x < ps[j].x && ps[i].y > ps[j].y
  }

  /** The first `n` platforms of the staircase; platform i is offset from its
      nominal point by exactly the i-th roll. */
  function Staircase(rolls: seq<PlatformRoll>, n: nat): (ps: seq<Platform>)
    requires n <= |rolls|
    ensures |ps| == n
    ensures forall i :: 0 <= i < n ==>
              ps[i].x - NominalX(i) == rolls[i].dx && ps[i].y - NominalY(i) == rolls[i].dy
  {
    if n == 0 then []
    else
      var last := Platform(NominalX(n - 1) + rolls[n - 1].dx, NominalY(n - 1) + rolls[n - 1].dy);
      Staircase(rolls, n - 1) + [last]
  }

  /** Because each step (150 right, 100 up) is larger than the total jitter
      on that axis (80 and 50), the jitter boxes never overlap in order. */
  lemma JitterBoxesRise(ps: seq<Platform>)
    requires forall i :: 0 <= i < |ps| ==> WithinJitter(ps[i], i)
    ensures Rising(ps)
  {
    forall i, j | 0 <= i < j < |ps|
      ensures ps[i].x < ps[j].x && ps[i].y > ps[j].y
    {
      assert WithinJitter(ps[i], i) && WithinJitter(ps[j], j);
    }
  }

  /** `createLevel`: exactly twenty platforms, each inside its jitter box,
      rising strictly to the right, and each carrying its own roll. */
  function CreateLevel(rolls: seq<PlatformRoll>): (ps: seq<Platform>)
    requires ValidRolls(rolls)
    ensures |ps| == PlatformCount
    ensures forall i :: 0 <= i < |ps| ==> WithinJitter(ps[i], i)
    ensures forall i :: 0 <= i < |ps| ==>
              ps[i].x - NominalX(i) == rolls[i].dx && ps[i].y - NominalY(i) == rolls[i].dy
    ensures Rising(ps)
  {
    var ps := Staircase(rolls, PlatformCount);
    assert forall i :: 0 <= i < |ps| ==> WithinJitter(ps[i], i) by {
      forall i | 0 <= i < |ps| ensures WithinJitter(ps[i], i) {
        assert ValidRoll(rolls[i]);
      }
    }
    JitterBoxesRise(ps);
    ps
  }

  /** A level is well formed when it has the shape `createLevel` guarantees. */
  predicate WellFormed(ps: seq<Platform>) {
    |ps| == PlatformCount && (forall i :: 0 <= i < |ps| ==> WithinJitter(ps[i], i)) && Rising(ps)
  }
}
