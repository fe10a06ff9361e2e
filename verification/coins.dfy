/** Coins: the eighty randomly placed coins of `spawnCoins`, the fixed row of
    eleven coins of the two simpler scenes, and removal of a collected coin. */
module Coins {

  const CoinCount: nat := 80
  const MinX: int := 50
  const MaxX: int := 750
  const MinY: int := 50
  const MaxY: int := 400

  /** Texture of a coin: the rare "coin6", the common "coin7", or the single
      "coin" texture of the simpler scenes. */
  datatype CoinKind = Coin6 | Coin7 | Plain

  /** A coin, by its spawn position (its bounce factor is left out). */
  datatype Coin = Coin(x: int, y: int, kind: CoinKind)

  /** The three draws for one coin: Between(0, 7) for the texture, then
      Between(50, 750) and Between(50, 400) for the position. */
  datatype CoinRoll = CoinRoll(kind: int, x: int, y: int)

  predicate ValidRoll(r: CoinRoll) {
    0 <= r.kind <= 7 && MinX <= r.x <= MaxX && MinY <= r.y <= MaxY
  }

  /** The draws of one full `spawnCoins` call. */
  predicate ValidRolls(rolls: seq<CoinRoll>) {
    |rolls| == CoinCount && forall i :: 0 <= i < |rolls| ==> ValidRoll(rolls[i])
  }

  function KindOf(roll: int): CoinKind {
    if roll == 0 then Coin6 else Coin7
  }

  predicate InSpawnBox(c: Coin) {
    MinX <= c.x <= MaxX && MinY <= c.y <= MaxY
  }

  /** A coin that `spawnCoins` could have made. */
  predicate Spawnable(c: Coin) {
    InSpawnBox(c) && c.kind != Plain
  }

  /** The coins made from the first `n` rolls, in order. */
  function SpawnFrom(rolls: seq<CoinRoll>, n: nat): (cs: seq<Coin>)
    requires n <= |rolls|
    ensures |cs| == n
    ensures forall i :: 0 <= i < n ==>
              cs[i].x == rolls[i].x && cs[i].y == rolls[i].y && cs[i].kind != Plain
              && (cs[i].kind == Coin6 <==> rolls[i].kind == 0)
  {
    if n == 0 then []
    else SpawnFrom(rolls, n - 1) + [Coin(rolls[n - 1].x, rolls[n - 1].y, KindOf(rolls[n - 1].kind))]
  }

  /** `spawnCoins`: a fresh set of exactly eighty coins, every one inside the
      spawn box, and "coin6" exactly where its texture roll was 0. */
  function SpawnCoins(rolls: seq<CoinRoll>): (cs: seq<Coin>)
    requires ValidRolls(rolls)
    ensures |cs| == CoinCount
    ensures forall i :: 0 <= i < |cs| ==> Spawnable(cs[i])
    ensures forall i :: 0 <= i < |cs| ==>
              cs[i].x == rolls[i].x && cs[i].y == rolls[i].y
              && (cs[i].kind == Coin6 <==> rolls[i].kind == 0)
  {
    var cs := SpawnFrom(rolls, CoinCount);
    assert forall i :: 0 <= i < |cs| ==> Spawnable(cs[i]) by {
      forall i | 0 <= i < |cs| ensures Spawnable(cs[i]) {
        assert ValidRoll(rolls[i]);
      }
    }
    cs
  }

  /** The coins still in play after coin `k` is disabled: the others, in
      their original order. */
  function RemoveAt(cs: seq<Coin>, k: nat): (r: seq<Coin>)
    requires k < |cs|
    ensures |r| == |cs| - 1
    ensures forall i :: 0 <= i < k ==> r[i] == cs[i]
    ensures forall i :: k <= i < |r| ==> r[i] == cs[i + 1]
    ensures multiset(r) + multiset{cs[k]} == multiset(cs)
  {
    assert cs == cs[..k] + [cs[k]] + cs[k + 1..];
    cs[..k] + cs[k + 1..]
  }

  /** Number of coins in the fixed row (`repeat: 10` gives eleven children). */
  const RowCount: nat := 11
  const RowStartX: int := 12
  const RowStepX: int := 70

  /** The fixed row of the simpler scenes: coin i at (12 + 70 i, 0). */
  function CoinRow(): (cs: seq<Coin>)
    ensures |cs| == RowCount
    ensures forall i :: 0 <= i < |cs| ==> cs[i].y == 0 && cs[i].kind == Plain
    ensures forall i :: 0 <= i < |cs| ==> cs[i].x == RowStartX + RowStepX * i
    ensures forall i, j :: 0 <= i < j < |cs| ==> cs[i].x < cs[j].x
  {
    seq(RowCount, i requires 0 <= i < RowCount => Coin(RowStartX + RowStepX * i, 0, Plain))
  }
}
