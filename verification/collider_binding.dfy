/** Which group objects the scene's colliders are bound to. In
    src/components/PhaserGame.jsx and other/PhaserGameD.jsx, `createLevel`
    and `spawnCoins` clear the old group and then make a brand-new group
    object, while the player/platform collider and the player/coin overlap
    were registered once, in `create`, on the groups that existed then. A
    collider keeps the group object it was given, so after a reset it is
    bound to an emptied group. Groups are named by creation order and
    counted by live children. */
module ColliderBinding {
  import Level
  import Coins

  datatype World = World(
    children: map<nat, nat>,  // live children of each group object
    nextId: nat,
    platforms: nat,           // the group the `platforms` variable holds
    coins: nat,               // the group the `coins` variable holds
    platformCollider: nat,    // the group the player/platform collider holds
    coinOverlap: nat)         // the group the player/coin overlap holds

  predicate WellScoped(w: World) {
    && w.platforms in w.children && w.coins in w.children
    && w.platformCollider in w.children && w.coinOverlap in w.children
    && w.platforms != w.coins
    && forall id :: id in w.children ==> id < w.nextId
  }

  /** The colliders see the groups the variables hold. */
  predicate Wired(w: World) {
    w.platformCollider == w.platforms && w.coinOverlap == w.coins
  }

  /** Platforms the player can stand on, and coins the player can collect. */
  function SolidPlatforms(w: World): nat requires WellScoped(w) { w.children[w.platformCollider] }
  function CollectableCoins(w: World): nat requires WellScoped(w) { w.children[w.coinOverlap] }

  /** Platforms and coins that exist in the current groups. */
  function LivePlatforms(w: World): nat requires WellScoped(w) { w.children[w.platforms] }
  function LiveCoins(w: World): nat requires WellScoped(w) { w.children[w.coins] }

  /** `create` as written: createLevel makes group 0 with twenty platforms,
      the `coins = this.physics.add.group()` in `create` makes group 1,
      spawnCoins clears it and makes group 2 with eighty coins; the
      collider gets group 0 and the overlap group 2. */
  function CreateAsWritten(): (w: World)
    ensures WellScoped(w) && Wired(w)
    ensures SolidPlatforms(w) == Level.PlatformCount && CollectableCoins(w) == Coins.CoinCount
  {
    World(map[0 := Level.PlatformCount, 1 := 0, 2 := Coins.CoinCount], 3, 0, 2, 0, 2)
  }

  /** `createLevel` as written: clear the old group, then make a new one. */
  function CreateLevelAsWritten(w: World): (r: World)
    requires WellScoped(w)
    ensures WellScoped(r)
    ensures r.platforms !in w.children && LivePlatforms(r) == Level.PlatformCount
    ensures w.platforms in r.children && r.children[w.platforms] == 0
    ensures r.coins == w.coins && LiveCoins(r) == LiveCoins(w)
    ensures r.platformCollider == w.platformCollider && r.coinOverlap == w.coinOverlap
  {
    var cleared := w.children[w.platforms := 0];
    w.(children := cleared[w.nextId := Level.PlatformCount], nextId := w.nextId + 1, platforms := w.nextId)
  }

  /** `spawnCoins` as written: clear the old group, then make a new one. */
  function SpawnCoinsAsWritten(w: World): (r: World)
    requires WellScoped(w)
    ensures WellScoped(r)
    ensures r.coins !in w.children && LiveCoins(r) == Coins.CoinCount
    ensures w.coins in r.children && r.children[w.coins] == 0
    ensures r.platforms == w.platforms && LivePlatforms(r) == LivePlatforms(w)
    ensures r.platformCollider == w.platformCollider && r.coinOverlap == w.coinOverlap
  {
    var cleared := w.children[w.coins := 0];
    w.(children := cleared[w.nextId := Coins.CoinCount], nextId := w.nextId + 1, coins := w.nextId)
  }

  /** The group changes of `resetLevel` as written. */
  function ResetAsWritten(w: World): (r: World)
    requires WellScoped(w)
    ensures WellScoped(r)
    ensures r.platforms !in w.children && r.coins !in w.children
    ensures w.platforms in r.children && w.coins in r.children
    ensures r.children[w.platforms] == 0 && r.children[w.coins] == 0
    ensures r.platformCollider == w.platformCollider && r.coinOverlap == w.coinOverlap
  {
    SpawnCoinsAsWritten(CreateLevelAsWritten(w))
  }

  /** After a reset as written the new level has twenty platforms and eighty
      coins, yet the player can stand on none of them and collect none. */
  lemma AsWrittenResetStrandsColliders(w: World)
    requires WellScoped(w) && Wired(w)
    ensures var r := ResetAsWritten(w);
            LivePlatforms(r) == Level.PlatformCount && SolidPlatforms(r) == 0
            && LiveCoins(r) == Coins.CoinCount && CollectableCoins(r) == 0
            && !Wired(r)
  {
  }

  /** The first spike contact of a game is enough to show it. */
  lemma FirstResetStrandsColliders()
    ensures CollectableCoins(ResetAsWritten(CreateAsWritten())) == 0
    ensures SolidPlatforms(ResetAsWritten(CreateAsWritten())) == 0
  {
    AsWrittenResetStrandsColliders(CreateAsWritten());
  }

  /** `createLevel` refilling the existing group after clearing it. */
  function CreateLevelRefilled(w: World): (r: World)
    requires WellScoped(w)
    ensures WellScoped(r)
    ensures r.platforms == w.platforms && LivePlatforms(r) == Level.PlatformCount
    ensures r.coins == w.coins && LiveCoins(r) == LiveCoins(w)
    ensures r.platformCollider == w.platformCollider && r.coinOverlap == w.coinOverlap
  {
    w.(children := w.children[w.platforms := Level.PlatformCount])
  }

  /** `spawnCoins` refilling the existing group after clearing it. */
  function SpawnCoinsRefilled(w: World): (r: World)
    requires WellScoped(w)
    ensures WellScoped(r)
    ensures r.coins == w.coins && LiveCoins(r) == Coins.CoinCount
    ensures r.platforms == w.platforms && LivePlatforms(r) == LivePlatforms(w)
    ensures r.platformCollider == w.platformCollider && r.coinOverlap == w.coinOverlap
  {
    w.(children := w.children[w.coins := Coins.CoinCount])
  }

  /** The group changes of `resetLevel` with both groups refilled in place. */
  function ResetRefilled(w: World): (r: World)
    requires WellScoped(w)
    ensures WellScoped(r)
    ensures r.platforms == w.platforms && r.coins == w.coins
    ensures LivePlatforms(r) == Level.PlatformCount && LiveCoins(r) == Coins.CoinCount
    ensures r.platformCollider == w.platformCollider && r.coinOverlap == w.coinOverlap
  {
    SpawnCoinsRefilled(CreateLevelRefilled(w))
  }

  /** With the groups refilled in place, a reset keeps the colliders bound
      to the live level: all twenty platforms are solid and all eighty new
      coins collectable, after any number of resets. */
  lemma {:induction false} RefilledResetKeepsWiring(w: World, n: nat)
    requires WellScoped(w) && Wired(w)
    ensures var r := RepeatRefilled(w, n);
            WellScoped(r) && Wired(r)
            && (n > 0 ==> SolidPlatforms(r) == Level.PlatformCount && CollectableCoins(r) == Coins.CoinCount)
  {
    if n > 0 {
      RefilledResetKeepsWiring(w, n - 1);
    }
  }

  /** `n` resets in a row, groups refilled in place. */
  function RepeatRefilled(w: World, n: nat): (r: World)
    requires WellScoped(w)
    ensures WellScoped(r)
    ensures r.platforms == w.platforms && r.coins == w.coins
    ensures r.platformCollider == w.platformCollider && r.coinOverlap == w.coinOverlap
    ensures n > 0 ==> LivePlatforms(r) == Level.PlatformCount && LiveCoins(r) == Coins.CoinCount
  {
    if n == 0 then w else ResetRefilled(RepeatRefilled(w, n - 1))
  }
}
