/** The flash counter of `triggerGlitch`: a looping 150 ms timer that flashes
    the camera, counts the flash, and on the tenth removes itself and asks
    for a level reset. Only the count is modelled, not the time. */
module Glitch {

  const MaxFlashes: nat := 10

  /** What one tick of a flash timer leaves behind: a timer still running
      with the flashes made so far, or a finished (removed) timer. */
  datatype FlashState = Running(flashes: nat) | Finished

  /** One tick of a running timer that has made `flashes` flashes. */
  function FlashTick(flashes: nat): (r: FlashState)
    ensures r.Finished? <==> flashes + 1 >= MaxFlashes
    ensures r.Running? ==> r.flashes == flashes + 1 && r.flashes < MaxFlashes
  {
    var counted := flashes + 1;
    if counted >= MaxFlashes then Finished else Running(counted)
  }

  /** The timer `n` ticks after `triggerGlitch` created it; a finished timer
      receives no further ticks. */
  function AfterTicks(n: nat): (r: FlashState)
    ensures r.Finished? <==> n >= MaxFlashes
    ensures n < MaxFlashes ==> r == Running(n)
  {
    if n == 0 then Running(0)
    else
      match AfterTicks(n - 1)
      case Finished => Finished
      case Running(f) => FlashTick(f)
  }

  /** The reset happens on the tenth tick, and on no tick before it. */
  lemma ResetOnTenthTick(n: nat)
    requires 1 <= n
    ensures (AfterTicks(n - 1).Running? && AfterTicks(n).Finished?) <==> n == MaxFlashes
  {
  }

  /** The flash counts left when timer k removes itself. */
  function RemoveTimer(ts: seq<nat>, k: nat): (r: seq<nat>)
    requires k < |ts|
    ensures |r| == |ts| - 1
    ensures forall i :: 0 <= i < k ==> r[i] == ts[i]
    ensures forall i :: k <= i < |r| ==> r[i] == ts[i + 1]
  {
    ts[..k] + ts[k + 1..]
  }

}
