/**
 * The camera-shake wrapper: a one-bit edge detector that starts the shake
 * animation when its `active` input turns on, and re-arms when it turns off.
 */
module CameraShake {

  /** The state the effect leaves behind, and whether it started the animation. */
  datatype EffectOutcome = EffectOutcome(wasActive: bool, shakeStarted: bool)

  /**
   * One run of the effect. Afterwards the remembered value always equals the
   * input, and the shake starts exactly on a change from off to on.
   */
  function EffectStep(wasActive: bool, active: bool): (r: EffectOutcome)
    ensures r.wasActive == active
    ensures r.shakeStarted <==> active && !wasActive
  {
    if active && !wasActive then EffectOutcome(true, true)
    else if !active && wasActive then EffectOutcome(false, false)
    else EffectOutcome(wasActive, false)
  }

  /** The number of shakes started when the effect runs once per value of `actives`. */
  function ShakesOver(wasActive: bool, actives: seq<bool>): nat
    decreases |actives|
  {
    if actives == [] then 0
    else
      var step := EffectStep(wasActive, actives[0]);
      (if step.shakeStarted then 1 else 0) + ShakesOver(step.wasActive, actives[1..])
  }

  /** The number of positions where a sequence of flags changes from false to true. */
  function RisingEdges(values: seq<bool>): nat
    decreases |values|
  {
    if |values| < 2 then 0
    else (if !values[0] && values[1] then 1 else 0) + RisingEdges(values[1..])
  }

  /** Over any run of inputs, the shakes started are exactly the false-to-true changes. */
  lemma {:induction false} ShakesAreRisingEdges(wasActive: bool, actives: seq<bool>)
    ensures ShakesOver(wasActive, actives) == RisingEdges([wasActive] + actives)
    decreases |actives|
  {
    if actives != [] {
      ShakesAreRisingEdges(actives[0], actives[1..]);
      assert [actives[0]] + actives[1..] == actives;
      assert ([wasActive] + actives)[1..] == actives;
    }
  }

  /** From mount, where nothing was active, shakes count the inputs that switch on. */
  lemma ShakesFromMount(actives: seq<bool>)
    ensures ShakesOver(false, actives) == RisingEdges([false] + actives)
  {
    ShakesAreRisingEdges(false, actives);
  }

  /** The component: the `wasActive` ref and a count of started shake animations. */
  class ShakeEffect {
    var wasActive: bool
    var shakes: nat

    constructor ()
      ensures !wasActive && shakes == 0
    {
      wasActive := false;
      shakes := 0;
    }

    /** The effect, run with the current value of `active`. */
    method OnActive(active: bool)
      modifies this
      ensures wasActive == EffectStep(old(wasActive), active).wasActive
      ensures shakes == old(shakes) + if EffectStep(old(wasActive), active).shakeStarted then 1 else 0
    {
      if active && !wasActive {
        shakes := shakes + 1;
        wasActive := true;
      } else if !active && wasActive {
        wasActive := false;
      }
    }
  }
}
