/**
  The phase update both Body revisions share (updateFixedOrbitPosition): the angle
  grows by orbitalSpeed * deltaTime and is reset to exactly 0, not reduced modulo 2 pi,
  once it exceeds Mathf.PI * 2.
*/
module Phase {

  /** Mathf.PI, the single-precision value of pi. */
  const Pi: real := 3.14159274

  const TwoPi: real := Pi * 2.0

  /** One update of the phase angle by step = orbitalSpeed * deltaTime. */
  function Advance(angle: real, step: real): (r: real)
    ensures r == angle + step || r == 0.0
    ensures r == angle + step <==> angle + step <= TwoPi || angle + step == 0.0
    ensures 0.0 <= angle && 0.0 <= step ==> 0.0 <= r <= TwoPi
  {
    var next := angle + step;
    if next > TwoPi then 0.0 else next
  }

  /** The phase after a sequence of updates, applied front to back. */
  function AdvanceAll(angle: real, steps: seq<real>): real
    decreases |steps|
  {
    if steps == [] then angle else AdvanceAll(Advance(angle, steps[0]), steps[1..])
  }

  /** Starting anywhere in [0, 2 pi] and with non-negative steps, the phase never leaves [0, 2 pi]. */
  lemma {:induction false} AdvanceAllStaysInRange(angle: real, steps: seq<real>)
    requires 0.0 <= angle <= TwoPi
    requires forall i :: 0 <= i < |steps| ==> steps[i] >= 0.0
    ensures 0.0 <= AdvanceAll(angle, steps) <= TwoPi
    decreases |steps|
  {
    if steps != [] {
      AdvanceAllStaysInRange(Advance(angle, steps[0]), steps[1..]);
    }
  }

  /** A phase that wrapped was reset to exactly zero: the overshoot beyond 2 pi is dropped. */
  lemma WrapDropsOvershoot(angle: real, step: real)
    requires angle + step > TwoPi
    ensures Advance(angle, step) == 0.0
    ensures Advance(angle, step) != angle + step - TwoPi
  {
  }
}
