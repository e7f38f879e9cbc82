/** The damped reflection used by every ground collision in the repository. */
module Bounce {
  import opened Numbers

  /**
   * The velocity after hitting the ground: reflected and multiplied by the
   * damping factor, then snapped to 0 when its magnitude is below the
   * minimum bounce speed.
   */
  function Rebound(v: real, damping: real, minSpeed: real): (w: real)
    ensures w == 0.0 || minSpeed <= Abs(w)
    ensures w != 0.0 ==> w == -v * damping
    ensures minSpeed <= Abs(v * damping) ==> w == -v * damping
    ensures Abs(v * damping) < minSpeed ==> w == 0.0
  {
    var w := -v * damping;
    if Abs(w) < minSpeed then 0.0 else w
  }
}
