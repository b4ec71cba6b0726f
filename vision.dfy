/**
 * The sight test shared by the soldier and the surveillance camera. The three
 * geometric queries (a distance, an angle between flattened vectors and a
 * physics raycast) are answered by the engine; the model keeps the order in
 * which they are asked and how their answers combine.
 */
module Vision {

  /** The engine's answers to the three queries of one sight test. */
  datatype Probe = Probe(
    withinRange: bool,  // distance eye -> player torso is at most viewDistance
    withinCone: bool,   // flattened angle forward -> player is at most viewAngle
    rayClear: bool      // the obstruction raycast hits nothing, or hits the player
  )

  /** Which gate ended the test; the cheaper gates are asked first. */
  datatype Verdict = OutOfRange | OutsideCone | Occluded | Visible

  function Judge(p: Probe): (v: Verdict)
    // each verdict names the first gate that failed
    ensures v == OutOfRange <==> !p.withinRange
    ensures v == OutsideCone <==> p.withinRange && !p.withinCone
    ensures v == Occluded <==> p.withinRange && p.withinCone && !p.rayClear
    ensures v == Visible <==> p.withinRange && p.withinCone && p.rayClear
  {
    if !p.withinRange then OutOfRange
    else if !p.withinCone then OutsideCone
    else if !p.rayClear then Occluded
    else Visible
  }

  /** The player is seen exactly when every gate passes. */
  predicate CanSee(p: Probe) {
    Judge(p) == Visible
  }
}
