/**
 * Scan steps of a volume coverage pattern.
 *
 * Speeds and sweep angles are exact scaled integers in HUNDREDTHS: a speed of
 * -0.35 is written -35, an angle of 90 degrees is written 9000.
 */
module Scan {

  /** The radar product(s) a step collects: reflectivity, velocity, or both. */
  datatype Label = Z | V | ZV

  /** A single cone of one radius, or the pair of radii of a Z/V split cut. */
  datatype Cone = Single(range: int) | Dual(rangeZ: int, rangeV: int)

  /** One elevation scan. The elevation text (such as "1.3°") is the key that insertions match on. */
  datatype ScanStep = ScanStep(product: Label, angle: string, speed: int, coneWidth: int, cone: Cone)

  /** A Z/V step carries the two radii and no single radius; every other step the single radius. */
  predicate WellFormed(s: ScanStep) {
    (s.product == ZV) == s.cone.Dual?
  }

  /** Well formed, and sweeping clockwise at no more than 0.50 units (50 hundredths). */
  predicate StepOk(s: ScanStep) {
    WellFormed(s) && -50 <= s.speed < 0
  }

  predicate AllStepsOk(p: seq<ScanStep>) {
    forall s :: s in p ==> StepOk(s)
  }

  function Max(a: int, b: int): int {
    if a < b then b else a
  }

  /** The radius the sweep shows for a step: its range, or the larger of the two for a Z/V step. */
  function ConeRadius(s: ScanStep): (r: int)
    requires WellFormed(s)
    ensures s.product != ZV ==> s.cone.Single? && r == s.cone.range
    ensures s.product == ZV ==>
              s.cone.Dual? && r >= s.cone.rangeZ && r >= s.cone.rangeV
              && (r == s.cone.rangeZ || r == s.cone.rangeV)
  {
    if s.product != ZV then s.cone.range else Max(s.cone.rangeZ, s.cone.rangeV)
  }
}
