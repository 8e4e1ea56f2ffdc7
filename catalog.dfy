/**
 * The four base volume coverage patterns and the two supplemental scan blocks,
 * as constant data. Speeds are in hundredths (see module Scan).
 */
module Catalog {
  import opened Scan

  /** Every step of every table is drawn with a cone 8 degrees wide. */
  const ConeWidth: int := 8

  /** A Z-only or V-only step with one radius. */
  function One(product: Label, angle: string, speed: int, range: int): ScanStep {
    ScanStep(product, angle, speed, ConeWidth, Single(range))
  }

  /** A Z/V split-cut step with its Z and V radii. */
  function Split(angle: string, speed: int, rangeZ: int, rangeV: int): ScanStep {
    ScanStep(ZV, angle, speed, ConeWidth, Dual(rangeZ, rangeV))
  }

  predicate KnownVcp(vcp: string) {
    vcp == "VCP 212" || vcp == "VCP 35" || vcp == "VCP 215" || vcp == "VCP 12"
  }

  /** The VCP 212 table, in scan order. */
  function Vcp212(): (r: seq<ScanStep>)
    ensures |r| == 17 && forall i :: 0 <= i < |r| ==> StepOk(r[i])
  {
    [
      One(Z, "0.5°", -35, 250),
      One(V, "0.5°", -29, 74),
      One(Z, "0.9°", -35, 250),
      One(V, "0.9°", -29, 74),
      One(Z, "1.3°", -38, 231),
      One(V, "1.3°", -29, 74),
      Split("1.8°", -43, 208, 80),
      Split("2.4°", -46, 181, 80),
      Split("3.1°", -46, 158, 80),
      Split("4.0°", -46, 134, 80),
      Split("5.1°", -46, 113, 80),
      Split("6.4°", -46, 94, 80),
      One(V, "8.0°", -50, 74),
      One(V, "10.0°", -50, 68),
      One(V, "12.5°", -50, 63),
      One(V, "15.6°", -50, 63),
      One(V, "19.5°", -50, 63)
    ]
  }

  /** The VCP 35 table, in scan order. */
  function Vcp35(): (r: seq<ScanStep>)
    ensures |r| == 12 && forall i :: 0 <= i < |r| ==> StepOk(r[i])
  {
    [
      One(Z, "0.5°", -8, 250),
      One(V, "0.5°", -26, 80),
      One(Z, "0.9°", -8, 250),
      One(V, "0.9°", -26, 80),
      One(Z, "1.3°", -9, 231),
      One(V, "1.3°", -26, 80),
      Split("1.8°", -26, 208, 80),
      Split("2.4°", -30, 181, 80),
      Split("3.1°", -29, 158, 80),
      Split("4.0°", -30, 134, 80),
      Split("5.1°", -30, 134, 80),
      Split("6.4°", -30, 134, 80)
    ]
  }

  /** The VCP 215 table, in scan order. */
  function Vcp215(): (r: seq<ScanStep>)
    ensures |r| == 18 && forall i :: 0 <= i < |r| ==> StepOk(r[i])
  {
    [
      One(Z, "0.5°", -19, 250),
      One(V, "0.5°", -29, 74),
      One(Z, "0.9°", -22, 250),
      One(V, "0.9°", -29, 74),
      One(Z, "1.3°", -26, 231),
      One(V, "1.3°", -29, 74),
      Split("1.8°", -29, 208, 80),
      Split("2.4°", -33, 181, 80),
      Split("3.1°", -33, 158, 80),
      Split("4.0°", -33, 134, 80),
      Split("5.1°", -33, 134, 80),
      Split("6.4°", -33, 134, 80),
      One(V, "8.0°", -43, 63),
      One(V, "10.0°", -43, 63),
      One(V, "12.0°", -43, 63),
      One(V, "14.0°", -43, 63),
      One(V, "16.7°", -43, 63),
      One(V, "19.5°", -43, 63)
    ]
  }

  /** The VCP 12 table, in scan order. */
  function Vcp12(): (r: seq<ScanStep>)
    ensures |r| == 17 && forall i :: 0 <= i < |r| ==> StepOk(r[i])
  {
    [
      One(Z, "0.5°", -35, 250),
      One(V, "0.5°", -40, 80),
      One(Z, "0.9°", -35, 250),
      One(V, "0.9°", -40, 80),
      One(Z, "1.3°", -38, 231),
      One(V, "1.3°", -40, 80),
      Split("1.8°", -43, 208, 80),
      Split("2.4°", -43, 181, 80),
      Split("3.1°", -43, 158, 80),
      Split("4.0°", -46, 134, 80),
      Split("5.1°", -43, 134, 80),
      Split("6.4°", -43, 134, 80),
      One(V, "8.0°", -46, 74),
      One(V, "10.0°", -46, 68),
      One(V, "12.5°", -46, 63),
      One(V, "15.6°", -46, 63),
      One(V, "19.5°", -46, 63)
    ]
  }

  /** The base pattern for a VCP name, or the empty sequence for a name the catalog does not hold. */
  function Pattern(vcp: string): (r: seq<ScanStep>)
    ensures vcp == "VCP 212" ==> |r| == 17
    ensures vcp == "VCP 35" ==> |r| == 12
    ensures vcp == "VCP 215" ==> |r| == 18
    ensures vcp == "VCP 12" ==> |r| == 17
    ensures !KnownVcp(vcp) <==> r == []
    ensures AllStepsOk(r)
  {
    if vcp == "VCP 212" then Vcp212()
    else if vcp == "VCP 35" then Vcp35()
    else if vcp == "VCP 215" then Vcp215()
    else if vcp == "VCP 12" then Vcp12()
    else []
  }

  /** The two-step SAILS block: Z then V at 0.5°, both at speed -0.5. */
  function SailsBlock(): (r: seq<ScanStep>)
    ensures |r| == 2 && r[0].product == Z && r[1].product == V
    ensures forall s :: s in r ==> s.angle == "0.5°" && s.speed == -50
    ensures AllStepsOk(r)
  {
    [One(Z, "0.5°", -50, 250), One(V, "0.5°", -50, 80)]
  }

  /**
   * The MRLE block for a rescan count: the 0.5° and 0.9° Z/V pairs, then the 1.3° pair
   * when the count is at least 3, then one Z/V split cut at 1.8° when the count is 4.
   */
  function MrleBlock(count: int): (r: seq<ScanStep>)
    ensures |r| == (if count == 4 then 7 else if count >= 3 then 6 else 4)
    ensures r[..4] == [One(Z, "0.5°", -35, 250), One(V, "0.5°", -40, 80),
                       One(Z, "0.9°", -35, 250), One(V, "0.9°", -40, 80)]
    ensures count >= 3 ==> r[4..6] == [One(Z, "1.3°", -38, 231), One(V, "1.3°", -40, 80)]
    ensures count == 4 ==> r[6] == Split("1.8°", -43, 208, 80)
    ensures AllStepsOk(r)
  {
    var base := [One(Z, "0.5°", -35, 250), One(V, "0.5°", -40, 80),
                 One(Z, "0.9°", -35, 250), One(V, "0.9°", -40, 80)];
    var low := if count >= 3 then base + [One(Z, "1.3°", -38, 231), One(V, "1.3°", -40, 80)] else base;
    if count == 4 then low + [Split("1.8°", -43, 208, 80)] else low
  }
}
