/**
 * Building the scan sequence: the base pattern with SAILS and MRLE blocks spliced in.
 *
 * The functions state the result; the methods ApplySails and ApplyMrle compute it the way
 * the application does, by slice insertion inside index loops, and are proved equal to them.
 */
module Inserts {
  import opened Scan
  import opened Catalog

  datatype Option<T> = None | Some(value: T)

  /** A step matches an anchor on its elevation text, and on its product when only a V step will do. */
  predicate Matches(s: ScanStep, angle: string, vOnly: bool) {
    s.angle == angle && (!vOnly || s.product == V)
  }

  /** The last index below n whose step matches, searching backwards. */
  function FindLastBefore(p: seq<ScanStep>, angle: string, vOnly: bool, n: nat): (r: Option<nat>)
    requires n <= |p|
    ensures r.Some? ==> r.value < n && Matches(p[r.value], angle, vOnly)
    ensures r.Some? ==> forall j :: r.value < j < n ==> !Matches(p[j], angle, vOnly)
    ensures r.None? ==> forall j :: 0 <= j < n ==> !Matches(p[j], angle, vOnly)
    decreases n
  {
    if n == 0 then None
    else if Matches(p[n - 1], angle, vOnly) then Some(n - 1)
    else FindLastBefore(p, angle, vOnly, n - 1)
  }

  /** The index of the last matching step of p, if there is one. */
  function FindLast(p: seq<ScanStep>, angle: string, vOnly: bool): (r: Option<nat>)
    ensures r.Some? ==> r.value < |p| && Matches(p[r.value], angle, vOnly)
    ensures r.Some? ==> forall j :: r.value < j < |p| ==> !Matches(p[j], angle, vOnly)
    ensures r.None? <==> forall j :: 0 <= j < |p| ==> !Matches(p[j], angle, vOnly)
  {
    FindLastBefore(p, angle, vOnly, |p|)
  }

  /** Slice insertion p[i+1:i+1] = block. */
  function InsertAfter(p: seq<ScanStep>, i: nat, block: seq<ScanStep>): (r: seq<ScanStep>)
    requires i < |p|
    ensures |r| == |p| + |block|
  {
    p[..i + 1] + block + p[i + 1..]
  }

  /** The steps after an insertion are those of the pattern and those of the block. */
  lemma InsertAfterSteps(p: seq<ScanStep>, i: nat, block: seq<ScanStep>)
    requires i < |p|
    ensures forall s :: s in InsertAfter(p, i, block) <==> s in p || s in block
  {
    assert p == p[..i + 1] + p[i + 1..];
  }

  /** The elevations after which each SAILS choice inserts its block, in the order they are applied. */
  function InsertPoints(sails: string): (r: seq<string>)
    ensures |r| <= 3
  {
    if sails == "SAILS 1" then ["3.1°"]
    else if sails == "SAILS 2" then ["1.8°", "6.4°"]
    else if sails == "SAILS 3" then ["1.3°", "4.0°", "8.0°"]
    else []
  }

  /** Only the three SAILS choices have anchors, and no anchor is the 0.5° elevation of the SAILS block itself. */
  lemma InsertPointsAvoidBlock(sails: string)
    ensures InsertPoints(sails) != [] <==> sails == "SAILS 1" || sails == "SAILS 2" || sails == "SAILS 3"
    ensures forall k :: 0 <= k < |InsertPoints(sails)| ==> InsertPoints(sails)[k] != "0.5°"
  {
  }

  /** Only the 1.3° anchor of SAILS 3 is restricted to a V step. */
  predicate AnchorNeedsV(sails: string, anchor: string) {
    anchor == "1.3°" && sails == "SAILS 3"
  }

  /**
   * A step is a SAILS hit exactly when one of the two branches of the reverse scan takes
   * it: the V step at 1.3 degrees for SAILS 3, or any step at the anchor otherwise.
   */
  lemma AnchorRule(s: ScanStep, sails: string, anchor: string)
    ensures Matches(s, anchor, AnchorNeedsV(sails, anchor)) <==>
              (s.angle == anchor && anchor == "1.3°" && sails == "SAILS 3" && s.product == V)
              || (s.angle == anchor && (anchor != "1.3°" || sails != "SAILS 3"))
  {
  }

  /** One anchor: the SAILS block after the last matching step, or no change when none matches. */
  function SailsAt(p: seq<ScanStep>, sails: string, anchor: string): (r: seq<ScanStep>)
    ensures |r| >= |p|
    ensures AllStepsOk(p) ==> AllStepsOk(r)
  {
    match FindLast(p, anchor, AnchorNeedsV(sails, anchor))
    case None => p
    case Some(i) => InsertAfterSteps(p, i, SailsBlock()); InsertAfter(p, i, SailsBlock())
  }

  /** The anchors applied in list order, each to the pattern the previous ones produced. */
  function SailsFold(p: seq<ScanStep>, sails: string, anchors: seq<string>): (r: seq<ScanStep>)
    ensures |r| >= |p|
    ensures AllStepsOk(p) ==> AllStepsOk(r)
    decreases |anchors|
  {
    if anchors == [] then p else SailsFold(SailsAt(p, sails, anchors[0]), sails, anchors[1..])
  }

  /** The SAILS choice applied: its anchors in order, or no change for "None". */
  function WithSails(p: seq<ScanStep>, sails: string): (r: seq<ScanStep>)
    ensures |r| >= |p|
    ensures AllStepsOk(p) ==> AllStepsOk(r)
  {
    if sails != "None" then SailsFold(p, sails, InsertPoints(sails)) else p
  }

  /** An MRLE choice the application can read a rescan count from: its last character is a digit. */
  predicate MrleParses(mrle: string) {
    mrle == "None" || (|mrle| > 0 && '0' <= mrle[|mrle| - 1] <= '9')
  }

  /** The VCPs that offer MRLE. */
  predicate MrleVcp(vcp: string) {
    vcp == "VCP 212" || vcp == "VCP 12"
  }

  predicate MrleApplies(vcp: string, mrle: string) {
    mrle != "None" && MrleVcp(vcp)
  }

  /** The rescan count: the value of the choice's last digit ("MRLE 3" gives 3). */
  function MrleCount(mrle: string): (c: int)
    requires mrle != "None" && MrleParses(mrle)
    ensures 0 <= c <= 9
  {
    (mrle[|mrle| - 1] as int) - ('0' as int)
  }

  /** The MRLE block after the last 5.1° step, for VCP 212 and VCP 12 only. */
  function WithMrle(p: seq<ScanStep>, vcp: string, mrle: string): (r: seq<ScanStep>)
    requires MrleApplies(vcp, mrle) ==> MrleParses(mrle)
    ensures |r| >= |p|
    ensures AllStepsOk(p) ==> AllStepsOk(r)
  {
    if MrleApplies(vcp, mrle) then
      match FindLast(p, "5.1°", false)
      case None => p
      case Some(i) =>
        InsertAfterSteps(p, i, MrleBlock(MrleCount(mrle)));
        InsertAfter(p, i, MrleBlock(MrleCount(mrle)))
    else p
  }

  /** The scan sequence shown for a VCP and the two supplemental choices. */
  function BuildSequence(vcp: string, sails: string, mrle: string): (r: seq<ScanStep>)
    requires MrleApplies(vcp, mrle) ==> MrleParses(mrle)
    ensures AllStepsOk(r)
  {
    var base := Pattern(vcp);
    if base == [] then [] else WithMrle(WithSails(base, sails), vcp, mrle)
  }

  /** The sequence is empty exactly for an unknown VCP; with both choices "None" it is the catalog pattern. */
  lemma BuildSequenceBase(vcp: string, sails: string, mrle: string)
    requires MrleApplies(vcp, mrle) ==> MrleParses(mrle)
    ensures BuildSequence(vcp, sails, mrle) == [] <==> !KnownVcp(vcp)
    ensures sails == "None" && mrle == "None" ==> BuildSequence(vcp, sails, mrle) == Pattern(vcp)
  {
  }

  /** One anchor as the application runs it: a reverse index scan that splices the block in at the first hit and stops. */
  method InsertAfterLastAnchor(pattern: seq<ScanStep>, sails: string, anchor: string) returns (r: seq<ScanStep>)
    ensures r == SailsAt(pattern, sails, anchor)
  {
    r := pattern;
    ghost var vOnly := AnchorNeedsV(sails, anchor);
    for i := |r| downto 0
      invariant r == pattern
      invariant FindLast(pattern, anchor, vOnly) == FindLastBefore(pattern, anchor, vOnly, i)
    {
      if r[i].angle == anchor {
        if anchor == "1.3°" && sails == "SAILS 3" && r[i].product == V {
          assert FindLast(pattern, anchor, vOnly) == Some(i);
          r := r[..i + 1] + SailsBlock() + r[i + 1..];
          return;
        } else if anchor != "1.3°" || sails != "SAILS 3" {
          assert FindLast(pattern, anchor, vOnly) == Some(i);
          r := r[..i + 1] + SailsBlock() + r[i + 1..];
          return;
        }
      }
      assert !Matches(r[i], anchor, vOnly);
    }
  }

  /** The SAILS insertion as the application runs it: the anchors in list order, each on the pattern the previous ones left. */
  method ApplySails(pattern: seq<ScanStep>, sails: string) returns (r: seq<ScanStep>)
    ensures r == WithSails(pattern, sails)
  {
    r := pattern;
    if sails != "None" {
      var anchors := InsertPoints(sails);
      for k := 0 to |anchors|
        invariant SailsFold(r, sails, anchors[k..]) == SailsFold(pattern, sails, anchors)
      {
        r := InsertAfterLastAnchor(r, sails, anchors[k]);
        assert anchors[k..][1..] == anchors[k + 1..];
      }
      assert anchors[|anchors|..] == [];
    }
  }

  /** The indices below n of the steps at an elevation, in increasing order. */
  function IndicesBelow(p: seq<ScanStep>, angle: string, n: nat): (r: seq<nat>)
    requires n <= |p|
    ensures forall k :: 0 <= k < |r| ==> r[k] < n && p[r[k]].angle == angle
    ensures r == [] <==> FindLastBefore(p, angle, false, n) == None
    ensures r != [] ==> FindLastBefore(p, angle, false, n) == Some(r[|r| - 1])
    decreases n
  {
    if n == 0 then []
    else if p[n - 1].angle == angle then IndicesBelow(p, angle, n - 1) + [n - 1]
    else IndicesBelow(p, angle, n - 1)
  }

  /** Every step below n at the elevation is collected. */
  lemma {:induction false} IndicesBelowComplete(p: seq<ScanStep>, angle: string, n: nat, j: nat)
    requires n <= |p| && j < n && p[j].angle == angle
    ensures j in IndicesBelow(p, angle, n)
    decreases n
  {
    if j < n - 1 {
      IndicesBelowComplete(p, angle, n - 1, j);
    }
  }

  predicate Increasing(s: seq<nat>) {
    forall k, l :: 0 <= k < l < |s| ==> s[k] < s[l]
  }

  /** The collected indices are strictly increasing. */
  lemma {:induction false} IndicesBelowSorted(p: seq<ScanStep>, angle: string, n: nat)
    requires n <= |p|
    ensures Increasing(IndicesBelow(p, angle, n))
    decreases n
  {
    if n > 0 {
      IndicesBelowSorted(p, angle, n - 1);
      var q := IndicesBelow(p, angle, n - 1);
      if p[n - 1].angle == angle {
        var r := q + [n - 1];
        forall k, l | 0 <= k < l < |r|
          ensures r[k] < r[l]
        {
          if l < |q| {
            assert r[k] == q[k] && r[l] == q[l] && q[k] < q[l];
          } else {
            assert r[k] == q[k] && q[k] < n - 1 && r[l] == n - 1;
          }
        }
        assert IndicesBelow(p, angle, n) == r;
      }
    }
  }

  /** The indices of the steps at an elevation, collected as the application's comprehension over the enumerated pattern does. */
  method AngleIndices(p: seq<ScanStep>, angle: string) returns (points: seq<nat>)
    ensures points == IndicesBelow(p, angle, |p|)
  {
    points := [];
    for i := 0 to |p|
      invariant points == IndicesBelow(p, angle, i)
    {
      if p[i].angle == angle {
        points := points + [i];
      }
    }
  }

  /** The MRLE block as the application builds it: the four 0.5° and 0.9° rescans, then appends for higher counts. */
  method MrleScans(count: int) returns (scans: seq<ScanStep>)
    ensures scans == MrleBlock(count)
  {
    scans := [One(Z, "0.5°", -35, 250), One(V, "0.5°", -40, 80),
              One(Z, "0.9°", -35, 250), One(V, "0.9°", -40, 80)];
    if count >= 3 {
      scans := scans + [One(Z, "1.3°", -38, 231)];
      scans := scans + [One(V, "1.3°", -40, 80)];
    }
    if count == 4 {
      scans := scans + [Split("1.8°", -43, 208, 80)];
    }
  }

  /** The MRLE insertion as the application runs it: build the block, collect the 5.1° indices, splice after the last. */
  method ApplyMrle(pattern: seq<ScanStep>, vcp: string, mrle: string) returns (r: seq<ScanStep>)
    requires MrleApplies(vcp, mrle) ==> MrleParses(mrle)
    ensures r == WithMrle(pattern, vcp, mrle)
  {
    r := pattern;
    if mrle != "None" && (vcp == "VCP 212" || vcp == "VCP 12") {
      var count := MrleCount(mrle);
      var scans := MrleScans(count);
      var points := AngleIndices(r, "5.1°");
      assert points == [] <==> FindLast(pattern, "5.1°", false) == None;
      if points != [] {
        var insertIdx := points[|points| - 1];
        r := r[..insertIdx + 1] + scans + r[insertIdx + 1..];
        assert r == InsertAfter(pattern, insertIdx, MrleBlock(MrleCount(mrle)));
      }
    }
  }
}
