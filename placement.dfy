/**
 * Where the SAILS and MRLE blocks land, stated through the positions of the anchor steps
 * rather than through the backward search.
 */
module Placement {
  import opened Scan
  import opened Catalog
  import opened Inserts
  import opened InsertProperties

  /** A SAILS anchor that some step matches gets the block right after the last such step. */
  lemma SailsAfterLastMatch(p: seq<ScanStep>, sails: string, anchor: string, i: nat)
    requires i < |p| && Matches(p[i], anchor, AnchorNeedsV(sails, anchor))
    requires forall j :: i < j < |p| ==> !Matches(p[j], anchor, AnchorNeedsV(sails, anchor))
    ensures SailsAt(p, sails, anchor) == p[..i + 1] + SailsBlock() + p[i + 1..]
  {
    LastMatchIs(p, anchor, AnchorNeedsV(sails, anchor), i);
  }

  /** A SAILS anchor that no step matches leaves the pattern as it is. */
  lemma SailsAbsentAnchor(p: seq<ScanStep>, sails: string, anchor: string)
    requires forall j :: 0 <= j < |p| ==> !Matches(p[j], anchor, AnchorNeedsV(sails, anchor))
    ensures SailsAt(p, sails, anchor) == p
  {
  }

  /**
   * For SAILS 3 the 1.3 degree anchor is the last V step at that elevation: Z steps at 1.3
   * degrees after it are passed over.
   */
  lemma Sails3PassesOverZ(p: seq<ScanStep>, i: nat)
    requires i < |p| && p[i].angle == "1.3°" && p[i].product == V
    requires forall j :: i < j < |p| && p[j].angle == "1.3°" ==> p[j].product != V
    ensures SailsAt(p, "SAILS 3", "1.3°") == p[..i + 1] + SailsBlock() + p[i + 1..]
  {
    SailsAfterLastMatch(p, "SAILS 3", "1.3°", i);
  }

  /** Every other anchor of every choice matches on the elevation alone, whatever the product. */
  lemma OtherAnchorsIgnoreLabel(p: seq<ScanStep>, sails: string, anchor: string, i: nat)
    requires !(sails == "SAILS 3" && anchor == "1.3°")
    requires i < |p| && p[i].angle == anchor
    requires forall j :: i < j < |p| ==> p[j].angle != anchor
    ensures SailsAt(p, sails, anchor) == p[..i + 1] + SailsBlock() + p[i + 1..]
  {
    SailsAfterLastMatch(p, sails, anchor, i);
  }

  /** For VCP 212 and VCP 12, the MRLE block goes right after the last 5.1 degree step. */
  lemma MrleAfterLast51(p: seq<ScanStep>, vcp: string, mrle: string, i: nat)
    requires MrleApplies(vcp, mrle) && MrleParses(mrle)
    requires i < |p| && p[i].angle == "5.1°"
    requires forall j :: i < j < |p| ==> p[j].angle != "5.1°"
    ensures WithMrle(p, vcp, mrle) == p[..i + 1] + MrleBlock(MrleCount(mrle)) + p[i + 1..]
  {
    LastMatchIs(p, "5.1°", false, i);
  }

  /** Without a 5.1 degree step the MRLE choice inserts nothing. */
  lemma MrleWithout51(p: seq<ScanStep>, vcp: string, mrle: string)
    requires MrleApplies(vcp, mrle) ==> MrleParses(mrle)
    requires forall j :: 0 <= j < |p| ==> p[j].angle != "5.1°"
    ensures WithMrle(p, vcp, mrle) == p
  {
    if MrleApplies(vcp, mrle) {
      assert FindLast(p, "5.1°", false).None? by {
        forall j | 0 <= j < |p|
          ensures !Matches(p[j], "5.1°", false)
        {
        }
      }
    }
  }

  /** For VCP 35, VCP 215 and unknown names an MRLE choice changes nothing. */
  lemma MrleOnlyFor212And12(vcp: string, mrle: string)
    requires vcp != "VCP 212" && vcp != "VCP 12"
    ensures BuildSequence(vcp, "None", mrle) == Pattern(vcp)
  {
  }
}
