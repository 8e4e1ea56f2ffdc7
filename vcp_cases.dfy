/**
 * The builder on concrete catalog patterns: where each block lands in VCP 212 and VCP 12.
 */
module VcpCases {
  import opened Scan
  import opened Catalog
  import opened Inserts
  import opened InsertProperties
  import opened Placement

  /** Without an MRLE choice, the build is the SAILS insertion into the catalog pattern. */
  lemma BuildWithoutMrle(vcp: string, sails: string)
    requires KnownVcp(vcp)
    ensures BuildSequence(vcp, sails, "None") == WithSails(Pattern(vcp), sails)
  {
  }

  /** Without a SAILS choice, the build is the MRLE insertion into the catalog pattern. */
  lemma BuildWithoutSails(vcp: string, mrle: string)
    requires KnownVcp(vcp) && MrleParses(mrle)
    ensures BuildSequence(vcp, "None", mrle) == WithMrle(Pattern(vcp), vcp, mrle)
  {
  }

  /** SAILS 1 has the single anchor 3.1 degrees. */
  lemma Sails1Single(p: seq<ScanStep>)
    ensures WithSails(p, "SAILS 1") == SailsAt(p, "SAILS 1", "3.1°")
  {
    assert ["3.1°"][1..] == [];
  }

  /** The last 3.1 degree step of VCP 212 is its ninth. */
  lemma Vcp212Last31()
    ensures FindLast(Vcp212(), "3.1°", false) == Some(8)
  {
    var p := Vcp212();
    assert Matches(p[8], "3.1°", false);
    assert forall k :: 8 < k < |p| ==> p[k].angle != "3.1°";
    LastMatchIs(p, "3.1°", false, 8);
  }

  /** SAILS 1 on VCP 212: the block follows the 3.1 degree step. */
  lemma Sails1On212()
    ensures BuildSequence("VCP 212", "SAILS 1", "None") == Vcp212()[..9] + SailsBlock() + Vcp212()[9..]
  {
    BuildWithoutMrle("VCP 212", "SAILS 1");
    Sails1Single(Vcp212());
    Vcp212Last31();
  }

  /** The first SAILS 3 anchor of VCP 212 is the V step at 1.3 degrees, step 5, right after the Z step at 1.3 degrees. */
  lemma Vcp212Last13V()
    ensures Vcp212()[4].product == Z && Vcp212()[4].angle == "1.3°"
    ensures FindLast(Vcp212(), "1.3°", true) == Some(5)
  {
    var p := Vcp212();
    assert Matches(p[5], "1.3°", true);
    assert forall k :: 5 < k < |p| ==> p[k].angle != "1.3°";
    LastMatchIs(p, "1.3°", true, 5);
  }

  /** Without the V-only restriction the last 1.3 degree step of VCP 212 is the same step 5. */
  lemma Vcp212Last13()
    ensures FindLast(Vcp212(), "1.3°", false) == Some(5)
  {
    var p := Vcp212();
    assert Matches(p[5], "1.3°", false);
    assert forall k :: 5 < k < |p| ==> p[k].angle != "1.3°";
    LastMatchIs(p, "1.3°", false, 5);
  }

  /** The second SAILS 3 anchor of VCP 212 is step 9, at 4.0 degrees. */
  lemma Vcp212Last40()
    ensures FindLast(Vcp212(), "4.0°", false) == Some(9)
  {
    var p := Vcp212();
    assert Matches(p[9], "4.0°", false);
    assert forall k :: 9 < k < |p| ==> p[k].angle != "4.0°";
    LastMatchIs(p, "4.0°", false, 9);
  }

  /** The third SAILS 3 anchor of VCP 212 is step 12, at 8.0 degrees. */
  lemma Vcp212Last80()
    ensures FindLast(Vcp212(), "8.0°", false) == Some(12)
  {
    var p := Vcp212();
    assert Matches(p[12], "8.0°", false);
    assert forall k :: 12 < k < |p| ==> p[k].angle != "8.0°";
    LastMatchIs(p, "8.0°", false, 12);
  }

  /** SAILS 3 on a pattern that holds all three of its anchors adds six steps. */
  lemma Sails3Length(p: seq<ScanStep>)
    requires FindLast(p, "1.3°", true).Some? && FindLast(p, "4.0°", false).Some? && FindLast(p, "8.0°", false).Some?
    ensures |WithSails(p, "SAILS 3")| == |p| + 6
  {
    var anchors := InsertPoints("SAILS 3");
    assert anchors == ["1.3°", "4.0°", "8.0°"];
    assert AnchorNeedsV("SAILS 3", anchors[0]) && !AnchorNeedsV("SAILS 3", anchors[1]) && !AnchorNeedsV("SAILS 3", anchors[2]);
    AllAnchorsFoundLength(p, "SAILS 3");
  }

  /** SAILS 3 on VCP 212 finds all three anchors and gives 23 steps. */
  lemma Sails3LengthOn212()
    ensures |BuildSequence("VCP 212", "SAILS 3", "None")| == 23
  {
    Vcp212Last13V();
    Vcp212Last40();
    Vcp212Last80();
    Sails3Length(Vcp212());
    BuildWithoutMrle("VCP 212", "SAILS 3");
  }

  /** SAILS 3 on VCP 212, first anchor: the block follows the V step at 1.3 degrees. */
  lemma Sails3LowAnchorOn212()
    ensures SailsAt(Vcp212(), "SAILS 3", "1.3°") == Vcp212()[..6] + SailsBlock() + Vcp212()[6..]
  {
    Vcp212Last13V();
  }

  /** The last 5.1 degree step of VCP 12 is its eleventh. */
  lemma Vcp12Last51()
    ensures Vcp12()[10].angle == "5.1°"
    ensures forall k :: 10 < k < |Vcp12()| ==> Vcp12()[k].angle != "5.1°"
  {
  }

  /** MRLE 4 on VCP 12: the seven rescans follow the 5.1 degree step. */
  lemma Mrle4On12()
    ensures BuildSequence("VCP 12", "None", "MRLE 4") == Vcp12()[..11] + MrleBlock(4) + Vcp12()[11..]
  {
    BuildWithoutSails("VCP 12", "MRLE 4");
    Vcp12Last51();
    MrleAfterLast51(Vcp12(), "VCP 12", "MRLE 4", 10);
    assert MrleCount("MRLE 4") == 4;
  }
}
