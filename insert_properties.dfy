/**
 * What the SAILS and MRLE insertions promise: which steps are added, where, how many,
 * and that every step of the base pattern survives in its original order.
 */
module InsertProperties {
  import opened Scan
  import opened Catalog
  import opened Inserts

  /**
   * f places the steps of p inside r: step k of p is step f[k] of r, and f is strictly
   * increasing, so the steps of p keep their relative order in r.
   */
  ghost predicate Embeds(p: seq<ScanStep>, r: seq<ScanStep>, f: seq<nat>) {
    |f| == |p|
    && (forall k :: 0 <= k < |f| ==> f[k] < |r| && r[f[k]] == p[k])
    && (forall k, l :: 0 <= k < l < |f| ==> f[k] < f[l])
  }

  lemma IdentityEmbeds(p: seq<ScanStep>) returns (f: seq<nat>)
    ensures Embeds(p, p, f)
  {
    f := seq(|p|, (k: nat) => k);
  }

  lemma InsertEmbeds(p: seq<ScanStep>, i: nat, block: seq<ScanStep>) returns (f: seq<nat>)
    requires i < |p|
    ensures Embeds(p, InsertAfter(p, i, block), f)
  {
    var r := InsertAfter(p, i, block);
    f := seq(|p|, (k: nat) => if k <= i then k else k + |block|);
    forall k | 0 <= k < |f|
      ensures f[k] < |r| && r[f[k]] == p[k]
    {
      if k <= i {
        assert r[..i + 1][k] == p[..i + 1][k];
      } else {
        assert r[i + 1 + |block|..][k - i - 1] == p[i + 1..][k - i - 1];
      }
    }
  }

  lemma EmbedsCompose(p: seq<ScanStep>, q: seq<ScanStep>, r: seq<ScanStep>, f: seq<nat>, g: seq<nat>)
    returns (h: seq<nat>)
    requires Embeds(p, q, f) && Embeds(q, r, g)
    ensures Embeds(p, r, h)
  {
    h := seq(|f|, (k: nat) => if k < |f| && f[k] < |g| then g[f[k]] else 0);
  }

  /** Every anchor application keeps the steps it was given, in order. */
  lemma {:induction false} SailsFoldKeepsOrder(p: seq<ScanStep>, sails: string, anchors: seq<string>)
    returns (f: seq<nat>)
    ensures Embeds(p, SailsFold(p, sails, anchors), f)
    decreases |anchors|
  {
    if anchors == [] {
      f := IdentityEmbeds(p);
    } else {
      var q := SailsAt(p, sails, anchors[0]);
      var f1;
      match FindLast(p, anchors[0], AnchorNeedsV(sails, anchors[0])) {
        case None => f1 := IdentityEmbeds(p);
        case Some(i) => f1 := InsertEmbeds(p, i, SailsBlock());
      }
      var f2 := SailsFoldKeepsOrder(q, sails, anchors[1..]);
      f := EmbedsCompose(p, q, SailsFold(p, sails, anchors), f1, f2);
    }
  }

  lemma WithMrleKeepsOrder(p: seq<ScanStep>, vcp: string, mrle: string) returns (f: seq<nat>)
    requires MrleApplies(vcp, mrle) ==> MrleParses(mrle)
    ensures Embeds(p, WithMrle(p, vcp, mrle), f)
  {
    if MrleApplies(vcp, mrle) && FindLast(p, "5.1°", false).Some? {
      f := InsertEmbeds(p, FindLast(p, "5.1°", false).value, MrleBlock(MrleCount(mrle)));
    } else {
      f := IdentityEmbeds(p);
    }
  }

  /** The built sequence holds every step of the base pattern, in the base pattern's order. */
  lemma BuildKeepsOrder(vcp: string, sails: string, mrle: string) returns (f: seq<nat>)
    requires MrleApplies(vcp, mrle) ==> MrleParses(mrle)
    ensures Embeds(Pattern(vcp), BuildSequence(vcp, sails, mrle), f)
  {
    var base := Pattern(vcp);
    if base == [] {
      f := IdentityEmbeds(base);
    } else {
      var s := WithSails(base, sails);
      var f1;
      if sails != "None" {
        f1 := SailsFoldKeepsOrder(base, sails, InsertPoints(sails));
      } else {
        f1 := IdentityEmbeds(base);
      }
      var f2 := WithMrleKeepsOrder(s, vcp, mrle);
      f := EmbedsCompose(base, s, BuildSequence(vcp, sails, mrle), f1, f2);
    }
  }

  /** A match in p is still a match in p with a block inserted, shifted past the block when it lies after it. */
  lemma InsertKeepsMatch(p: seq<ScanStep>, i: nat, block: seq<ScanStep>, anchor: string, vOnly: bool, j: nat)
    requires i < |p| && j < |p| && Matches(p[j], anchor, vOnly)
    ensures FindLast(InsertAfter(p, i, block), anchor, vOnly).Some?
  {
    var r := InsertAfter(p, i, block);
    if j <= i {
      assert r[..i + 1][j] == p[..i + 1][j];
      assert Matches(r[j], anchor, vOnly);
    } else {
      assert r[i + 1 + |block|..][j - i - 1] == p[i + 1..][j - i - 1];
      assert Matches(r[j + |block|], anchor, vOnly);
    }
  }

  /** A match in p with a block inserted, when no step of the block matches, comes from a match in p. */
  lemma InsertAddsNoMatch(p: seq<ScanStep>, i: nat, block: seq<ScanStep>, anchor: string, vOnly: bool, j: nat)
    requires i < |p|
    requires forall s :: s in block ==> !Matches(s, anchor, vOnly)
    requires j < |InsertAfter(p, i, block)| && Matches(InsertAfter(p, i, block)[j], anchor, vOnly)
    ensures FindLast(p, anchor, vOnly).Some?
  {
    var r := InsertAfter(p, i, block);
    if j <= i {
      assert r[..i + 1][j] == p[..i + 1][j];
      assert Matches(p[j], anchor, vOnly);
    } else if j < i + 1 + |block| {
      assert false;
    } else {
      assert r[i + 1 + |block|..][j - i - 1 - |block|] == p[i + 1..][j - i - 1 - |block|];
      assert Matches(p[j - |block|], anchor, vOnly);
    }
  }

  /** Inserting steps none of which match an anchor changes neither the presence nor the absence of a match. */
  lemma InsertKeepsAnchor(p: seq<ScanStep>, i: nat, block: seq<ScanStep>, anchor: string, vOnly: bool)
    requires i < |p|
    requires forall s :: s in block ==> !Matches(s, anchor, vOnly)
    ensures FindLast(InsertAfter(p, i, block), anchor, vOnly).Some? == FindLast(p, anchor, vOnly).Some?
  {
    var r := InsertAfter(p, i, block);
    if FindLast(p, anchor, vOnly).Some? {
      InsertKeepsMatch(p, i, block, anchor, vOnly, FindLast(p, anchor, vOnly).value);
    }
    if FindLast(r, anchor, vOnly).Some? {
      InsertAddsNoMatch(p, i, block, anchor, vOnly, FindLast(r, anchor, vOnly).value);
    }
  }

  /** A matching step with no match after it is the one FindLast reports. */
  lemma LastMatchIs(p: seq<ScanStep>, anchor: string, vOnly: bool, j: nat)
    requires j < |p| && Matches(p[j], anchor, vOnly)
    requires forall k :: j < k < |p| ==> !Matches(p[k], anchor, vOnly)
    ensures FindLast(p, anchor, vOnly) == Some(j)
  {
    var m := FindLast(p, anchor, vOnly).value;
    assert !(m < j);
  }

  /** After the last match of p, shifted as in InsertShiftsLastMatch, nothing in the extended pattern matches. */
  lemma InsertNoLaterMatch(p: seq<ScanStep>, i: nat, block: seq<ScanStep>, anchor: string, vOnly: bool, j: nat)
    requires i < |p| && j < |p|
    requires forall s :: s in block ==> !Matches(s, anchor, vOnly)
    requires forall k :: j < k < |p| ==> !Matches(p[k], anchor, vOnly)
    ensures var r := InsertAfter(p, i, block);
      forall k :: (if j <= i then j else j + |block|) < k < |r| ==> !Matches(r[k], anchor, vOnly)
  {
    var r := InsertAfter(p, i, block);
    var j' := if j <= i then j else j + |block|;
    forall k | j' < k < |r|
      ensures !Matches(r[k], anchor, vOnly)
    {
      if k <= i {
        assert r[..i + 1][k] == p[..i + 1][k];
      } else if k < i + 1 + |block| {
        assert r[i + 1..i + 1 + |block|][k - i - 1] == r[k];
        assert r[k] in block;
      } else {
        assert r[i + 1 + |block|..][k - i - 1 - |block|] == p[i + 1..][k - i - 1 - |block|];
      }
    }
  }

  /**
   * Where the last match lands after an insertion whose steps do not match: at the same index
   * when it lies at or before the insertion point, shifted by the block's length when after it.
   */
  lemma InsertShiftsLastMatch(p: seq<ScanStep>, i: nat, block: seq<ScanStep>, anchor: string, vOnly: bool)
    requires i < |p|
    requires forall s :: s in block ==> !Matches(s, anchor, vOnly)
    requires FindLast(p, anchor, vOnly).Some?
    ensures var j := FindLast(p, anchor, vOnly).value;
      FindLast(InsertAfter(p, i, block), anchor, vOnly) == Some(if j <= i then j else j + |block|)
  {
    var r := InsertAfter(p, i, block);
    var j := FindLast(p, anchor, vOnly).value;
    var j' := if j <= i then j else j + |block|;
    if j <= i {
      assert r[..i + 1][j] == p[..i + 1][j];
    } else {
      assert r[i + 1 + |block|..][j - i - 1] == p[i + 1..][j - i - 1];
    }
    InsertNoLaterMatch(p, i, block, anchor, vOnly, j);
    LastMatchIs(r, anchor, vOnly, j');
  }

  /** The anchors of a list that the pattern p holds a matching step for, in list order. */
  function FoundAnchors(p: seq<ScanStep>, sails: string, anchors: seq<string>): seq<string>
    decreases |anchors|
  {
    if anchors == [] then []
    else if FindLast(p, anchors[0], AnchorNeedsV(sails, anchors[0])).Some? then
      [anchors[0]] + FoundAnchors(p, sails, anchors[1..])
    else FoundAnchors(p, sails, anchors[1..])
  }

  lemma {:induction false} SailsInsertKeepsFound(p: seq<ScanStep>, i: nat, sails: string, anchors: seq<string>)
    requires i < |p|
    requires forall j :: 0 <= j < |anchors| ==> anchors[j] != "0.5°"
    ensures FoundAnchors(InsertAfter(p, i, SailsBlock()), sails, anchors) == FoundAnchors(p, sails, anchors)
    decreases |anchors|
  {
    if anchors != [] {
      var a := anchors[0];
      InsertKeepsAnchor(p, i, SailsBlock(), a, AnchorNeedsV(sails, a));
      SailsInsertKeepsFound(p, i, sails, anchors[1..]);
    }
  }

  /**
   * Applying a list of anchors grows the pattern by one two-step block per anchor the
   * pattern holds; anchors without a matching step are skipped.
   */
  lemma {:induction false} SailsFoldLength(p: seq<ScanStep>, sails: string, anchors: seq<string>)
    requires forall j :: 0 <= j < |anchors| ==> anchors[j] != "0.5°"
    ensures |SailsFold(p, sails, anchors)| == |p| + 2 * |FoundAnchors(p, sails, anchors)|
    decreases |anchors|
  {
    if anchors != [] {
      var a := anchors[0];
      var q := SailsAt(p, sails, a);
      match FindLast(p, a, AnchorNeedsV(sails, a)) {
        case None =>
        case Some(i) =>
          SailsInsertKeepsFound(p, i, sails, anchors[1..]);
      }
      SailsFoldLength(q, sails, anchors[1..]);
    }
  }

  /** A SAILS choice adds exactly two steps per anchor of that choice which the pattern holds. */
  lemma WithSailsLength(p: seq<ScanStep>, sails: string)
    requires sails != "None"
    ensures |WithSails(p, sails)| == |p| + 2 * |FoundAnchors(p, sails, InsertPoints(sails))|
  {
    var anchors := InsertPoints(sails);
    assert forall j :: 0 <= j < |anchors| ==> anchors[j] != "0.5°";
    SailsFoldLength(p, sails, InsertPoints(sails));
  }
  /** When the pattern holds every anchor, each of them is found. */
  lemma {:induction false} AllFound(p: seq<ScanStep>, sails: string, anchors: seq<string>)
    requires forall j :: 0 <= j < |anchors| ==> FindLast(p, anchors[j], AnchorNeedsV(sails, anchors[j])).Some?
    ensures FoundAnchors(p, sails, anchors) == anchors
    decreases |anchors|
  {
    if anchors != [] {
      assert FindLast(p, anchors[0], AnchorNeedsV(sails, anchors[0])).Some?;
      AllFound(p, sails, anchors[1..]);
    }
  }

  /** A SAILS choice whose anchors all occur in the pattern adds two steps per anchor. */
  lemma AllAnchorsFoundLength(p: seq<ScanStep>, sails: string)
    requires sails != "None"
    requires forall j :: 0 <= j < |InsertPoints(sails)| ==>
               FindLast(p, InsertPoints(sails)[j], AnchorNeedsV(sails, InsertPoints(sails)[j])).Some?
    ensures |WithSails(p, sails)| == |p| + 2 * |InsertPoints(sails)|
  {
    AllFound(p, sails, InsertPoints(sails));
    WithSailsLength(p, sails);
  }
}
