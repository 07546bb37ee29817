/** What a BOM line covers: the site tags under its container ranges, one per unit of quantity. */
module BomCoverage {
  import opened Lists
  import opened Text
  import opened Catalog
  import opened ComputeNodes
  import opened RefDes
  import opened ContainerLabels
  import opened BomModel

  /** Local tags a bom.yaml gives one equipment id. */
  function BomTags(parts: seq<Part>, eid: string): seq<string> {
    if parts == [] then []
    else
      var p := parts[|parts| - 1];
      BomTags(parts[..|parts| - 1], eid) + if p.equipmentId == eid then p.tags else []
  }

  /** Every part's quantity is the number of its tags. */
  predicate Counted(parts: seq<Part>) {
    forall i :: 0 <= i < |parts| ==> parts[i].qty == |parts[i].tags|
  }

  // ----- taking tags out of a partial container -----

  lemma {:induction false} FilterShorter<T>(p: T -> bool, xs: seq<T>)
    ensures |Filter(p, xs)| <= |xs|
    ensures |Filter(p, xs)| == |xs| ==> Filter(p, xs) == xs
  {
    if xs != [] {
      FilterShorter(p, xs[..|xs| - 1]);
      assert xs == xs[..|xs| - 1] + [xs[|xs| - 1]];
    }
  }

  lemma {:induction false} PartWithoutTags(p: Part, drop: set<string>, eid: string)
    requires p.qty == |p.tags|
    ensures Counted(PartWithout(p, drop))
    ensures BomTags(PartWithout(p, drop), eid) == if p.equipmentId == eid then KeptOf(p.tags, drop) else []
  {
    FilterShorter((t: string) => Kept(t, drop), p.tags);
    var r := PartWithout(p, drop);
    if r != [] {
      assert r[..0] == [];
      assert BomTags(r, eid) == [] + if r[0].equipmentId == eid then r[0].tags else [];
    }
  }

  lemma {:induction false} BomTagsAppend(a: seq<Part>, b: seq<Part>, eid: string)
    ensures BomTags(a + b, eid) == BomTags(a, eid) + BomTags(b, eid)
  {
    if b == [] {
      assert a + b == a;
    } else {
      assert (a + b)[..|a + b| - 1] == a + b[..|b| - 1];
      BomTagsAppend(a, b[..|b| - 1], eid);
    }
  }

  /** _without: quantities still count tags, and exactly the dropped tags are gone. */
  lemma {:induction false} WithoutTags(parts: seq<Part>, drop: set<string>, eid: string)
    requires Counted(parts)
    ensures Counted(PartsWithout(parts, drop))
    ensures BomTags(PartsWithout(parts, drop), eid) == KeptOf(BomTags(parts, eid), drop)
  {
    if parts != [] {
      var init, p := parts[..|parts| - 1], parts[|parts| - 1];
      WithoutTags(init, drop, eid);
      PartWithoutTags(p, drop, eid);
      BomTagsAppend(PartsWithout(init, drop), PartWithout(p, drop), eid);
      FilterAppend((t: string) => Kept(t, drop), BomTags(init, eid), if p.equipmentId == eid then p.tags else []);
    }
  }

  // ----- quantity counts tags -----

  lemma TimesNext(a: nat, n: nat)
    ensures a * n + a == a * (n + 1)
  {
  }

  lemma {:induction false} CoverLength(prefix: string, first: nat, n: nat, tags: seq<string>)
    ensures |Concat(TagsOver(prefix, first, first + n - 1, tags))| == |tags| * n
    decreases n
  {
    if n > 0 {
      CoverLength(prefix, first, n - 1, tags);
      CoverSnoc(prefix, first, first + n - 1, tags);
      TimesNext(|tags|, n - 1);
    } else {
      assert TagsOver(prefix, first, first - 1, tags) == [];
    }
  }

  lemma HoldingLength(h: Holding)
    requires h.qty == |h.tags|
    ensures |CoveredBy(Group(h.group.prefix, h.group.first, h.group.last, h.tags))| == h.qty * h.group.Count()
  {
    CoverLength(h.group.prefix, h.group.first, h.group.Count(), h.tags);
    if h.group.Count() == 0 {
      assert TagsOver(h.group.prefix, h.group.first, h.group.last, h.tags)
          == TagsOver(h.group.prefix, h.group.first, h.group.first - 1, h.tags);
    }
  }

  lemma CoverSnoc(prefix: string, first: nat, last: int, tags: seq<string>)
    requires last >= first
    ensures Concat(TagsOver(prefix, first, last, tags)) == Concat(TagsOver(prefix, first, last - 1, tags)) + TagsAt(prefix, last, tags)
  {
    assert TagsOver(prefix, first, last, tags) == TagsOver(prefix, first, last - 1, tags) + [TagsAt(prefix, last, tags)];
    ConcatSnoc(TagsOver(prefix, first, last - 1, tags), TagsAt(prefix, last, tags));
  }

  ghost predicate HeldCounted(held: seq<Holding>) {
    forall i :: 0 <= i < |held| ==> held[i].qty == |held[i].tags|
  }

  /** A line's quantity is the number of devices its reference designators name. */
  lemma {:induction false} QtyCountsTags(held: seq<Holding>)
    requires HeldCounted(held)
    ensures HeldQty(held) == |Covered(LabelGroups(held))|
  {
    if held != [] {
      var init, h := held[..|held| - 1], held[|held| - 1];
      QtyCountsTags(init);
      var g := Group(h.group.prefix, h.group.first, h.group.last, h.tags);
      assert LabelGroups(held) == LabelGroups(init) + [g];
      CoveredSnoc(LabelGroups(init), g);
      HoldingLength(h);
    }
  }

  // ----- holdings of a group, told by its tags -----

  /** Site tags one group of containers holds of an equipment id. */
  function GroupTags(g: ContainerGroup, eid: string): seq<string> {
    CoveredBy(Group(g.prefix, g.first, g.last, BomTags(g.bom.parts, eid)))
  }

  function AllGroupTags(groups: seq<ContainerGroup>, eid: string): seq<string> {
    Concat(Map((g: ContainerGroup) => GroupTags(g, eid), groups))
  }

  lemma {:induction false} CoverBoth(prefix: string, first: nat, last: int, a: seq<string>, b: seq<string>)
    ensures multiset(Concat(TagsOver(prefix, first, last, a + b)))
         == multiset(Concat(TagsOver(prefix, first, last, a))) + multiset(Concat(TagsOver(prefix, first, last, b)))
    decreases last - first
  {
    if last >= first {
      CoverBoth(prefix, first, last - 1, a, b);
      CoverSnoc(prefix, first, last, a);
      CoverSnoc(prefix, first, last, b);
      CoverSnoc(prefix, first, last, a + b);
      assert TagsAt(prefix, last, a + b) == TagsAt(prefix, last, a) + TagsAt(prefix, last, b);
    } else {
      assert TagsOver(prefix, first, last, a) == TagsOver(prefix, first, last, b) == TagsOver(prefix, first, last, a + b) == [];
    }
  }

  function HeldFrom(g: ContainerGroup, parts: seq<Part>, eid: string): seq<Holding> {
    Concat(Map((p: Part) => HoldingOf(g, p, eid), parts))
  }

  lemma HeldFromSnoc(g: ContainerGroup, parts: seq<Part>, p: Part, eid: string)
    ensures HeldFrom(g, parts + [p], eid) == HeldFrom(g, parts, eid) + HoldingOf(g, p, eid)
  {
    var f := (p: Part) => HoldingOf(g, p, eid);
    MapAppend(f, parts, [p]);
    assert Map(f, parts + [p]) == Map(f, parts) + [HoldingOf(g, p, eid)];
    ConcatSnoc(Map(f, parts), HoldingOf(g, p, eid));
  }

  lemma LabelGroupsAppend(a: seq<Holding>, b: seq<Holding>)
    ensures Covered(LabelGroups(a + b)) == Covered(LabelGroups(a)) + Covered(LabelGroups(b))
  {
    var f := (g: Group) => CoveredBy(g);
    assert LabelGroups(a + b) == LabelGroups(a) + LabelGroups(b);
    MapAppend(f, LabelGroups(a), LabelGroups(b));
    ConcatAppend(Map(f, LabelGroups(a)), Map(f, LabelGroups(b)));
  }

  lemma HoldingCover(g: ContainerGroup, p: Part, eid: string)
    ensures Covered(LabelGroups(HoldingOf(g, p, eid)))
         == if p.equipmentId == eid then CoveredBy(Group(g.prefix, g.first, g.last, p.tags)) else []
  {
    if p.equipmentId == eid {
      var one := Group(g.prefix, g.first, g.last, p.tags);
      assert LabelGroups(HoldingOf(g, p, eid)) == [one];
      CoveredOne(one);
    }
  }

  lemma {:induction false} PartsCover(g: ContainerGroup, parts: seq<Part>, eid: string)
    ensures multiset(Covered(LabelGroups(HeldFrom(g, parts, eid))))
         == multiset(CoveredBy(Group(g.prefix, g.first, g.last, BomTags(parts, eid))))
  {
    if parts == [] {
      NoTagsNoCover(g.prefix, g.first, g.last);
    } else {
      var init, p := parts[..|parts| - 1], parts[|parts| - 1];
      assert parts == init + [p];
      PartsCover(g, init, eid);
      HeldFromSnoc(g, init, p, eid);
      LabelGroupsAppend(HeldFrom(g, init, eid), HoldingOf(g, p, eid));
      HoldingCover(g, p, eid);
      CoverBoth(g.prefix, g.first, g.last, BomTags(init, eid), p.tags);
      if p.equipmentId != eid {
        assert BomTags(parts, eid) == BomTags(init, eid);
      }
    }
  }

  lemma HeldSnoc(init: seq<ContainerGroup>, g: ContainerGroup, eid: string)
    ensures Held(init + [g], eid) == Held(init, eid) + HeldBy(g, eid)
    ensures AllGroupTags(init + [g], eid) == AllGroupTags(init, eid) + GroupTags(g, eid)
  {
    var f, t := (g: ContainerGroup) => HeldBy(g, eid), (g: ContainerGroup) => GroupTags(g, eid);
    assert Map(f, init + [g]) == Map(f, init) + [HeldBy(g, eid)];
    assert Map(t, init + [g]) == Map(t, init) + [GroupTags(g, eid)];
    ConcatSnoc(Map(f, init), HeldBy(g, eid));
    ConcatSnoc(Map(t, init), GroupTags(g, eid));
  }

  /** What a section's holdings of an equipment id cover, group by group. */
  lemma {:induction false} HeldCover(groups: seq<ContainerGroup>, eid: string)
    ensures multiset(Covered(LabelGroups(Held(groups, eid)))) == multiset(AllGroupTags(groups, eid))
  {
    if groups != [] {
      var init, g := groups[..|groups| - 1], groups[|groups| - 1];
      assert groups == init + [g];
      HeldCover(init, eid);
      HeldSnoc(init, g, eid);
      LabelGroupsAppend(Held(init, eid), HeldBy(g, eid));
      PartsCover(g, g.bom.parts, eid);
    }
  }

  lemma HeldIsCounted(groups: seq<ContainerGroup>, eid: string)
    requires forall k :: 0 <= k < |groups| ==> Counted(groups[k].bom.parts)
    ensures HeldCounted(Held(groups, eid))
  {
    var f := (g: ContainerGroup) => HeldBy(g, eid);
    forall i | 0 <= i < |Held(groups, eid)| ensures Held(groups, eid)[i].qty == |Held(groups, eid)[i].tags| {
      var h := Held(groups, eid)[i];
      ConcatMember(Map(f, groups), h);
      var k :| 0 <= k < |groups| && h in Map(f, groups)[k];
      HoldingFrom(groups[k], eid, h);
    }
  }

  lemma HoldingFrom(g: ContainerGroup, eid: string, h: Holding)
    requires h in HeldBy(g, eid) && Counted(g.bom.parts)
    ensures h.qty == |h.tags|
  {
    var f := (p: Part) => HoldingOf(g, p, eid);
    ConcatMember(Map(f, g.bom.parts), h);
    var i :| 0 <= i < |g.bom.parts| && h in Map(f, g.bom.parts)[i];
  }

  // ----- lines of a section -----

  /** Ordered quantity of an equipment id over some lines. */
  function QtyOf(lines: seq<Line>, eid: string): nat {
    if lines == [] then 0
    else QtyOf(lines[..|lines| - 1], eid) + if lines[|lines| - 1].equipmentId == Some(eid) then lines[|lines| - 1].qty else 0
  }

  lemma {:induction false} QtyAppend(a: seq<Line>, b: seq<Line>, eid: string)
    ensures QtyOf(a + b, eid) == QtyOf(a, eid) + QtyOf(b, eid)
  {
    if b == [] {
      assert a + b == a;
    } else {
      assert (a + b)[..|a + b| - 1] == a + b[..|b| - 1];
      QtyAppend(a, b[..|b| - 1], eid);
    }
  }

  lemma {:induction false} QtyNone(lines: seq<Line>, eid: string)
    requires forall i :: 0 <= i < |lines| ==> lines[i].equipmentId != Some(eid)
    ensures QtyOf(lines, eid) == 0
  {
    if lines != [] {
      QtyNone(lines[..|lines| - 1], eid);
    }
  }

  lemma {:induction false} FirstSeenMember(ids: seq<string>, id: string)
    ensures id in FirstSeen(ids) <==> id in ids
  {
    if ids != [] {
      FirstSeenMember(ids[..|ids| - 1], id);
      FirstSeenMember(ids[..|ids| - 1], ids[|ids| - 1]);
      assert ids == ids[..|ids| - 1] + [ids[|ids| - 1]];
    }
  }

  lemma {:induction false} FirstSeenDistinct(ids: seq<string>)
    ensures Distinct(FirstSeen(ids))
  {
    if ids != [] {
      FirstSeenDistinct(ids[..|ids| - 1]);
    }
  }

  /** spec.yaml carries the id it is published under. */
  ghost predicate SpecsNamed(cat: PartsCatalog) {
    forall e :: e in cat.specs ==> cat.specs[e].equipmentId == e
  }

  lemma {:induction false} QtySnoc(lines: seq<Line>, line: Line, eid: string)
    ensures QtyOf(lines + [line], eid) == QtyOf(lines, eid) + if line.equipmentId == Some(eid) then line.qty else 0
  {
    assert (lines + [line])[..|lines|] == lines;
  }

  lemma PartLinesLast(cat: PartsCatalog, groups: seq<ContainerGroup>, section: Section, ids: seq<string>)
    requires PartLines(cat, groups, section, ids).Ok? && ids != []
    ensures var init, id := ids[..|ids| - 1], ids[|ids| - 1];
            && PartLines(cat, groups, section, init).Ok? && PartLine(cat, groups, section, id).Ok?
            && PartLines(cat, groups, section, ids).value
               == PartLines(cat, groups, section, init).value + [PartLine(cat, groups, section, id).value]
  {
  }

  lemma {:induction false} PartLinesQty(cat: PartsCatalog, groups: seq<ContainerGroup>, section: Section, ids: seq<string>, eid: string)
    requires PartLines(cat, groups, section, ids).Ok? && Distinct(ids) && SpecsNamed(cat)
    ensures QtyOf(PartLines(cat, groups, section, ids).value, eid) == if eid in ids then HeldQty(Held(groups, eid)) else 0
  {
    if ids != [] {
      var init, id := ids[..|ids| - 1], ids[|ids| - 1];
      PartLinesLast(cat, groups, section, ids);
      PartLinesQty(cat, groups, section, init, eid);
      PartLineIs(cat, groups, section, id);
      QtySnoc(PartLines(cat, groups, section, init).value, PartLine(cat, groups, section, id).value, eid);
      MemberOfSnoc(ids, eid);
    }
  }

  lemma PartLineIs(cat: PartsCatalog, groups: seq<ContainerGroup>, section: Section, id: string)
    requires PartLine(cat, groups, section, id).Ok? && SpecsNamed(cat)
    ensures var line := PartLine(cat, groups, section, id).value;
            line.equipmentId == Some(id) && line.qty == HeldQty(Held(groups, id)) && line.refDes == RefOf(Held(groups, id))
  {
  }

  lemma MemberOfSnoc(ids: seq<string>, id: string)
    requires ids != [] && Distinct(ids)
    ensures Distinct(ids[..|ids| - 1])
    ensures id in ids <==> id in ids[..|ids| - 1] || id == ids[|ids| - 1]
    ensures ids[|ids| - 1] !in ids[..|ids| - 1]
  {
    assert ids == ids[..|ids| - 1] + [ids[|ids| - 1]];
  }

  lemma {:induction false} PlateLinesQty(cat: PartsCatalog, groups: seq<ContainerGroup>, section: Section, defense: bool, ids: seq<string>, eid: string)
    requires PlateLines(cat, groups, section, defense, ids).Ok?
    ensures QtyOf(PlateLines(cat, groups, section, defense, ids).value, eid) == 0
  {
    if ids != [] {
      PlateLinesQty(cat, groups, section, defense, ids[..|ids| - 1], eid);
      var all, init := PlateLines(cat, groups, section, defense, ids).value, PlateLines(cat, groups, section, defense, ids[..|ids| - 1]).value;
      assert all[..|all| - 1] == init;
    }
  }

  lemma HeldIsListed(groups: seq<ContainerGroup>, eid: string, h: Holding)
    requires h in Held(groups, eid)
    ensures eid in AllPartIds(groups)
  {
    var f, ids := (g: ContainerGroup) => HeldBy(g, eid), (g: ContainerGroup) => PartIds(g);
    ConcatMember(Map(f, groups), h);
    var k :| 0 <= k < |groups| && h in Map(f, groups)[k];
    var hold := (p: Part) => HoldingOf(groups[k], p, eid);
    ConcatMember(Map(hold, groups[k].bom.parts), h);
    var i :| 0 <= i < |groups[k].bom.parts| && h in Map(hold, groups[k].bom.parts)[i];
    assert PartIds(groups[k])[i] == eid;
    ConcatMember(Map(ids, groups), eid);
    assert eid in Map(ids, groups)[k];
  }

  lemma NotHeld(groups: seq<ContainerGroup>, eid: string)
    requires eid !in AllPartIds(groups)
    ensures Held(groups, eid) == []
  {
    if Held(groups, eid) != [] {
      HeldIsListed(groups, eid, Held(groups, eid)[0]);
    }
  }

  /** One section orders, of each equipment id, exactly what its containers hold. */
  lemma {:induction false} SectionQty(cat: PartsCatalog, groups: seq<ContainerGroup>, defense: bool, eid: string)
    requires SectionLines(cat, groups, defense).Ok? && SpecsNamed(cat)
    requires forall k :: 0 <= k < |groups| ==> Counted(groups[k].bom.parts)
    ensures QtyOf(SectionLines(cat, groups, defense).value, eid) == |AllGroupTags(groups, eid)|
  {
    if groups != [] {
      SectionLinesQty(cat, groups, defense, eid);
      HeldIsCounted(groups, eid);
      QtyCountsTags(Held(groups, eid));
      HeldCover(groups, eid);
      assert |multiset(Covered(LabelGroups(Held(groups, eid))))| == |multiset(AllGroupTags(groups, eid))|;
    }
  }

  lemma {:induction false} SectionLinesQty(cat: PartsCatalog, groups: seq<ContainerGroup>, defense: bool, eid: string)
    requires SectionLines(cat, groups, defense).Ok? && SpecsNamed(cat) && groups != []
    ensures QtyOf(SectionLines(cat, groups, defense).value, eid) == HeldQty(Held(groups, eid))
  {
    var section, ids := groups[0].section, FirstSeen(AllPartIds(groups));
    var parts := PartLines(cat, groups, section, ids).value;
    var plates := PlateLines(cat, groups, section, defense, FirstSeen(AllPlateIds(groups))).value;
    var shell := [SectionLines(cat, groups, defense).value[0]];
    assert SectionLines(cat, groups, defense).value == shell + parts + plates;
    QtyAppend(shell + parts, plates, eid);
    QtyAppend(shell, parts, eid);
    QtyNone(shell, eid);
    FirstSeenDistinct(AllPartIds(groups));
    FirstSeenMember(AllPartIds(groups), eid);
    PartLinesQty(cat, groups, section, ids, eid);
    PlateLinesQty(cat, groups, section, defense, FirstSeen(AllPlateIds(groups)), eid);
    if eid !in ids {
      NotHeld(groups, eid);
    }
  }
}
