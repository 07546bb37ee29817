/** What the finished BOM says: quantities and labels, line by line, against the devices of the DTM. */
module BomHardware {
  import opened Lists
  import opened Text
  import opened Catalog
  import opened ComputeNodes
  import opened Dtm
  import opened SitePlan
  import opened DtmSpec
  import opened DtmSoundness
  import opened SiteShape
  import opened ContainerGear
  import opened DualPath
  import opened RefDes
  import opened ContainerLabels
  import opened BomModel
  import opened BomCoverage
  import opened BomPricing
  import opened BomGenerator
  import opened BomSite
  import opened Sorting

  // ----- groups tile their containers -----

  /** At most two groups, the second starting where the first ends. */
  ghost predicate Tiled(groups: seq<ContainerGroup>, section: Section, prefix: string) {
    && |groups| <= 2
    && (forall k :: 0 <= k < |groups| ==> groups[k].first <= groups[k].last && groups[k].prefix == prefix && groups[k].section == section)
    && (|groups| == 2 ==> groups[1].first == groups[0].last + 1)
  }

  function LastContainer(groups: seq<ContainerGroup>): nat {
    if groups == [] then 0 else groups[|groups| - 1].last
  }

  /** Groups tile C1..CN and G1..GM: no container left out, none in two groups. */
  lemma GroupsTile(m: Manifest, prof: Profile, order: Order, bom: BomYaml, grid: seq<ContainerGroup>)
    requires GridGroups(m, prof, order.gridQty) == Ok(grid)
    ensures Tiled(ComputeGroups(order, bom), ComputeSection, "C") && Tiled(grid, GridSection, "G")
    ensures ComputeGroups(order, bom) != [] && ComputeGroups(order, bom)[0].first == 1
    ensures LastContainer(ComputeGroups(order, bom)) == order.computeQty
    ensures prof.gridContainer.Some? ==> grid != [] && grid[0].first == 1 && LastContainer(grid) == order.gridQty
  {
  }

  // ----- sections keep apart -----

  lemma {:induction false} SectionsSplit(compute: seq<ContainerGroup>, grid: seq<ContainerGroup>)
    requires Tiled(compute, ComputeSection, "C") && Tiled(grid, GridSection, "G")
    ensures Filter(InSection(ComputeSection), compute + grid) == compute
    ensures Filter(InSection(GridSection), compute + grid) == grid
  {
    FilterAppend(InSection(ComputeSection), compute, grid);
    FilterAppend(InSection(GridSection), compute, grid);
    FilterAll(InSection(ComputeSection), compute);
    FilterNone(InSection(ComputeSection), grid);
    FilterNone(InSection(GridSection), compute);
    FilterAll(InSection(GridSection), grid);
    assert compute + [] == compute && [] + grid == grid;
  }

  ghost predicate AllCounted(groups: seq<ContainerGroup>) {
    forall k :: 0 <= k < |groups| ==> Counted(groups[k].bom.parts)
  }

  lemma GridCounted(pinned: Manifest, fetched: Manifest, prof: Profile, gridQty: nat, templates: Templates, grid: seq<ContainerGroup>)
    requires GridsListed(pinned, fetched, prof, gridQty, templates) && GridGroups(fetched, prof, gridQty) == Ok(grid)
    ensures AllCounted(grid)
  {
  }

  lemma ComputeCounted(order: Order, bom: BomYaml)
    requires Counted(bom.parts)
    ensures AllCounted(ComputeGroups(order, bom))
  {
    WithoutTags(bom.parts, DroppedTags(NodesInContainer(order.nodes, order.computeQty)), "");
  }

  // ----- reading lines back -----

  /** The site tags a line's reference designators name. */
  function TagsRead(line: Line): seq<string> {
    if line.section == SiteSection then if line.refDes == "" then [] else Expand(line.refDes)
    else ReadRefDes(line.refDes)
  }

  function LineTags(line: Line, eid: string): seq<string> {
    if line.equipmentId == Some(eid) then TagsRead(line) else []
  }

  /** Every site tag the BOM names for an equipment id. */
  function NamedBy(lines: seq<Line>, eid: string): seq<string> { Concat(Map((l: Line) => LineTags(l, eid), lines)) }

  lemma NamedSnoc(lines: seq<Line>, line: Line, eid: string)
    ensures NamedBy(lines + [line], eid) == NamedBy(lines, eid) + LineTags(line, eid)
  {
    MapSnoc((l: Line) => LineTags(l, eid), lines, line);
    ConcatSnoc(Map((l: Line) => LineTags(l, eid), lines), LineTags(line, eid));
  }

  lemma NamedAppend(a: seq<Line>, b: seq<Line>, eid: string)
    ensures NamedBy(a + b, eid) == NamedBy(a, eid) + NamedBy(b, eid)
  {
    MapAppend((l: Line) => LineTags(l, eid), a, b);
    ConcatAppend(Map((l: Line) => LineTags(l, eid), a), Map((l: Line) => LineTags(l, eid), b));
  }

  lemma {:induction false} NamedNone(lines: seq<Line>, eid: string)
    requires forall i :: 0 <= i < |lines| ==> lines[i].equipmentId != Some(eid)
    ensures NamedBy(lines, eid) == []
  {
    if lines != [] {
      var init, l := lines[..|lines| - 1], lines[|lines| - 1];
      assert lines == init + [l];
      NamedNone(init, eid);
      NamedSnoc(init, l, eid);
    }
  }

  // ----- a part line's label -----

  /** Tags as bom.yaml writes them: no separators inside, numbers without padding. */
  ghost predicate Tidy(t: string) {
    Printable(t) && FreeOf(t, ':') && FreeOf(t, ';') && (HasNumber(t) ==> Canonical(Digits(t)))
  }

  ghost predicate TidyParts(parts: seq<Part>) {
    && (forall i, t :: 0 <= i < |parts| && t in parts[i].tags ==> Tidy(t))
    && IdsApart(parts)
  }

  lemma TidyIsPlain(tags: seq<string>)
    requires forall t :: t in tags ==> Tidy(t)
    ensures PlainTags(tags)
  {
    RunsGroup(tags);
    forall k | 0 <= k < |Runs(tags)| ensures Faithful(Runs(tags)[k]) {
      assert Consecutive(Runs(tags)[k]);
      forall j | 0 <= j < |Runs(tags)[k]| && HasNumber(Runs(tags)[k][j]) ensures Canonical(Digits(Runs(tags)[k][j])) {
        RunTags(tags, k, j);
      }
      CanonicalIsFaithful(Runs(tags)[k]);
    }
  }

  lemma PartWithoutTidy(p: Part, drop: set<string>)
    requires forall t :: t in p.tags ==> Tidy(t)
    ensures forall i, t :: 0 <= i < |PartWithout(p, drop)| && t in PartWithout(p, drop)[i].tags ==> Tidy(t)
    ensures forall i :: 0 <= i < |PartWithout(p, drop)| ==> PartWithout(p, drop)[i].equipmentId == p.equipmentId
  {
    forall t | t in KeptOf(p.tags, drop) ensures Tidy(t) {
      FilterMember((t: string) => Kept(t, drop), p.tags, t);
    }
  }

  lemma {:induction false} PartFrom(parts: seq<Part>, drop: set<string>, i: nat) returns (k: nat)
    requires i < |PartsWithout(parts, drop)|
    ensures k < |parts| && PartsWithout(parts, drop)[i] in PartWithout(parts[k], drop)
    ensures PartsWithout(parts, drop)[i].equipmentId == parts[k].equipmentId
  {
    var last := |parts| - 1;
    if i < |PartsWithout(parts[..last], drop)| {
      k := PartFrom(parts[..last], drop, i);
    } else {
      k := last;
    }
  }

  ghost predicate IdsApart(parts: seq<Part>) {
    forall i, j :: 0 <= i < j < |parts| ==> parts[i].equipmentId != parts[j].equipmentId
  }

  lemma IdsApartAppend(a: seq<Part>, b: seq<Part>, id: string)
    requires IdsApart(a) && |b| <= 1
    requires forall i :: 0 <= i < |a| ==> a[i].equipmentId != id
    requires forall i :: 0 <= i < |b| ==> b[i].equipmentId == id
    ensures IdsApart(a + b)
  {
    forall i, j | 0 <= i < j < |a + b| ensures (a + b)[i].equipmentId != (a + b)[j].equipmentId {
      if j >= |a| {
        assert j - |a| == 0 && b[0].equipmentId == id;
      }
    }
  }

  lemma {:induction false} WithoutKeepsIdsApart(parts: seq<Part>, drop: set<string>)
    requires IdsApart(parts)
    ensures IdsApart(PartsWithout(parts, drop))
  {
    if parts != [] {
      var last := |parts| - 1;
      var init := PartsWithout(parts[..last], drop);
      WithoutKeepsIdsApart(parts[..last], drop);
      forall i | 0 <= i < |init| ensures init[i].equipmentId != parts[last].equipmentId {
        var k := PartFrom(parts[..last], drop, i);
        assert parts[..last][k] == parts[k];
      }
      IdsApartAppend(init, PartWithout(parts[last], drop), parts[last].equipmentId);
    }
  }

  lemma {:induction false} WithoutTidy(parts: seq<Part>, drop: set<string>)
    requires TidyParts(parts)
    ensures TidyParts(PartsWithout(parts, drop))
  {
    var kept := PartsWithout(parts, drop);
    WithoutKeepsIdsApart(parts, drop);
    forall i, t | 0 <= i < |kept| && t in kept[i].tags ensures Tidy(t) {
      var k := PartFrom(parts, drop, i);
      PartWithoutTidy(parts[k], drop);
    }
  }

  /** What one group of containers holds of an equipment id: nothing, or one part of its bom.yaml. */
  lemma {:induction false} OneHolding(g: ContainerGroup, parts: seq<Part>, eid: string)
    requires TidyParts(parts)
    ensures |HeldFrom(g, parts, eid)| <= 1
    ensures forall h :: h in HeldFrom(g, parts, eid) ==> h.group == g && forall t :: t in h.tags ==> Tidy(t)
    ensures HeldFrom(g, parts, eid) != [] ==> exists i :: 0 <= i < |parts| && parts[i].equipmentId == eid
  {
    if parts != [] {
      var init, p := parts[..|parts| - 1], parts[|parts| - 1];
      assert parts == init + [p];
      OneHolding(g, init, eid);
      HeldFromSnoc(g, init, p, eid);
    }
  }

  ghost predicate GroupsTidy(groups: seq<ContainerGroup>) {
    forall k :: 0 <= k < |groups| ==> TidyParts(groups[k].bom.parts)
  }

  ghost predicate ReadsBack(held: seq<Holding>) {
    Contiguous(LabelGroups(held)) && forall k :: 0 <= k < |LabelGroups(held)| ==> PlainGroup(LabelGroups(held)[k])
  }

  lemma OneHeld(g: ContainerGroup, eid: string)
    ensures Held([g], eid) == HeldBy(g, eid)
  {
    assert [] + [g] == [g];
    HeldSnoc([], g, eid);
    assert [] + HeldBy(g, eid) == HeldBy(g, eid);
  }

  lemma HeldReadsBack(groups: seq<ContainerGroup>, section: Section, prefix: string, eid: string)
    requires Tiled(groups, section, prefix) && GroupsTidy(groups) && PlainPrefix(prefix)
    ensures ReadsBack(Held(groups, eid))
  {
    if |groups| == 1 {
      assert groups == [groups[0]];
      OneHeld(groups[0], eid);
      OneHolding(groups[0], groups[0].bom.parts, eid);
      HoldingsPlain(HeldBy(groups[0], eid), prefix);
    } else if |groups| == 2 {
      assert groups == [groups[0], groups[1]];
      TwoHeld(groups[0], groups[1], eid);
      OneHolding(groups[0], groups[0].bom.parts, eid);
      OneHolding(groups[1], groups[1].bom.parts, eid);
      BothPlain(HeldBy(groups[0], eid), HeldBy(groups[1], eid), groups[0], groups[1], prefix);
    }
  }

  lemma BothPlain(a: seq<Holding>, b: seq<Holding>, g: ContainerGroup, h: ContainerGroup, prefix: string)
    requires PlainPrefix(prefix) && |a| <= 1 && |b| <= 1
    requires g.prefix == prefix && g.first <= g.last && h.prefix == prefix && h.first <= h.last && h.first == g.last + 1
    requires forall x :: x in a ==> x.group == g && forall t :: t in x.tags ==> Tidy(t)
    requires forall x :: x in b ==> x.group == h && forall t :: t in x.tags ==> Tidy(t)
    ensures ReadsBack(a + b)
  {
    var held := a + b;
    assert forall k :: 0 <= k < |held| ==> held[k] in a || held[k] in b;
    HoldingsPlain(held, prefix);
  }

  lemma TwoHeld(g: ContainerGroup, h: ContainerGroup, eid: string)
    ensures Held([g, h], eid) == HeldBy(g, eid) + HeldBy(h, eid)
  {
    assert [] + [g] == [g] && [g] + [h] == [g, h];
    HeldSnoc([], g, eid);
    HeldSnoc([g], h, eid);
    assert [] + HeldBy(g, eid) == HeldBy(g, eid);
  }

  lemma HoldingsPlain(held: seq<Holding>, prefix: string)
    requires PlainPrefix(prefix)
    requires forall k :: 0 <= k < |held| ==> held[k].group.prefix == prefix && held[k].group.first <= held[k].group.last
    requires forall k, t :: 0 <= k < |held| && t in held[k].tags ==> Tidy(t)
    requires forall k :: 0 < k < |held| ==> held[k].group.first == held[k - 1].group.last + 1
    ensures ReadsBack(held)
  {
    var groups := LabelGroups(held);
    forall k | 0 <= k < |groups| ensures PlainGroup(groups[k]) {
      TidyIsPlain(held[k].tags);
    }
  }

  lemma SpanReadsNothing(prefix: string, first: nat, last: nat)
    requires PlainPrefix(prefix)
    ensures ReadRefDes(RangeLabel(prefix, first, last)) == []
  {
    var s := RangeLabel(prefix, first, last);
    RangeLabelFree(prefix, first, last, ';');
    RangeLabelFree(prefix, first, last, ':');
    CutNone(s, ';');
    CutNone(s, ':');
    assert Split(s, ';') == [s];
    assert Map((part: string) => ReadLabel(part), [s]) == [] + [[]];
    ConcatSnoc<string>([], []);
  }

  /** A part line's printed label reads back to the tags its containers hold. */
  lemma RefReads(held: seq<Holding>)
    requires ReadsBack(held)
    ensures ReadRefDes(RefOf(held)) == Covered(LabelGroups(held))
  {
    RefDesReadsBack(LabelGroups(held));
    if PrintRefDes(LabelGroups(held)) == "" && held != [] {
      assert PlainGroup(LabelGroups(held)[0]);
      SpanReadsNothing(held[0].group.prefix, held[0].group.first, held[|held| - 1].group.last);
    }
  }

  // ----- lines of a section -----

  lemma {:induction false} PartLinesNamed(cat: PartsCatalog, groups: seq<ContainerGroup>, section: Section, ids: seq<string>, eid: string)
    requires PartLines(cat, groups, section, ids).Ok? && Distinct(ids) && SpecsNamed(cat) && section != SiteSection
    requires ReadsBack(Held(groups, eid))
    ensures NamedBy(PartLines(cat, groups, section, ids).value, eid) == if eid in ids then Covered(LabelGroups(Held(groups, eid))) else []
  {
    if ids != [] {
      var init, id := ids[..|ids| - 1], ids[|ids| - 1];
      var line := PartLine(cat, groups, section, id);
      PartLinesLast(cat, groups, section, ids);
      MemberOfSnoc(ids, eid);
      PartLinesNamed(cat, groups, section, init, eid);
      PartLineNamed(cat, groups, section, id, eid);
      NamedSnoc(PartLines(cat, groups, section, init).value, line.value, eid);
    }
  }

  lemma PartLineNamed(cat: PartsCatalog, groups: seq<ContainerGroup>, section: Section, id: string, eid: string)
    requires PartLine(cat, groups, section, id).Ok? && SpecsNamed(cat) && section != SiteSection && ReadsBack(Held(groups, eid))
    ensures LineTags(PartLine(cat, groups, section, id).value, eid) == if id == eid then Covered(LabelGroups(Held(groups, eid))) else []
  {
    PartLineIs(cat, groups, section, id);
    if id == eid {
      RefReads(Held(groups, eid));
    }
  }

  lemma {:induction false} PlatesCarryNoEquipment(cat: PartsCatalog, groups: seq<ContainerGroup>, section: Section, defense: bool, ids: seq<string>)
    requires PlateLines(cat, groups, section, defense, ids).Ok?
    ensures var lines := PlateLines(cat, groups, section, defense, ids).value;
            forall i :: 0 <= i < |lines| ==> lines[i].equipmentId.None?
  {
    if ids != [] {
      PlatesCarryNoEquipment(cat, groups, section, defense, ids[..|ids| - 1]);
    }
  }

  lemma {:induction false} PlateLinesNamed(cat: PartsCatalog, groups: seq<ContainerGroup>, section: Section, defense: bool, ids: seq<string>, eid: string)
    requires PlateLines(cat, groups, section, defense, ids).Ok?
    ensures NamedBy(PlateLines(cat, groups, section, defense, ids).value, eid) == []
  {
    PlatesCarryNoEquipment(cat, groups, section, defense, ids);
    NamedNone(PlateLines(cat, groups, section, defense, ids).value, eid);
  }

  lemma SectionParts(cat: PartsCatalog, groups: seq<ContainerGroup>, defense: bool) returns (shell: Line, parts: seq<Line>, plates: seq<Line>)
    requires SectionLines(cat, groups, defense).Ok? && groups != []
    ensures SectionLines(cat, groups, defense).value == [shell] + parts + plates
    ensures shell == ShellLine(groups[0].bom.shell, TotalContainers(groups), groups[0].section, shell.refDes)
    ensures PartLines(cat, groups, groups[0].section, FirstSeen(AllPartIds(groups))) == Ok(parts)
    ensures PlateLines(cat, groups, groups[0].section, defense, FirstSeen(AllPlateIds(groups))) == Ok(plates)
  {
    var section := groups[0].section;
    parts := PartLines(cat, groups, section, FirstSeen(AllPartIds(groups))).value;
    plates := PlateLines(cat, groups, section, defense, FirstSeen(AllPlateIds(groups))).value;
    shell := SectionLines(cat, groups, defense).value[0];
  }

  lemma {:induction false} PartsNamed(cat: PartsCatalog, groups: seq<ContainerGroup>, section: Section, parts: seq<Line>, eid: string)
    requires PartLines(cat, groups, section, FirstSeen(AllPartIds(groups))) == Ok(parts)
    requires SpecsNamed(cat) && section != SiteSection && ReadsBack(Held(groups, eid))
    ensures NamedBy(parts, eid) == Covered(LabelGroups(Held(groups, eid)))
  {
    FirstSeenDistinct(AllPartIds(groups));
    FirstSeenMember(AllPartIds(groups), eid);
    PartLinesNamed(cat, groups, section, FirstSeen(AllPartIds(groups)), eid);
    if eid !in AllPartIds(groups) {
      NotHeld(groups, eid);
      assert Covered(LabelGroups([])) == [];
    }
  }

  lemma NamedAround(shell: Line, parts: seq<Line>, plates: seq<Line>, eid: string)
    requires shell.equipmentId != Some(eid) && NamedBy(plates, eid) == []
    ensures NamedBy([shell] + parts + plates, eid) == NamedBy(parts, eid)
  {
    NamedAppend([shell] + parts, plates, eid);
    NamedAppend([shell], parts, eid);
    NamedNone([shell], eid);
    assert [] + NamedBy(parts, eid) + [] == NamedBy(parts, eid);
  }

  /** A section's labels name, for each equipment id, exactly what its containers hold. */
  lemma SectionNamed(cat: PartsCatalog, groups: seq<ContainerGroup>, defense: bool, section: Section, prefix: string, eid: string)
    requires SectionLines(cat, groups, defense).Ok? && SpecsNamed(cat) && section != SiteSection
    requires Tiled(groups, section, prefix) && GroupsTidy(groups) && PlainPrefix(prefix)
    ensures multiset(NamedBy(SectionLines(cat, groups, defense).value, eid)) == multiset(AllGroupTags(groups, eid))
  {
    if groups != [] {
      var shell, parts, plates := SectionParts(cat, groups, defense);
      HeldReadsBack(groups, section, prefix, eid);
      PartsNamed(cat, groups, section, parts, eid);
      PlateLinesNamed(cat, groups, section, defense, FirstSeen(AllPlateIds(groups)), eid);
      NamedAround(shell, parts, plates, eid);
      HeldCover(groups, eid);
    }
  }

  // ----- PCS -----

  lemma {:induction false} PcsTagTidy(i: nat)
    ensures Tidy("PCS-" + Dec(i))
  {
    NumberedReads("PCS-", i);
    NumOfDec(i);
    NoSpaceIsFree("PCS-" + Dec(i), ',');
    NoSpaceIsFree("PCS-" + Dec(i), ':');
    NoSpaceIsFree("PCS-" + Dec(i), ';');
  }

  lemma PcsTagsReadBack(n: nat)
    ensures Compressed(PcsTags(n)) == "" <==> n == 0
    ensures n > 0 ==> Expand(Compressed(PcsTags(n))) == PcsTags(n)
  {
    var tags := PcsTags(n);
    if n > 0 {
      forall t | t in tags ensures Tidy(t) {
        var i :| 0 <= i < |tags| && tags[i] == t;
        PcsTagTidy(i + 1);
      }
      CanonicalTagsReadBack(tags);
    }
    LabelNonempty(tags);
  }

  lemma {:induction false} OneLine(line: Line, eid: string)
    ensures QtyOf([line], eid) == if line.equipmentId == Some(eid) then line.qty else 0
    ensures NamedBy([line], eid) == LineTags(line, eid)
  {
    assert [] + [line] == [line];
    QtySnoc([], line, eid);
    NamedSnoc([], line, eid);
  }

  lemma {:induction false} PcsNamed(cat: PartsCatalog, order: Order, eid: string)
    requires PcsLines(cat, order).Ok? && SpecsNamed(cat)
    ensures QtyOf(PcsLines(cat, order).value, eid) == if order.coupling == DcExternalPcs && eid == PCS_ID then order.pcsQty else 0
    ensures NamedBy(PcsLines(cat, order).value, eid)
         == if order.coupling == DcExternalPcs && eid == PCS_ID then PcsTags(order.pcsQty) else []
  {
    var lines := PcsLines(cat, order).value;
    if order.coupling == DcExternalPcs {
      assert lines == [lines[0]];
      OneLine(lines[0], eid);
      PcsTagsReadBack(order.pcsQty);
    }
  }

  lemma LabelNonempty(tags: seq<string>)
    requires tags != [] ==> tags[0] != ""
    ensures Compressed(tags) == "" <==> tags == []
  {
    if tags != [] {
      RunsGroup(tags);
      RunsNonempty(tags);
      var run := Runs(tags)[0];
      assert Consecutive(run);
      FirstOfConcat(Runs(tags));
      assert Join(RunLabels(Runs(tags)), ',') != "";
    }
  }

  lemma {:induction false} FirstOfConcat<T>(xss: seq<seq<T>>)
    requires xss != [] && xss[0] != []
    ensures Concat(xss) != [] && Concat(xss)[0] == xss[0][0]
  {
    if |xss| > 1 {
      FirstOfConcat(xss[..|xss| - 1]);
    } else {
      assert xss[..0] == [];
    }
  }
}
