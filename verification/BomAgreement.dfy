/** BOM and DTM of one order: the same equipment in the same numbers under the same names. */
module BomAgreement {
  import opened Lists
  import opened Text
  import opened Catalog
  import opened ComputeNodes
  import opened Dtm
  import opened SitePlan
  import opened DtmSpec
  import opened DtmSoundness
  import opened SiteShape
  import opened ContainerGear
  import opened ContainerLabels
  import opened BomModel
  import opened BomCoverage
  import opened BomPricing
  import opened BomGenerator
  import opened BomSite
  import opened BomHardware
  import opened Sorting

  // ----- pricing and numbering change no hardware -----

  /** Line for line the same but for item number and price. */
  ghost predicate SameHardware(a: seq<Line>, b: seq<Line>) {
    && |a| == |b|
    && forall i :: 0 <= i < |a| ==> SameLine(a[i], b[i])
  }

  predicate SameLine(a: Line, b: Line) {
    b == a.(item := b.item, unitUsd := b.unitUsd, source := b.source)
  }

  lemma {:induction false} SameQty(a: seq<Line>, b: seq<Line>, eid: string)
    requires SameHardware(a, b)
    ensures QtyOf(a, eid) == QtyOf(b, eid)
  {
    if a != [] {
      var last := |a| - 1;
      SameQty(a[..last], b[..last], eid);
      assert SameLine(a[last], b[last]);
    }
  }

  lemma SameNamed(a: seq<Line>, b: seq<Line>, eid: string)
    requires SameHardware(a, b)
    ensures NamedBy(a, eid) == NamedBy(b, eid)
  {
    forall i | 0 <= i < |a| ensures LineTags(a[i], eid) == LineTags(b[i], eid) {
      assert SameLine(a[i], b[i]);
    }
    assert Map((l: Line) => LineTags(l, eid), a) == Map((l: Line) => LineTags(l, eid), b);
  }

  lemma {:induction false} PricesChangeNoHardware(lines: seq<Line>, book: PriceBook, order: seq<Line>)
    requires BookPrices(lines, book, order).Ok?
    ensures SameHardware(lines, BookPrices(lines, book, order).value)
  {
    if lines != [] {
      var init, l := lines[..|lines| - 1], lines[|lines| - 1];
      PricesChangeNoHardware(init, book, order);
    }
  }

  /** Two lists of lines ordering and naming the same. */
  ghost predicate CountAlike(a: seq<Line>, b: seq<Line>, eid: string) {
    QtyOf(a, eid) == QtyOf(b, eid) && multiset(NamedBy(a, eid)) == multiset(NamedBy(b, eid))
  }

  lemma AlikeSnoc(a: seq<Line>, b: seq<Line>, l: Line, eid: string)
    requires CountAlike(a, b, eid)
    ensures CountAlike(a + [l], b + [l], eid)
  {
    QtySnoc(a, l, eid);
    NamedSnoc(a, l, eid);
    QtySnoc(b, l, eid);
    NamedSnoc(b, l, eid);
  }

  lemma AlikeSwap(a: seq<Line>, k: Line, l: Line, eid: string)
    ensures CountAlike(a + [k] + [l], a + [l] + [k], eid)
  {
    QtySnoc(a, k, eid);
    QtySnoc(a + [k], l, eid);
    QtySnoc(a, l, eid);
    QtySnoc(a + [l], k, eid);
    NamedSnoc(a, k, eid);
    NamedSnoc(a + [k], l, eid);
    NamedSnoc(a, l, eid);
    NamedSnoc(a + [l], k, eid);
  }

  lemma {:induction false} InsertCounts(lines: seq<Line>, l: Line, eid: string)
    ensures CountAlike(Insert(lines, l, SectionLe()), lines + [l], eid)
  {
    if lines != [] && !SectionLe()(lines[|lines| - 1], l) {
      var init, x := lines[..|lines| - 1], lines[|lines| - 1];
      assert lines == init + [x];
      InsertCounts(init, l, eid);
      AlikeSnoc(Insert(init, l, SectionLe()), init + [l], x, eid);
      AlikeSwap(init, l, x, eid);
    }
  }

  lemma {:induction false} SortCounts(lines: seq<Line>, eid: string)
    ensures CountAlike(Sort(lines, SectionLe()), lines, eid)
  {
    if lines != [] {
      var init, x := lines[..|lines| - 1], lines[|lines| - 1];
      assert lines == init + [x];
      SortCounts(init, eid);
      InsertCounts(Sort(init, SectionLe()), x, eid);
      AlikeSnoc(Sort(init, SectionLe()), init, x, eid);
    }
  }

  /** The finished BOM orders and names what its lines did before pricing and numbering. */
  lemma {:induction false} FinishedCounts(m: Manifest, cat: PartsCatalog, profile: string, order: Order, field: seq<Line>, eid: string)
    requires GenerateBom(m, cat, profile, order, field).Ok?
    ensures OrderLines(m, cat, profile, order, field).Ok?
    ensures var bom, lines := GenerateBom(m, cat, profile, order, field).value, OrderLines(m, cat, profile, order, field).value;
            QtyOf(bom.lines, eid) == QtyOf(lines, eid) && multiset(NamedBy(bom.lines, eid)) == multiset(NamedBy(lines, eid))
  {
    var lines := OrderLines(m, cat, profile, order, field).value;
    var priced := BookPrices(lines, cat.book, lines).value;
    PricesChangeNoHardware(lines, cat.book, lines);
    SameQty(lines, priced, eid);
    SameNamed(lines, priced, eid);
    SortCounts(priced, eid);
    SameQty(Sort(priced, SectionLe()), Numbered(priced), eid);
    SameNamed(Sort(priced, SectionLe()), Numbered(priced), eid);
  }

  /** _numbered: items 1..n, sections in order, and no line lost, added or altered. */
  lemma NumberedInOrder(lines: seq<Line>)
    ensures |Numbered(lines)| == |lines|
    ensures forall i :: 0 <= i < |lines| ==> Numbered(lines)[i].item == i + 1
    ensures forall i, j :: 0 <= i < j < |lines| ==> SectionRank(Numbered(lines)[i].section) <= SectionRank(Numbered(lines)[j].section)
    ensures multiset(Map((l: Line) => l.(item := 0), Numbered(lines))) == multiset(Map((l: Line) => l.(item := 0), lines))
  {
    var le, ranked, bare := SectionLe(), Sort(lines, SectionLe()), (l: Line) => l.(item := 0);
    SortLength(lines, le);
    SortSorts(lines, le);
    SortPermutes(lines, le);
    forall i, j | 0 <= i < j < |lines| ensures SectionRank(Numbered(lines)[i].section) <= SectionRank(Numbered(lines)[j].section) {
      assert le(ranked[i], ranked[j]);
    }
    MapPermuted(bare, ranked, lines);
    assert Map(bare, Numbered(lines)) == Map(bare, ranked);
  }

  // ----- all the lines of an order -----

  /** The groups an order's sections are built from. */
  lemma OrderGroups(m: Manifest, cat: PartsCatalog, profile: string, order: Order, field: seq<Line>)
    returns (bom: BomYaml, grid: seq<ContainerGroup>, a: seq<Line>, b: seq<Line>, pcs: seq<Line>)
    requires OrderLines(m, cat, profile, order, field).Ok?
    ensures profile in m.profiles && m.profiles[profile].ComputeVariant(order.gpu).Some?
    ensures BomOf(m, ComputeContainer, m.profiles[profile].ComputeVariant(order.gpu).value) == Ok(bom)
    ensures GridGroups(m, m.profiles[profile], order.gridQty) == Ok(grid)
    ensures SectionLines(cat, ComputeGroups(order, bom), order.defense) == Ok(a) && SectionLines(cat, grid, order.defense) == Ok(b)
    ensures PcsLines(cat, order) == Ok(pcs)
    ensures OrderLines(m, cat, profile, order, field).value == a + b + SiteLines(order.computeQty) + pcs + field
  {
    var prof := m.profiles[profile];
    bom := BomOf(m, ComputeContainer, prof.ComputeVariant(order.gpu).value).value;
    grid := GridGroups(m, prof, order.gridQty).value;
    GroupsTile(m, prof, order, bom, grid);
    SectionsSplit(ComputeGroups(order, bom), grid);
    a := SectionLines(cat, ComputeGroups(order, bom), order.defense).value;
    b := SectionLines(cat, grid, order.defense).value;
    pcs := PcsLines(cat, order).value;
  }

  lemma {:induction false} SiteLinesPlain(computeQty: nat, eid: string)
    ensures QtyOf(SiteLines(computeQty), eid) == 0 && NamedBy(SiteLines(computeQty), eid) == []
  {
    QtyNone(SiteLines(computeQty), eid);
    NamedNone(SiteLines(computeQty), eid);
  }

  ghost predicate FieldOnly(field: seq<Line>) {
    forall i :: 0 <= i < |field| ==> field[i].equipmentId.None?
  }

  lemma {:induction false} AddNothing(lines: seq<Line>, more: seq<Line>, eid: string)
    requires QtyOf(more, eid) == 0 && NamedBy(more, eid) == []
    ensures QtyOf(lines + more, eid) == QtyOf(lines, eid) && NamedBy(lines + more, eid) == NamedBy(lines, eid)
  {
    QtyAppend(lines, more, eid);
    NamedAppend(lines, more, eid);
  }

  lemma {:induction false} AddLines(a: seq<Line>, b: seq<Line>, eid: string)
    ensures QtyOf(a + b, eid) == QtyOf(a, eid) + QtyOf(b, eid) && NamedBy(a + b, eid) == NamedBy(a, eid) + NamedBy(b, eid)
  {
    QtyAppend(a, b, eid);
    NamedAppend(a, b, eid);
  }

  lemma {:induction false} LinesCount(a: seq<Line>, b: seq<Line>, site: seq<Line>, pcs: seq<Line>, field: seq<Line>, eid: string)
    requires QtyOf(site, eid) == 0 && NamedBy(site, eid) == [] && FieldOnly(field)
    ensures QtyOf(a + b + site + pcs + field, eid) == QtyOf(a, eid) + QtyOf(b, eid) + QtyOf(pcs, eid)
    ensures NamedBy(a + b + site + pcs + field, eid) == NamedBy(a, eid) + NamedBy(b, eid) + NamedBy(pcs, eid)
  {
    assert QtyOf(field, eid) == 0 && NamedBy(field, eid) == [] by {
      QtyNone(field, eid);
      NamedNone(field, eid);
    }
    var ab := a + b;
    AddLines(a, b, eid);
    AddNothing(ab, site, eid);
    AddLines(ab + site, pcs, eid);
    AddNothing(ab + site + pcs, field, eid);
  }

  /** Both manifests build an order from variants of the same names. */
  predicate SameVariants(a: Profile, b: Profile, gpu: GpuVariant, gridQty: nat) {
    && a.ComputeVariant(gpu) == b.ComputeVariant(gpu) && a.gridContainer == b.gridContainer
    && (gridQty > 1 ==> a.gridFeeder == b.gridFeeder)
  }

  lemma SameGroups(m: Manifest, a: Profile, b: Profile, gpu: GpuVariant, gridQty: nat)
    requires SameVariants(a, b, gpu, gridQty)
    ensures GridGroups(m, a, gridQty) == GridGroups(m, b, gridQty)
  {
  }

  /** Catalog conditions a maintainer can check file by file: both manifests pick the same variants, what bom.yaml lists
      matches topology.yaml, specs carry their own id, and the PCS template is the PCS part. */
  ghost predicate HardwareCatalog(pinned: Manifest, fetched: Manifest, profile: string, r: Resolution, cat: PartsCatalog, templates: Templates) {
    && profile in pinned.profiles && profile in fetched.profiles
    && SameVariants(pinned.profiles[profile], fetched.profiles[profile], r.gpu, r.gridCount)
    && CatalogAgrees(pinned, fetched, pinned.profiles[profile], r, templates) && SpecsNamed(cat)
    && PcsKnown(templates)
  }

  predicate PcsKnown(templates: Templates) { "pcs" in templates && templates["pcs"].equipmentId == Some(PCS_ID) }

  lemma {:induction false} OrderQtyOf(cat: PartsCatalog, order: Order, field: seq<Line>, compute: seq<ContainerGroup>, grid: seq<ContainerGroup>,
                                      a: seq<Line>, b: seq<Line>, pcs: seq<Line>, eid: string)
    requires AllCounted(compute) && AllCounted(grid) && SpecsNamed(cat) && FieldOnly(field)
    requires SectionLines(cat, compute, order.defense) == Ok(a) && SectionLines(cat, grid, order.defense) == Ok(b) && PcsLines(cat, order) == Ok(pcs)
    ensures QtyOf(a + b + SiteLines(order.computeQty) + pcs + field, eid)
         == |AllGroupTags(compute, eid)| + |AllGroupTags(grid, eid)| + PcsBought(order, eid)
  {
    SectionQty(cat, compute, order.defense, eid);
    SectionQty(cat, grid, order.defense, eid);
    PcsNamed(cat, order, eid);
    SiteLinesPlain(order.computeQty, eid);
    LinesCount(a, b, SiteLines(order.computeQty), pcs, field, eid);
  }

  function PcsBought(order: Order, eid: string): nat {
    if order.coupling == DcExternalPcs && eid == PCS_ID then order.pcsQty else 0
  }

  /** Site tags of one equipment id in the bom.yaml files an order is built from, over all its containers. */
  function BoughtTags(m: Manifest, prof: Profile, order: Order, eid: string): nat {
    match prof.ComputeVariant(order.gpu)
    case None => 0
    case Some(variant) =>
      match (BomOf(m, ComputeContainer, variant), GridGroups(m, prof, order.gridQty))
      case (Ok(bom), Ok(grid)) => |AllGroupTags(ComputeGroups(order, bom), eid)| + |AllGroupTags(grid, eid)|
      case _ => 0
  }

  /** … where each lists a quantity of one per tag. */
  ghost predicate OrderCounted(m: Manifest, prof: Profile, order: Order) {
    && (prof.ComputeVariant(order.gpu).Some? ==> CountedBom(BomOf(m, ComputeContainer, prof.ComputeVariant(order.gpu).value)))
    && (GridGroups(m, prof, order.gridQty).Ok? ==> AllCounted(GridGroups(m, prof, order.gridQty).value))
  }

  predicate CountedBom(bom: Result<BomYaml, BomError>) { bom.Ok? ==> Counted(bom.value.parts) }

  /** What a BOM buys of one equipment id: the tags of the bom.yaml files it was built from, and the PCS. */
  lemma {:induction false} BomQty(m: Manifest, cat: PartsCatalog, profile: string, order: Order, field: seq<Line>, eid: string)
    requires GenerateBom(m, cat, profile, order, field).Ok? && SpecsNamed(cat) && FieldOnly(field)
    requires profile in m.profiles && OrderCounted(m, m.profiles[profile], order)
    ensures QtyOf(GenerateBom(m, cat, profile, order, field).value.lines, eid)
         == BoughtTags(m, m.profiles[profile], order, eid) + PcsBought(order, eid)
  {
    FinishedCounts(m, cat, profile, order, field, eid);
    var bom, grid, a, b, pcs := OrderGroups(m, cat, profile, order, field);
    ComputeCounted(order, bom);
    OrderQtyOf(cat, order, field, ComputeGroups(order, bom), grid, a, b, pcs, eid);
  }

  lemma GridGroupsStand(pinned: Manifest, fetched: Manifest, prof: Profile, r: Resolution, templates: Templates, plans: seq<Plan>)
    requires GridsListed(pinned, fetched, prof, r.gridCount, templates) && ContainerPlans(pinned, prof, r) == Ok(plans)
    ensures GridGroups(fetched, prof, r.gridCount).Ok?
  {
  }

  /** What a DTM holds of one equipment id: the tags of the bom.yaml files that agree with its topologies, and the PCS. */
  lemma DeviceCount(profile: string, r: Resolution, pinned: Manifest, fetched: Manifest, templates: Templates, order: Order, eid: string)
    requires Generate(profile, r, pinned, templates).Ok? && profile in pinned.profiles && PcsKnown(templates)
    requires CatalogAgrees(pinned, fetched, pinned.profiles[profile], r, templates)
    requires r.computeCount == ComputeContainerCount(r.nodeCount) && order == OrderOf(r, order.defense)
    requires Carriers(templates, eid) !! EXTERNAL
    ensures |NamesUsing(Generate(profile, r, pinned, templates).value.devices, Carriers(templates, eid))|
         == BoughtTags(fetched, pinned.profiles[profile], order, eid) + PcsBought(order, eid)
  {
    var prof := pinned.profiles[profile];
    var plans, battery, between := Parts(profile, r, pinned, templates);
    GridGroupsStand(pinned, fetched, prof, r, templates, plans);
    var bom, grid := BomOf(fetched, ComputeContainer, prof.ComputeVariant(r.gpu).value).value, GridGroups(fetched, prof, r.gridCount).value;
    PrimaryOrOne(profile, r, pinned, templates);
    SiteListed(pinned, fetched, prof, r, templates, plans, battery, bom, grid, eid);
    ListedLength(order, r, bom, grid, templates, SiteDevices(plans, battery, r), eid);
  }

  lemma AgreedCounted(pinned: Manifest, fetched: Manifest, profile: string, r: Resolution, cat: PartsCatalog, templates: Templates, order: Order)
    requires HardwareCatalog(pinned, fetched, profile, r, cat, templates) && order == OrderOf(r, order.defense)
    ensures OrderCounted(fetched, fetched.profiles[profile], order)
  {
    var prof := pinned.profiles[profile];
    SameGroups(fetched, prof, fetched.profiles[profile], r.gpu, r.gridCount);
    if GridGroups(fetched, prof, r.gridCount).Ok? {
      GridCounted(pinned, fetched, prof, r.gridCount, templates, GridGroups(fetched, prof, r.gridCount).value);
    }
  }

  /** The BOM and the DTM list the same hardware, each from its own manifest: for every order and every equipment id the BOM
      buys, the ordered quantity is the number of devices of that equipment, the partial last container and the PCS on the
      pad included. */
  lemma {:induction false} QuantitiesAgree(profile: string, r: Resolution, pinned: Manifest, fetched: Manifest, templates: Templates, cat: PartsCatalog,
                                           defense: bool, field: seq<Line>, eid: string)
    requires Generate(profile, r, pinned, templates).Ok? && GenerateBom(fetched, cat, profile, OrderOf(r, defense), field).Ok?
    requires HardwareCatalog(pinned, fetched, profile, r, cat, templates) && FieldOnly(field)
    requires r.computeCount == ComputeContainerCount(r.nodeCount)
    requires Carriers(templates, eid) !! EXTERNAL
    ensures QtyOf(GenerateBom(fetched, cat, profile, OrderOf(r, defense), field).value.lines, eid)
         == |NamesUsing(Generate(profile, r, pinned, templates).value.devices, Carriers(templates, eid))|
  {
    var order := OrderOf(r, defense);
    AgreedCounted(pinned, fetched, profile, r, cat, templates, order);
    BomQty(fetched, cat, profile, order, field, eid);
    SameGroups(fetched, pinned.profiles[profile], fetched.profiles[profile], r.gpu, r.gridCount);
    var bom, grid, a, b, pcs := OrderGroups(fetched, cat, profile, order, field);
    DeviceCount(profile, r, pinned, fetched, templates, order, eid);
  }

  /** Republishing the manifest between create and execute: with a pinned catalog in which bom.yaml and topology.yaml agree,
      the BOM still buys what the DTM holds exactly when the bom.yaml files fetched later count the equipment, over the
      order's containers, as often as the pinned ones. */
  lemma {:induction false} QuantitiesAgreeIff(profile: string, r: Resolution, pinned: Manifest, fetched: Manifest, templates: Templates, cat: PartsCatalog,
                                              defense: bool, field: seq<Line>, eid: string)
    requires Generate(profile, r, pinned, templates).Ok? && GenerateBom(fetched, cat, profile, OrderOf(r, defense), field).Ok?
    requires profile in pinned.profiles && CatalogAgrees(pinned, pinned, pinned.profiles[profile], r, templates)
    requires PcsKnown(templates)
    requires profile in fetched.profiles && OrderCounted(fetched, fetched.profiles[profile], OrderOf(r, defense))
    requires SpecsNamed(cat) && FieldOnly(field) && r.computeCount == ComputeContainerCount(r.nodeCount)
    requires Carriers(templates, eid) !! EXTERNAL
    ensures QtyOf(GenerateBom(fetched, cat, profile, OrderOf(r, defense), field).value.lines, eid)
            == |NamesUsing(Generate(profile, r, pinned, templates).value.devices, Carriers(templates, eid))|
            <==> BoughtTags(fetched, fetched.profiles[profile], OrderOf(r, defense), eid)
                 == BoughtTags(pinned, pinned.profiles[profile], OrderOf(r, defense), eid)
  {
    BomQty(fetched, cat, profile, OrderOf(r, defense), field, eid);
    DeviceCount(profile, r, pinned, pinned, templates, OrderOf(r, defense), eid);
  }

  lemma ListedLength(order: Order, r: Resolution, bom: BomYaml, grid: seq<ContainerGroup>, templates: Templates,
                     devices: seq<Device>, eid: string)
    requires order == OrderOf(r, order.defense)
    requires PcsKnown(templates)
    requires multiset(NamesUsing(devices, Carriers(templates, eid)))
          == multiset(Somes(ListedTags(ComputeGroups(OrderOf(r, false), bom), grid, r, templates, eid)))
    ensures |NamesUsing(devices, Carriers(templates, eid))|
         == |AllGroupTags(ComputeGroups(order, bom), eid)| + |AllGroupTags(grid, eid)|
            + PcsBought(order, eid)
  {
    var listed := ListedTags(ComputeGroups(OrderOf(r, false), bom), grid, r, templates, eid);
    assert |multiset(NamesUsing(devices, Carriers(templates, eid)))| == |multiset(Somes(listed))|;
    assert "pcs" in Carriers(templates, eid) <==> eid == PCS_ID;
    assert ComputeGroups(order, bom) == ComputeGroups(OrderOf(r, false), bom);
  }

  /** Tags in the bom.yaml files a profile can pick are tidy, and each lists an equipment id once. */
  ghost predicate TidyCatalog(m: Manifest, prof: Profile) {
    && (forall v :: prof.ComputeVariant(v).Some? ==> TidyBom(BomOf(m, ComputeContainer, prof.ComputeVariant(v).value)))
    && (prof.gridContainer.Some? ==> TidyBom(BomOf(m, GridContainer, prof.gridContainer.value)))
    && (prof.gridFeeder.Some? ==> TidyBom(BomOf(m, GridContainer, prof.gridFeeder.value)))
  }

  ghost predicate TidyBom(bom: Result<BomYaml, BomError>) { bom.Ok? ==> TidyParts(bom.value.parts) }

  lemma AllGroupsTidy(m: Manifest, prof: Profile, order: Order, bom: BomYaml, grid: seq<ContainerGroup>)
    requires TidyCatalog(m, prof) && prof.ComputeVariant(order.gpu).Some?
    requires BomOf(m, ComputeContainer, prof.ComputeVariant(order.gpu).value) == Ok(bom) && GridGroups(m, prof, order.gridQty) == Ok(grid)
    ensures GroupsTidy(ComputeGroups(order, bom)) && GroupsTidy(grid)
  {
    assert TidyBom(BomOf(m, ComputeContainer, prof.ComputeVariant(order.gpu).value));
    WithoutTidy(bom.parts, DroppedTags(NodesInContainer(order.nodes, order.computeQty)));
  }

  lemma ComputeNamed(cat: PartsCatalog, order: Order, bom: BomYaml, a: seq<Line>, eid: string)
    requires TidyBom(Ok(bom)) && SpecsNamed(cat) && SectionLines(cat, ComputeGroups(order, bom), order.defense) == Ok(a)
    ensures multiset(NamedBy(a, eid)) == multiset(AllGroupTags(ComputeGroups(order, bom), eid))
  {
    WithoutTidy(bom.parts, DroppedTags(NodesInContainer(order.nodes, order.computeQty)));
    ComputeTiled(order, bom);
    SectionNamed(cat, ComputeGroups(order, bom), order.defense, ComputeSection, "C", eid);
  }

  lemma ComputeTiled(order: Order, bom: BomYaml)
    ensures Tiled(ComputeGroups(order, bom), ComputeSection, "C")
  {
  }

  lemma GridNamed(m: Manifest, cat: PartsCatalog, prof: Profile, order: Order, bom: BomYaml, grid: seq<ContainerGroup>, b: seq<Line>, eid: string)
    requires GridGroups(m, prof, order.gridQty) == Ok(grid) && GroupsTidy(grid) && SpecsNamed(cat)
    requires SectionLines(cat, grid, order.defense) == Ok(b)
    ensures multiset(NamedBy(b, eid)) == multiset(AllGroupTags(grid, eid))
  {
    GroupsTile(m, prof, order, bom, grid);
    SectionNamed(cat, grid, order.defense, GridSection, "G", eid);
  }

  lemma SectionsNamed(m: Manifest, cat: PartsCatalog, prof: Profile, order: Order,
                      bom: BomYaml, grid: seq<ContainerGroup>, a: seq<Line>, b: seq<Line>, eid: string)
    requires TidyCatalog(m, prof) && SpecsNamed(cat) && prof.ComputeVariant(order.gpu).Some?
    requires BomOf(m, ComputeContainer, prof.ComputeVariant(order.gpu).value) == Ok(bom)
    requires GridGroups(m, prof, order.gridQty) == Ok(grid)
    requires SectionLines(cat, ComputeGroups(order, bom), order.defense) == Ok(a) && SectionLines(cat, grid, order.defense) == Ok(b)
    ensures multiset(NamedBy(a, eid)) == multiset(AllGroupTags(ComputeGroups(order, bom), eid))
    ensures multiset(NamedBy(b, eid)) == multiset(AllGroupTags(grid, eid))
  {
    AllGroupsTidy(m, prof, order, bom, grid);
    assert TidyBom(BomOf(m, ComputeContainer, prof.ComputeVariant(order.gpu).value));
    ComputeNamed(cat, order, bom, a, eid);
    GridNamed(m, cat, prof, order, bom, grid, b, eid);
  }

  lemma OrderNamed(a: seq<Line>, b: seq<Line>, computeQty: nat, pcs: seq<Line>, field: seq<Line>, eid: string)
    requires FieldOnly(field)
    ensures multiset(NamedBy(a + b + SiteLines(computeQty) + pcs + field, eid))
         == multiset(NamedBy(a, eid)) + multiset(NamedBy(b, eid)) + multiset(NamedBy(pcs, eid))
  {
    SiteLinesPlain(computeQty, eid);
    LinesCount(a, b, SiteLines(computeQty), pcs, field, eid);
  }

  /** Reading the printed reference designators back gives the tags of the groups the BOM was built from. */
  lemma BomNamed(m: Manifest, cat: PartsCatalog, profile: string, order: Order, field: seq<Line>,
                 bom: BomYaml, grid: seq<ContainerGroup>, eid: string)
    requires GenerateBom(m, cat, profile, order, field).Ok? && profile in m.profiles && TidyCatalog(m, m.profiles[profile])
    requires SpecsNamed(cat) && FieldOnly(field) && m.profiles[profile].ComputeVariant(order.gpu).Some?
    requires BomOf(m, ComputeContainer, m.profiles[profile].ComputeVariant(order.gpu).value) == Ok(bom)
    requires GridGroups(m, m.profiles[profile], order.gridQty) == Ok(grid)
    ensures multiset(NamedBy(GenerateBom(m, cat, profile, order, field).value.lines, eid))
         == multiset(AllGroupTags(ComputeGroups(order, bom), eid)) + multiset(AllGroupTags(grid, eid))
            + multiset(if order.coupling == DcExternalPcs && eid == PCS_ID then PcsTags(order.pcsQty) else [])
  {
    FinishedCounts(m, cat, profile, order, field, eid);
    var bom', grid', a, b, pcs := OrderGroups(m, cat, profile, order, field);
    SectionsNamed(m, cat, m.profiles[profile], order, bom, grid, a, b, eid);
    PcsNamed(cat, order, eid);
    OrderNamed(a, b, order.computeQty, pcs, field, eid);
  }

  /** … and reading the reference designators printed on the BOM back gives exactly those devices' display names. */
  lemma LabelsAgree(profile: string, r: Resolution, pinned: Manifest, fetched: Manifest, templates: Templates, cat: PartsCatalog,
                    defense: bool, field: seq<Line>, eid: string)
    requires Generate(profile, r, pinned, templates).Ok? && GenerateBom(fetched, cat, profile, OrderOf(r, defense), field).Ok?
    requires HardwareCatalog(pinned, fetched, profile, r, cat, templates) && FieldOnly(field)
    requires TidyCatalog(fetched, fetched.profiles[profile])
    requires r.computeCount == ComputeContainerCount(r.nodeCount)
    requires Carriers(templates, eid) !! EXTERNAL
    ensures multiset(Somes(NamedBy(GenerateBom(fetched, cat, profile, OrderOf(r, defense), field).value.lines, eid)))
         == multiset(NamesUsing(Generate(profile, r, pinned, templates).value.devices, Carriers(templates, eid)))
  {
    var order, prof := OrderOf(r, defense), pinned.profiles[profile];
    var plans, battery, between := Parts(profile, r, pinned, templates);
    FinishedCounts(fetched, cat, profile, order, field, eid);
    var bom, grid, a, b, pcs := OrderGroups(fetched, cat, profile, order, field);
    BomNamed(fetched, cat, profile, order, field, bom, grid, eid);
    SameGroups(fetched, prof, fetched.profiles[profile], r.gpu, r.gridCount);
    PrimaryOrOne(profile, r, pinned, templates);
    SiteListed(pinned, fetched, prof, r, templates, plans, battery, bom, grid, eid);
    ListedParts(order, r, bom, grid, templates, eid);
    MapPermuted((s: string) => Some(s), NamedBy(GenerateBom(fetched, cat, profile, order, field).value.lines, eid),
                ListedTags(ComputeGroups(OrderOf(r, false), bom), grid, r, templates, eid));
  }

  lemma ListedParts(order: Order, r: Resolution, bom: BomYaml, grid: seq<ContainerGroup>, templates: Templates, eid: string)
    requires order == OrderOf(r, order.defense)
    requires PcsKnown(templates)
    ensures multiset(ListedTags(ComputeGroups(OrderOf(r, false), bom), grid, r, templates, eid))
         == multiset(AllGroupTags(ComputeGroups(order, bom), eid)) + multiset(AllGroupTags(grid, eid))
            + multiset(if order.coupling == DcExternalPcs && eid == PCS_ID then PcsTags(order.pcsQty) else [])
  {
    assert "pcs" in Carriers(templates, eid) <==> eid == PCS_ID;
    assert ComputeGroups(order, bom) == ComputeGroups(OrderOf(r, false), bom);
  }
}
