/** BOM lines, the parts catalog behind them, and which bom.yaml builds which containers. */
module BomModel {
  import opened Lists
  import opened Text
  import opened Catalog
  import opened ComputeNodes
  import opened Offers
  import opened ContainerLabels

  datatype Section = ComputeSection | GridSection | SiteSection | FieldSection

  datatype Path =
    | CatalogPart | EngineeredToOrder | CustomFabrication   // the customer buys these …
    | FieldSupplied                                         // … and this, through the installer
    | CustomerSupplied | ByOthers

  datatype PriceSource = Quote | DistributorListing | Estimate

  datatype Line = Line(
    item: nat,
    section: Section,
    refDes: string,
    partNumber: string,
    vendor: string,
    qty: nat,
    path: Path,
    equipmentId: Option<string>,
    unitUsd: Option<real>,
    source: Option<PriceSource>,
    offers: seq<Offer>)

  datatype BomError =
    | UnknownProfile | NoComputeVariant | UnknownAssembly | NoFeederVariant
    | MissingSpec(equipmentId: string) | MissingPlate(plateId: string) | NoPriceBreak(key: string)

  /** equipment/<id>/spec.yaml; a vendor still to be determined is bought by RFQ. */
  datatype Spec = Spec(equipmentId: string, vendor: string, modelNumber: string, engineered: bool)

  datatype Break = Break(minQty: nat, unitUsd: real, source: PriceSource)

  datatype PriceBook = PriceBook(prices: map<string, seq<Break>>, field: map<string, seq<Break>>)

  /** A plate's published geometry. */
  datatype PlateUrls = PlateUrls(step: string, dxf: Option<string>)

  /** What the manifest publishes beside the assemblies. */
  datatype PartsCatalog = PartsCatalog(specs: map<string, Spec>, plates: map<string, PlateUrls>, book: PriceBook)

  datatype Order = Order(
    gpu: GpuVariant, nodes: nat, computeQty: Pos, gridQty: Pos, coupling: Coupling, pcsQty: nat, defense: bool)

  /** Containers prefix+first … prefix+last, all built from one bom.yaml. */
  datatype ContainerGroup = ContainerGroup(section: Section, prefix: string, first: nat, last: nat, bom: BomYaml) {
    function Count(): nat { if last >= first then last - first + 1 else 0 }
  }

  // ----- which bom.yaml builds which containers -----

  predicate Kept(tag: string, drop: set<string>) { tag !in drop }

  function KeptOf(tags: seq<string>, drop: set<string>): seq<string> { Filter((t: string) => Kept(t, drop), tags) }

  /** One part with the dropped tags and their quantity taken out; nothing when none is left. */
  function PartWithout(p: Part, drop: set<string>): seq<Part> {
    var kept := KeptOf(p.tags, drop);
    if |kept| == |p.tags| then [p]
    else if kept != [] then [p.(qty := |kept|, tags := kept)]
    else []
  }

  function PartsWithout(parts: seq<Part>, drop: set<string>): seq<Part> {
    if parts == [] then []
    else PartsWithout(parts[..|parts| - 1], drop) + PartWithout(parts[|parts| - 1], drop)
  }

  function Without(bom: BomYaml, drop: set<string>): BomYaml { bom.(parts := PartsWithout(bom.parts, drop)) }

  function BomOf(m: Manifest, asm: AsmType, name: string): Result<BomYaml, BomError> {
    if (asm, name) in m.assemblies then Ok(m.assemblies[(asm, name)].bom) else Err(UnknownAssembly)
  }

  function FullContainers(order: Order): nat {
    if NodesInContainer(order.nodes, order.computeQty) == NODES_PER_COMPUTE_CONTAINER then order.computeQty
    else order.computeQty - 1
  }

  function ComputeGroups(order: Order, bom: BomYaml): seq<ContainerGroup> {
    var full := FullContainers(order);
    (if full > 0 then [ContainerGroup(ComputeSection, "C", 1, full, bom)] else [])
    + (if full < order.computeQty
       then [ContainerGroup(ComputeSection, "C", order.computeQty, order.computeQty,
                            Without(bom, DroppedTags(NodesInContainer(order.nodes, order.computeQty))))]
       else [])
  }

  function FeederGroups(m: Manifest, prof: Profile, gridQty: nat): Result<seq<ContainerGroup>, BomError> {
    if gridQty <= 1 then Ok([])
    else if prof.gridFeeder.None? then Err(NoFeederVariant)
    else
      var feeder :- BomOf(m, GridContainer, prof.gridFeeder.value);
      Ok([ContainerGroup(GridSection, "G", 2, gridQty, feeder)])
  }

  function GridGroups(m: Manifest, prof: Profile, gridQty: nat): Result<seq<ContainerGroup>, BomError> {
    if prof.gridContainer.None? then Ok([])
    else
      var primary :- BomOf(m, GridContainer, prof.gridContainer.value);
      var feeders :- FeederGroups(m, prof, gridQty);
      Ok([ContainerGroup(GridSection, "G", 1, 1, primary)] + feeders)
  }

  /** Compute C1-CN with CN maybe partial; grid G1 and its feeders G2-GM. */
  function ContainerGroups(m: Manifest, prof: Profile, order: Order): Result<seq<ContainerGroup>, BomError> {
    match prof.ComputeVariant(order.gpu)
    case None => Err(NoComputeVariant)
    case Some(variant) =>
      var bom :- BomOf(m, ComputeContainer, variant);
      var grids :- GridGroups(m, prof, order.gridQty);
      Ok(ComputeGroups(order, bom) + grids)
  }

  /** _without, as the loop runs */
  method TakeOut(bom: BomYaml, drop: set<string>) returns (r: BomYaml)
    ensures r == Without(bom, drop)
  {
    var parts: seq<Part> := [];
    for i := 0 to |bom.parts|
      invariant parts == PartsWithout(bom.parts[..i], drop)
    {
      assert bom.parts[..i + 1][..i] == bom.parts[..i];
      var p := bom.parts[i];
      var kept := KeptOf(p.tags, drop);
      if |kept| == |p.tags| {
        parts := parts + [p];
      } else if kept != [] {
        parts := parts + [p.(qty := |kept|, tags := kept)];
      }
    }
    assert bom.parts[..|bom.parts|] == bom.parts;
    r := bom.(parts := parts);
  }

  /** container_groups */
  method BuildGroups(m: Manifest, prof: Profile, order: Order) returns (r: Result<seq<ContainerGroup>, BomError>)
    ensures r == ContainerGroups(m, prof, order)
  {
    if prof.ComputeVariant(order.gpu).None? {
      return Err(NoComputeVariant);
    }
    var compute :- BomOf(m, ComputeContainer, prof.ComputeVariant(order.gpu).value);
    var last := NodesInContainer(order.nodes, order.computeQty);
    var full: nat := if last == NODES_PER_COMPUTE_CONTAINER then order.computeQty else order.computeQty - 1;
    var groups: seq<ContainerGroup> := [];
    if full > 0 {
      groups := groups + [ContainerGroup(ComputeSection, "C", 1, full, compute)];
    }
    if full < order.computeQty {
      var partial := TakeOut(compute, DroppedTags(last));
      groups := groups + [ContainerGroup(ComputeSection, "C", order.computeQty, order.computeQty, partial)];
    }
    assert groups == ComputeGroups(order, compute);
    var grids :- GridGroups(m, prof, order.gridQty);
    r := Ok(groups + grids);
  }

  // ----- a section's lines -----

  /** Ids in first-seen order: a dict filled with setdefault. */
  function FirstSeen(ids: seq<string>): seq<string> {
    if ids == [] then []
    else
      var init := FirstSeen(ids[..|ids| - 1]);
      if ids[|ids| - 1] in init then init else init + [ids[|ids| - 1]]
  }

  function PartIds(g: ContainerGroup): seq<string> { Map((p: Part) => p.equipmentId, g.bom.parts) }

  function PlateIds(g: ContainerGroup): seq<string> { Map((p: Plate) => p.id, g.bom.plates) }

  function AllPartIds(groups: seq<ContainerGroup>): seq<string> { Concat(Map((g: ContainerGroup) => PartIds(g), groups)) }

  function AllPlateIds(groups: seq<ContainerGroup>): seq<string> { Concat(Map((g: ContainerGroup) => PlateIds(g), groups)) }

  /** A part as one group's containers hold it. */
  datatype Holding = Holding(group: ContainerGroup, qty: nat, tags: seq<string>)

  function HoldingOf(g: ContainerGroup, p: Part, eid: string): seq<Holding> {
    if p.equipmentId == eid then [Holding(g, p.qty, p.tags)] else []
  }

  function HeldBy(g: ContainerGroup, eid: string): seq<Holding> {
    Concat(Map((p: Part) => HoldingOf(g, p, eid), g.bom.parts))
  }

  function Held(groups: seq<ContainerGroup>, eid: string): seq<Holding> {
    Concat(Map((g: ContainerGroup) => HeldBy(g, eid), groups))
  }

  function PlateHoldingOf(g: ContainerGroup, p: Plate, pid: string): seq<Holding> {
    if p.id == pid then [Holding(g, p.qty, [])] else []
  }

  function HeldPlates(groups: seq<ContainerGroup>, pid: string): seq<Holding> {
    Concat(Map((g: ContainerGroup) => Concat(Map((p: Plate) => PlateHoldingOf(g, p, pid), g.bom.plates)), groups))
  }

  function HeldQty(held: seq<Holding>): nat {
    if held == [] then 0 else HeldQty(held[..|held| - 1]) + held[|held| - 1].qty * held[|held| - 1].group.Count()
  }

  function LabelGroups(held: seq<Holding>): seq<Group> {
    Map((h: Holding) => Group(h.group.prefix, h.group.first, h.group.last, h.tags), held)
  }

  /** "C1-C4": the container range covered. */
  function Span(held: seq<Holding>): string {
    if held == [] then ""
    else RangeLabel(held[0].group.prefix, held[0].group.first, held[|held| - 1].group.last)
  }

  function RefOf(held: seq<Holding>): string {
    if PrintRefDes(LabelGroups(held)) != "" then PrintRefDes(LabelGroups(held)) else Span(held)
  }

  function PartNumberOf(spec: Spec): string {
    if spec.vendor == "TBD" then "To spec " + spec.equipmentId else spec.modelNumber
  }

  function SpecLine(spec: Spec, qty: nat, section: Section, ref: string): Line {
    var open := spec.vendor == "TBD";
    Line(0, section, ref,
         PartNumberOf(spec),
         if open then "RFQ" else spec.vendor,
         qty, if open || spec.engineered then EngineeredToOrder else CatalogPart,
         Some(spec.equipmentId), None, None, [])
  }

  function ShellLine(shell: Shell, qty: nat, section: Section, ref: string): Line {
    Line(0, section, ref, shell.partNumber, "Container supplier", qty, CustomFabrication, None, None, None, [])
  }

  function PlateNumber(plateId: string, defense: bool): string {
    "ARC-PLT-" + plateId + "-001" + if defense then "-D" else ""
  }

  function PlateLine(plateId: string, defense: bool, qty: nat, section: Section, ref: string): Line {
    Line(0, section, ref, PlateNumber(plateId, defense), "CNC shop, to ARCNODE drawing", qty, CustomFabrication, None, None, None, [])
  }

  function PartLine(cat: PartsCatalog, groups: seq<ContainerGroup>, section: Section, eid: string): Result<Line, BomError> {
    if eid !in cat.specs then Err(MissingSpec(eid))
    else
      var held := Held(groups, eid);
      Ok(SpecLine(cat.specs[eid], HeldQty(held), section, RefOf(held)))
  }

  function PartLines(cat: PartsCatalog, groups: seq<ContainerGroup>, section: Section, ids: seq<string>): Result<seq<Line>, BomError> {
    if ids == [] then Ok([])
    else
      var init :- PartLines(cat, groups, section, ids[..|ids| - 1]);
      var line :- PartLine(cat, groups, section, ids[|ids| - 1]);
      Ok(init + [line])
  }

  function PlateLineOf(cat: PartsCatalog, groups: seq<ContainerGroup>, section: Section, defense: bool, pid: string): Result<Line, BomError> {
    if pid !in cat.plates then Err(MissingPlate(pid))
    else
      var held := HeldPlates(groups, pid);
      Ok(PlateLine(pid, defense, HeldQty(held), section, Span(held)))
  }

  function PlateLines(cat: PartsCatalog, groups: seq<ContainerGroup>, section: Section, defense: bool, ids: seq<string>)
    : Result<seq<Line>, BomError>
  {
    if ids == [] then Ok([])
    else
      var init :- PlateLines(cat, groups, section, defense, ids[..|ids| - 1]);
      var line :- PlateLineOf(cat, groups, section, defense, ids[|ids| - 1]);
      Ok(init + [line])
  }

  function TotalContainers(groups: seq<ContainerGroup>): nat {
    Sum(Map((g: ContainerGroup) => g.Count(), groups))
  }

  /** Shell, parts and plates for one section's containers. */
  function SectionLines(cat: PartsCatalog, groups: seq<ContainerGroup>, defense: bool): Result<seq<Line>, BomError> {
    if groups == [] then Ok([])
    else
      var first := groups[0];
      var span := RangeLabel(first.prefix, first.first, groups[|groups| - 1].last);
      var parts :- PartLines(cat, groups, first.section, FirstSeen(AllPartIds(groups)));
      var plates :- PlateLines(cat, groups, first.section, defense, FirstSeen(AllPlateIds(groups)));
      Ok([ShellLine(first.bom.shell, TotalContainers(groups), first.section, span)] + parts + plates)
  }

  // ----- the loops -----

  method CollectIds(ids: seq<string>) returns (seen: seq<string>)
    ensures seen == FirstSeen(ids)
  {
    seen := [];
    for i := 0 to |ids|
      invariant seen == FirstSeen(ids[..i])
    {
      assert ids[..i + 1][..i] == ids[..i];
      if ids[i] !in seen {
        seen := seen + [ids[i]];
      }
    }
    assert ids[..|ids|] == ids;
  }

  lemma {:induction false} PartLinesNext(cat: PartsCatalog, groups: seq<ContainerGroup>, section: Section, ids: seq<string>,
                                         i: nat, rows: seq<Line>)
    requires i < |ids| && PartLines(cat, groups, section, ids[..i]) == Ok(rows)
    ensures var line := PartLine(cat, groups, section, ids[i]);
            PartLines(cat, groups, section, ids[..i + 1]) == if line.Ok? then Ok(rows + [line.value]) else Err(line.error)
  {
    assert ids[..i + 1][..i] == ids[..i];
  }

  method BuildPartLines(cat: PartsCatalog, groups: seq<ContainerGroup>, section: Section, ids: seq<string>)
    returns (lines: Result<seq<Line>, BomError>)
    ensures lines == PartLines(cat, groups, section, ids)
  {
    var rows: seq<Line> := [];
    for i := 0 to |ids|
      invariant PartLines(cat, groups, section, ids[..i]) == Ok(rows)
    {
      PartLinesNext(cat, groups, section, ids, i, rows);
      var line := PartLine(cat, groups, section, ids[i]);
      if line.Err? {
        PartLinesFail(cat, groups, section, ids, i + 1, line.error);
        return Err(line.error);
      }
      rows := rows + [line.value];
    }
    assert ids[..|ids|] == ids;
    lines := Ok(rows);
  }

  lemma {:induction false} PartLinesFail(cat: PartsCatalog, groups: seq<ContainerGroup>, section: Section, ids: seq<string>, k: nat, e: BomError)
    requires k <= |ids| && PartLines(cat, groups, section, ids[..k]) == Err(e)
    ensures PartLines(cat, groups, section, ids) == Err(e)
    decreases |ids| - k
  {
    if k == |ids| {
      assert ids[..k] == ids;
    } else {
      assert ids[..k + 1][..k] == ids[..k];
      PartLinesFail(cat, groups, section, ids, k + 1, e);
    }
  }

  lemma {:induction false} PlateLinesNext(cat: PartsCatalog, groups: seq<ContainerGroup>, section: Section, defense: bool, ids: seq<string>,
                                          i: nat, rows: seq<Line>)
    requires i < |ids| && PlateLines(cat, groups, section, defense, ids[..i]) == Ok(rows)
    ensures var line := PlateLineOf(cat, groups, section, defense, ids[i]);
            PlateLines(cat, groups, section, defense, ids[..i + 1]) == if line.Ok? then Ok(rows + [line.value]) else Err(line.error)
  {
    assert ids[..i + 1][..i] == ids[..i];
  }

  method BuildPlateLines(cat: PartsCatalog, groups: seq<ContainerGroup>, section: Section, defense: bool, ids: seq<string>)
    returns (lines: Result<seq<Line>, BomError>)
    ensures lines == PlateLines(cat, groups, section, defense, ids)
  {
    var rows: seq<Line> := [];
    for i := 0 to |ids|
      invariant PlateLines(cat, groups, section, defense, ids[..i]) == Ok(rows)
    {
      PlateLinesNext(cat, groups, section, defense, ids, i, rows);
      var line := PlateLineOf(cat, groups, section, defense, ids[i]);
      if line.Err? {
        PlateLinesFail(cat, groups, section, defense, ids, i + 1, line.error);
        return Err(line.error);
      }
      rows := rows + [line.value];
    }
    assert ids[..|ids|] == ids;
    lines := Ok(rows);
  }

  lemma {:induction false} PlateLinesFail(cat: PartsCatalog, groups: seq<ContainerGroup>, section: Section, defense: bool, ids: seq<string>,
                                          k: nat, e: BomError)
    requires k <= |ids| && PlateLines(cat, groups, section, defense, ids[..k]) == Err(e)
    ensures PlateLines(cat, groups, section, defense, ids) == Err(e)
    decreases |ids| - k
  {
    if k == |ids| {
      assert ids[..k] == ids;
    } else {
      assert ids[..k + 1][..k] == ids[..k];
      PlateLinesFail(cat, groups, section, defense, ids, k + 1, e);
    }
  }

  /** section_lines */
  method BuildSection(cat: PartsCatalog, groups: seq<ContainerGroup>, defense: bool) returns (lines: Result<seq<Line>, BomError>)
    ensures lines == SectionLines(cat, groups, defense)
  {
    if groups == [] {
      return Ok([]);
    }
    var section := groups[0].section;
    var span := RangeLabel(groups[0].prefix, groups[0].first, groups[|groups| - 1].last);
    var rows := [ShellLine(groups[0].bom.shell, TotalContainers(groups), section, span)];
    var partIds := CollectIds(AllPartIds(groups));
    var parts :- BuildPartLines(cat, groups, section, partIds);
    var plateIds := CollectIds(AllPlateIds(groups));
    var plates :- BuildPlateLines(cat, groups, section, defense, plateIds);
    lines := Ok(rows + parts + plates);
  }
}
