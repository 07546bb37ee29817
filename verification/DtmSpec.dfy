/** The DTM an order should get, as a value: which containers, which battery pad, which site buses. */
module DtmSpec {
  import opened Lists
  import opened Text
  import opened Numbering
  import opened Catalog
  import opened ComputeNodes
  import opened ComputeFeeds
  import opened Dtm
  import opened SitePlan

  datatype DtmError =
    | UnknownProfile | NoComputeVariant | NoFeederVariant | NoMegapackCapacity
    | UnequalFeeds | MissingModule | UnknownTemplate | InvalidDeviceId

  const TBD := "PROVISIONED_AT_COMMISSIONING"

  function LeafOf(tag: string, s: DeviceSpec): Leaf {
    var name := if s.tag.Some? && s.tag.value != "" then Some(tag + "-" + s.tag.value) else None;
    Leaf(s.template, name, s.connection, None)
  }

  predicate IsDropped(s: DeviceSpec, drop: set<string>) { s.tag.Some? && s.tag.value in drop }

  function Leaves(tag: string, specs: seq<DeviceSpec>, drop: set<string>): seq<Leaf> {
    if specs == [] then []
    else
      var s := specs[|specs| - 1];
      Leaves(tag, specs[..|specs| - 1], drop) + if IsDropped(s, drop) then [] else [LeafOf(tag, s)]
  }

  function ModuleTemplate(asm: AsmType, topology: Option<Topology>): string {
    if topology.Some? && topology.value.moduleTemplate.Some? then topology.value.moduleTemplate.value
    else if asm == ComputeContainer then "compute_module" else "grid_module"
  }

  /** One container; without a topology.yaml only its module is emitted. */
  function PlanOf(asm: AsmType, topology: Option<Topology>, tag: string, drop: set<string>): Plan {
    if topology.None? then Plan(tag, ModuleTemplate(asm, topology), [], [])
    else Plan(tag, ModuleTemplate(asm, topology), Leaves(tag, topology.value.devices, drop), topology.value.buses)
  }

  function ComputePlan(topology: Option<Topology>, nodes: int, n: nat): Plan {
    PlanOf(ComputeContainer, topology, "C" + Dec(n), DroppedTags(NodesInContainer(nodes, n)))
  }

  function ComputePlans(topology: Option<Topology>, nodes: int, count: nat): (r: seq<Plan>)
    ensures |r| == count
  {
    seq(count, i requires 0 <= i < count => ComputePlan(topology, nodes, i + 1))
  }

  /** Grid variants in order: the primary (POI meter), then a feeder per extra transformer of load. */
  function GridVariants(prof: Profile, gridCount: nat): Result<seq<string>, DtmError> {
    var primary := if prof.gridContainer.Some? then [prof.gridContainer.value] else [];
    if gridCount <= 1 then Ok(primary)
    else if prof.gridFeeder.None? then Err(NoFeederVariant)
    else Ok(primary + seq(gridCount - 1, _ => prof.gridFeeder.value))
  }

  function GridPlan(m: Manifest, variant: string, k: nat): Plan {
    PlanOf(GridContainer, m.Topology(GridContainer, variant), "G" + Dec(k), {})
  }

  function GridPlans(m: Manifest, variants: seq<string>): (r: seq<Plan>)
    ensures |r| == |variants|
  {
    seq(|variants|, i requires 0 <= i < |variants| => GridPlan(m, variants[i], i + 1))
  }

  function Polled(unit: Option<string>): Option<Connection> { Some(Connection(TBD, TBD, unit)) }

  function NumberedLeaves(template: string, stem: string, count: nat): (r: seq<Leaf>)
    ensures |r| == count
  {
    seq(count, i requires 0 <= i < count => Leaf(template, Some(stem + Dec(i + 1)), Polled(None), None))
  }

  /** Smallest Megapack fleet that holds the ordered energy. */
  function MegapackUnits(bessMwh: real, unitKwh: real): nat
    requires unitKwh != 0.0
  {
    var units := Ceil(bessMwh * 1000.0 / unitKwh);
    if units < 0 then 0 else units
  }

  /** Polled at an address commissioning still has to give, at this Modbus unit. */
  ghost function ByModbus(unit: Option<string>): Option<Connection> {
    Some(Connection("PROVISIONED_AT_COMMISSIONING", "PROVISIONED_AT_COMMISSIONING", unit))
  }

  lemma DividedBack(a: real, b: real)
    requires b != 0.0
    ensures a / b * b == a
  {
  }

  lemma MulMonotone(a: real, b: real, c: real)
    requires a < b && c > 0.0
    ensures a * c < b * c
  {
  }

  /** The fleet holds the ordered energy, and one unit fewer does not. */
  lemma FleetHoldsTheEnergy(bessMwh: real, unitKwh: real)
    requires unitKwh > 0.0
    ensures var n := MegapackUnits(bessMwh, unitKwh);
            && n as real * unitKwh >= bessMwh * 1000.0
            && (n > 0 ==> (n - 1) as real * unitKwh < bessMwh * 1000.0)
  {
    var need := bessMwh * 1000.0 / unitKwh;
    var n := MegapackUnits(bessMwh, unitKwh);
    DividedBack(bessMwh * 1000.0, unitKwh);
    assert need <= n as real;
    if need < n as real {
      MulMonotone(need, n as real, unitKwh);
    }
    assert n as real * unitKwh >= need * unitKwh;
    if n > 0 {
      var fewer := (n - 1) as real;
      assert fewer < need;
      MulMonotone(fewer, need, unitKwh);
      assert fewer * unitKwh < bessMwh * 1000.0;
    }
  }

  /** The pad as ordered: a Megapack fleet that just holds the energy, or one CATL bank declaring it with its PCS units
      beside it. */
  lemma PadHoldsTheOrder(r: Resolution, templates: Templates)
    requires BatteryPlan(r, templates).Ok?
    ensures var pad, kwh := BatteryPlan(r, templates).value, r.bessCapacityMwh * 1000.0;
            && pad.tag == "BESS" && pad.buses == []
            && (r.coupling == AcCoupled ==>
                  && "bess_rack" in templates && templates["bess_rack"].capacityKwh.Some?
                  && (forall i :: 0 <= i < |pad.leaves| ==> pad.leaves[i] == Leaf("bess_rack", Some("BESS-1-MP-" + Dec(i + 1)), ByModbus(None), None))
                  && var unit, n := templates["bess_rack"].capacityKwh.value, |pad.leaves|;
                     unit > 0.0 ==> n as real * unit >= kwh && (n > 0 ==> (n - 1) as real * unit < kwh))
            && (r.coupling != AcCoupled ==>
                  && |pad.leaves| == 1 + (if r.coupling == DcExternalPcs then r.pcsCount else 0)
                  && pad.leaves[0] == Leaf("bess_catl", Some("BESS-1"), ByModbus(Some("100")), Some(kwh))
                  && forall i :: 1 <= i < |pad.leaves| ==> pad.leaves[i] == Leaf("pcs", Some("PCS-" + Dec(i)), ByModbus(None), None))
  {
    if r.coupling == AcCoupled && templates["bess_rack"].capacityKwh.value > 0.0 {
      FleetHoldsTheEnergy(r.bessCapacityMwh, templates["bess_rack"].capacityKwh.value);
    }
  }

  function AcPlan(r: Resolution, kwh: real): Plan
    requires kwh != 0.0
  {
    Plan("BESS", "bess_module",
         NumberedLeaves("bess_rack", "BESS-1-MP-", MegapackUnits(r.bessCapacityMwh, kwh)), [])
  }

  function DcPlan(r: Resolution): Plan { Plan("BESS", "bess_module_dc", DcLeaves(r), []) }

  function BatteryPlan(r: Resolution, templates: Templates): Result<Plan, DtmError> {
    if r.coupling != AcCoupled then Ok(DcPlan(r))
    else if "bess_rack" !in templates then Err(NoMegapackCapacity)
    else
      var kwh := templates["bess_rack"].capacityKwh;
      if kwh.None? || kwh.value == 0.0 then Err(NoMegapackCapacity) else Ok(AcPlan(r, kwh.value))
  }

  /** One device stands for the whole CATL bank. */
  function BankLeaf(r: Resolution): Leaf {
    Leaf("bess_catl", Some("BESS-1"), Polled(Some("100")), Some(r.bessCapacityMwh * 1000.0))
  }

  function PcsUnits(r: Resolution): nat { if r.coupling == DcExternalPcs then r.pcsCount else 0 }

  function DcLeaves(r: Resolution): seq<Leaf> { [BankLeaf(r)] + NumberedLeaves("pcs", "PCS-", PcsUnits(r)) }

  function UtilityDevice(id: string, name: string): Device {
    Device(id, id, Some(name), None, None, None)
  }

  const UTILITY_DEVICES: seq<Device> := [
    UtilityDevice("der_dispatch", "DER-DISPATCH"),
    UtilityDevice("operating_envelope", "OPERATING-ENVELOPE")
  ]

  function UtilityOf(offGrid: bool): seq<Device> { if offGrid then [] else UTILITY_DEVICES }

  /** The 13.8 kV bus: POI meters, every MV breaker, then the battery module. */
  function SiteBusOf(id: string, containers: seq<Device>, battery: string): Bus {
    Bus(id, "ac",
        Members(IdsOf(containers, "poi_meter"), Some("voltage_in"))
        + Members(IdsOf(containers, "switchgear"), Some("line_in"))
        + [BusMember(battery, Some("ac_out"))])
  }

  /** modules[name]: the last top-level device of that name, as a dict comprehension keeps it. */
  function ModuleNamed(devices: seq<Device>, name: string): Option<string> {
    if devices == [] then None
    else
      var d := devices[|devices| - 1];
      if d.parent.None? && d.displayName == Some(name) then Some(d.id)
      else ModuleNamed(devices[..|devices| - 1], name)
  }

  function ModuleIds(devices: seq<Device>, fed: seq<int>): (r: Result<seq<string>, DtmError>)
    ensures r.Ok? ==> |r.value| == |fed|
  {
    if fed == [] then Ok([])
    else
      var init :- ModuleIds(devices, fed[..|fed| - 1]);
      match ModuleNamed(devices, "C" + IntText(fed[|fed| - 1]))
      case None => Err(MissingModule)
      case Some(id) => Ok(init + [id])
  }

  function LvBus(id: string, xfmr: string, swbd: string, modules: seq<string>): Bus {
    Bus(id, "ac", [BusMember(xfmr, Some("lv_out")), BusMember(swbd, Some("feeder_out"))]
                  + Members(modules, Some("ac_in")))
  }

  /** One LV bus per grid container, zipped strictly with the feeds. */
  function LvBusList(issued: seq<string>, devices: seq<Device>, xfmrs: seq<string>, swbds: seq<string>,
                     feeds: seq<seq<int>>): (r: Result<seq<Bus>, DtmError>)
    requires |xfmrs| == |swbds| == |feeds|
    ensures r.Ok? ==> |r.value| == |feeds|
  {
    if feeds == [] then Ok([])
    else
      var last := |feeds| - 1;
      var init :- LvBusList(issued, devices, xfmrs[..last], swbds[..last], feeds[..last]);
      var modules :- ModuleIds(devices, feeds[last]);
      Ok(init + [LvBus(Slug("lv_main", Count(issued, "lv_main") + |feeds|), xfmrs[last], swbds[last], modules)])
  }

  function LvBusesOf(issued: seq<string>, r: Resolution, containers: seq<Device>, devices: seq<Device>)
    : Result<seq<Bus>, DtmError>
  {
    var xfmrs, swbds := IdsOf(containers, "transformer"), IdsOf(containers, "lv_switchboard");
    if swbds == [] then Ok([])
    else
      var feeds := Feeds(r.computeCount, r.gridCount);
      if |xfmrs| == |swbds| == |feeds| then LvBusList(issued, devices, xfmrs, swbds, feeds)
      else Err(UnequalFeeds)
  }

  /** Containers of the site in emission order: C1…CN, then G1…GM. */
  function ContainerPlans(m: Manifest, prof: Profile, r: Resolution): Result<seq<Plan>, DtmError> {
    match prof.ComputeVariant(r.gpu)
    case None => Err(NoComputeVariant)
    case Some(variant) =>
      var grids :- GridVariants(prof, r.gridCount);
      Ok(ComputePlans(m.Topology(ComputeContainer, variant), r.nodeCount, r.computeCount) + GridPlans(m, grids))
  }

  function TemplateSlugs(devices: seq<Device>): set<string> { set d | d in devices :: d.template }

  function UsedTemplates(devices: seq<Device>, templates: Templates): Result<Templates, DtmError> {
    if TemplateSlugs(devices) <= templates.Keys
    then Ok(map t | t in TemplateSlugs(devices) :: templates[t])
    else Err(UnknownTemplate)
  }

  function SiteDevices(plans: seq<Plan>, battery: Plan, r: Resolution): seq<Device> {
    Flat(Blocks(plans + [battery])) + UtilityOf(r.offGrid)
  }

  /** The buses between blocks: the site bus, then one LV bus per grid container. */
  function BetweenBuses(issued: seq<string>, r: Resolution, containers: seq<Device>, devices: seq<Device>, battery: string)
    : Result<seq<Bus>, DtmError>
  {
    var siteBus := SiteBusOf(Slug("site_mv", Count(issued, "site_mv") + 1), containers, battery);
    var lv :- LvBusesOf(issued + ["site_mv"], r, containers, devices);
    Ok([siteBus] + lv)
  }

  function SiteBuses(plans: seq<Plan>, battery: Plan, r: Resolution): Result<seq<Bus>, DtmError> {
    var between :- BetweenBuses(AllNames(plans) + Names(battery), r, Flat(Blocks(plans)), SiteDevices(plans, battery, r),
                                BlockOf(AllNames(plans), battery).root.id);
    Ok(FlatBuses(Blocks(plans)) + between)
  }

  /** Site buses and templates_used, once containers and battery stand; a device whose id breaks the rule cannot be built. */
  function CompletedSite(r: Resolution, templates: Templates, plans: seq<Plan>, battery: Plan): Result<Dtm, DtmError> {
    var buses :- SiteBuses(plans, battery, r);
    var devices := SiteDevices(plans, battery, r);
    var used :- UsedTemplates(devices, templates);
    if IdsValid(devices) then Ok(Dtm(devices, buses, used)) else Err(InvalidDeviceId)
  }

  /** Everything after the containers stand. */
  function FinishedSite(r: Resolution, templates: Templates, plans: seq<Plan>): Result<Dtm, DtmError> {
    var battery :- BatteryPlan(r, templates);
    CompletedSite(r, templates, plans, battery)
  }

  function Generate(profile: string, r: Resolution, m: Manifest, templates: Templates): Result<Dtm, DtmError> {
    if profile !in m.profiles then Err(UnknownProfile)
    else
      var plans :- ContainerPlans(m, m.profiles[profile], r);
      FinishedSite(r, templates, plans)
  }
}
