/** A generated site against the topology.yaml files it was built from: every listed device, every listed bus member. */
module AsPublished {
  import opened Lists
  import opened Text
  import opened Numbering
  import opened Catalog
  import opened ComputeNodes
  import opened ComputeFeeds
  import opened Dtm
  import opened SitePlan
  import opened DtmSpec
  import opened DtmSoundness
  import opened SiteNames
  import opened SiteShape
  import opened SiteIndex

  // ----- one bus -----

  /** A member pattern meets a device of its template. */
  ghost predicate Meets(specs: seq<MemberSpec>, devices: seq<Device>, s: MemberSpec, d: Device, x: BusMember) {
    s in specs && d in devices && d.template == s.template && x == BusMember(d.id, s.port)
  }

  function Using(template: string): Device -> bool { (d: Device) => d.template == template }

  /** The devices each pattern meets, counted. */
  function Meetings(specs: seq<MemberSpec>, devices: seq<Device>): nat {
    Sum(Map((s: MemberSpec) => |Filter(Using(s.template), devices)|, specs))
  }

  /** A bus joins every device that one of its member patterns names, at the pattern's port, and nothing else. */
  ghost predicate JoinsAsListed(bus: Bus, spec: BusSpec, devices: seq<Device>) {
    && bus.kind == spec.kind
    && (forall x :: x in bus.members <==> exists s, d :: Meets(spec.members, devices, s, d, x))
    && |bus.members| == Meetings(spec.members, devices)
  }

  lemma {:induction false} IdsOfIsFilter(devices: seq<Device>, template: string)
    ensures IdsOf(devices, template) == DeviceIds(Filter(Using(template), devices))
  {
    if devices != [] {
      IdsOfIsFilter(devices[..|devices| - 1], template);
      var kept := Filter(Using(template), devices[..|devices| - 1]);
      assert DeviceIds(kept + [devices[|devices| - 1]]) == DeviceIds(kept) + [devices[|devices| - 1].id];
    }
  }

  lemma {:induction false} MembersMember(devices: seq<Device>, s: MemberSpec, x: BusMember)
    ensures x in Members(IdsOf(devices, s.template), s.port) <==>
              exists d :: d in devices && d.template == s.template && x == BusMember(d.id, s.port)
  {
    var ids := IdsOf(devices, s.template);
    if x in Members(ids, s.port) {
      var i :| 0 <= i < |ids| && x == BusMember(ids[i], s.port);
      IdsOfMember(devices, s.template, ids[i]);
    }
    if d :| d in devices && d.template == s.template && x == BusMember(d.id, s.port) {
      IdsOfMember(devices, s.template, d.id);
      var i :| 0 <= i < |ids| && ids[i] == d.id;
      assert Members(ids, s.port)[i] == x;
    }
  }

  lemma {:induction false} ExpandedMeets(specs: seq<MemberSpec>, devices: seq<Device>, x: BusMember)
    ensures x in ExpandMembers(specs, devices) <==> exists s, d :: Meets(specs, devices, s, d, x)
  {
    if specs != [] {
      var init, last := specs[..|specs| - 1], specs[|specs| - 1];
      assert specs == init + [last];
      ExpandedMeets(init, devices, x);
      MembersMember(devices, last, x);
      if s, d :| Meets(init, devices, s, d, x) {
        assert Meets(specs, devices, s, d, x);
      }
      if d :| d in devices && d.template == last.template && x == BusMember(d.id, last.port) {
        assert Meets(specs, devices, last, d, x);
      }
      if s, d :| Meets(specs, devices, s, d, x) {
        assert s == last || Meets(init, devices, s, d, x);
      }
    }
  }

  lemma {:induction false} ExpandedCount(specs: seq<MemberSpec>, devices: seq<Device>)
    ensures |ExpandMembers(specs, devices)| == Meetings(specs, devices)
  {
    if specs != [] {
      var init, last := specs[..|specs| - 1], specs[|specs| - 1];
      assert specs == init + [last];
      ExpandedCount(init, devices);
      IdsOfIsFilter(devices, last.template);
      var count := (s: MemberSpec) => |Filter(Using(s.template), devices)|;
      assert Map(count, specs) == Map(count, init) + [count(last)];
      SumMore(Map(count, init), count(last));
    }
  }

  lemma {:induction false} ExpandedAsListed(id: string, spec: BusSpec, devices: seq<Device>)
    ensures JoinsAsListed(Bus(id, spec.kind, ExpandMembers(spec.members, devices)), spec, devices)
  {
    forall x ensures x in ExpandMembers(spec.members, devices) <==> exists s, d :: Meets(spec.members, devices, s, d, x) {
      ExpandedMeets(spec.members, devices, x);
    }
    ExpandedCount(spec.members, devices);
  }

  // ----- one container -----

  function KeptSpecs(specs: seq<DeviceSpec>, drop: set<string>): seq<DeviceSpec> {
    Filter((s: DeviceSpec) => !(s.tag.Some? && s.tag.value in drop), specs)
  }

  /** A device as its topology entry lists it, tagged with the container's tag and its own. */
  ghost predicate IsListed(d: Device, tag: string, s: DeviceSpec, parent: string) {
    && d.template == s.template && d.connection == s.connection && d.parent == Some(parent) && d.capacityKwh.None?
    && d.displayName == if s.tag.Some? && s.tag.value != "" then Some(tag + "-" + s.tag.value) else None
  }

  /** One device for each entry that is not dropped, in order. */
  ghost predicate DevicesAsListed(children: seq<Device>, tag: string, specs: seq<DeviceSpec>, drop: set<string>, parent: string) {
    var kept := KeptSpecs(specs, drop);
    |children| == |kept| && forall i :: 0 <= i < |children| ==> IsListed(children[i], tag, kept[i], parent)
  }

  /** The buses from position `from` on are the topology's, in order. */
  ghost predicate BusesAsListed(buses: seq<Bus>, from: nat, specs: seq<BusSpec>, children: seq<Device>) {
    from + |specs| <= |buses| && forall j :: 0 <= j < |specs| ==> JoinsAsListed(buses[from + j], specs[j], children)
  }

  lemma {:induction false} LeavesAreKept(tag: string, specs: seq<DeviceSpec>, drop: set<string>)
    ensures Leaves(tag, specs, drop) == Map((s: DeviceSpec) => LeafOf(tag, s), KeptSpecs(specs, drop))
  {
    if specs != [] {
      var init, s := specs[..|specs| - 1], specs[|specs| - 1];
      LeavesAreKept(tag, init, drop);
      MapAppend((s: DeviceSpec) => LeafOf(tag, s), KeptSpecs(init, drop), [s]);
    }
  }

  lemma BlockAsListed(issued: seq<string>, asm: AsmType, t: Topology, tag: string, drop: set<string>)
    ensures var b := BlockOf(issued, PlanOf(asm, Some(t), tag, drop));
            DevicesAsListed(b.leaves, tag, t.devices, drop, b.root.id) && BusesAsListed(b.buses, 0, t.buses, b.leaves)
  {
    var p := PlanOf(asm, Some(t), tag, drop);
    var b := BlockOf(issued, p);
    LeavesAreKept(tag, t.devices, drop);
    forall j | 0 <= j < |t.buses| ensures JoinsAsListed(b.buses[j], t.buses[j], b.leaves) {
      ExpandedAsListed(b.buses[j].id, t.buses[j], b.leaves);
    }
    assert DevicesAsListed(b.leaves, tag, t.devices, drop, b.root.id);
  }

  // ----- the site -----

  lemma {:induction false} FlatBusesAppend(a: seq<Block>, b: seq<Block>)
    ensures FlatBuses(a + b) == FlatBuses(a) + FlatBuses(b)
  {
    if b == [] {
      assert a + b == a;
    } else {
      assert (a + b)[..|a + b| - 1] == a + b[..|b| - 1];
      FlatBusesAppend(a, b[..|b| - 1]);
    }
  }

  lemma {:induction false} FlatBusesAround(blocks: seq<Block>, k: nat)
    requires k < |blocks|
    ensures FlatBuses(blocks) == FlatBuses(blocks[..k]) + blocks[k].buses + FlatBuses(blocks[k + 1..])
  {
    assert blocks == (blocks[..k] + [blocks[k]]) + blocks[k + 1..];
    FlatBusesAppend(blocks[..k] + [blocks[k]], blocks[k + 1..]);
    FlatSnoc(blocks[..k], blocks[k]);
  }

  lemma ListedFrom(buses: seq<Bus>, before: seq<Bus>, own: seq<Bus>, after: seq<Bus>, specs: seq<BusSpec>, children: seq<Device>)
    requires buses == before + own + after && BusesAsListed(own, 0, specs, children)
    ensures BusesAsListed(buses, |before|, specs, children)
  {
    forall j | 0 <= j < |specs| ensures JoinsAsListed(buses[|before| + j], specs[j], children) {
      assert buses[|before| + j] == own[0 + j];
    }
  }

  /** A container stands in the DTM as its topology lists it: its module, its module's children, its buses. */
  ghost predicate ContainerStands(dtm: Dtm, root: Device, from: nat, tag: string, template: string, t: Option<Topology>, drop: set<string>) {
    var children := Filter(IsChildOf(root.id), dtm.devices);
    && root in dtm.devices && root.parent.None? && root.displayName == Some(tag) && root.template == template
    && (t.None? ==> children == [])
    && (t.Some? ==> DevicesAsListed(children, tag, t.value.devices, drop, root.id) && BusesAsListed(dtm.buses, from, t.value.buses, children))
  }

  lemma {:induction false} RootInFlat(blocks: seq<Block>, k: nat, rest: seq<Device>)
    requires k < |blocks|
    ensures blocks[k].root in Flat(blocks) + rest
  {
    assert blocks[k].root in BlockDevices(blocks[k]);
    FlatMember(blocks, blocks[k].root);
  }

  lemma {:induction false} OwnLeaves(plans: seq<Plan>, battery: Plan, r: Resolution, k: nat)
    requires k <= |plans|
    ensures var b := Blocks(plans + [battery])[k];
            b.root in SiteDevices(plans, battery, r) && Filter(IsChildOf(b.root.id), SiteDevices(plans, battery, r)) == b.leaves
  {
    SiteBlocks(plans + [battery]);
    LeavesRead(Blocks(plans + [battery]), k, r.offGrid);
    RootInFlat(Blocks(plans + [battery]), k, UtilityOf(r.offGrid));
  }

  lemma {:induction false} LeavesRead(blocks: seq<Block>, k: nat, offGrid: bool)
    requires WellFormedBlocks(blocks) && k < |blocks|
    ensures Filter(IsChildOf(blocks[k].root.id), Flat(blocks) + UtilityOf(offGrid)) == blocks[k].leaves
  {
    assert NoKind(UtilityOf(offGrid));
    ChildrenOfBlock(blocks, k, UtilityOf(offGrid));
  }

  lemma {:induction false} BlockBuses(plans: seq<Plan>, battery: Plan, between: seq<Bus>, k: nat, specs: seq<BusSpec>, children: seq<Device>)
    requires k < |plans| && BusesAsListed(Blocks(plans + [battery])[k].buses, 0, specs, children)
    ensures BusesAsListed(FlatBuses(Blocks(plans)) + between, |FlatBuses(Blocks(plans)[..k])|, specs, children)
  {
    var blocks := Blocks(plans);
    BlocksSnoc(plans, battery);
    FlatBusesAround(blocks, k);
    var before, own, after := FlatBuses(blocks[..k]), blocks[k].buses, FlatBuses(blocks[k + 1..]);
    Regroup3(before + own, after, between);
    ListedFrom(FlatBuses(blocks) + between, before, own, after + between, specs, children);
  }

  /** A DTM made of these blocks and buses. */
  ghost predicate MadeOf(dtm: Dtm, plans: seq<Plan>, battery: Plan, r: Resolution, between: seq<Bus>) {
    dtm.devices == SiteDevices(plans, battery, r) && dtm.buses == FlatBuses(Blocks(plans)) + between
  }

  /** A container's module: the topology's own, else its type's. */
  ghost function ListedModule(asm: AsmType, t: Option<Topology>): string {
    match t
    case Some(Topology(Some(template), _, _)) => template
    case _ => match asm case ComputeContainer => "compute_module" case GridContainer => "grid_module"
  }

  lemma {:induction false} PlanStands(plans: seq<Plan>, battery: Plan, r: Resolution, between: seq<Bus>, dtm: Dtm, k: nat,
                                      asm: AsmType, t: Option<Topology>, tag: string, drop: set<string>)
    returns (root: Device, from: nat)
    requires k < |plans| && plans[k] == PlanOf(asm, t, tag, drop)
    requires MadeOf(dtm, plans, battery, r, between)
    ensures ContainerStands(dtm, root, from, tag, ListedModule(asm, t), t, drop)
  {
    var all := plans + [battery];
    root, from := Blocks(all)[k].root, |FlatBuses(Blocks(plans)[..k])|;
    OwnLeaves(plans, battery, r, k);
    BlockRealizes(all, k);
    if t.Some? {
      BlockAt(all, k);
      BlockAsListed(AllNames(all[..k]), asm, t.value, tag, drop);
      BlockBuses(plans, battery, between, k, t.value.buses, Blocks(all)[k].leaves);
    }
  }

  lemma {:induction false} ComputePlanIs(m: Manifest, prof: Profile, r: Resolution, plans: seq<Plan>, n: nat)
    requires ContainerPlans(m, prof, r) == Ok(plans) && 1 <= n <= r.computeCount
    ensures prof.ComputeVariant(r.gpu).Some? && n <= |plans|
    ensures plans[n - 1] == PlanOf(ComputeContainer, m.Topology(ComputeContainer, prof.ComputeVariant(r.gpu).value), "C" + Dec(n),
                                   DroppedTags(NodesInContainer(r.nodeCount, n)))
  {
    ComputeCountWithin(m, prof, r, plans);
    PlansAt(m, prof, r, plans, n - 1);
  }

  /** The topology Gk is built from: the primary variant's for G1, the feeder's for the others. */
  ghost function GridListing(m: Manifest, prof: Profile, k: nat): Option<Topology> {
    var variant := if k == 1 then prof.gridContainer else prof.gridFeeder;
    if variant.None? then None else m.Topology(GridContainer, variant.value)
  }

  lemma {:induction false} GridPlanIs(m: Manifest, prof: Profile, r: Resolution, plans: seq<Plan>, k: nat, at: nat)
    requires ContainerPlans(m, prof, r) == Ok(plans) && prof.gridContainer.Some? && 1 <= k <= r.gridCount
    requires at == r.computeCount + k - 1
    ensures k > 1 ==> prof.gridFeeder.Some?
    ensures at < |plans| == r.computeCount + r.gridCount
    ensures plans[at] == PlanOf(GridContainer, GridListing(m, prof, k), "G" + Dec(k), {})
  {
    ComputeCountWithin(m, prof, r, plans);
    PlansAt(m, prof, r, plans, at);
  }

  lemma {:induction false} ComputeParts(profile: string, r: Resolution, m: Manifest, templates: Templates, n: nat)
    returns (plans: seq<Plan>, battery: Plan, between: seq<Bus>)
    requires Generate(profile, r, m, templates).Ok? && 1 <= n <= r.computeCount
    ensures profile in m.profiles && m.profiles[profile].ComputeVariant(r.gpu).Some?
    ensures MadeOf(Generate(profile, r, m, templates).value, plans, battery, r, between) && n <= |plans|
    ensures plans[n - 1] == PlanOf(ComputeContainer, m.Topology(ComputeContainer, m.profiles[profile].ComputeVariant(r.gpu).value),
                                   "C" + Dec(n), DroppedTags(NodesInContainer(r.nodeCount, n)))
  {
    plans, battery, between := Parts(profile, r, m, templates);
    ComputePlanIs(m, m.profiles[profile], r, plans, n);
  }

  lemma {:induction false} GridParts(profile: string, r: Resolution, m: Manifest, templates: Templates, k: nat)
    returns (plans: seq<Plan>, battery: Plan, between: seq<Bus>, at: nat)
    requires Generate(profile, r, m, templates).Ok? && 1 <= k <= r.gridCount
    requires profile in m.profiles && m.profiles[profile].gridContainer.Some?
    ensures k > 1 ==> m.profiles[profile].gridFeeder.Some?
    ensures MadeOf(Generate(profile, r, m, templates).value, plans, battery, r, between) && at < |plans|
    ensures plans[at] == PlanOf(GridContainer, GridListing(m, m.profiles[profile], k), "G" + Dec(k), {})
  {
    plans, battery, between := Parts(profile, r, m, templates);
    at := r.computeCount + k - 1;
    GridPlanIs(m, m.profiles[profile], r, plans, k, at);
  }

  /** Compute container Cn of every generated site: every device its variant's topology lists but those a partial container
      leaves out, and every bus with every member. */
  lemma {:induction false} ComputeAsListed(profile: string, r: Resolution, m: Manifest, templates: Templates, n: nat)
    returns (root: Device, from: nat)
    requires Generate(profile, r, m, templates).Ok? && 1 <= n <= r.computeCount
    ensures profile in m.profiles && m.profiles[profile].ComputeVariant(r.gpu).Some?
    ensures var t := m.Topology(ComputeContainer, m.profiles[profile].ComputeVariant(r.gpu).value);
            ContainerStands(Generate(profile, r, m, templates).value, root, from, "C" + Dec(n),
                            ListedModule(ComputeContainer, t), t, DroppedTags(NodesInContainer(r.nodeCount, n)))
  {
    var plans, battery, between := ComputeParts(profile, r, m, templates, n);
    var t := m.Topology(ComputeContainer, m.profiles[profile].ComputeVariant(r.gpu).value);
    root, from := PlanStands(plans, battery, r, between, Generate(profile, r, m, templates).value, n - 1,
                             ComputeContainer, t, "C" + Dec(n), DroppedTags(NodesInContainer(r.nodeCount, n)));
  }

  /** Grid container Gk: G1 as the primary variant's topology lists it, every other as the feeder's. */
  lemma {:induction false} GridAsListed(profile: string, r: Resolution, m: Manifest, templates: Templates, k: nat)
    returns (root: Device, from: nat)
    requires Generate(profile, r, m, templates).Ok? && 1 <= k <= r.gridCount
    requires profile in m.profiles && m.profiles[profile].gridContainer.Some?
    ensures k > 1 ==> m.profiles[profile].gridFeeder.Some?
    ensures var t := GridListing(m, m.profiles[profile], k);
            ContainerStands(Generate(profile, r, m, templates).value, root, from, "G" + Dec(k), ListedModule(GridContainer, t), t, {})
  {
    var plans, battery, between, at := GridParts(profile, r, m, templates, k);
    root, from := PlanStands(plans, battery, r, between, Generate(profile, r, m, templates).value, at,
                             GridContainer, GridListing(m, m.profiles[profile], k), "G" + Dec(k), {});
  }

  // ----- the pad and the site bus -----

  /** The pad's children as ordered: a Megapack fleet that just holds the energy, or one CATL bank declaring it with the PCS
      units beside it. */
  ghost predicate PadHolds(children: seq<Device>, r: Resolution, templates: Templates) {
    var kwh := r.bessCapacityMwh * 1000.0;
    && (r.coupling == AcCoupled ==>
          && "bess_rack" in templates && templates["bess_rack"].capacityKwh.Some?
          && (forall i :: 0 <= i < |children| ==> Stands(children[i], "bess_rack", "BESS-1-MP-" + Dec(i + 1), None, None))
          && var unit, n := templates["bess_rack"].capacityKwh.value, |children|;
             unit > 0.0 ==> n as real * unit >= kwh && (n > 0 ==> (n - 1) as real * unit < kwh))
    && (r.coupling != AcCoupled ==>
          && |children| == 1 + (if r.coupling == DcExternalPcs then r.pcsCount else 0)
          && Stands(children[0], "bess_catl", "BESS-1", Some("100"), Some(kwh))
          && forall i :: 1 <= i < |children| ==> Stands(children[i], "pcs", "PCS-" + Dec(i), None, None))
  }

  /** A pad device of this template and name, polled at this Modbus unit. */
  ghost predicate Stands(d: Device, template: string, name: string, unit: Option<string>, kwh: Option<real>) {
    d.template == template && d.displayName == Some(name) && d.connection == ByModbus(unit) && d.capacityKwh == kwh
  }

  ghost predicate Carries(d: Device, leaf: Leaf) {
    d.template == leaf.template && d.displayName == leaf.name && d.connection == leaf.connection && d.capacityKwh == leaf.capacityKwh
  }

  lemma LeavesCarry(issued: seq<string>, p: Plan, i: nat)
    requires i < |p.leaves|
    ensures var b := BlockOf(issued, p);
            |b.leaves| == |p.leaves| && Carries(b.leaves[i], p.leaves[i])
  {
  }

  lemma PadBlockHolds(issued: seq<string>, r: Resolution, templates: Templates)
    requires BatteryPlan(r, templates).Ok?
    ensures PadHolds(BlockOf(issued, BatteryPlan(r, templates).value).leaves, r, templates)
  {
    var pad := BatteryPlan(r, templates).value;
    var leaves := BlockOf(issued, pad).leaves;
    BlockOfRealizes(issued, pad);
    forall i | 0 <= i < |leaves| ensures Carries(leaves[i], pad.leaves[i]) {
      LeavesCarry(issued, pad, i);
    }
    PlanHolds(r, templates, leaves);
  }

  lemma PlanHolds(r: Resolution, templates: Templates, leaves: seq<Device>)
    requires BatteryPlan(r, templates).Ok? && |leaves| == |BatteryPlan(r, templates).value.leaves|
    requires forall i :: 0 <= i < |leaves| ==> Carries(leaves[i], BatteryPlan(r, templates).value.leaves[i])
    ensures PadHolds(leaves, r, templates)
  {
    PadHoldsTheOrder(r, templates);
  }

  /** What hangs on the 13.8 kV bus: every POI meter, every switchgear line-up, the battery pad. */
  ghost predicate OnSiteBus(devices: seq<Device>, pad: Device, x: BusMember) {
    || (exists d :: d in devices && d.template == "poi_meter" && x == BusMember(d.id, Some("voltage_in")))
    || (exists d :: d in devices && d.template == "switchgear" && x == BusMember(d.id, Some("line_in")))
    || x == BusMember(pad.id, Some("ac_out"))
  }

  ghost predicate IsSiteBus(bus: Bus, devices: seq<Device>, pad: Device) {
    && bus.kind == "ac"
    && (forall x :: x in bus.members <==> OnSiteBus(devices, pad, x))
    && |bus.members| == |Filter(Using("poi_meter"), devices)| + |Filter(Using("switchgear"), devices)| + 1
  }

  lemma {:induction false} IdsOfCount(devices: seq<Device>, template: string)
    ensures |IdsOf(devices, template)| == |Filter(Using(template), devices)|
  {
    IdsOfIsFilter(devices, template);
  }

  lemma {:induction false} SiteBusJoins(id: string, containers: seq<Device>, pad: Device)
    ensures IsSiteBus(SiteBusOf(id, containers, pad.id), containers, pad)
  {
    var bus := SiteBusOf(id, containers, pad.id);
    var meters, gear := MemberSpec("poi_meter", Some("voltage_in")), MemberSpec("switchgear", Some("line_in"));
    forall x ensures x in bus.members <==> OnSiteBus(containers, pad, x) {
      MembersMember(containers, meters, x);
      MembersMember(containers, gear, x);
    }
    IdsOfCount(containers, "poi_meter");
    IdsOfCount(containers, "switchgear");
  }

  /** Neither pad nor utility holds a meter or a breaker, so the bus speaks of the whole site. */
  lemma {:induction false} SiteBusOfAll(bus: Bus, containers: seq<Device>, rest: seq<Device>, pad: Device)
    requires IsSiteBus(bus, containers, pad)
    requires forall i :: 0 <= i < |rest| ==> NotGear(rest[i].template)
    ensures IsSiteBus(bus, containers + rest, pad)
  {
    FilterAppend(Using("poi_meter"), containers, rest);
    FilterAppend(Using("switchgear"), containers, rest);
    FilterNone(Using("poi_meter"), rest);
    FilterNone(Using("switchgear"), rest);
    forall x ensures OnSiteBus(containers, pad, x) <==> OnSiteBus(containers + rest, pad, x) {
      RestIsElsewhere(containers, rest, pad, x);
    }
  }

  lemma RestIsElsewhere(containers: seq<Device>, rest: seq<Device>, pad: Device, x: BusMember)
    requires forall i :: 0 <= i < |rest| ==> NotGear(rest[i].template)
    ensures OnSiteBus(containers, pad, x) <==> OnSiteBus(containers + rest, pad, x)
  {
    forall d | d in containers + rest && (d.template == "poi_meter" || d.template == "switchgear") ensures d in containers {
    }
    forall d | d in containers ensures d in containers + rest {
    }
  }

  ghost predicate IsPadPlan(p: Plan) {
    && p.tag == "BESS" && (p.template == "bess_module" || p.template == "bess_module_dc")
    && forall i :: 0 <= i < |p.leaves| ==> p.leaves[i].template in {"bess_rack", "bess_catl", "pcs"}
  }

  lemma PadPlanIs(r: Resolution, templates: Templates, pad: Plan)
    requires BatteryPlan(r, templates) == Ok(pad)
    ensures IsPadPlan(pad) && (pad.template == "bess_module" <==> r.coupling == AcCoupled)
  {
    PadHoldsTheOrder(r, templates);
    assert "bess_module" != "bess_module_dc";
  }

  predicate NotGear(template: string) { template != "poi_meter" && template != "switchgear" }

  lemma NoGearOutside(issued: seq<string>, pad: Plan, offGrid: bool)
    requires IsPadPlan(pad)
    ensures var rest := BlockDevices(BlockOf(issued, pad)) + UtilityOf(offGrid);
            forall i :: 0 <= i < |rest| ==> NotGear(rest[i].template)
  {
    var b := BlockOf(issued, pad);
    forall i | 0 <= i < |b.leaves| ensures NotGear(b.leaves[i].template) {
      LeavesCarry(issued, pad, i);
    }
    BlockOfRealizes(issued, pad);
    assert NotGear(b.root.template) && forall i :: 0 <= i < |UtilityOf(offGrid)| ==> NotGear(UtilityOf(offGrid)[i].template);
  }

  /** The site as a whole: the pad holds what was ordered, and some bus is the 13.8 kV bus. */
  lemma {:induction false} PadAndSiteBus(profile: string, r: Resolution, m: Manifest, templates: Templates)
    returns (pad: Device, bus: Bus)
    requires Generate(profile, r, m, templates).Ok?
    ensures var dtm := Generate(profile, r, m, templates).value;
            && pad in dtm.devices && pad.parent.None? && pad.displayName == Some("BESS")
            && pad.template == (if r.coupling == AcCoupled then "bess_module" else "bess_module_dc")
            && PadHolds(Filter(IsChildOf(pad.id), dtm.devices), r, templates)
            && bus in dtm.buses && IsSiteBus(bus, dtm.devices, pad)
  {
    var plans, battery, between := Parts(profile, r, m, templates);
    pad := Blocks(plans + [battery])[|plans|].root;
    bus := PadAndBus(plans, battery, r, templates, between);
  }

  lemma {:induction false} PadAndBus(plans: seq<Plan>, battery: Plan, r: Resolution, templates: Templates, between: seq<Bus>) returns (bus: Bus)
    requires BatteryPlan(r, templates) == Ok(battery)
    requires BetweenBuses(AllNames(plans + [battery]), r, Flat(Blocks(plans)), SiteDevices(plans, battery, r),
                          Blocks(plans + [battery])[|plans|].root.id) == Ok(between)
    ensures var pad := Blocks(plans + [battery])[|plans|].root;
            && pad in SiteDevices(plans, battery, r) && pad.parent.None? && pad.displayName == Some("BESS")
            && pad.template == (if r.coupling == AcCoupled then "bess_module" else "bess_module_dc")
            && PadHolds(Filter(IsChildOf(pad.id), SiteDevices(plans, battery, r)), r, templates)
            && bus in between && IsSiteBus(bus, SiteDevices(plans, battery, r), pad)
  {
    var all, issued := plans + [battery], AllNames(plans + [battery]);
    var pad := Blocks(all)[|plans|].root;
    PadPlanIs(r, templates, battery);
    OwnLeaves(plans, battery, r, |plans|);
    BlockRealizes(all, |plans|);
    SiteDevicesSplit(plans, battery, r);
    PadBlockHolds(AllNames(plans), r, templates);
    BetweenIs(issued, r, Flat(Blocks(plans)), SiteDevices(plans, battery, r), pad.id, between);
    bus := between[0];
    SiteBusJoins(bus.id, Flat(Blocks(plans)), pad);
    NoGearOutside(AllNames(plans), battery, r.offGrid);
    SiteBusOfAll(bus, Flat(Blocks(plans)), BlockDevices(BlockOf(AllNames(plans), battery)) + UtilityOf(r.offGrid), pad);
  }

  // ----- the LV buses -----

  /** What hangs on Gk's LV bus: its own transformer and switchboard, and the modules of the containers it feeds. */
  ghost predicate OnFeedBus(devices: seq<Device>, root: string, fed: seq<int>, x: BusMember) {
    || (exists d :: d in devices && d.parent == Some(root) && d.template == "transformer" && x == BusMember(d.id, Some("lv_out")))
    || (exists d :: d in devices && d.parent == Some(root) && d.template == "lv_switchboard" && x == BusMember(d.id, Some("feeder_out")))
    || (exists n, d :: n in fed && IsModule(devices, n, d) && x == BusMember(d.id, Some("ac_in")))
  }

  /** Cn's module. */
  ghost predicate IsModule(devices: seq<Device>, n: int, d: Device) {
    d in devices && d.parent.None? && d.displayName == Some("C" + IntText(n))
  }

  ghost predicate IsFeedBus(bus: Bus, devices: seq<Device>, root: string, fed: seq<int>) {
    bus.kind == "ac" && |bus.members| == 2 + |fed| && forall x :: x in bus.members <==> OnFeedBus(devices, root, fed, x)
  }

  /** Gk's bus, read from its block: one transformer, one switchboard, one module for each container fed. */
  ghost predicate FeedsFrom(bus: Bus, xfmr: string, swbd: string, ids: seq<string>) { bus == LvBus(bus.id, xfmr, swbd, ids) }

  lemma FeedBusMembers(bus: Bus, xfmr: string, swbd: string, ids: seq<string>, x: BusMember)
    requires FeedsFrom(bus, xfmr, swbd, ids)
    ensures x in bus.members <==>
              x == BusMember(xfmr, Some("lv_out")) || x == BusMember(swbd, Some("feeder_out")) || (x.port == Some("ac_in") && x.deviceId in ids)
    ensures bus.kind == "ac" && |bus.members| == 2 + |ids|
  {
    var members := Members(ids, Some("ac_in"));
    if x.port == Some("ac_in") && x.deviceId in ids {
      var i :| 0 <= i < |ids| && ids[i] == x.deviceId;
      assert members[i] == x;
    }
  }

  /** A block's one device of a template, found by its parent anywhere on the site. */
  lemma {:induction false} OnlyOne(b: Block, devices: seq<Device>, template: string, id: string)
    requires Filter(IsChildOf(b.root.id), devices) == b.leaves && b.root.template != template
    requires |IdsOf(BlockDevices(b), template)| == 1
    ensures (exists d :: d in devices && d.parent == Some(b.root.id) && d.template == template && d.id == id)
            <==> id == IdsOf(BlockDevices(b), template)[0]
  {
    var ids := IdsOf(BlockDevices(b), template);
    IdsOfMember(BlockDevices(b), template, id);
    if d :| d in devices && d.parent == Some(b.root.id) && d.template == template && d.id == id {
      FilterMember(IsChildOf(b.root.id), devices, d);
      assert d in BlockDevices(b);
    }
    if id == ids[0] {
      var d :| d in BlockDevices(b) && d.template == template && d.id == id;
      assert d in b.leaves;
      FilterMember(IsChildOf(b.root.id), devices, d);
    }
  }

  ghost predicate ModulesAre(devices: seq<Device>, blocks: seq<Block>, fed: seq<int>) {
    forall n :: n in fed ==> 1 <= n <= |blocks| && forall d :: IsModule(devices, n, d) <==> d == blocks[n - 1].root
  }

  lemma FedModules(devices: seq<Device>, blocks: seq<Block>, fed: seq<int>, ids: seq<string>, id: string)
    requires FedIds(ids, blocks, fed) && ModulesAre(devices, blocks, fed)
    ensures id in ids <==> exists n, d :: n in fed && IsModule(devices, n, d) && d.id == id
  {
    if id in ids {
      var i :| 0 <= i < |ids| && ids[i] == id;
      assert fed[i] in fed && IsModule(devices, fed[i], blocks[fed[i] - 1].root);
    }
    if n, d :| n in fed && IsModule(devices, n, d) && d.id == id {
      var i :| 0 <= i < |fed| && fed[i] == n;
      assert ids[i] == id;
    }
  }

  /** A container whose children are the block's leaves, on a module that is no gear itself. */
  ghost predicate IsGridRoot(devices: seq<Device>, b: Block) {
    && Filter(IsChildOf(b.root.id), devices) == b.leaves
    && b.root.template != "transformer" && b.root.template != "lv_switchboard"
  }

  /** The bus of one feed, member by member. */
  lemma {:induction false} FeedBusJoins(bus: Bus, b: Block, blocks: seq<Block>, fed: seq<int>, devices: seq<Device>)
    requires FeedBus(bus, b, blocks, fed) && ModulesAre(devices, blocks, fed) && IsGridRoot(devices, b)
    ensures IsFeedBus(bus, devices, b.root.id, fed)
  {
    var xfmr, swbd := IdsOf(BlockDevices(b), "transformer")[0], IdsOf(BlockDevices(b), "lv_switchboard")[0];
    var ids :| FedIds(ids, blocks, fed) && bus == LvBus(bus.id, xfmr, swbd, ids);
    forall x ensures x in bus.members <==> OnFeedBus(devices, b.root.id, fed, x) {
      FeedBusMembers(bus, xfmr, swbd, ids, x);
      OnlyOne(b, devices, "transformer", x.deviceId);
      OnlyOne(b, devices, "lv_switchboard", x.deviceId);
      FedModules(devices, blocks, fed, ids, x.deviceId);
      OnFeedBusIs(devices, b.root.id, fed, x, xfmr, swbd, ids);
    }
    FeedBusMembers(bus, xfmr, swbd, ids, BusMember("", None));
  }

  lemma OnFeedBusIs(devices: seq<Device>, root: string, fed: seq<int>, x: BusMember, xfmr: string, swbd: string, ids: seq<string>)
    requires (exists d :: d in devices && d.parent == Some(root) && d.template == "transformer" && d.id == x.deviceId) <==> x.deviceId == xfmr
    requires (exists d :: d in devices && d.parent == Some(root) && d.template == "lv_switchboard" && d.id == x.deviceId) <==> x.deviceId == swbd
    requires x.deviceId in ids <==> exists n, d :: n in fed && IsModule(devices, n, d) && d.id == x.deviceId
    ensures OnFeedBus(devices, root, fed, x) <==>
              x == BusMember(xfmr, Some("lv_out")) || x == BusMember(swbd, Some("feeder_out")) || (x.port == Some("ac_in") && x.deviceId in ids)
  {
    if x.port == Some("ac_in") && x.deviceId in ids {
      var n, d :| n in fed && IsModule(devices, n, d) && d.id == x.deviceId;
      assert x == BusMember(d.id, Some("ac_in"));
    }
    if n, d :| n in fed && IsModule(devices, n, d) && x == BusMember(d.id, Some("ac_in")) {
      assert d.id == x.deviceId;
    }
  }

  lemma {:induction false} ModuleIs(m: Manifest, prof: Profile, r: Resolution, plans: seq<Plan>, devices: seq<Device>, n: nat)
    requires ContainerPlans(m, prof, r) == Ok(plans) && 1 <= n <= r.computeCount && NamesUnique(devices)
    requires forall d :: d in Flat(Blocks(plans)) ==> d in devices
    ensures n <= |plans| && forall d :: IsModule(devices, n, d) <==> d == Blocks(plans)[n - 1].root
  {
    ComputePlanIs(m, prof, r, plans, n);
    BlockRealizes(plans, n - 1);
    var root := Blocks(plans)[n - 1].root;
    assert root in BlockDevices(Blocks(plans)[n - 1]);
    BlockInFlat(plans, n - 1, root);
    assert "C" + IntText(n) == "C" + Dec(n);
    assert IsModule(devices, n, root);
  }

  lemma {:induction false} FedModulesAre(m: Manifest, prof: Profile, r: Resolution, plans: seq<Plan>, devices: seq<Device>, k: nat, fed: seq<int>)
    requires ContainerPlans(m, prof, r) == Ok(plans) && NamesUnique(devices) && k < r.gridCount
    requires (forall d :: d in Flat(Blocks(plans)) ==> d in devices) && fed == Feeds(r.computeCount, r.gridCount)[k]
    ensures ModulesAre(devices, Blocks(plans), fed)
  {
    forall n | n in fed ensures 1 <= n <= |plans| && forall d :: IsModule(devices, n, d) <==> d == Blocks(plans)[n - 1].root {
      FeedMembers(r.computeCount, PerGrid(r.computeCount, r.gridCount), k, n);
      ModuleIs(m, prof, r, plans, devices, n);
    }
  }

  /** The LV bus of Gk in every generated DTM: its own transformer and switchboard, and exactly the modules it feeds. */
  lemma {:induction false} LvBusAsFed(profile: string, r: Resolution, m: Manifest, templates: Templates, k: nat)
    returns (root: Device, bus: Bus)
    requires Generate(profile, r, m, templates).Ok? && profile in m.profiles
    requires TopologiesTagged(m) && ProfileShaped(m, m.profiles[profile]) && m.profiles[profile].gridContainer.Some?
    requires 1 <= k <= r.gridCount
    ensures var dtm := Generate(profile, r, m, templates).value;
            && root in dtm.devices && root.parent.None? && root.displayName == Some("G" + Dec(k))
            && bus in dtm.buses && IsFeedBus(bus, dtm.devices, root.id, Feeds(r.computeCount, r.gridCount)[k - 1])
  {
    var plans, battery, between := Parts(profile, r, m, templates);
    SiteNamesUnique(profile, r, m, templates, plans, battery);
    root, bus := LvBusOn(m, m.profiles[profile], r, plans, battery, SiteDevices(plans, battery, r), between,
                         Blocks(plans + [battery])[|plans|].root.id, k, Feeds(r.computeCount, r.gridCount)[k - 1]);
  }

  lemma {:induction false} LvBusOn(m: Manifest, prof: Profile, r: Resolution, plans: seq<Plan>, battery: Plan, devices: seq<Device>,
                                   between: seq<Bus>, pad: string, k: nat, feed: seq<int>)
    returns (root: Device, bus: Bus)
    requires ContainerPlans(m, prof, r) == Ok(plans) && ProfileShaped(m, prof) && prof.gridContainer.Some? && 1 <= k <= r.gridCount
    requires devices == SiteDevices(plans, battery, r) && NamesUnique(devices) && feed == Feeds(r.computeCount, r.gridCount)[k - 1]
    requires BetweenBuses(AllNames(plans + [battery]), r, Flat(Blocks(plans)), devices, pad) == Ok(between)
    ensures root in devices && root.parent.None? && root.displayName == Some("G" + Dec(k))
    ensures bus in between && IsFeedBus(bus, devices, root.id, feed)
  {
    var b, at;
    root, b, at := GridStands(m, prof, r, plans, battery, devices, k);
    bus := JoinedBus(m, prof, r, plans, devices, AllNames(plans + [battery]), between, pad, k - 1, at, b, feed);
  }

  lemma {:induction false} GridStands(m: Manifest, prof: Profile, r: Resolution, plans: seq<Plan>, battery: Plan, devices: seq<Device>, k: nat)
    returns (root: Device, b: Block, at: nat)
    requires ContainerPlans(m, prof, r) == Ok(plans) && ProfileShaped(m, prof) && prof.gridContainer.Some? && 1 <= k <= r.gridCount
    requires devices == SiteDevices(plans, battery, r)
    ensures forall d :: d in Flat(Blocks(plans)) ==> d in devices
    ensures at == r.computeCount + (k - 1) && at < |plans| && b == Blocks(plans)[at] && root == b.root
    ensures root in devices && root.parent.None? && root.displayName == Some("G" + Dec(k)) && IsGridRoot(devices, b)
  {
    at := r.computeCount + (k - 1);
    PlansInSite(plans, battery, r);
    root, b := GridRoot(m, prof, r, plans, battery, k, at);
  }

  lemma {:induction false} JoinedBus(m: Manifest, prof: Profile, r: Resolution, plans: seq<Plan>, devices: seq<Device>, issued: seq<string>,
                                     between: seq<Bus>, pad: string, j: nat, at: nat, b: Block, feed: seq<int>)
    returns (bus: Bus)
    requires ContainerPlans(m, prof, r) == Ok(plans) && ProfileShaped(m, prof) && prof.gridContainer.Some? && j < r.gridCount
    requires NamesUnique(devices) && forall d :: d in Flat(Blocks(plans)) ==> d in devices
    requires BetweenBuses(issued, r, Flat(Blocks(plans)), devices, pad) == Ok(between)
    requires at == r.computeCount + j && at < |plans| && b == Blocks(plans)[at] && IsGridRoot(devices, b)
    requires feed == Feeds(r.computeCount, r.gridCount)[j]
    ensures bus in between && IsFeedBus(bus, devices, b.root.id, feed)
  {
    var own, fed;
    bus, own, fed := FeedBusAt(m, prof, r, plans, devices, issued, between, pad, j, at);
    FedModulesAre(m, prof, r, plans, devices, j, fed);
    FeedBusJoins(bus, b, Blocks(plans), fed, devices);
  }

  lemma {:induction false} FeedBusAt(m: Manifest, prof: Profile, r: Resolution, plans: seq<Plan>, devices: seq<Device>, issued: seq<string>,
                                     between: seq<Bus>, pad: string, j: nat, at: nat)
    returns (bus: Bus, b: Block, fed: seq<int>)
    requires ContainerPlans(m, prof, r) == Ok(plans) && ProfileShaped(m, prof) && prof.gridContainer.Some? && j < r.gridCount
    requires NamesUnique(devices) && (forall d :: d in Flat(Blocks(plans)) ==> d in devices) && at == r.computeCount + j
    requires BetweenBuses(issued, r, Flat(Blocks(plans)), devices, pad) == Ok(between)
    ensures at < |plans| && b == Blocks(plans)[at] && fed == Feeds(r.computeCount, r.gridCount)[j]
    ensures bus in between && FeedBus(bus, b, Blocks(plans), fed)
  {
    var lv := FeedBusesOf(m, prof, r, plans, devices, issued, between, pad, j);
    LvFeedsAt(lv, Blocks(plans), r, j, at);
    bus, b, fed := lv[j], Blocks(plans)[at], Feeds(r.computeCount, r.gridCount)[j];
  }

  lemma {:induction false} FeedBusesOf(m: Manifest, prof: Profile, r: Resolution, plans: seq<Plan>, devices: seq<Device>, issued: seq<string>,
                                       between: seq<Bus>, pad: string, j: nat)
    returns (lv: seq<Bus>)
    requires ContainerPlans(m, prof, r) == Ok(plans) && ProfileShaped(m, prof) && prof.gridContainer.Some? && j < r.gridCount
    requires NamesUnique(devices) && forall d :: d in Flat(Blocks(plans)) ==> d in devices
    requires BetweenBuses(issued, r, Flat(Blocks(plans)), devices, pad) == Ok(between)
    ensures LvFeeds(lv, Blocks(plans), r, j) && lv[j] in between
  {
    BetweenIs(issued, r, Flat(Blocks(plans)), devices, pad, between);
    LvShape(m, prof, r, plans, devices, issued + ["site_mv"], j);
    lv := LvBusesOf(issued + ["site_mv"], r, Flat(Blocks(plans)), devices).value;
  }

  lemma LvFeedsAt(lv: seq<Bus>, blocks: seq<Block>, r: Resolution, j: nat, at: nat)
    requires LvFeeds(lv, blocks, r, j) && at == r.computeCount + j
    ensures at < |blocks| && j < |lv| && FeedBus(lv[j], blocks[at], blocks, Feeds(r.computeCount, r.gridCount)[j])
  {
  }

  lemma {:induction false} GridRoot(m: Manifest, prof: Profile, r: Resolution, plans: seq<Plan>, battery: Plan, k: nat, at: nat)
    returns (root: Device, b: Block)
    requires ContainerPlans(m, prof, r) == Ok(plans) && ProfileShaped(m, prof) && prof.gridContainer.Some? && 1 <= k <= r.gridCount
    requires at == r.computeCount + k - 1
    ensures at < |plans| && b == Blocks(plans)[at] && root == b.root
    ensures root in SiteDevices(plans, battery, r) && root.parent.None? && root.displayName == Some("G" + Dec(k))
    ensures IsGridRoot(SiteDevices(plans, battery, r), b)
  {
    GridPlanIs(m, prof, r, plans, k, at);
    PlanGearAt(m, prof, r, plans, at);
    root := RootStands(plans, battery, r, at);
    b := Blocks(plans)[at];
  }

  lemma {:induction false} RootStands(plans: seq<Plan>, battery: Plan, r: Resolution, at: nat) returns (root: Device)
    requires at < |plans|
    ensures root == Blocks(plans)[at].root && root in SiteDevices(plans, battery, r)
    ensures root.parent.None? && root.displayName == Some(plans[at].tag) && root.template == plans[at].template
    ensures Filter(IsChildOf(root.id), SiteDevices(plans, battery, r)) == Blocks(plans)[at].leaves
  {
    root := Blocks(plans)[at].root;
    BlockRealizes(plans, at);
    OwnLeaves(plans, battery, r, at);
    BlocksSnoc(plans, battery);
  }
}
