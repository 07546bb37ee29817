/** Sites built from a well-formed catalog: when generation succeeds, and what the LV buses join. */
module SiteShape {
  import opened Lists
  import opened Text
  import opened Numbering
  import opened Catalog
  import opened ComputeNodes
  import opened ComputeFeeds
  import opened Dtm
  import opened SitePlan
  import opened DtmSpec
  import opened DtmSoundness
  import opened SiteNames
  import opened DeviceSlugs

  // ----- well-formed topologies -----

  function SpecsOf(specs: seq<DeviceSpec>, template: string): nat {
    if specs == [] then 0
    else SpecsOf(specs[..|specs| - 1], template) + if specs[|specs| - 1].template == template then 1 else 0
  }

  /** Each grid container carries exactly one transformer and one LV switchboard. */
  ghost predicate GridTopology(t: Option<Topology>) {
    && t.Some? && ModuleTemplate(GridContainer, t) == "grid_module"
    && SpecsOf(t.value.devices, "transformer") == 1 && SpecsOf(t.value.devices, "lv_switchboard") == 1
  }

  /** Compute containers hold no grid gear. */
  ghost predicate ComputeTopology(t: Option<Topology>) {
    && t.Some? && ModuleTemplate(ComputeContainer, t) in {"compute_module", "compute_module_h100"}
    && SpecsOf(t.value.devices, "transformer") == 0 && SpecsOf(t.value.devices, "lv_switchboard") == 0
  }

  ghost predicate ProfileShaped(m: Manifest, prof: Profile) {
    && (forall v :: prof.ComputeVariant(v).Some? ==> ComputeTopology(m.Topology(ComputeContainer, prof.ComputeVariant(v).value)))
    && (prof.gridContainer.Some? ==> GridTopology(m.Topology(GridContainer, prof.gridContainer.value)))
    && (prof.gridFeeder.Some? ==> GridTopology(m.Topology(GridContainer, prof.gridFeeder.value)))
  }

  // ----- counting gear -----

  lemma {:induction false} LeavesCount(tag: string, specs: seq<DeviceSpec>, drop: set<string>, template: string)
    ensures Count(LeafTemplates(Leaves(tag, specs, drop)), template) <= SpecsOf(specs, template)
    ensures drop == {} ==> Count(LeafTemplates(Leaves(tag, specs, drop)), template) == SpecsOf(specs, template)
  {
    if specs != [] {
      var init, s := specs[..|specs| - 1], specs[|specs| - 1];
      LeavesCount(tag, init, drop, template);
      var before := Leaves(tag, init, drop);
      if IsDropped(s, drop) {
        assert Leaves(tag, specs, drop) == before;
      } else {
        assert LeafTemplates(before + [LeafOf(tag, s)]) == LeafTemplates(before) + [s.template];
        CountSnoc(LeafTemplates(before), s.template, template);
      }
    }
  }

  lemma {:induction false} IdsOfCount(devices: seq<Device>, template: string)
    ensures |IdsOf(devices, template)| == Count(Map((d: Device) => d.template, devices), template)
  {
    var f := (d: Device) => d.template;
    if devices != [] {
      var init := devices[..|devices| - 1];
      IdsOfCount(init, template);
      assert Map(f, devices)[..|devices| - 1] == Map(f, init);
    }
  }

  lemma {:induction false} BlockGear(b: Block, p: Plan, template: string)
    requires Realizes(b, p) && p.template != template
    ensures |IdsOf(BlockDevices(b), template)| == Count(LeafTemplates(p.leaves), template)
  {
    var f := (d: Device) => d.template;
    IdsOfAppend([b.root], b.leaves, template);
    assert IdsOf([b.root], template) == [];
    IdsOfCount(b.leaves, template);
    assert Map(f, b.leaves) == LeafTemplates(p.leaves);
  }

  /** Ids of a template over the whole site, when the first blocks hold none and each later one holds one. */
  lemma {:induction false} OnePerLaterBlock(blocks: seq<Block>, first: nat, template: string)
    requires first <= |blocks|
    requires forall k :: 0 <= k < first ==> IdsOf(BlockDevices(blocks[k]), template) == []
    requires forall k :: first <= k < |blocks| ==> |IdsOf(BlockDevices(blocks[k]), template)| == 1
    ensures |IdsOf(Flat(blocks), template)| == |blocks| - first
    ensures forall k :: first <= k < |blocks| ==>
              IdsOf(Flat(blocks), template)[k - first] == IdsOf(BlockDevices(blocks[k]), template)[0]
  {
    if blocks != [] {
      var last := |blocks| - 1;
      var init := blocks[..last];
      IdsOfAppend(Flat(init), BlockDevices(blocks[last]), template);
      if first <= last {
        OnePerLaterBlock(init, first, template);
      } else {
        OnePerLaterBlock(init, last, template);
      }
    }
  }

  ghost predicate PlanGear(p: Plan, n: nat) {
    && p.template != "transformer" && p.template != "lv_switchboard"
    && Count(LeafTemplates(p.leaves), "transformer") == n && Count(LeafTemplates(p.leaves), "lv_switchboard") == n
  }

  lemma GridPlanGear(m: Manifest, variant: string, k: nat)
    requires GridTopology(m.Topology(GridContainer, variant))
    ensures PlanGear(GridPlan(m, variant, k), 1)
  {
    var t := m.Topology(GridContainer, variant).value;
    LeavesCount("G" + Dec(k), t.devices, {}, "transformer");
    LeavesCount("G" + Dec(k), t.devices, {}, "lv_switchboard");
  }

  lemma ComputePlanGear(t: Option<Topology>, nodes: int, n: nat)
    requires ComputeTopology(t)
    ensures PlanGear(ComputePlan(t, nodes, n), 0)
  {
    var drop := DroppedTags(NodesInContainer(nodes, n));
    LeavesCount("C" + Dec(n), t.value.devices, drop, "transformer");
    LeavesCount("C" + Dec(n), t.value.devices, drop, "lv_switchboard");
  }

  lemma GridVariantAt(prof: Profile, gridCount: nat, k: nat)
    requires GridVariants(prof, gridCount).Ok? && k < |GridVariants(prof, gridCount).value|
    ensures Some(GridVariants(prof, gridCount).value[k]) == prof.gridContainer
         || Some(GridVariants(prof, gridCount).value[k]) == prof.gridFeeder
  {
  }

  lemma PlansAt(m: Manifest, prof: Profile, r: Resolution, plans: seq<Plan>, k: nat)
    requires ContainerPlans(m, prof, r) == Ok(plans) && k < |plans|
    ensures prof.ComputeVariant(r.gpu).Some? && GridVariants(prof, r.gridCount).Ok?
    ensures k < r.computeCount ==>
              plans[k] == ComputePlan(m.Topology(ComputeContainer, prof.ComputeVariant(r.gpu).value), r.nodeCount, k + 1)
    ensures k >= r.computeCount ==>
              && k - r.computeCount < |GridVariants(prof, r.gridCount).value|
              && plans[k] == GridPlan(m, GridVariants(prof, r.gridCount).value[k - r.computeCount], k - r.computeCount + 1)
  {
  }

  lemma PlanGearAt(m: Manifest, prof: Profile, r: Resolution, plans: seq<Plan>, k: nat)
    requires ContainerPlans(m, prof, r) == Ok(plans) && ProfileShaped(m, prof) && k < |plans|
    ensures PlanGear(plans[k], if k < r.computeCount then 0 else 1)
  {
    PlansAt(m, prof, r, plans, k);
    if k < r.computeCount {
      ComputePlanGear(m.Topology(ComputeContainer, prof.ComputeVariant(r.gpu).value), r.nodeCount, k + 1);
    } else {
      GridVariantAt(prof, r.gridCount, k - r.computeCount);
      GridPlanGear(m, GridVariants(prof, r.gridCount).value[k - r.computeCount], k - r.computeCount + 1);
    }
  }

  /** Plans from `first` on carry one transformer and one LV switchboard each, those before it none. */
  ghost predicate PlansGeared(plans: seq<Plan>, first: nat) {
    forall k :: 0 <= k < |plans| ==> PlanGear(plans[k], if k < first then 0 else 1)
  }

  lemma PlansGear(m: Manifest, prof: Profile, r: Resolution, plans: seq<Plan>)
    requires ContainerPlans(m, prof, r) == Ok(plans) && ProfileShaped(m, prof)
    ensures r.computeCount <= |plans|
    ensures PlansGeared(plans, r.computeCount)
  {
    forall k | 0 <= k < |plans| ensures PlanGear(plans[k], if k < r.computeCount then 0 else 1) {
      PlanGearAt(m, prof, r, plans, k);
    }
  }

  /** by_template[template] is one entry per grid container, in order. */
  lemma {:induction false} AllGear(plans: seq<Plan>, first: nat, template: string)
    requires first <= |plans| && (template == "transformer" || template == "lv_switchboard")
    requires PlansGeared(plans, first)
    ensures |IdsOf(Flat(Blocks(plans)), template)| == |plans| - first
    ensures forall k :: first <= k < |plans| ==>
              && |IdsOf(BlockDevices(Blocks(plans)[k]), template)| == 1
              && IdsOf(Flat(Blocks(plans)), template)[k - first] == IdsOf(BlockDevices(Blocks(plans)[k]), template)[0]
  {
    var blocks := Blocks(plans);
    forall k | 0 <= k < |plans| ensures |IdsOf(BlockDevices(blocks[k]), template)| == if k < first then 0 else 1 {
      assert PlanGear(plans[k], if k < first then 0 else 1);
      BlockRealizes(plans, k);
      BlockGear(blocks[k], plans[k], template);
    }
    OnePerLaterBlock(blocks, first, template);
  }

  // ----- compute modules by name -----

  lemma {:induction false} OnlyModule(devices: seq<Device>, d: Device)
    requires d in devices && d.parent.None? && d.displayName.Some?
    requires forall e :: e in devices && e.displayName == d.displayName ==> e == d
    ensures ModuleNamed(devices, d.displayName.value) == Some(d.id)
  {
    var init, last := devices[..|devices| - 1], devices[|devices| - 1];
    assert devices == init + [last];
    if last != d {
      OnlyModule(init, d);
    }
  }

  lemma {:induction false} ModuleOf(devices: seq<Device>, plans: seq<Plan>, n: nat)
    requires NamesUnique(devices) && 1 <= n <= |plans|
    requires forall d :: d in Flat(Blocks(plans)) ==> d in devices
    requires plans[n - 1].tag == "C" + Dec(n)
    ensures ModuleNamed(devices, "C" + IntText(n)) == Some(Blocks(plans)[n - 1].root.id)
  {
    BlockRealizes(plans, n - 1);
    var root := Blocks(plans)[n - 1].root;
    assert root in BlockDevices(Blocks(plans)[n - 1]);
    BlockInFlat(plans, n - 1, root);
    OnlyModule(devices, root);
  }

  /** modules[f"C{n}"] is always there, and is Cn's module. */
  ghost predicate ModulesNamed(devices: seq<Device>, blocks: seq<Block>, count: nat)
    requires count <= |blocks|
  {
    forall n :: 1 <= n <= count ==> ModuleNamed(devices, "C" + IntText(n)) == Some(blocks[n - 1].root.id)
  }

  /** Module ids of the compute containers a feed lists. */
  ghost predicate FedIds(ids: seq<string>, blocks: seq<Block>, fed: seq<int>) {
    |ids| == |fed| && forall i :: 0 <= i < |fed| ==> 1 <= fed[i] <= |blocks| && ids[i] == blocks[fed[i] - 1].root.id
  }

  lemma {:induction false} FedIdsSnoc(ids: seq<string>, blocks: seq<Block>, fed: seq<int>, id: string)
    requires fed != [] && FedIds(ids, blocks, fed[..|fed| - 1])
    requires 1 <= fed[|fed| - 1] <= |blocks| && id == blocks[fed[|fed| - 1] - 1].root.id
    ensures FedIds(ids + [id], blocks, fed)
  {
  }

  lemma {:induction false} ModuleIdsAre(devices: seq<Device>, blocks: seq<Block>, fed: seq<int>, count: nat)
    requires count <= |blocks| && ModulesNamed(devices, blocks, count)
    requires forall i :: 0 <= i < |fed| ==> 1 <= fed[i] <= count
    ensures ModuleIds(devices, fed).Ok? && FedIds(ModuleIds(devices, fed).value, blocks, fed)
  {
    if fed != [] {
      var last := |fed| - 1;
      ModuleIdsAre(devices, blocks, fed[..last], count);
      var ids := ModuleIds(devices, fed[..last]).value;
      var id := blocks[fed[last] - 1].root.id;
      assert ModuleNamed(devices, "C" + IntText(fed[last])) == Some(id);
      FedIdsSnoc(ids, blocks, fed, id);
    }
  }

  lemma {:induction false} LvBusListOk(issued: seq<string>, devices: seq<Device>, xfmrs: seq<string>, swbds: seq<string>,
                                       feeds: seq<seq<int>>)
    requires |xfmrs| == |swbds| == |feeds|
    requires forall k :: 0 <= k < |feeds| ==> ModuleIds(devices, feeds[k]).Ok?
    ensures LvBusList(issued, devices, xfmrs, swbds, feeds).Ok?
  {
    if feeds != [] {
      var last := |feeds| - 1;
      LvBusListOk(issued, devices, xfmrs[..last], swbds[..last], feeds[..last]);
    }
  }

  lemma {:induction false} FedModulesFound(devices: seq<Device>, blocks: seq<Block>, computeQty: nat, gridQty: nat)
    requires 1 <= gridQty && computeQty <= |blocks| && ModulesNamed(devices, blocks, computeQty)
    ensures forall k :: 0 <= k < gridQty ==>
              && ModuleIds(devices, Feeds(computeQty, gridQty)[k]).Ok?
              && FedIds(ModuleIds(devices, Feeds(computeQty, gridQty)[k]).value, blocks, Feeds(computeQty, gridQty)[k])
  {
    forall k | 0 <= k < gridQty
      ensures ModuleIds(devices, Feeds(computeQty, gridQty)[k]).Ok?
      ensures FedIds(ModuleIds(devices, Feeds(computeQty, gridQty)[k]).value, blocks, Feeds(computeQty, gridQty)[k])
    {
      forall i | 0 <= i < |Feeds(computeQty, gridQty)[k]| ensures 1 <= Feeds(computeQty, gridQty)[k][i] <= computeQty {
        FeedMembers(computeQty, PerGrid(computeQty, gridQty), k, Feeds(computeQty, gridQty)[k][i]);
      }
      ModuleIdsAre(devices, blocks, Feeds(computeQty, gridQty)[k], computeQty);
    }
  }

  lemma {:induction false} ComputeTagAt(m: Manifest, prof: Profile, r: Resolution, plans: seq<Plan>, n: nat)
    requires ContainerPlans(m, prof, r) == Ok(plans) && 1 <= n <= r.computeCount
    ensures n <= |plans| && plans[n - 1].tag == "C" + Dec(n)
  {
  }

  lemma ComputeCountWithin(m: Manifest, prof: Profile, r: Resolution, plans: seq<Plan>)
    requires ContainerPlans(m, prof, r) == Ok(plans)
    ensures r.computeCount <= |plans|
    ensures |plans| == r.computeCount || |plans| == r.computeCount + r.gridCount <==> prof.gridContainer.Some? || r.gridCount == 1
    ensures prof.gridContainer.Some? ==> |plans| == r.computeCount + r.gridCount
  {
  }

  lemma {:induction false} AllModulesNamed(m: Manifest, prof: Profile, r: Resolution, plans: seq<Plan>, devices: seq<Device>)
    requires ContainerPlans(m, prof, r) == Ok(plans) && r.computeCount <= |plans|
    requires NamesUnique(devices) && forall d :: d in Flat(Blocks(plans)) ==> d in devices
    ensures ModulesNamed(devices, Blocks(plans), r.computeCount)
  {
    forall n | 1 <= n <= r.computeCount
      ensures ModuleNamed(devices, "C" + IntText(n)) == Some(Blocks(plans)[n - 1].root.id)
    {
      ComputeTagAt(m, prof, r, plans, n);
      ModuleOf(devices, plans, n);
    }
  }

  // ----- when LV buses can be made -----

  lemma {:induction false} LvOkIff(issued: seq<string>, r: Resolution, containers: seq<Device>, devices: seq<Device>, blocks: seq<Block>)
    requires r.computeCount <= |blocks| && ModulesNamed(devices, blocks, r.computeCount)
    requires |IdsOf(containers, "transformer")| == |IdsOf(containers, "lv_switchboard")|
    ensures LvBusesOf(issued, r, containers, devices).Ok?
            <==> |IdsOf(containers, "transformer")| == 0 || |IdsOf(containers, "transformer")| == r.gridCount
  {
    FedModulesFound(devices, blocks, r.computeCount, r.gridCount);
    var xfmrs, swbds := IdsOf(containers, "transformer"), IdsOf(containers, "lv_switchboard");
    var feeds := Feeds(r.computeCount, r.gridCount);
    if |xfmrs| == |feeds| {
      LvBusListOk(issued, devices, xfmrs, swbds, feeds);
    }
  }

  /** zip(strict=True) never raises exactly when the grid containers emitted match the grid count asked for. */
  lemma {:induction false} LvBusesOkIff(m: Manifest, prof: Profile, r: Resolution, plans: seq<Plan>, devices: seq<Device>, issued: seq<string>)
    requires ContainerPlans(m, prof, r) == Ok(plans) && ProfileShaped(m, prof)
    requires NamesUnique(devices) && forall d :: d in Flat(Blocks(plans)) ==> d in devices
    ensures LvBusesOf(issued, r, Flat(Blocks(plans)), devices).Ok? <==> prof.gridContainer.Some? || r.gridCount == 1
  {
    PlansGear(m, prof, r, plans);
    AllGear(plans, r.computeCount, "transformer");
    AllGear(plans, r.computeCount, "lv_switchboard");
    AllModulesNamed(m, prof, r, plans, devices);
    ComputeCountWithin(m, prof, r, plans);
    LvOkIff(issued, r, Flat(Blocks(plans)), devices, Blocks(plans));
  }

  lemma {:induction false} PlansInSite(plans: seq<Plan>, battery: Plan, r: Resolution)
    ensures forall d :: d in Flat(Blocks(plans)) ==> d in SiteDevices(plans, battery, r)
  {
    SiteDevicesSplit(plans, battery, r);
  }

  // ----- a complete template catalog -----

  const FIXED_TEMPLATES: set<string> :=
    {"compute_module", "grid_module", "bess_module", "bess_module_dc", "bess_rack", "bess_catl", "pcs",
     "der_dispatch", "operating_envelope"}

  /** Every template any topology names, and every one the generator names itself, is in the catalog. */
  ghost predicate TemplatesComplete(m: Manifest, templates: Templates) {
    && FIXED_TEMPLATES <= templates.Keys
    && forall key :: key in m.assemblies && m.assemblies[key].topology.Some? ==>
         var t := m.assemblies[key].topology.value;
         && (t.moduleTemplate.Some? ==> t.moduleTemplate.value in templates)
         && (forall i :: 0 <= i < |t.devices| ==> t.devices[i].template in templates)
  }

  ghost predicate PlanKnown(p: Plan, templates: Templates) {
    p.template in templates && forall i :: 0 <= i < |p.leaves| ==> p.leaves[i].template in templates
  }

  lemma ContainerKnown(asm: AsmType, m: Manifest, variant: string, tag: string, drop: set<string>, templates: Templates)
    requires TemplatesComplete(m, templates)
    ensures PlanKnown(PlanOf(asm, m.Topology(asm, variant), tag, drop), templates)
  {
    var t := m.Topology(asm, variant);
    if t.Some? {
      assert m.assemblies[(asm, variant)].topology == t;
      forall i | 0 <= i < |Leaves(tag, t.value.devices, drop)|
        ensures Leaves(tag, t.value.devices, drop)[i].template in templates
      {
        var k := LeafFromSpec(tag, t.value.devices, drop, i);
      }
    }
  }

  lemma PlansKnown(m: Manifest, prof: Profile, r: Resolution, plans: seq<Plan>, templates: Templates)
    requires ContainerPlans(m, prof, r) == Ok(plans) && TemplatesComplete(m, templates)
    ensures forall k :: 0 <= k < |plans| ==> PlanKnown(plans[k], templates)
  {
    forall k | 0 <= k < |plans| ensures PlanKnown(plans[k], templates) {
      if k < r.computeCount {
        ContainerKnown(ComputeContainer, m, prof.ComputeVariant(r.gpu).value, "C" + Dec(k + 1),
                       DroppedTags(NodesInContainer(r.nodeCount, k + 1)), templates);
      } else {
        ContainerKnown(GridContainer, m, GridVariants(prof, r.gridCount).value[k - r.computeCount],
                       "G" + Dec(k - r.computeCount + 1), {}, templates);
      }
    }
  }

  lemma BlockKnown(b: Block, p: Plan, templates: Templates, d: Device)
    requires Realizes(b, p) && PlanKnown(p, templates) && d in BlockDevices(b)
    ensures d.template in templates
  {
    if d != b.root {
      var i :| 0 <= i < |b.leaves| && b.leaves[i] == d;
      assert p.leaves[i].template == d.template;
    }
  }

  lemma {:induction false} BlocksKnown(plans: seq<Plan>, templates: Templates, d: Device)
    requires forall k :: 0 <= k < |plans| ==> PlanKnown(plans[k], templates)
    requires d in Flat(Blocks(plans))
    ensures d.template in templates
  {
    var k := InBlock(plans, d);
    BlockKnown(Blocks(plans)[k], plans[k], templates, d);
  }

  lemma BatteryKnown(r: Resolution, templates: Templates, battery: Plan)
    requires FIXED_TEMPLATES <= templates.Keys && BatteryPlan(r, templates) == Ok(battery)
    ensures PlanKnown(battery, templates)
  {
  }

  lemma SiteDeviceKnown(r: Resolution, templates: Templates, plans: seq<Plan>, battery: Plan, d: Device)
    requires forall k :: 0 <= k < |plans + [battery]| ==> PlanKnown((plans + [battery])[k], templates)
    requires FIXED_TEMPLATES <= templates.Keys && d in SiteDevices(plans, battery, r)
    ensures d.template in templates
  {
    if d in Flat(Blocks(plans + [battery])) {
      BlocksKnown(plans + [battery], templates, d);
    }
  }

  lemma SiteKnown(m: Manifest, prof: Profile, r: Resolution, templates: Templates, plans: seq<Plan>, battery: Plan)
    requires ContainerPlans(m, prof, r) == Ok(plans) && TemplatesComplete(m, templates)
    requires BatteryPlan(r, templates) == Ok(battery)
    ensures TemplateSlugs(SiteDevices(plans, battery, r)) <= templates.Keys
  {
    PlansKnown(m, prof, r, plans, templates);
    BatteryKnown(r, templates, battery);
    forall d | d in SiteDevices(plans, battery, r) ensures d.template in templates {
      SiteDeviceKnown(r, templates, plans, battery, d);
    }
  }

  /** The AC pad can size its Megapack fleet. */
  predicate BatterySizable(r: Resolution, templates: Templates) {
    r.coupling == AcCoupled ==>
      && "bess_rack" in templates && templates["bess_rack"].capacityKwh.Some?
      && templates["bess_rack"].capacityKwh.value != 0.0
  }

  /** The order's devices, counted template by template, all get ids the schema accepts. */
  ghost predicate IdsFit(m: Manifest, prof: Profile, r: Resolution, templates: Templates) {
    ContainerPlans(m, prof, r).Ok? && BatteryPlan(r, templates).Ok? ==>
      SiteIdsFit(ContainerPlans(m, prof, r).value + [BatteryPlan(r, templates).value])
  }

  /** With a shaped, tagged, complete catalog, generation fails only for what a caller can see in the
      profile and the order: no container for the GPU, more than one grid container without both a primary
      and a feeder variant, a Megapack template without a capacity, or template names too long for their numbers. */
  lemma GenerateSucceedsIff(profile: string, r: Resolution, m: Manifest, templates: Templates)
    requires TopologiesTagged(m) && TemplatesComplete(m, templates)
    requires profile in m.profiles && ProfileShaped(m, m.profiles[profile])
    ensures var prof := m.profiles[profile];
            Generate(profile, r, m, templates).Ok? <==>
              && prof.ComputeVariant(r.gpu).Some?
              && (r.gridCount > 1 ==> prof.gridFeeder.Some? && prof.gridContainer.Some?)
              && BatterySizable(r, templates)
              && IdsFit(m, prof, r, templates)
  {
    var prof := m.profiles[profile];
    ContainerPlansOkIff(m, prof, r);
    if ContainerPlans(m, prof, r).Ok? && BatterySizable(r, templates) {
      StagesSucceed(profile, r, m, templates, ContainerPlans(m, prof, r).value, BatteryPlan(r, templates).value);
    }
  }

  /** A site that is well formed but for one id is refused for that id. */
  lemma InvalidIdFails(profile: string, r: Resolution, m: Manifest, templates: Templates)
    requires TopologiesTagged(m) && TemplatesComplete(m, templates)
    requires profile in m.profiles && ProfileShaped(m, m.profiles[profile])
    requires var prof := m.profiles[profile];
             && prof.ComputeVariant(r.gpu).Some? && (r.gridCount > 1 ==> prof.gridFeeder.Some? && prof.gridContainer.Some?)
             && BatterySizable(r, templates) && !IdsFit(m, prof, r, templates)
    ensures Generate(profile, r, m, templates) == Err(InvalidDeviceId)
  {
    ContainerPlansOkIff(m, m.profiles[profile], r);
    StagesSucceed(profile, r, m, templates, ContainerPlans(m, m.profiles[profile], r).value, BatteryPlan(r, templates).value);
  }

  lemma ContainerPlansOkIff(m: Manifest, prof: Profile, r: Resolution)
    ensures ContainerPlans(m, prof, r).Ok? <==> prof.ComputeVariant(r.gpu).Some? && (r.gridCount > 1 ==> prof.gridFeeder.Some?)
  {
  }

  lemma StagesSucceed(profile: string, r: Resolution, m: Manifest, templates: Templates,
                      plans: seq<Plan>, battery: Plan)
    requires TopologiesTagged(m) && TemplatesComplete(m, templates)
    requires profile in m.profiles && ProfileShaped(m, m.profiles[profile])
    requires ContainerPlans(m, m.profiles[profile], r) == Ok(plans) && BatteryPlan(r, templates) == Ok(battery)
    ensures Generate(profile, r, m, templates).Ok?
            <==> (m.profiles[profile].gridContainer.Some? || r.gridCount == 1) && SiteIdsFit(plans + [battery])
    ensures (m.profiles[profile].gridContainer.Some? || r.gridCount == 1) && !SiteIdsFit(plans + [battery]) ==>
              Generate(profile, r, m, templates) == Err(InvalidDeviceId)
  {
    var prof := m.profiles[profile];
    SiteNamesUnique(profile, r, m, templates, plans, battery);
    PlansInSite(plans, battery, r);
    SiteKnown(m, prof, r, templates, plans, battery);
    SiteIdsValidIff(plans, battery, r);
    LvBusesOkIff(m, prof, r, plans, SiteDevices(plans, battery, r), AllNames(plans) + Names(battery) + ["site_mv"]);
  }

  /** A site that was generated has a primary grid container or needs only one. */
  lemma PrimaryOrOne(profile: string, r: Resolution, m: Manifest, templates: Templates)
    requires Generate(profile, r, m, templates).Ok? && profile in m.profiles && ProfileShaped(m, m.profiles[profile])
    ensures m.profiles[profile].gridContainer.Some? || r.gridCount == 1
  {
    var plans, issued, devices := LvOfGenerated(profile, r, m, templates);
    if m.profiles[profile].gridContainer.None? && r.gridCount > 1 {
      UnequalWithoutPrimary(m, m.profiles[profile], r, plans, issued, devices);
    }
  }

  lemma LvOfGenerated(profile: string, r: Resolution, m: Manifest, templates: Templates)
    returns (plans: seq<Plan>, issued: seq<string>, devices: seq<Device>)
    requires Generate(profile, r, m, templates).Ok?
    ensures profile in m.profiles && ContainerPlans(m, m.profiles[profile], r) == Ok(plans)
    ensures LvBusesOf(issued, r, Flat(Blocks(plans)), devices).Ok?
  {
    var battery, between;
    plans, battery, between := Parts(profile, r, m, templates);
    issued, devices := AllNames(plans + [battery]) + ["site_mv"], SiteDevices(plans, battery, r);
    BetweenIs(AllNames(plans + [battery]), r, Flat(Blocks(plans)), devices, Blocks(plans + [battery])[|plans|].root.id, between);
  }

  lemma GridPlanCount(m: Manifest, prof: Profile, r: Resolution, plans: seq<Plan>)
    requires ContainerPlans(m, prof, r) == Ok(plans) && prof.gridContainer.None?
    ensures |plans| == r.computeCount + r.gridCount - 1
  {
  }

  // ----- a feeder without a primary -----

  lemma {:induction false} UnequalWithoutPrimary(m: Manifest, prof: Profile, r: Resolution, plans: seq<Plan>, issued: seq<string>, devices: seq<Device>)
    requires ContainerPlans(m, prof, r) == Ok(plans) && ProfileShaped(m, prof) && prof.gridContainer.None? && r.gridCount > 1
    ensures LvBusesOf(issued, r, Flat(Blocks(plans)), devices) == Err(UnequalFeeds)
  {
    GridPlanCount(m, prof, r, plans);
    PlansGear(m, prof, r, plans);
    AllGear(plans, r.computeCount, "lv_switchboard");
  }

  /** Without a primary variant the feeders alone are one grid container short of the feeds: the strict zip raises. */
  lemma NoPrimaryFails(profile: string, r: Resolution, m: Manifest, templates: Templates)
    requires profile in m.profiles && ProfileShaped(m, m.profiles[profile]) && BatterySizable(r, templates)
    requires var prof := m.profiles[profile];
             prof.ComputeVariant(r.gpu).Some? && prof.gridFeeder.Some? && prof.gridContainer.None? && r.gridCount > 1
    ensures Generate(profile, r, m, templates) == Err(UnequalFeeds)
  {
    var prof := m.profiles[profile];
    ContainerPlansOkIff(m, prof, r);
    var plans, battery := ContainerPlans(m, prof, r).value, BatteryPlan(r, templates).value;
    UnequalWithoutPrimary(m, prof, r, plans, AllNames(plans) + Names(battery) + ["site_mv"], SiteDevices(plans, battery, r));
  }

  const GearedGrid := Topology(None, [DeviceSpec("transformer", Some("XF-1"), None), DeviceSpec("lv_switchboard", Some("SWB-1"), None)], [])

  lemma {:induction false} SpecsOfSnoc(specs: seq<DeviceSpec>, s: DeviceSpec, template: string)
    ensures SpecsOf(specs + [s], template) == SpecsOf(specs, template) + if s.template == template then 1 else 0
  {
    assert (specs + [s])[..|specs|] == specs;
  }

  lemma OneTransformerOneSwitchboard(a: DeviceSpec, b: DeviceSpec)
    requires a.template == "transformer" && b.template == "lv_switchboard"
    ensures SpecsOf([a, b], "transformer") == 1 && SpecsOf([a, b], "lv_switchboard") == 1
  {
    forall t ensures SpecsOf([a, b], t) == (if a.template == t then 1 else 0) + if b.template == t then 1 else 0 {
      SpecsOfSnoc([], a, t);
      SpecsOfSnoc([a], b, t);
      assert [] + [a] == [a] && [a] + [b] == [a, b];
    }
  }

  lemma GearedGridIs()
    ensures GridTopology(Some(GearedGrid))
  {
    assert GearedGrid.devices == [GearedGrid.devices[0], GearedGrid.devices[1]];
    OneTransformerOneSwitchboard(GearedGrid.devices[0], GearedGrid.devices[1]);
  }

  /** The profile schema lets a profile name a feeder variant and no primary. */
  lemma FeederAloneFails(templates: Templates, r: Resolution)
    requires r.gridCount == 2 && r.coupling != AcCoupled
    ensures var bom := BomYaml(Shell("ISO-20FT", "container"), [], []);
            var m := Manifest(map["p" := Profile("c", map[], None, Some("f"), [])],
                              map[(ComputeContainer, "c") := Variant(bom, Some(Topology(None, [], []))),
                                  (GridContainer, "f") := Variant(bom, Some(GearedGrid))]);
            Generate("p", r, m, templates) == Err(UnequalFeeds)
  {
    GearedGridIs();
    var bom := BomYaml(Shell("ISO-20FT", "container"), [], []);
    var m := Manifest(map["p" := Profile("c", map[], None, Some("f"), [])],
                      map[(ComputeContainer, "c") := Variant(bom, Some(Topology(None, [], []))),
                          (GridContainer, "f") := Variant(bom, Some(GearedGrid))]);
    assert m.Topology(ComputeContainer, "c") == Some(Topology(None, [], [])) && m.Topology(GridContainer, "f") == Some(GearedGrid);
    NoPrimaryFails("p", r, m, templates);
  }

  // ----- the feed map in the DTM -----

  /** lv_main_k: Gk's transformer and switchboard, and the modules of exactly the containers Gk feeds. */
  ghost predicate FeedBus(bus: Bus, grid: Block, blocks: seq<Block>, fed: seq<int>) {
    && |IdsOf(BlockDevices(grid), "transformer")| == 1 && |IdsOf(BlockDevices(grid), "lv_switchboard")| == 1
    && exists ids ::
         && FedIds(ids, blocks, fed)
         && bus == LvBus(bus.id, IdsOf(BlockDevices(grid), "transformer")[0],
                         IdsOf(BlockDevices(grid), "lv_switchboard")[0], ids)
  }

  /** One LV bus per grid container, the k-th joining Gk's gear and the modules Gk feeds. */
  ghost predicate LvFeeds(lv: seq<Bus>, blocks: seq<Block>, r: Resolution, k: nat) {
    && |lv| == r.gridCount && k < r.gridCount && |blocks| == r.computeCount + r.gridCount
    && FeedBus(lv[k], blocks[r.computeCount + k], blocks, Feeds(r.computeCount, r.gridCount)[k])
  }

  lemma {:induction false} LvShape(m: Manifest, prof: Profile, r: Resolution, plans: seq<Plan>, devices: seq<Device>, issued: seq<string>, k: nat)
    requires ContainerPlans(m, prof, r) == Ok(plans) && ProfileShaped(m, prof) && prof.gridContainer.Some?
    requires NamesUnique(devices) && forall d :: d in Flat(Blocks(plans)) ==> d in devices
    requires LvBusesOf(issued, r, Flat(Blocks(plans)), devices).Ok? && k < r.gridCount
    ensures |plans| == r.computeCount + r.gridCount
    ensures LvFeeds(LvBusesOf(issued, r, Flat(Blocks(plans)), devices).value, Blocks(plans), r, k)
  {
    ComputeCountWithin(m, prof, r, plans);
    PlansGear(m, prof, r, plans);
    AllModulesNamed(m, prof, r, plans, devices);
    LvShapeOf(r, plans, devices, issued, k);
    assert LvFeeds(LvBusesOf(issued, r, Flat(Blocks(plans)), devices).value, Blocks(plans), r, k);
  }

  lemma {:induction false} LvShapeOf(r: Resolution, plans: seq<Plan>, devices: seq<Device>, issued: seq<string>, k: nat)
    requires |plans| == r.computeCount + r.gridCount && k < r.gridCount && PlansGeared(plans, r.computeCount)
    requires ModulesNamed(devices, Blocks(plans), r.computeCount)
    requires LvBusesOf(issued, r, Flat(Blocks(plans)), devices).Ok?
    ensures LvFeeds(LvBusesOf(issued, r, Flat(Blocks(plans)), devices).value, Blocks(plans), r, k)
  {
    GearAt(plans, r.computeCount, "transformer", k, r.gridCount);
    GearAt(plans, r.computeCount, "lv_switchboard", k, r.gridCount);
    LvBusesAt(issued, r, Flat(Blocks(plans)), devices, Blocks(plans), k);
    assert LvFeeds(LvBusesOf(issued, r, Flat(Blocks(plans)), devices).value, Blocks(plans), r, k);
  }

  /** The k-th of n devices of a template is the grid container's only one. */
  ghost predicate KthIsOnly(containers: seq<Device>, grid: Block, template: string, k: nat, n: nat) {
    && |IdsOf(containers, template)| == n && k < n
    && |IdsOf(BlockDevices(grid), template)| == 1
    && IdsOf(containers, template)[k] == IdsOf(BlockDevices(grid), template)[0]
  }

  lemma {:induction false} GearAt(plans: seq<Plan>, first: nat, template: string, k: nat, n: nat)
    requires k < n && first + n == |plans| && (template == "transformer" || template == "lv_switchboard")
    requires PlansGeared(plans, first)
    ensures KthIsOnly(Flat(Blocks(plans)), Blocks(plans)[first + k], template, k, n)
  {
    AllGear(plans, first, template);
    assert IdsOf(Flat(Blocks(plans)), template)[first + k - first] == IdsOf(BlockDevices(Blocks(plans)[first + k]), template)[0];
  }

  lemma LvBusesAt(issued: seq<string>, r: Resolution, containers: seq<Device>, devices: seq<Device>, blocks: seq<Block>, k: nat)
    requires LvBusesOf(issued, r, containers, devices).Ok? && k < r.gridCount
    requires |blocks| == r.computeCount + r.gridCount && ModulesNamed(devices, blocks, r.computeCount)
    requires KthIsOnly(containers, blocks[r.computeCount + k], "transformer", k, r.gridCount)
    requires KthIsOnly(containers, blocks[r.computeCount + k], "lv_switchboard", k, r.gridCount)
    ensures LvFeeds(LvBusesOf(issued, r, containers, devices).value, blocks, r, k)
  {
    var feeds := Feeds(r.computeCount, r.gridCount);
    var lv := LvBusesOf(issued, r, containers, devices).value;
    FedModulesFound(devices, blocks, r.computeCount, r.gridCount);
    LvBusAt(issued, devices, IdsOf(containers, "transformer"), IdsOf(containers, "lv_switchboard"), feeds, k);
  }
}
