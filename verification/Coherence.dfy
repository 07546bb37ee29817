/** One order, one site: the DTM and the cable schedule read from it agree. */
module Coherence {
  import opened Lists
  import opened Text
  import opened Numbering
  import opened Catalog
  import opened ComputeNodes
  import opened ComputeFeeds
  import opened Dtm
  import opened SitePlan
  import opened DtmSpec
  import opened DtmSoundness
  import opened SiteNames
  import opened SiteShape
  import opened SiteIndex
  import opened Sorting
  import opened PowerCables
  import opened ContainerGear
  import opened FeedMap

  /** Every device of this template is tagged, some exist, and none is left out of a partial container. */
  ghost predicate KeepsGear(specs: seq<DeviceSpec>, template: string, drop: set<string>) {
    && TagsUsing(specs, {template}) != []
    && forall t :: t in TagsUsing(specs, {template}) ==> t.Some? && t.value != "" && t.value !in drop
  }

  /** Panelboards in every compute container, a tagged switchboard in every grid container. */
  ghost predicate PanelsTagged(m: Manifest, prof: Profile) {
    && (forall v :: prof.ComputeVariant(v).Some? ==> PanelKept(m.Topology(ComputeContainer, prof.ComputeVariant(v).value)))
    && (prof.gridContainer.Some? ==> GridTagged(m, prof.gridContainer.value))
    && (prof.gridFeeder.Some? ==> GridTagged(m, prof.gridFeeder.value))
  }

  /** However many servers a container holds, its panelboard stays. */
  ghost predicate PanelKept(t: Option<Topology>) {
    t.Some? && forall k :: 1 <= k <= 7 ==> KeepsGear(t.value.devices, "panelboard", DroppedTags(k))
  }

  ghost predicate GridTagged(m: Manifest, variant: string) {
    var t := m.Topology(GridContainer, variant);
    t.Some? && KeepsGear(t.value.devices, "lv_switchboard", {})
  }

  // ----- gear of one block -----

  /** A block has gear of this template, all of it named. */
  ghost predicate GearNamed(b: Block, template: string) {
    && (exists d :: d in b.leaves && d.template == template)
    && forall d :: d in b.leaves && d.template == template ==> d.displayName.Some? && d.displayName.value != ""
  }

  lemma NamesInUsing(devices: seq<Device>, template: string, d: Device)
    requires d in devices && d.template == template
    ensures d.displayName in NamesUsing(devices, {template})
  {
    FilterMember(UsesOneOf({template}), devices, d);
    var own := Filter(UsesOneOf({template}), devices);
    var i :| 0 <= i < |own| && own[i] == d;
    assert NamesUsing(devices, {template})[i] == d.displayName;
  }

  lemma ShownNames(b: Block, asm: AsmType, t: Topology, tag: string, drop: set<string>, template: string)
    requires Realizes(b, PlanOf(asm, Some(t), tag, drop)) && KeepsGear(t.devices, template, drop)
    ensures NamesUsing(b.leaves, {template}) == SiteTags(tag, TagsUsing(t.devices, {template}))
  {
    NamesOfContainer(b, asm, Some(t), tag, drop, {template});
    FilterAll(Keeps(drop), TagsUsing(t.devices, {template}));
  }

  lemma BlockGearNamed(b: Block, asm: AsmType, t: Topology, tag: string, drop: set<string>, template: string)
    requires Realizes(b, PlanOf(asm, Some(t), tag, drop)) && KeepsGear(t.devices, template, drop)
    ensures GearNamed(b, template)
  {
    ShownNames(b, asm, t, tag, drop, template);
    NamedGear(b, tag, TagsUsing(t.devices, {template}), template);
  }

  lemma NamedGear(b: Block, tag: string, tags: seq<Option<string>>, template: string)
    requires NamesUsing(b.leaves, {template}) == SiteTags(tag, tags) && tags != []
    requires forall t :: t in tags ==> t.Some? && t.value != ""
    ensures GearNamed(b, template)
  {
    var own := Filter(UsesOneOf({template}), b.leaves);
    assert |own| == |NamesUsing(b.leaves, {template})| == |SiteTags(tag, tags)| == |tags|;
    FilterMember(UsesOneOf({template}), b.leaves, own[0]);
    forall d | d in b.leaves && d.template == template ensures d.displayName.Some? && d.displayName.value != "" {
      NamesInUsing(b.leaves, template, d);
      assert d.displayName in SiteTags(tag, tags);
      var i :| 0 <= i < |tags| && SiteTags(tag, tags)[i] == d.displayName;
      assert tags[i] in tags;
    }
  }

  /** What the schedule picks for a template is one of the block's own devices. */
  lemma PickedFromBlock(b: Block, template: string)
    requires KindOf(b.root.template).Some? && GearNamed(b, template)
    ensures SiteContainer(b).One({template}).Some?
    ensures var d := SiteContainer(b).One({template}).value;
            d in b.leaves && d.template == template && d.displayName.Some? && Tag(d) == d.displayName.value
  {
    var e :| e in b.leaves && e.template == template;
    var sorted := SiteContainer(b).devices;
    SortMember(b.leaves, ChildLe(), e);
    FilterMember(UsesOneOf({template}), sorted, e);
    var d := SiteContainer(b).Of({template})[0];
    FilterMember(UsesOneOf({template}), sorted, d);
    SortMember(b.leaves, ChildLe(), d);
  }

  /** … and, when the block holds one, it is the one the LV bus joins. */
  lemma PickedIsOnBus(b: Block)
    requires KindOf(b.root.template).Some? && GearNamed(b, "lv_switchboard")
    requires |IdsOf(BlockDevices(b), "lv_switchboard")| == 1
    ensures Switchboard(SiteContainer(b)).Some? && Switchboard(SiteContainer(b)).value.id == SwitchboardId(b)
  {
    PickedFromBlock(b, "lv_switchboard");
    var d := Switchboard(SiteContainer(b)).value;
    assert d in BlockDevices(b);
    IdsOfMember(BlockDevices(b), "lv_switchboard", d.id);
  }

  // ----- gear of the whole site -----

  lemma {:induction false} TagsDiffer(plans: seq<Plan>, devices: seq<Device>, i: nat, j: nat, d: Device, e: Device)
    requires i < j < |plans| && NamesUnique(devices)
    requires forall x :: x in Flat(Blocks(plans)) ==> x in devices
    requires d in Blocks(plans)[i].leaves && e in Blocks(plans)[j].leaves
    requires d.displayName.Some? && Tag(d) == d.displayName.value && e.displayName.Some? && Tag(e) == e.displayName.value
    ensures Tag(d) != Tag(e)
  {
    assert d in BlockDevices(Blocks(plans)[i]) && e in BlockDevices(Blocks(plans)[j]);
    BlocksIdsDiffer(plans, i, j, d, e);
    BlockInFlat(plans, i, d);
    BlockInFlat(plans, j, e);
  }

  /** Blocks of a site: compute with panelboards, then grid with one switchboard each, then the pad. */
  ghost predicate SiteGear(blocks: seq<Block>, computeCount: nat) {
    && computeCount < |blocks|
    && (forall k :: 0 <= k < computeCount ==> GearNamed(blocks[k], "panelboard"))
    && (forall k :: computeCount <= k < |blocks| - 1 ==>
          GearNamed(blocks[k], "lv_switchboard") && |IdsOf(BlockDevices(blocks[k]), "lv_switchboard")| == 1)
  }

  /** Each of these containers has such gear, and no two of them the same tag on it. */
  ghost predicate PickedApart(sites: seq<Container>, template: string) {
    && (forall k :: 0 <= k < |sites| ==> sites[k].One({template}).Some?)
    && (forall i, j :: 0 <= i < j < |sites| ==> Tag(sites[i].One({template}).value) != Tag(sites[j].One({template}).value))
  }

  ghost predicate PairApart(a: Container, b: Container, template: string) {
    a.One({template}).Some? && b.One({template}).Some? && Tag(a.One({template}).value) != Tag(b.One({template}).value)
  }

  lemma {:induction false} BlocksApart(plans: seq<Plan>, devices: seq<Device>, template: string, i: nat, j: nat)
    requires i < j < |plans| && BlocksKinded(Blocks(plans)) && NamesUnique(devices)
    requires forall x :: x in Flat(Blocks(plans)) ==> x in devices
    requires GearNamed(Blocks(plans)[i], template) && GearNamed(Blocks(plans)[j], template)
    ensures PairApart(SiteContainers(Blocks(plans))[i], SiteContainers(Blocks(plans))[j], template)
  {
    PickedFromBlock(Blocks(plans)[i], template);
    PickedFromBlock(Blocks(plans)[j], template);
    TagsDiffer(plans, devices, i, j, SiteContainer(Blocks(plans)[i]).One({template}).value,
               SiteContainer(Blocks(plans)[j]).One({template}).value);
  }

  lemma SliceApart(sites: seq<Container>, template: string, lo: nat, hi: nat)
    requires lo <= hi <= |sites|
    requires forall k :: lo <= k < hi ==> sites[k].One({template}).Some?
    requires forall i, j :: lo <= i < j < hi ==> PairApart(sites[i], sites[j], template)
    ensures PickedApart(sites[lo..hi], template)
  {
    forall i, j | 0 <= i < j < hi - lo
      ensures Tag(sites[lo..hi][i].One({template}).value) != Tag(sites[lo..hi][j].One({template}).value)
    {
      assert PairApart(sites[lo + i], sites[lo + j], template);
    }
  }

  lemma {:induction false} ApartOver(plans: seq<Plan>, blocks: seq<Block>, devices: seq<Device>, template: string, lo: nat, hi: nat)
    requires blocks == Blocks(plans) && lo <= hi <= |blocks| && BlocksKinded(blocks) && NamesUnique(devices)
    requires forall x :: x in Flat(blocks) ==> x in devices
    requires forall k :: lo <= k < hi ==> GearNamed(blocks[k], template)
    ensures PickedApart(SiteContainers(blocks)[lo..hi], template)
  {
    forall k | lo <= k < hi ensures SiteContainers(blocks)[k].One({template}).Some? {
      PickedFromBlock(blocks[k], template);
    }
    forall i, j | lo <= i < j < hi ensures PairApart(SiteContainers(blocks)[i], SiteContainers(blocks)[j], template) {
      BlocksApart(plans, devices, template, i, j);
    }
    SliceApart(SiteContainers(blocks), template, lo, hi);
  }

  lemma BothApart(sites: seq<Container>, computeCount: nat)
    requires computeCount < |sites|
    requires PickedApart(sites[0..computeCount], "panelboard") && PickedApart(sites[computeCount..|sites| - 1], "lv_switchboard")
    ensures GearTagged(sites[computeCount..|sites| - 1], sites[..computeCount])
  {
    assert sites[0..computeCount] == sites[..computeCount];
  }

  lemma {:induction false} GearTaggedOnSite(plans: seq<Plan>, devices: seq<Device>, computeCount: nat)
    requires SiteGear(Blocks(plans), computeCount) && BlocksKinded(Blocks(plans)) && NamesUnique(devices)
    requires forall x :: x in Flat(Blocks(plans)) ==> x in devices
    ensures var sites := SiteContainers(Blocks(plans));
            GearTagged(sites[computeCount..|sites| - 1], sites[..computeCount])
  {
    ApartOver(plans, Blocks(plans), devices, "panelboard", 0, computeCount);
    ApartOver(plans, Blocks(plans), devices, "lv_switchboard", computeCount, |plans| - 1);
    BothApart(SiteContainers(Blocks(plans)), computeCount);
  }

  // ----- a generated site, container by container -----

  lemma PlanKind(m: Manifest, prof: Profile, r: Resolution, plans: seq<Plan>, k: nat)
    requires ContainerPlans(m, prof, r) == Ok(plans) && ProfileShaped(m, prof) && k < |plans|
    ensures KindOf(plans[k].template) == Some(if k < r.computeCount then Compute else Grid)
  {
    if k < r.computeCount {
      assert ComputeTopology(m.Topology(ComputeContainer, prof.ComputeVariant(r.gpu).value));
    } else {
      GridVariantAt(prof, r.gridCount, k - r.computeCount);
    }
  }

  lemma {:induction false} SiteBlock(plans: seq<Plan>, battery: Plan, k: nat)
    requires k < |plans|
    ensures Blocks(plans + [battery])[k] == Blocks(plans)[k]
  {
    BlocksSnoc(plans, battery);
  }

  ghost predicate ReadsAs(b: Block, kind: Kind, tag: string) {
    KindOf(b.root.template) == Some(kind) && Tag(b.root) == tag
  }

  lemma {:induction false} BlockReadsAs(plans: seq<Plan>, k: nat, kind: Kind)
    requires k < |plans| && KindOf(plans[k].template) == Some(kind) && plans[k].tag != ""
    ensures ReadsAs(Blocks(plans)[k], kind, plans[k].tag)
  {
    BlockRealizes(plans, k);
  }

  lemma {:induction false} ContainerReadsAs(m: Manifest, prof: Profile, r: Resolution, plans: seq<Plan>, k: nat)
    requires ContainerPlans(m, prof, r) == Ok(plans) && ProfileShaped(m, prof) && TopologiesTagged(m) && k < |plans|
    ensures ReadsAs(Blocks(plans)[k], if k < r.computeCount then Compute else Grid, ContainerTag(r.computeCount, k))
  {
    PlanKind(m, prof, r, plans, k);
    ContainerPlanAt(m, prof, r, plans, k);
    BlockReadsAs(plans, k, if k < r.computeCount then Compute else Grid);
  }

  /** Blocks read back as C1…CN, G1…GM and the pad. */
  lemma {:induction false} SiteInOrder(m: Manifest, prof: Profile, r: Resolution, templates: Templates, plans: seq<Plan>, battery: Plan)
    requires ContainerPlans(m, prof, r) == Ok(plans) && ProfileShaped(m, prof) && TopologiesTagged(m)
    requires BatteryPlan(r, templates) == Ok(battery) && r.computeCount <= |plans|
    ensures BlocksKinded(Blocks(plans + [battery]))
    ensures Ordered(SiteContainers(Blocks(plans + [battery])), r.computeCount)
  {
    var blocks := Blocks(plans + [battery]);
    BlockReadsAs(plans + [battery], |plans|, Bess);
    forall k | 0 <= k < |plans|
      ensures ReadsAs(blocks[k], if k < r.computeCount then Compute else Grid, ContainerTag(r.computeCount, k))
    {
      SiteBlock(plans, battery, k);
      ContainerReadsAs(m, prof, r, plans, k);
    }
    OrderedFrom(blocks, r.computeCount);
  }

  lemma OrderedKinds(blocks: seq<Block>, computeCount: nat)
    requires AllReadAs(blocks, computeCount)
    ensures BlocksKinded(blocks)
  {
    forall k | 0 <= k < |blocks| ensures KindOf(blocks[k].root.template).Some? {
      if k < |blocks| - 1 {
        assert ReadsAs(blocks[k], if k < computeCount then Compute else Grid, ContainerTag(computeCount, k));
      }
    }
  }

  lemma {:induction false} OrderedAt(blocks: seq<Block>, computeCount: nat, k: nat)
    requires BlocksKinded(blocks) && k < |blocks| - 1
    requires ReadsAs(blocks[k], if k < computeCount then Compute else Grid, ContainerTag(computeCount, k))
    ensures SiteContainers(blocks)[k].kind == (if k < computeCount then Compute else Grid)
    ensures SiteContainers(blocks)[k].tag == if k < computeCount then "C" + Dec(k + 1) else "G" + Dec(k - computeCount + 1)
  {
  }

  ghost predicate AllReadAs(blocks: seq<Block>, computeCount: nat) {
    && computeCount < |blocks| && ReadsAs(blocks[|blocks| - 1], Bess, "BESS")
    && forall k :: 0 <= k < |blocks| - 1 ==>
         ReadsAs(blocks[k], if k < computeCount then Compute else Grid, ContainerTag(computeCount, k))
  }

  lemma ComputesRead(blocks: seq<Block>, computeCount: nat)
    requires BlocksKinded(blocks) && AllReadAs(blocks, computeCount)
    ensures forall k :: 0 <= k < computeCount ==>
              SiteContainers(blocks)[k].kind == Compute && SiteContainers(blocks)[k].tag == "C" + Dec(k + 1)
  {
    forall k | 0 <= k < computeCount ensures SiteContainers(blocks)[k].kind == Compute && SiteContainers(blocks)[k].tag == "C" + Dec(k + 1) {
      OrderedAt(blocks, computeCount, k);
    }
  }

  lemma {:induction false} GridsRead(blocks: seq<Block>, computeCount: nat)
    requires BlocksKinded(blocks) && AllReadAs(blocks, computeCount)
    ensures forall k :: computeCount <= k < |blocks| - 1 ==>
              SiteContainers(blocks)[k].kind == Grid && SiteContainers(blocks)[k].tag == "G" + Dec(k - computeCount + 1)
  {
    forall k | computeCount <= k < |blocks| - 1
      ensures SiteContainers(blocks)[k].kind == Grid && SiteContainers(blocks)[k].tag == "G" + Dec(k - computeCount + 1)
    {
      OrderedAt(blocks, computeCount, k);
    }
  }

  lemma OrderedFrom(blocks: seq<Block>, computeCount: nat)
    requires AllReadAs(blocks, computeCount)
    ensures BlocksKinded(blocks) && Ordered(SiteContainers(blocks), computeCount)
  {
    OrderedKinds(blocks, computeCount);
    ComputesRead(blocks, computeCount);
    GridsRead(blocks, computeCount);
  }

  /** What reading a site back needs of a catalog: shaped and tagged topologies. */
  ghost predicate Readable(m: Manifest, prof: Profile) { TopologiesTagged(m) && ProfileShaped(m, prof) }

  /** What the agreement needs besides: a primary grid variant and tagged panels. */
  ghost predicate Schedulable(m: Manifest, prof: Profile) {
    Readable(m, prof) && prof.gridContainer.Some? && PanelsTagged(m, prof)
  }

  lemma ComputeGearNamed(b: Block, t: Option<Topology>, nodes: int, n: nat)
    requires PanelKept(t) && Realizes(b, ComputePlan(t, nodes, n)) && 1 <= n <= ComputeContainerCount(nodes) && nodes >= 1
    ensures GearNamed(b, "panelboard")
  {
    var held := NodesInContainer(nodes, n);
    PackingConservesServers(nodes);
    assert KeepsGear(t.value.devices, "panelboard", DroppedTags(held));
    BlockGearNamed(b, ComputeContainer, t.value, "C" + Dec(n), DroppedTags(held), "panelboard");
  }

  lemma {:induction false} GridGearAt(m: Manifest, prof: Profile, gridCount: nat, plans: seq<Plan>, k: nat, j: nat)
    requires PanelsTagged(m, prof) && k < |plans| && GridVariants(prof, gridCount).Ok? && j < |GridVariants(prof, gridCount).value|
    requires plans[k] == GridPlan(m, GridVariants(prof, gridCount).value[j], j + 1)
    ensures GearNamed(Blocks(plans)[k], "lv_switchboard")
  {
    BlockRealizes(plans, k);
    GridVariantAt(prof, gridCount, j);
    BlockGearNamed(Blocks(plans)[k], GridContainer, m.Topology(GridContainer, GridVariants(prof, gridCount).value[j]).value, "G" + Dec(j + 1), {}, "lv_switchboard");
  }

  lemma {:induction false} ContainerGearNamed(m: Manifest, prof: Profile, r: Resolution, plans: seq<Plan>, k: nat)
    requires ContainerPlans(m, prof, r) == Ok(plans) && PanelsTagged(m, prof) && k < |plans|
    requires r.computeCount == ComputeContainerCount(r.nodeCount)
    ensures GearNamed(Blocks(plans)[k], if k < r.computeCount then "panelboard" else "lv_switchboard")
  {
    PlansAt(m, prof, r, plans, k);
    if k < r.computeCount {
      BlockRealizes(plans, k);
      ComputeGearNamed(Blocks(plans)[k], m.Topology(ComputeContainer, prof.ComputeVariant(r.gpu).value), r.nodeCount, k + 1);
    } else {
      GridGearAt(m, prof, r.gridCount, plans, k, k - r.computeCount);
    }
  }

  lemma {:induction false} SiteGearStands(m: Manifest, prof: Profile, r: Resolution, plans: seq<Plan>, battery: Plan)
    requires ContainerPlans(m, prof, r) == Ok(plans) && Schedulable(m, prof)
    requires r.computeCount == ComputeContainerCount(r.nodeCount)
    ensures SiteGear(Blocks(plans + [battery]), r.computeCount)
  {
    var blocks := Blocks(plans + [battery]);
    PlansGear(m, prof, r, plans);
    AllGear(plans, r.computeCount, "lv_switchboard");
    forall k | 0 <= k < |plans|
      ensures GearNamed(blocks[k], if k < r.computeCount then "panelboard" else "lv_switchboard")
      ensures k >= r.computeCount ==> |IdsOf(BlockDevices(blocks[k]), "lv_switchboard")| == 1
    {
      SiteBlock(plans, battery, k);
      ContainerGearNamed(m, prof, r, plans, k);
    }
  }

  // ----- the LV buses of the site -----

  lemma {:induction false} SwitchboardsDiffer(plans: seq<Plan>, i: nat, j: nat)
    requires i < j < |plans|
    requires |IdsOf(BlockDevices(Blocks(plans)[i]), "lv_switchboard")| == 1
    requires |IdsOf(BlockDevices(Blocks(plans)[j]), "lv_switchboard")| == 1
    ensures SwitchboardId(Blocks(plans)[i]) != SwitchboardId(Blocks(plans)[j])
  {
    var d := SwitchboardDevice(Blocks(plans)[i]);
    var e := SwitchboardDevice(Blocks(plans)[j]);
    BlocksIdsDiffer(plans, i, j, d, e);
  }

  lemma SwitchboardDevice(b: Block) returns (d: Device)
    requires |IdsOf(BlockDevices(b), "lv_switchboard")| == 1
    ensures d in BlockDevices(b) && d.id == SwitchboardId(b)
  {
    IdsOfMember(BlockDevices(b), "lv_switchboard", SwitchboardId(b));
    d :| d in BlockDevices(b) && d.template == "lv_switchboard" && d.id == SwitchboardId(b);
  }

  lemma {:induction false} LvFeedBuses(m: Manifest, prof: Profile, r: Resolution, plans: seq<Plan>, devices: seq<Device>, issued: seq<string>)
    requires ContainerPlans(m, prof, r) == Ok(plans) && Schedulable(m, prof)
    requires NamesUnique(devices) && forall d :: d in Flat(Blocks(plans)) ==> d in devices
    requires LvBusesOf(issued, r, Flat(Blocks(plans)), devices).Ok?
    ensures FeedBuses(LvBusesOf(issued, r, Flat(Blocks(plans)), devices).value, Blocks(plans), r.computeCount,
                      Feeds(r.computeCount, r.gridCount))
  {
    ComputeCountWithin(m, prof, r, plans);
    PlansGear(m, prof, r, plans);
    AllGear(plans, r.computeCount, "lv_switchboard");
    LvShape(m, prof, r, plans, devices, issued, 0);
    var lv := LvBusesOf(issued, r, Flat(Blocks(plans)), devices).value;
    forall k | 0 <= k < |lv|
      ensures FeedBus(lv[k], Blocks(plans)[r.computeCount + k], Blocks(plans), Feeds(r.computeCount, r.gridCount)[k])
    {
      LvShape(m, prof, r, plans, devices, issued, k);
    }
    forall i, j | r.computeCount <= i < j < |Blocks(plans)| ensures SwitchboardId(Blocks(plans)[i]) != SwitchboardId(Blocks(plans)[j]) {
      SwitchboardsDiffer(plans, i, j);
    }
  }

  lemma {:induction false} LvOfSite(profile: string, r: Resolution, m: Manifest, templates: Templates, plans: seq<Plan>, battery: Plan,
                                    issued: seq<string>)
    requires profile in m.profiles && ContainerPlans(m, m.profiles[profile], r) == Ok(plans)
    requires BatteryPlan(r, templates) == Ok(battery) && Schedulable(m, m.profiles[profile])
    requires LvBusesOf(issued, r, Flat(Blocks(plans)), SiteDevices(plans, battery, r)).Ok?
    ensures FeedBuses(LvBusesOf(issued, r, Flat(Blocks(plans)), SiteDevices(plans, battery, r)).value, Blocks(plans), r.computeCount,
                      Feeds(r.computeCount, r.gridCount))
  {
    SiteNamesUnique(profile, r, m, templates, plans, battery);
    PlansInSite(plans, battery, r);
    LvFeedBuses(m, m.profiles[profile], r, plans, SiteDevices(plans, battery, r), issued);
  }

  lemma {:induction false} SiteJoinsIff(plans: seq<Plan>, siteBusId: string, containers: seq<Device>, pad: string, lv: seq<Bus>, buses: seq<Bus>,
                                        first: nat, feeds: seq<seq<int>>, k: nat, n: nat)
    requires FeedBuses(lv, Blocks(plans), first, feeds) && k < |feeds| && 1 <= n <= |plans|
    requires buses == FlatBuses(Blocks(plans)) + ([SiteBusOf(siteBusId, containers, pad)] + lv)
    ensures Joins(buses, SwitchboardId(Blocks(plans)[first + k]), Blocks(plans)[n - 1].root.id) <==> n in feeds[k]
  {
    var swbd, root := SwitchboardId(Blocks(plans)[first + k]), Blocks(plans)[n - 1].root.id;
    assert Joins(lv, swbd, root) <==> n in feeds[k] by {
      SiteBlocks(plans);
      LvJoinsIff(lv, Blocks(plans), first, feeds, k, n);
    }
    assert Joins(buses, swbd, root) <==> Joins(lv, swbd, root) by {
      OnlyLvJoins(plans, siteBusId, containers, pad, lv, swbd, n - 1);
    }
  }

  lemma LvParts(profile: string, r: Resolution, m: Manifest, templates: Templates,
                plans: seq<Plan>, battery: Plan, pad: string, between: seq<Bus>)
    returns (siteBusId: string, lv: seq<Bus>)
    requires profile in m.profiles && ContainerPlans(m, m.profiles[profile], r) == Ok(plans)
    requires BatteryPlan(r, templates) == Ok(battery) && Schedulable(m, m.profiles[profile])
    requires BetweenBuses(AllNames(plans + [battery]), r, Flat(Blocks(plans)), SiteDevices(plans, battery, r), pad) == Ok(between)
    ensures between == [SiteBusOf(siteBusId, Flat(Blocks(plans)), pad)] + lv
    ensures FeedBuses(lv, Blocks(plans), r.computeCount, Feeds(r.computeCount, r.gridCount))
  {
    var issued := AllNames(plans + [battery]);
    BetweenIs(issued, r, Flat(Blocks(plans)), SiteDevices(plans, battery, r), pad, between);
    LvOfSite(profile, r, m, templates, plans, battery, issued + ["site_mv"]);
    siteBusId := Slug("site_mv", Count(issued, "site_mv") + 1);
    lv := LvBusesOf(issued + ["site_mv"], r, Flat(Blocks(plans)), SiteDevices(plans, battery, r)).value;
  }

  /** The site's buses, whatever the site bus is called: containers' own, the site bus, and one LV bus per feed. */
  ghost predicate BusesWired(plans: seq<Plan>, buses: seq<Bus>, first: nat, feeds: seq<seq<int>>) {
    exists siteBusId, pad, lv ::
      && buses == FlatBuses(Blocks(plans)) + ([SiteBusOf(siteBusId, Flat(Blocks(plans)), pad)] + lv)
      && FeedBuses(lv, Blocks(plans), first, feeds)
  }

  /** A bus of the site joins Gk's switchboard to Cn's module iff Gk feeds Cn. */
  lemma {:induction false} WiredJoinsIff(plans: seq<Plan>, buses: seq<Bus>, first: nat, feeds: seq<seq<int>>, k: nat, n: nat)
    requires BusesWired(plans, buses, first, feeds) && k < |feeds| && 1 <= n <= |plans| && first + k < |plans|
    ensures Joins(buses, SwitchboardId(Blocks(plans)[first + k]), Blocks(plans)[n - 1].root.id) <==> n in feeds[k]
  {
    var siteBusId, pad, lv :| buses == FlatBuses(Blocks(plans)) + ([SiteBusOf(siteBusId, Flat(Blocks(plans)), pad)] + lv)
                              && FeedBuses(lv, Blocks(plans), first, feeds);
    SiteJoinsIff(plans, siteBusId, Flat(Blocks(plans)), pad, lv, buses, first, feeds, k, n);
  }

  lemma {:induction false} SiteIsWired(profile: string, r: Resolution, m: Manifest, templates: Templates, plans: seq<Plan>, battery: Plan, pad: string,
                                       between: seq<Bus>, buses: seq<Bus>)
    requires profile in m.profiles && ContainerPlans(m, m.profiles[profile], r) == Ok(plans)
    requires BatteryPlan(r, templates) == Ok(battery) && Schedulable(m, m.profiles[profile])
    requires BetweenBuses(AllNames(plans + [battery]), r, Flat(Blocks(plans)), SiteDevices(plans, battery, r), pad) == Ok(between)
    requires buses == FlatBuses(Blocks(plans)) + between
    ensures BusesWired(plans, buses, r.computeCount, Feeds(r.computeCount, r.gridCount))
  {
    var siteBusId, lv := LvParts(profile, r, m, templates, plans, battery, pad, between);
    assert buses == FlatBuses(Blocks(plans)) + ([SiteBusOf(siteBusId, Flat(Blocks(plans)), pad)] + lv);
  }

  // ----- the schedule of the site -----

  lemma UtilityNoKind(offGrid: bool)
    ensures NoKind(UtilityOf(offGrid))
  {
  }

  /** The schedule reads the generated DTM as C1…CN, G1…GM and the pad, with or without grid containers. */
  lemma {:induction false} SiteReadsInOrder(m: Manifest, prof: Profile, r: Resolution, templates: Templates, plans: seq<Plan>, battery: Plan)
    requires ContainerPlans(m, prof, r) == Ok(plans) && BatteryPlan(r, templates) == Ok(battery) && Readable(m, prof)
    ensures BlocksKinded(Blocks(plans + [battery])) && r.computeCount <= |plans|
    ensures var sites := SiteContainers(Blocks(plans + [battery]));
            Containers(SiteDevices(plans, battery, r)) == sites && Ordered(sites, r.computeCount)
  {
    ComputeCountWithin(m, prof, r, plans);
    SiteInOrder(m, prof, r, templates, plans, battery);
    SiteBlocks(plans + [battery]);
    UtilityNoKind(r.offGrid);
    SiteReadsBack(Blocks(plans + [battery]), r.computeCount, UtilityOf(r.offGrid));
  }

  /** … with gear it can tell apart. */
  lemma {:induction false} ScheduleReadsSite(profile: string, r: Resolution, m: Manifest, templates: Templates, plans: seq<Plan>, battery: Plan)
    requires profile in m.profiles && ContainerPlans(m, m.profiles[profile], r) == Ok(plans)
    requires BatteryPlan(r, templates) == Ok(battery) && Schedulable(m, m.profiles[profile])
    requires r.computeCount == ComputeContainerCount(r.nodeCount)
    ensures BlocksKinded(Blocks(plans + [battery])) && r.computeCount <= |plans|
    ensures var sites := SiteContainers(Blocks(plans + [battery]));
            && Containers(SiteDevices(plans, battery, r)) == sites
            && Ordered(sites, r.computeCount)
            && GearTagged(sites[r.computeCount..|sites| - 1], sites[..r.computeCount])
  {
    var prof, all := m.profiles[profile], plans + [battery];
    SiteReadsInOrder(m, prof, r, templates, plans, battery);
    SiteNamesUnique(profile, r, m, templates, plans, battery);
    SiteGearStands(m, prof, r, plans, battery);
    GearTaggedOnSite(all, SiteDevices(plans, battery, r), r.computeCount);
  }

  lemma {:induction false} ModuleOnSite(profile: string, r: Resolution, m: Manifest, templates: Templates, plans: seq<Plan>, battery: Plan, n: nat)
    requires profile in m.profiles && ContainerPlans(m, m.profiles[profile], r) == Ok(plans)
    requires BatteryPlan(r, templates) == Ok(battery) && TopologiesTagged(m) && 1 <= n <= r.computeCount <= |plans|
    ensures ModuleNamed(SiteDevices(plans, battery, r), "C" + IntText(n)) == Some(Blocks(plans)[n - 1].root.id)
  {
    SiteNamesUnique(profile, r, m, templates, plans, battery);
    PlansInSite(plans, battery, r);
    ComputeTagAt(m, m.profiles[profile], r, plans, n);
    ModuleOf(SiteDevices(plans, battery, r), plans, n);
  }

  lemma {:induction false} PickedOnSite(profile: string, r: Resolution, m: Manifest, templates: Templates, plans: seq<Plan>, battery: Plan, k: nat)
    requires profile in m.profiles && ContainerPlans(m, m.profiles[profile], r) == Ok(plans)
    requires Schedulable(m, m.profiles[profile]) && r.computeCount == ComputeContainerCount(r.nodeCount)
    requires k < r.gridCount && |plans| == r.computeCount + r.gridCount && BlocksKinded(Blocks(plans + [battery]))
    ensures var c := SiteContainers(Blocks(plans + [battery]))[r.computeCount + k];
            Switchboard(c).Some? && Switchboard(c).value.id == SwitchboardId(Blocks(plans)[r.computeCount + k])
  {
    SiteGearStands(m, m.profiles[profile], r, plans, battery);
    SiteBlock(plans, battery, r.computeCount + k);
    PickedIsOnBus(Blocks(plans + [battery])[r.computeCount + k]);
  }

  // ----- agreement -----

  /** The cable schedule runs a feeder from this grid container's switchboard to that compute container's panelboard. */
  ghost predicate RunsFeeder(sites: seq<Container>, grid: Container, compute: Container) {
    && PowerSheet(sites).Ok? && Switchboard(grid).Some? && Panelboard(compute).Some?
    && HasFeeder(PowerSheet(sites).value, Switchboard(grid).value, Panelboard(compute).value)
  }

  ghost predicate ScheduleFeeds(sites: seq<Container>, first: nat, k: nat, n: nat) {
    1 <= n <= first && first + k < |sites| && RunsFeeder(sites, sites[first + k], sites[n - 1])
  }

  /** Some DTM bus joins the k-th grid container's switchboard to Cn's module. */
  ghost predicate DtmFeeds(dtm: Dtm, sites: seq<Container>, first: nat, k: nat, n: nat) {
    && first + k < |sites| && Switchboard(sites[first + k]).Some? && ModuleNamed(dtm.devices, "C" + IntText(n)).Some?
    && Joins(dtm.buses, Switchboard(sites[first + k]).value.id, ModuleNamed(dtm.devices, "C" + IntText(n)).value)
  }

  lemma RunsFeederIff(sites: seq<Container>, compute: seq<Container>, grids: seq<Container>, k: nat, n: nat)
    requires Ordered(sites, |compute|)
    requires compute == sites[..|compute|] && grids == sites[|compute|..|sites| - 1]
    requires GearTagged(grids, compute) && k < |grids| && 1 <= n <= |compute|
    ensures RunsFeeder(sites, grids[k], compute[n - 1]) <==> n in Feeds(|compute|, |grids|)[k]
  {
    SheetFeederIff(sites, compute, grids, k, n);
  }

  lemma ScheduleFeedsIff(sites: seq<Container>, first: nat, gridCount: nat, k: nat, n: nat)
    requires Ordered(sites, first) && |sites| == first + gridCount + 1
    requires GearTagged(sites[first..|sites| - 1], sites[..first])
    requires k < gridCount && 1 <= n <= first
    ensures ScheduleFeeds(sites, first, k, n) <==> n in Feeds(first, gridCount)[k]
  {
    var compute, grids := sites[..first], sites[first..|sites| - 1];
    RunsFeederIff(sites, compute, grids, k, n);
    assert grids[k] == sites[first + k] && compute[n - 1] == sites[n - 1];
  }

  /** The k-th grid container of a site shows the switchboard its block has on the LV bus. */
  ghost predicate ShowsSwitchboard(sites: seq<Container>, plans: seq<Plan>, first: nat, k: nat) {
    && first + k < |plans| && first + k < |sites| && Switchboard(sites[first + k]).Some?
    && Switchboard(sites[first + k]).value.id == SwitchboardId(Blocks(plans)[first + k])
  }

  lemma {:induction false} DtmSide(dtm: Dtm, sites: seq<Container>, plans: seq<Plan>, first: nat, feeds: seq<seq<int>>, k: nat, n: nat)
    requires BusesWired(plans, dtm.buses, first, feeds) && ShowsSwitchboard(sites, plans, first, k)
    requires k < |feeds| && 1 <= n <= |plans| && ModuleNamed(dtm.devices, "C" + IntText(n)) == Some(Blocks(plans)[n - 1].root.id)
    ensures DtmFeeds(dtm, sites, first, k, n) <==> n in feeds[k]
  {
    WiredJoinsIff(plans, dtm.buses, first, feeds, k, n);
    DtmFeedsIs(dtm, sites, first, k, n, SwitchboardId(Blocks(plans)[first + k]), Blocks(plans)[n - 1].root.id);
  }

  lemma {:induction false} DtmSideStands(profile: string, r: Resolution, m: Manifest, templates: Templates, plans: seq<Plan>, battery: Plan, between: seq<Bus>,
                                         dtm: Dtm, k: nat, n: nat)
    requires profile in m.profiles && ContainerPlans(m, m.profiles[profile], r) == Ok(plans)
    requires BatteryPlan(r, templates) == Ok(battery) && Schedulable(m, m.profiles[profile])
    requires BetweenBuses(AllNames(plans + [battery]), r, Flat(Blocks(plans)), SiteDevices(plans, battery, r),
                          Blocks(plans + [battery])[|plans|].root.id) == Ok(between)
    requires dtm.devices == SiteDevices(plans, battery, r) && dtm.buses == FlatBuses(Blocks(plans)) + between
    requires r.computeCount == ComputeContainerCount(r.nodeCount) && BlocksKinded(Blocks(plans + [battery]))
    requires k < r.gridCount && 1 <= n <= r.computeCount
    ensures |plans| == r.computeCount + r.gridCount
    ensures BusesWired(plans, dtm.buses, r.computeCount, Feeds(r.computeCount, r.gridCount))
    ensures ShowsSwitchboard(SiteContainers(Blocks(plans + [battery])), plans, r.computeCount, k)
    ensures ModuleNamed(dtm.devices, "C" + IntText(n)) == Some(Blocks(plans)[n - 1].root.id)
  {
    ComputeCountWithin(m, m.profiles[profile], r, plans);
    SiteIsWired(profile, r, m, templates, plans, battery, Blocks(plans + [battery])[|plans|].root.id, between, dtm.buses);
    ModuleOnSite(profile, r, m, templates, plans, battery, n);
    PickedOnSite(profile, r, m, templates, plans, battery, k);
  }

  lemma DtmFeedsIs(dtm: Dtm, sites: seq<Container>, first: nat, k: nat, n: nat, switchboard: string, root: string)
    requires first + k < |sites| && Switchboard(sites[first + k]).Some? && Switchboard(sites[first + k]).value.id == switchboard
    requires ModuleNamed(dtm.devices, "C" + IntText(n)) == Some(root)
    ensures DtmFeeds(dtm, sites, first, k, n) <==> Joins(dtm.buses, switchboard, root)
  {
  }

  /** Schedule and DTM of one site, container by container. */
  lemma {:induction false} AgreeAt(dtm: Dtm, sites: seq<Container>, plans: seq<Plan>, first: nat, gridCount: nat, k: nat, n: nat)
    requires Ordered(sites, first) && |sites| == first + gridCount + 1 && GearTagged(sites[first..|sites| - 1], sites[..first])
    requires k < gridCount && 1 <= n <= first <= |plans| && ShowsSwitchboard(sites, plans, first, k)
    requires BusesWired(plans, dtm.buses, first, Feeds(first, gridCount))
    requires ModuleNamed(dtm.devices, "C" + IntText(n)) == Some(Blocks(plans)[n - 1].root.id)
    ensures ScheduleFeeds(sites, first, k, n) <==> DtmFeeds(dtm, sites, first, k, n)
    ensures PerGrid(first, gridCount) > 0 && (ScheduleFeeds(sites, first, k, n) <==> k == (n - 1) / PerGrid(first, gridCount))
  {
    DtmSide(dtm, sites, plans, first, Feeds(first, gridCount), k, n);
    ScheduleFeedsIff(sites, first, gridCount, k, n);
    FedOnce(first, gridCount, n, k);
  }

  lemma {:induction false} AgreeOnSite(profile: string, r: Resolution, m: Manifest, templates: Templates, plans: seq<Plan>, battery: Plan,
                                       between: seq<Bus>, dtm: Dtm, k: nat, n: nat)
    requires profile in m.profiles && ContainerPlans(m, m.profiles[profile], r) == Ok(plans)
    requires BatteryPlan(r, templates) == Ok(battery) && Schedulable(m, m.profiles[profile])
    requires BetweenBuses(AllNames(plans + [battery]), r, Flat(Blocks(plans)), SiteDevices(plans, battery, r),
                          Blocks(plans + [battery])[|plans|].root.id) == Ok(between)
    requires dtm.devices == SiteDevices(plans, battery, r) && dtm.buses == FlatBuses(Blocks(plans)) + between
    requires r.computeCount == ComputeContainerCount(r.nodeCount)
    requires k < r.gridCount && 1 <= n <= r.computeCount
    ensures FeedsAgree(dtm, Containers(dtm.devices), r, k, n)
  {
    ScheduleReadsSite(profile, r, m, templates, plans, battery);
    DtmSideStands(profile, r, m, templates, plans, battery, between, dtm, k, n);
    AgreeAt(dtm, SiteContainers(Blocks(plans + [battery])), plans, r.computeCount, r.gridCount, k, n);
  }

  /** Schedule and DTM say alike whether Gk feeds Cn, and the even split's quotient names the one k that does. */
  ghost predicate FeedsAgree(dtm: Dtm, sites: seq<Container>, r: Resolution, k: nat, n: nat) {
    && Ordered(sites, r.computeCount) && |sites| == r.computeCount + r.gridCount + 1
    && (ScheduleFeeds(sites, r.computeCount, k, n) <==> DtmFeeds(dtm, sites, r.computeCount, k, n))
    && PerGrid(r.computeCount, r.gridCount) > 0
    && (ScheduleFeeds(sites, r.computeCount, k, n) <==> k == (n - 1) / PerGrid(r.computeCount, r.gridCount))
  }

  /** The feed map agrees across artifacts: schedule and DTM both say Gk feeds Cn, or neither does, and for each n
      exactly one k does. */
  lemma FeedMapsAgree(profile: string, r: Resolution, m: Manifest, templates: Templates, k: nat, n: nat)
    requires Generate(profile, r, m, templates).Ok? && profile in m.profiles && Schedulable(m, m.profiles[profile])
    requires r.computeCount == ComputeContainerCount(r.nodeCount)
    requires k < r.gridCount && 1 <= n <= r.computeCount
    ensures FeedsAgree(Generate(profile, r, m, templates).value, Containers(Generate(profile, r, m, templates).value.devices), r, k, n)
  {
    var dtm := Generate(profile, r, m, templates).value;
    var plans, battery, between := Parts(profile, r, m, templates);
    AgreeOnSite(profile, r, m, templates, plans, battery, between, dtm, k, n);
    assert FeedsAgree(dtm, Containers(dtm.devices), r, k, n);
  }

}
