/** The management network and the A/B paths of a generated site. */
module SiteNetwork {
  import opened Lists
  import opened Text
  import opened Catalog
  import opened ComputeNodes
  import opened Dtm
  import opened SitePlan
  import opened DtmSpec
  import opened DtmSoundness
  import opened SiteNames
  import opened SiteShape
  import opened SiteIndex
  import opened Sorting
  import opened PowerCables
  import opened CommsCables
  import opened ManagementNetwork
  import opened ContainerGear
  import opened DualPath
  import opened FeedMap
  import opened Coherence

  // ----- names and ids never mix -----

  predicate UpperName(name: string) { name != "" && 'A' <= name[0] <= 'Z' }

  /** Device names start with a capital, so no name is ever another device's id. */
  ghost predicate NamesUpper(p: Plan) {
    forall i :: 0 <= i < |p.leaves| && p.leaves[i].name.Some? ==> UpperName(p.leaves[i].name.value)
  }

  lemma ContainerNamesUpper(asm: AsmType, topology: Option<Topology>, tag: string, drop: set<string>)
    requires UpperName(tag)
    ensures NamesUpper(PlanOf(asm, topology, tag, drop))
  {
    if topology.Some? {
      var specs := topology.value.devices;
      forall i | 0 <= i < |Leaves(tag, specs, drop)| && Leaves(tag, specs, drop)[i].name.Some?
        ensures UpperName(Leaves(tag, specs, drop)[i].name.value)
      {
        var k := LeafFromSpec(tag, specs, drop, i);
      }
    }
  }

  lemma PlanNamesUpper(m: Manifest, prof: Profile, r: Resolution, plans: seq<Plan>, k: nat)
    requires ContainerPlans(m, prof, r) == Ok(plans) && k < |plans|
    ensures NamesUpper(plans[k])
  {
    PlansAt(m, prof, r, plans, k);
    if k < r.computeCount {
      ContainerNamesUpper(ComputeContainer, m.Topology(ComputeContainer, prof.ComputeVariant(r.gpu).value), "C" + Dec(k + 1),
                          DroppedTags(NodesInContainer(r.nodeCount, k + 1)));
    } else {
      ContainerNamesUpper(GridContainer, m.Topology(GridContainer, GridVariants(prof, r.gridCount).value[k - r.computeCount]),
                          "G" + Dec(k - r.computeCount + 1), {});
    }
  }

  lemma PadNamesUpper(r: Resolution, templates: Templates)
    requires BatteryPlan(r, templates).Ok?
    ensures NamesUpper(BatteryPlan(r, templates).value)
  {
    if r.coupling == AcCoupled {
      var leaves := BatteryPlan(r, templates).value.leaves;
      forall i | 0 <= i < |leaves| ensures UpperName(leaves[i].name.value) {
        assert leaves[i].name == Some("BESS-1-MP-" + Dec(i + 1));
      }
    } else {
      var leaves := DcLeaves(r);
      forall i | 0 <= i < |leaves| ensures UpperName(leaves[i].name.value) {
        if i > 0 {
          assert leaves[i].name == Some("PCS-" + Dec(i));
        }
      }
    }
  }

  /** A device as the schedule can name it: by a capitalised name, or by its own valid id. */
  ghost predicate Nameable(d: Device) {
    (d.displayName.Some? ==> UpperName(d.displayName.value)) && ValidSlug(d.id)
  }

  lemma TagsOfTwo(devices: seq<Device>, d: Device, e: Device)
    requires NamesUnique(devices) && d in devices && e in devices && d.id != e.id && Nameable(d) && Nameable(e)
    ensures Tag(d) != Tag(e)
  {
  }

  lemma {:induction false} LeafNameable(plans: seq<Plan>, k: nat, i: nat)
    requires k < |plans| && i < |Blocks(plans)[k].leaves| && NamesUpper(plans[k])
    requires ValidSlug(Blocks(plans)[k].leaves[i].id)
    ensures Nameable(Blocks(plans)[k].leaves[i])
  {
    BlockRealizes(plans, k);
    assert Blocks(plans)[k].leaves[i].displayName == plans[k].leaves[i].name;
  }

  // ----- no two children share a tag -----

  lemma {:induction false} DistinctConcat(groups: seq<seq<string>>)
    requires forall k :: 0 <= k < |groups| ==> Distinct(groups[k])
    requires forall i, j, t :: 0 <= i < j < |groups| && t in groups[i] ==> t !in groups[j]
    ensures Distinct(Concat(groups))
  {
    if groups != [] {
      var last := |groups| - 1;
      DistinctConcat(groups[..last]);
      forall t | t in groups[last] ensures t !in Concat(groups[..last]) {
        ConcatMember(groups[..last], t);
      }
      DistinctAppend(Concat(groups[..last]), groups[last]);
    }
  }

  lemma {:induction false} LeafIdsDiffer(plans: seq<Plan>, k: nat, i: nat, j: nat)
    requires k < |plans| && i < j < |Blocks(plans)[k].leaves|
    ensures Blocks(plans)[k].leaves[i].id != Blocks(plans)[k].leaves[j].id
  {
    BlockIdsFresh(plans, k);
    BlockAt(plans, k);
    BlockIds(AllNames(plans[..k]), plans[k]);
    var b := Blocks(plans)[k];
    DistinctPrefix(DeviceIds(BlockDevices(b)), BusIds(b.buses));
    assert DeviceIds(BlockDevices(b))[i + 1] == b.leaves[i].id && DeviceIds(BlockDevices(b))[j + 1] == b.leaves[j].id;
  }

  /** The devices of a site's blocks are among these, under valid ids. */
  ghost predicate OnSite(plans: seq<Plan>, devices: seq<Device>) {
    forall x :: x in Flat(Blocks(plans)) ==> x in devices && ValidSlug(x.id)
  }

  lemma {:induction false} LeafOnSite(plans: seq<Plan>, devices: seq<Device>, k: nat, i: nat)
    requires k < |plans| && i < |Blocks(plans)[k].leaves| && NamesUpper(plans[k]) && OnSite(plans, devices)
    ensures Blocks(plans)[k].leaves[i] in devices && Nameable(Blocks(plans)[k].leaves[i])
  {
    assert Blocks(plans)[k].leaves[i] in BlockDevices(Blocks(plans)[k]);
    BlockInFlat(plans, k, Blocks(plans)[k].leaves[i]);
    LeafNameable(plans, k, i);
  }

  lemma {:induction false} BlockTagsDistinct(plans: seq<Plan>, devices: seq<Device>, k: nat)
    requires k < |plans| && NamesUnique(devices) && NamesUpper(plans[k]) && OnSite(plans, devices)
    ensures Distinct(TagsOf(Blocks(plans)[k].leaves))
  {
    var b := Blocks(plans)[k];
    forall i, j | 0 <= i < j < |b.leaves| ensures Tag(b.leaves[i]) != Tag(b.leaves[j]) {
      LeafIdsDiffer(plans, k, i, j);
      LeafOnSite(plans, devices, k, i);
      LeafOnSite(plans, devices, k, j);
      TagsOfTwo(devices, b.leaves[i], b.leaves[j]);
    }
  }

  lemma {:induction false} SortedTags(leaves: seq<Device>)
    ensures multiset(TagsOf(Sort(leaves, ChildLe()))) == multiset(TagsOf(leaves))
  {
    SortPermutes(leaves, ChildLe());
    MapPermuted((d: Device) => Tag(d), Sort(leaves, ChildLe()), leaves);
  }

  lemma TagFromLeaf(leaves: seq<Device>, t: string) returns (i: nat)
    requires t in TagsOf(Sort(leaves, ChildLe()))
    ensures i < |leaves| && Tag(leaves[i]) == t
  {
    SortedTags(leaves);
    MultisetHas(TagsOf(Sort(leaves, ChildLe())), TagsOf(leaves), t);
    i :| 0 <= i < |leaves| && TagsOf(leaves)[i] == t;
  }

  lemma {:induction false} LeavesOfTwoBlocks(plans: seq<Plan>, i: nat, j: nat, x: nat, y: nat)
    requires i < j < |plans| && x < |Blocks(plans)[i].leaves| && y < |Blocks(plans)[j].leaves|
    ensures Blocks(plans)[i].leaves[x].id != Blocks(plans)[j].leaves[y].id
  {
    var d, e := Blocks(plans)[i].leaves[x], Blocks(plans)[j].leaves[y];
    assert d in BlockDevices(Blocks(plans)[i]) && e in BlockDevices(Blocks(plans)[j]);
    BlocksIdsDiffer(plans, i, j, d, e);
  }

  lemma {:induction false} BlocksShareNoTag(plans: seq<Plan>, devices: seq<Device>, i: nat, j: nat, t: string)
    requires i < j < |plans| && NamesUnique(devices) && NamesUpper(plans[i]) && NamesUpper(plans[j]) && OnSite(plans, devices)
    requires t in TagsOf(Sort(Blocks(plans)[i].leaves, ChildLe()))
    ensures t !in TagsOf(Sort(Blocks(plans)[j].leaves, ChildLe()))
  {
    if t in TagsOf(Sort(Blocks(plans)[j].leaves, ChildLe())) {
      var x := TagFromLeaf(Blocks(plans)[i].leaves, t);
      var y := TagFromLeaf(Blocks(plans)[j].leaves, t);
      LeavesOfTwoBlocks(plans, i, j, x, y);
      LeafOnSite(plans, devices, i, x);
      LeafOnSite(plans, devices, j, y);
      TagsOfTwo(devices, Blocks(plans)[i].leaves[x], Blocks(plans)[j].leaves[y]);
    }
  }

  function SortedTagGroups(blocks: seq<Block>): (r: seq<seq<string>>)
    ensures |r| == |blocks|
  {
    seq(|blocks|, k requires 0 <= k < |blocks| => TagsOf(Sort(blocks[k].leaves, ChildLe())))
  }

  lemma ChildTagsAre(blocks: seq<Block>)
    requires BlocksKinded(blocks)
    ensures ChildTags(SiteContainers(blocks)) == Concat(SortedTagGroups(blocks))
  {
    assert Map((c: Container) => TagsOf(c.devices), SiteContainers(blocks)) == SortedTagGroups(blocks);
  }

  lemma {:induction false} ChildTagsDistinct(plans: seq<Plan>, devices: seq<Device>)
    requires BlocksKinded(Blocks(plans)) && NamesUnique(devices) && OnSite(plans, devices)
    requires forall k :: 0 <= k < |plans| ==> NamesUpper(plans[k])
    ensures Distinct(ChildTags(SiteContainers(Blocks(plans))))
  {
    var blocks := Blocks(plans);
    var groups := SortedTagGroups(blocks);
    ChildTagsAre(blocks);
    forall k | 0 <= k < |groups| ensures Distinct(groups[k]) {
      BlockTagsDistinct(plans, devices, k);
      SortedTags(blocks[k].leaves);
      DistinctPermuted(groups[k], TagsOf(blocks[k].leaves));
    }
    forall i, j, t | 0 <= i < j < |groups| && t in groups[i] ensures t !in groups[j] {
      BlocksShareNoTag(plans, devices, i, j, t);
    }
    DistinctConcat(groups);
  }

  lemma {:induction false} LeafIsNotGateway(plans: seq<Plan>, devices: seq<Device>, owners: set<string>, k: nat, i: nat)
    requires k < |plans| && i < |Blocks(plans)[k].leaves|
    requires OwnedBy(plans[k], owners) && "EMS" !in owners && NamesUpper(plans[k]) && OnSite(plans, devices)
    ensures Tag(Blocks(plans)[k].leaves[i]) != GATEWAY
  {
    LeafOnSite(plans, devices, k, i);
    BlockRealizes(plans, k);
    var leaf := Blocks(plans)[k].leaves[i];
    if leaf.displayName.Some? {
      BlockNameOwner(Blocks(plans)[k], plans[k], owners, leaf);
      NameIsNotGateway(leaf.displayName.value, owners);
    } else {
      IdIsNotGateway(leaf.id);
    }
  }

  lemma {:induction false} NameIsNotGateway(name: string, owners: set<string>)
    requires Owner(name) in owners && "EMS" !in owners
    ensures name != GATEWAY
  {
    OwnerOfHyphenated("EMS", "GW");
    assert "EMS" + "-" + "GW" == GATEWAY;
  }

  lemma IdIsNotGateway(id: string)
    requires ValidSlug(id)
    ensures id != GATEWAY
  {
    assert GATEWAY[0] == 'E';
  }

  /** No device of a site is called EMS-GW: that host is by others. */
  lemma {:induction false} GatewayIsOutside(plans: seq<Plan>, devices: seq<Device>, owners: seq<set<string>>)
    requires |owners| == |plans| && BlocksKinded(Blocks(plans)) && OnSite(plans, devices)
    requires forall k :: 0 <= k < |plans| ==> OwnedBy(plans[k], owners[k]) && "EMS" !in owners[k] && NamesUpper(plans[k])
    ensures GATEWAY !in ChildTags(SiteContainers(Blocks(plans)))
  {
    var groups := SortedTagGroups(Blocks(plans));
    ChildTagsAre(Blocks(plans));
    forall k | 0 <= k < |groups| ensures GATEWAY !in groups[k] {
      if GATEWAY in groups[k] {
        var i := TagFromLeaf(Blocks(plans)[k].leaves, GATEWAY);
        LeafIsNotGateway(plans, devices, owners[k], k, i);
      }
    }
    ConcatMember(groups, GATEWAY);
  }

  lemma NotTheGateway(m: Manifest, prof: Profile, r: Resolution, templates: Templates, plans: seq<Plan>, battery: Plan)
    requires ContainerPlans(m, prof, r) == Ok(plans) && TopologiesTagged(m) && BatteryPlan(r, templates) == Ok(battery)
    ensures forall k :: 0 <= k <= |plans| ==> OwnedBy((plans + [battery])[k], OwnersOf(plans)[k]) && "EMS" !in OwnersOf(plans)[k]
  {
    forall k | 0 <= k <= |plans| ensures OwnedBy((plans + [battery])[k], OwnersOf(plans)[k]) && "EMS" !in OwnersOf(plans)[k] {
      if k < |plans| {
        ContainerPlanAt(m, prof, r, plans, k);
        TagHasNoHyphen(r.computeCount, k);
      } else {
        PadNames(r, templates);
      }
    }
  }

  lemma AllNamesUpper(m: Manifest, prof: Profile, r: Resolution, templates: Templates, plans: seq<Plan>, battery: Plan)
    requires ContainerPlans(m, prof, r) == Ok(plans) && BatteryPlan(r, templates) == Ok(battery)
    ensures forall k :: 0 <= k <= |plans| ==> NamesUpper((plans + [battery])[k])
  {
    PadNamesUpper(r, templates);
    forall k | 0 <= k < |plans| ensures NamesUpper(plans[k]) {
      PlanNamesUpper(m, prof, r, plans, k);
    }
  }

  /** A site whose ids break the rule is never generated. */
  lemma {:induction false} GeneratedIdsValid(profile: string, r: Resolution, m: Manifest, templates: Templates)
    requires Generate(profile, r, m, templates).Ok?
    ensures IdsValid(Generate(profile, r, m, templates).value.devices)
  {
    CompletedIdsValid(r, templates, ContainerPlans(m, m.profiles[profile], r).value, BatteryPlan(r, templates).value);
  }

  lemma {:induction false} CompletedIdsValid(r: Resolution, templates: Templates, plans: seq<Plan>, battery: Plan)
    requires CompletedSite(r, templates, plans, battery).Ok?
    ensures IdsValid(CompletedSite(r, templates, plans, battery).value.devices)
  {
  }

  lemma {:induction false} AllOnSite(plans: seq<Plan>, battery: Plan, r: Resolution)
    requires IdsValid(SiteDevices(plans, battery, r))
    ensures OnSite(plans + [battery], SiteDevices(plans, battery, r))
  {
  }

  /** Read back by the schedule, a generated site has one tag per device, tagged in its topology or not, and none is the
      gateway's. */
  lemma SiteTagsApart(profile: string, r: Resolution, m: Manifest, templates: Templates)
    requires Generate(profile, r, m, templates).Ok? && profile in m.profiles && Readable(m, m.profiles[profile])
    ensures OneTagEach(Containers(Generate(profile, r, m, templates).value.devices))
  {
    var plans, battery, between := Parts(profile, r, m, templates);
    var prof, all, devices := m.profiles[profile], plans + [battery], SiteDevices(plans, battery, r);
    GeneratedIdsValid(profile, r, m, templates);
    AllOnSite(plans, battery, r);
    SiteReadsInOrder(m, prof, r, templates, plans, battery);
    SiteNamesUnique(profile, r, m, templates, plans, battery);
    AllNamesUpper(m, prof, r, templates, plans, battery);
    NotTheGateway(m, prof, r, templates, plans, battery);
    ChildTagsDistinct(all, devices);
    GatewayIsOutside(all, devices, OwnersOf(plans));
  }

  // ----- which plans can be patched -----

  /** Some device of the block is polled. */
  ghost predicate PlanPolls(p: Plan) { exists i :: 0 <= i < |p.leaves| && p.leaves[i].connection.Some? }

  /** The block has a management switch. */
  ghost predicate PlanSwitched(p: Plan) { exists i :: 0 <= i < |p.leaves| && p.leaves[i].template in MGMT_SWITCHES }

  /** Every block that polls has a switch to patch into: its own, or for the battery the first grid container's. */
  ghost predicate Patchable(plans: seq<Plan>, battery: Plan, first: nat)
    requires first < |plans|
  {
    (forall k :: 0 <= k < |plans| && PlanPolls(plans[k]) ==> PlanSwitched(plans[k]))
    && (PlanPolls(battery) ==> PlanSwitched(plans[first]))
  }

  lemma {:induction false} FilterSortedIff(p: Device -> bool, leaves: seq<Device>)
    ensures Filter(p, Sort(leaves, ChildLe())) != [] <==> exists i :: 0 <= i < |leaves| && p(leaves[i])
  {
    var kept := Filter(p, Sort(leaves, ChildLe()));
    if kept != [] {
      FilterMember(p, Sort(leaves, ChildLe()), kept[0]);
      SortMember(leaves, ChildLe(), kept[0]);
    }
    if i :| 0 <= i < |leaves| && p(leaves[i]) {
      SortMember(leaves, ChildLe(), leaves[i]);
      FilterMember(p, Sort(leaves, ChildLe()), leaves[i]);
    }
  }

  lemma FirstGrid(sites: seq<Container>, computeCount: nat)
    requires Ordered(sites, computeCount) && computeCount < |sites| - 1
    ensures PrimarySwitch(sites) == OwnSwitch(sites[computeCount])
  {
    var isGrid := (c: Container) => c.kind == Grid;
    var before, rest := sites[..computeCount], sites[computeCount + 1..];
    assert sites == (before + [sites[computeCount]]) + rest;
    FilterNone(isGrid, before);
    FilterSnoc(isGrid, before, sites[computeCount]);
    FilterAppend(isGrid, before + [sites[computeCount]], rest);
  }

  /** What a site's containers poll and switch, read off the plans. */
  ghost predicate ReadsPlans(sites: seq<Container>, plans: seq<Plan>, battery: Plan, first: nat) {
    && |sites| == |plans| + 1 && Ordered(sites, first) && first < |plans|
    && (forall k :: 0 <= k < |plans| ==> (CommsCables.Polled(sites[k]) != [] <==> PlanPolls(plans[k])))
    && (forall k :: 0 <= k < |plans| ==> (OwnSwitch(sites[k]).Some? <==> PlanSwitched(plans[k])))
    && (CommsCables.Polled(sites[|plans|]) != [] <==> PlanPolls(battery))
  }

  lemma OrphanIff(sites: seq<Container>, plans: seq<Plan>, battery: Plan, first: nat, g1: Option<Device>, k: nat)
    requires ReadsPlans(sites, plans, battery, first) && k < |sites| && (g1.Some? <==> PlanSwitched(plans[first]))
    ensures k < |plans| ==> (Orphaned(sites[k], g1) <==> PlanPolls(plans[k]) && !PlanSwitched(plans[k]))
    ensures k == |plans| ==> (Orphaned(sites[k], g1) <==> PlanPolls(battery) && !PlanSwitched(plans[first]))
  {
    assert sites[k].kind == Bess <==> k == |plans|;
  }

  lemma PatchableIff(sites: seq<Container>, plans: seq<Plan>, battery: Plan, first: nat, g1: Option<Device>)
    requires ReadsPlans(sites, plans, battery, first) && (g1.Some? <==> PlanSwitched(plans[first]))
    ensures Patchable(plans, battery, first) <==> forall k :: 0 <= k < |sites| ==> !Orphaned(sites[k], g1)
  {
    forall k | 0 <= k < |plans| ensures Orphaned(sites[k], g1) <==> PlanPolls(plans[k]) && !PlanSwitched(plans[k]) {
      OrphanIff(sites, plans, battery, first, g1, k);
    }
    OrphanIff(sites, plans, battery, first, g1, |plans|);
  }

  lemma SheetOkFromPlans(templates: Templates, sites: seq<Container>, plans: seq<Plan>, battery: Plan, first: nat)
    requires ReadsPlans(sites, plans, battery, first)
    ensures CommsSheet(templates, sites).Ok? <==> Patchable(plans, battery, first)
    ensures PrimarySwitch(sites).Some? <==> PlanSwitched(plans[first])
  {
    FirstGrid(sites, first);
    CommsSheetOkIff(templates, sites);
    PatchableIff(sites, plans, battery, first, PrimarySwitch(sites));
  }

  lemma {:induction false} BlockReadsPlan(all: seq<Plan>, k: nat)
    requires BlocksKinded(Blocks(all)) && k < |all|
    ensures CommsCables.Polled(SiteContainers(Blocks(all))[k]) != [] <==> PlanPolls(all[k])
    ensures OwnSwitch(SiteContainers(Blocks(all))[k]).Some? <==> PlanSwitched(all[k])
  {
    BlockRealizes(all, k);
    FilterSortedIff(IsPolled(), Blocks(all)[k].leaves);
    FilterSortedIff(UsesOneOf(MGMT_SWITCHES), Blocks(all)[k].leaves);
  }

  lemma {:induction false} BlocksReadPlans(plans: seq<Plan>, battery: Plan, first: nat)
    requires BlocksKinded(Blocks(plans + [battery])) && Ordered(SiteContainers(Blocks(plans + [battery])), first) && first < |plans|
    ensures ReadsPlans(SiteContainers(Blocks(plans + [battery])), plans, battery, first)
  {
    var all := plans + [battery];
    forall k | 0 <= k < |plans|
      ensures CommsCables.Polled(SiteContainers(Blocks(all))[k]) != [] <==> PlanPolls(plans[k])
      ensures OwnSwitch(SiteContainers(Blocks(all))[k]).Some? <==> PlanSwitched(plans[k])
    {
      BlockReadsPlan(all, k);
    }
    BlockReadsPlan(all, |plans|);
  }

  lemma SiteReadsPlans(m: Manifest, prof: Profile, r: Resolution, templates: Templates, plans: seq<Plan>, battery: Plan)
    requires ContainerPlans(m, prof, r) == Ok(plans) && BatteryPlan(r, templates) == Ok(battery)
    requires Readable(m, prof) && prof.gridContainer.Some?
    ensures ReadsPlans(Containers(SiteDevices(plans, battery, r)), plans, battery, r.computeCount)
  {
    ComputeCountWithin(m, prof, r, plans);
    SiteReadsInOrder(m, prof, r, templates, plans, battery);
    BlocksReadPlans(plans, battery, r.computeCount);
  }

  lemma GridsAmong(sites: seq<Container>, first: nat)
    requires Ordered(sites, first)
    ensures PowerSheet(sites).Ok? <==> first < |sites| - 1
  {
    KindsInOrder(sites, first);
  }

  /** The power sheet of a generated site can be made exactly when its profile has a primary grid variant: the DTM and the
      BOM are generated without one, but the even split of the feeds divides by the number of grid containers. */
  lemma SitePowerIff(profile: string, r: Resolution, m: Manifest, templates: Templates)
    requires Generate(profile, r, m, templates).Ok? && profile in m.profiles && Readable(m, m.profiles[profile])
    ensures PowerSheet(Containers(Generate(profile, r, m, templates).value.devices)).Ok? <==> m.profiles[profile].gridContainer.Some?
  {
    var prof := m.profiles[profile];
    var plans, battery, between := Parts(profile, r, m, templates);
    SiteReadsInOrder(m, prof, r, templates, plans, battery);
    GridsAmong(Containers(SiteDevices(plans, battery, r)), r.computeCount);
    PrimaryOrOne(profile, r, m, templates);
    if prof.gridContainer.None? {
      GridPlanCount(m, prof, r, plans);
    } else {
      ComputeCountWithin(m, prof, r, plans);
    }
  }

  /** The comms sheet of a generated site can be made exactly when every block that polls has a switch: a caller can tell
      from the topologies and the order. */
  lemma SiteSheetOkIff(profile: string, r: Resolution, m: Manifest, templates: Templates, used: Templates)
    requires Generate(profile, r, m, templates).Ok? && profile in m.profiles
    requires Readable(m, m.profiles[profile]) && m.profiles[profile].gridContainer.Some?
    ensures ContainerPlans(m, m.profiles[profile], r).Ok? && r.computeCount < |ContainerPlans(m, m.profiles[profile], r).value|
    ensures BatteryPlan(r, templates).Ok?
    ensures var sites := Containers(Generate(profile, r, m, templates).value.devices);
            var plans := ContainerPlans(m, m.profiles[profile], r).value;
            && (CommsSheet(used, sites).Ok? <==> Patchable(plans, BatteryPlan(r, templates).value, r.computeCount))
            && (PrimarySwitch(sites).Some? <==> PlanSwitched(plans[r.computeCount]))
  {
    var plans, battery, between := Parts(profile, r, m, templates);
    SiteReadsPlans(m, m.profiles[profile], r, templates, plans, battery);
    SheetOkFromPlans(used, Containers(SiteDevices(plans, battery, r)), plans, battery, r.computeCount);
  }

  /** The comms sheet as a network: every device the EMS polls and every switch leads to EMS-GW, nothing leaves EMS-GW, each
      polled device has one patch into its own container's switch, each switch its uplink, no port is shared or skipped, and
      the whole is a tree exactly when no management switch is itself polled. */
  ghost predicate NetworkStands(templates: Templates, sites: seq<Container>) {
    var g1 := PrimarySwitch(sites);
    var patches := Patches(templates, Jobs(sites, g1));
    var cables := patches + Uplinks(sites, g1);
    && CommsSheet(templates, sites) == Ok(cables)
    && (forall d :: InNetwork(sites, d) ==> Reaches(cables, Tag(d), GATEWAY, 3))
    && GATEWAY !in FromTags(cables)
    && OnePatchEach(templates, sites, patches) && PortsInOrder(patches)
    && (g1.Some? ==> Uplinked(sites, cables, g1.value))
    && (Distinct(FromTags(cables)) <==> !SomeSwitchPolled(sites))
  }

  lemma SitesTree(templates: Templates, sites: seq<Container>)
    requires CommsSheet(templates, sites).Ok? && PrimarySwitch(sites).Some? && OneTagEach(sites)
    ensures NetworkStands(templates, sites)
  {
    TreeIntoGateway(templates, sites);
    AllPatchedOnce(templates, sites);
    AllUplinked(sites, PrimarySwitch(sites).value, Patches(templates, Jobs(sites, PrimarySwitch(sites))));
    PatchPortsInOrder(templates, Jobs(sites, PrimarySwitch(sites)));
  }

  /** The management network of a generated site stands whenever its blocks are switched. */
  lemma SiteNetworkIsTree(profile: string, r: Resolution, m: Manifest, templates: Templates, used: Templates)
    requires Generate(profile, r, m, templates).Ok? && profile in m.profiles
    requires Readable(m, m.profiles[profile]) && m.profiles[profile].gridContainer.Some?
    requires var plans := ContainerPlans(m, m.profiles[profile], r);
             plans.Ok? && BatteryPlan(r, templates).Ok? && r.computeCount < |plans.value| &&
             Patchable(plans.value, BatteryPlan(r, templates).value, r.computeCount) && PlanSwitched(plans.value[r.computeCount])
    ensures NetworkStands(used, Containers(Generate(profile, r, m, templates).value.devices))
  {
    SiteTagsApart(profile, r, m, templates);
    SiteSheetOkIff(profile, r, m, templates, used);
    SitesTree(used, Containers(Generate(profile, r, m, templates).value.devices));
  }

  /** The switch the pad patches into and every other switch uplinks to is G1's. */
  lemma {:induction false} G1Leads(profile: string, r: Resolution, m: Manifest, templates: Templates)
    requires Generate(profile, r, m, templates).Ok? && profile in m.profiles
    requires Readable(m, m.profiles[profile]) && m.profiles[profile].gridContainer.Some?
    ensures var sites := Containers(Generate(profile, r, m, templates).value.devices);
            && r.computeCount < |sites| && sites[r.computeCount].kind == Grid && sites[r.computeCount].tag == "G" + Dec(1)
            && PrimarySwitch(sites) == sites[r.computeCount].One({"mgmt_switch", "grid_mgmt_switch"})
  {
    var plans, battery, between := Parts(profile, r, m, templates);
    SiteReadsInOrder(m, m.profiles[profile], r, templates, plans, battery);
    ComputeCountWithin(m, m.profiles[profile], r, plans);
    FirstGridLeads(SiteContainers(Blocks(plans + [battery])), r.computeCount);
  }

  lemma FirstGridLeads(sites: seq<Container>, first: nat)
    requires Ordered(sites, first) && first < |sites| - 1
    ensures sites[first].kind == Grid && sites[first].tag == "G" + Dec(1) && PrimarySwitch(sites) == OwnSwitch(sites[first])
  {
    FirstGrid(sites, first);
  }

  lemma {:induction false} ComputePlanAt(m: Manifest, prof: Profile, r: Resolution, plans: seq<Plan>, n: nat, t: Topology)
    requires ContainerPlans(m, prof, r) == Ok(plans) && ProfileShaped(m, prof) && 1 <= n <= r.computeCount <= |plans|
    requires prof.ComputeVariant(r.gpu).Some? ==> m.Topology(ComputeContainer, prof.ComputeVariant(r.gpu).value) == Some(t)
    ensures plans[n - 1] == ComputePlan(Some(t), r.nodeCount, n) && KindOf(plans[n - 1].template) == Some(Compute)
  {
    PlansAt(m, prof, r, plans, n - 1);
    PlanKind(m, prof, r, plans, n - 1);
  }
}
