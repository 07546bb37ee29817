/** The BOM and the DTM of one order list the same hardware, device by device. */
module BomSite {
  import opened Lists
  import opened Text
  import opened Catalog
  import opened ComputeNodes
  import opened Dtm
  import opened SitePlan
  import opened DtmSpec
  import opened DtmSoundness
  import opened SiteShape
  import opened SiteIndex
  import opened ContainerGear
  import opened DualPath
  import opened Coherence
  import opened RefDes
  import opened ContainerLabels
  import opened BomModel
  import opened BomCoverage
  import opened BomGenerator

  /** Device templates that stand for one piece of equipment. */
  function Carriers(templates: Templates, eid: string): set<string> {
    set t | t in templates && templates[t].equipmentId == Some(eid) :: t
  }

  function Somes(tags: seq<string>): seq<Option<string>> { Map((s: string) => Some(s), tags) }

  /** bom.yaml lists each equipment id with exactly the tags of the topology devices having that equipment. */
  ghost predicate BomMatches(v: Variant, templates: Templates) {
    && v.topology.Some? && Counted(v.bom.parts)
    && (forall i, t :: 0 <= i < |v.bom.parts| && t in v.bom.parts[i].tags ==> t != "")
    && forall eid :: multiset(Somes(BomTags(v.bom.parts, eid)))
                     == multiset(TagsUsing(v.topology.value.devices, Carriers(templates, eid)))
  }

  /** A variant as an order meets it: its topology.yaml through the manifest pinned when the job was created, its bom.yaml
      through the manifest fetched again when the BOM is built. */
  function Met(pinned: Manifest, fetched: Manifest, asm: AsmType, name: string): Variant
    requires (asm, name) in fetched.assemblies
  {
    Variant(fetched.assemblies[(asm, name)].bom, pinned.Topology(asm, name))
  }

  ghost predicate ListedAlike(pinned: Manifest, fetched: Manifest, asm: AsmType, name: string, templates: Templates) {
    (asm, name) in fetched.assemblies && BomMatches(Met(pinned, fetched, asm, name), templates)
  }

  /** Modules and gear outside the containers. */
  const EXTERNAL: set<string> :=
    {"compute_module", "compute_module_h100", "grid_module", "bess_module", "bess_module_dc", "bess_rack", "bess_catl",
     "der_dispatch", "operating_envelope"}

  // ----- one container -----

  lemma {:induction false} BomTagsNonempty(parts: seq<Part>, eid: string, t: string)
    requires forall i, t :: 0 <= i < |parts| && t in parts[i].tags ==> t != ""
    requires t in BomTags(parts, eid)
    ensures t != ""
  {
    var init, p := parts[..|parts| - 1], parts[|parts| - 1];
    if t in BomTags(init, eid) {
      assert forall i :: 0 <= i < |init| ==> init[i] == parts[i];
      BomTagsNonempty(init, eid, t);
    }
  }

  lemma {:induction false} SiteTagsOfSomes(prefix: string, n: nat, tags: seq<string>)
    requires forall t :: t in tags ==> t != ""
    ensures SiteTags(prefix + Dec(n), Somes(tags)) == Somes(TagsAt(prefix, n, tags))
  {
    forall i | 0 <= i < |tags| ensures SiteTag(prefix + Dec(n), Some(tags[i])) == Some(prefix + Dec(n) + "-" + tags[i]) {
      assert tags[i] in tags;
    }
  }

  lemma RootNotListed(b: Block, carriers: set<string>)
    requires b.root.template !in carriers
    ensures NamesUsing(BlockDevices(b), carriers) == NamesUsing(b.leaves, carriers)
  {
    NamesUsingAppend([b.root], b.leaves, carriers);
    NamesUsingSnoc([], b.root, carriers);
    assert [] + [b.root] == [b.root];
    assert NamesUsing([], carriers) == [];
    assert [] + NamesUsing(b.leaves, carriers) == NamesUsing(b.leaves, carriers);
  }

  /** One container's devices of an equipment id are named exactly by the tags its bom.yaml keeps. */
  lemma {:induction false} ContainerListed(b: Block, asm: AsmType, v: Variant, templates: Templates, prefix: string, n: nat, drop: set<string>, eid: string)
    requires Realizes(b, PlanOf(asm, v.topology, prefix + Dec(n), drop)) && BomMatches(v, templates)
    requires b.root.template !in Carriers(templates, eid)
    ensures multiset(NamesUsing(BlockDevices(b), Carriers(templates, eid)))
         == multiset(Somes(TagsAt(prefix, n, KeptOf(BomTags(v.bom.parts, eid), drop))))
  {
    var carriers, tag := Carriers(templates, eid), prefix + Dec(n);
    var listed, kept := BomTags(v.bom.parts, eid), KeptOf(BomTags(v.bom.parts, eid), drop);
    RootNotListed(b, carriers);
    NamesOfContainer(b, asm, v.topology, tag, drop, carriers);
    FilterPermuted(Keeps(drop), TagsUsing(v.topology.value.devices, carriers), Somes(listed));
    MapFilter((s: string) => Some(s), (t: string) => Kept(t, drop), Keeps(drop), listed);
    MapPermuted((t: Option<string>) => SiteTag(tag, t), KeptTags(v.topology.value.devices, drop, carriers), Somes(kept));
    forall t | t in kept ensures t != "" {
      FilterMember((t: string) => Kept(t, drop), listed, t);
      BomTagsNonempty(v.bom.parts, eid, t);
    }
    SiteTagsOfSomes(prefix, n, kept);
  }

  // ----- a range of containers -----

  /** Containers first, first + 1, … carry these tags. */
  ghost predicate RangeListed(blocks: seq<Block>, carriers: set<string>, prefix: string, first: nat, tags: seq<string>) {
    forall k :: 0 <= k < |blocks| ==>
      multiset(NamesUsing(BlockDevices(blocks[k]), carriers)) == multiset(Somes(TagsAt(prefix, first + k, tags)))
  }

  lemma {:induction false} RangeNames(blocks: seq<Block>, carriers: set<string>, prefix: string, first: nat, tags: seq<string>)
    requires RangeListed(blocks, carriers, prefix, first, tags)
    ensures multiset(NamesUsing(Flat(blocks), carriers))
         == multiset(Somes(Concat(TagsOver(prefix, first, first + |blocks| - 1, tags))))
  {
    if blocks == [] {
      assert TagsOver(prefix, first, first - 1, tags) == [];
      assert NamesUsing([], carriers) == [];
    } else {
      var init, b := blocks[..|blocks| - 1], blocks[|blocks| - 1];
      RangeNames(init, carriers, prefix, first, tags);
      NamesUsingAppend(Flat(init), BlockDevices(b), carriers);
      CoverSnoc(prefix, first, first + |init|, tags);
      MapAppend((s: string) => Some(s), Concat(TagsOver(prefix, first, first + |init| - 1, tags)), TagsAt(prefix, first + |init|, tags));
    }
  }

  lemma SomesAppend(a: seq<string>, b: seq<string>)
    ensures Somes(a + b) == Somes(a) + Somes(b)
  {
  }

  lemma {:induction false} FlatSplit(blocks: seq<Block>, k: nat, carriers: set<string>)
    requires k <= |blocks|
    ensures NamesUsing(Flat(blocks), carriers) == NamesUsing(Flat(blocks[..k]), carriers) + NamesUsing(Flat(blocks[k..]), carriers)
  {
    assert blocks == blocks[..k] + blocks[k..];
    FlatAppend(blocks[..k], blocks[k..]);
    NamesUsingAppend(Flat(blocks[..k]), Flat(blocks[k..]), carriers);
  }

  lemma OneGroup(g: ContainerGroup, eid: string)
    ensures AllGroupTags([g], eid) == GroupTags(g, eid)
  {
    assert [] + [g] == [g];
    HeldSnoc([], g, eid);
  }

  lemma TwoGroups(g: ContainerGroup, h: ContainerGroup, eid: string)
    ensures AllGroupTags([g, h], eid) == GroupTags(g, eid) + GroupTags(h, eid)
  {
    OneGroup(g, eid);
    HeldSnoc([g], h, eid);
    assert [g] + [h] == [g, h];
  }

  /** Blocks built by one group of containers. */
  ghost predicate BuiltBy(blocks: seq<Block>, g: ContainerGroup, carriers: set<string>, eid: string) {
    && |blocks| == g.Count() && g.first <= g.last
    && RangeListed(blocks, carriers, g.prefix, g.first, BomTags(g.bom.parts, eid))
  }

  lemma {:induction false} GroupNames(blocks: seq<Block>, g: ContainerGroup, carriers: set<string>, eid: string)
    requires BuiltBy(blocks, g, carriers, eid)
    ensures multiset(NamesUsing(Flat(blocks), carriers)) == multiset(Somes(GroupTags(g, eid)))
  {
    RangeNames(blocks, carriers, g.prefix, g.first, BomTags(g.bom.parts, eid));
  }

  lemma {:induction false} TwoGroupNames(blocks: seq<Block>, k: nat, g: ContainerGroup, h: ContainerGroup, carriers: set<string>, eid: string)
    requires k <= |blocks| && BuiltBy(blocks[..k], g, carriers, eid) && BuiltBy(blocks[k..], h, carriers, eid)
    ensures multiset(NamesUsing(Flat(blocks), carriers)) == multiset(Somes(AllGroupTags([g, h], eid)))
  {
    FlatSplit(blocks, k, carriers);
    GroupNames(blocks[..k], g, carriers, eid);
    GroupNames(blocks[k..], h, carriers, eid);
    TwoGroups(g, h, eid);
    SomesAppend(GroupTags(g, eid), GroupTags(h, eid));
  }

  // ----- compute containers -----

  lemma KeepAll(tags: seq<string>)
    ensures KeptOf(tags, {}) == tags
  {
    FilterAll((t: string) => Kept(t, {}), tags);
  }

  /** Compute container Cn of a site, told by its plan. */
  ghost predicate ComputeBlock(b: Block, t: Option<Topology>, nodes: int, n: nat) {
    Realizes(b, ComputePlan(t, nodes, n)) && b.root.template in EXTERNAL
  }

  lemma {:induction false} ComputeListed(b: Block, v: Variant, templates: Templates, nodes: int, n: nat, eid: string)
    requires ComputeBlock(b, v.topology, nodes, n) && BomMatches(v, templates) && Carriers(templates, eid) !! EXTERNAL
    ensures multiset(NamesUsing(BlockDevices(b), Carriers(templates, eid)))
         == multiset(Somes(TagsAt("C", n, KeptOf(BomTags(v.bom.parts, eid), DroppedTags(NodesInContainer(nodes, n))))))
  {
    ContainerListed(b, ComputeContainer, v, templates, "C", n, DroppedTags(NodesInContainer(nodes, n)), eid);
  }

  /** Every full container carries the whole bom.yaml, the last one what is left of it. */
  lemma FullBuilt(blocks: seq<Block>, v: Variant, templates: Templates, nodes: int, g: ContainerGroup, eid: string)
    requires BomMatches(v, templates) && Carriers(templates, eid) !! EXTERNAL
    requires forall k :: 0 <= k < |blocks| ==> ComputeBlock(blocks[k], v.topology, nodes, k + 1) && NodesInContainer(nodes, k + 1) == 7
    requires |blocks| > 0 && g == ContainerGroup(ComputeSection, "C", 1, |blocks|, v.bom)
    ensures BuiltBy(blocks, g, Carriers(templates, eid), eid)
  {
    var tags := BomTags(v.bom.parts, eid);
    forall k | 0 <= k < |blocks|
      ensures multiset(NamesUsing(BlockDevices(blocks[k]), Carriers(templates, eid))) == multiset(Somes(TagsAt("C", 1 + k, tags)))
    {
      ComputeListed(blocks[k], v, templates, nodes, k + 1, eid);
      KeepAll(tags);
    }
  }

  lemma {:induction false} OneListed(b: Block, g: ContainerGroup, n: nat, carriers: set<string>, eid: string)
    requires g.first == n && g.last == n
    requires multiset(NamesUsing(BlockDevices(b), carriers)) == multiset(Somes(TagsAt(g.prefix, n, BomTags(g.bom.parts, eid))))
    ensures BuiltBy([b], g, carriers, eid)
  {
  }

  lemma PartialBuilt(b: Block, v: Variant, templates: Templates, nodes: int, n: nat, g: ContainerGroup, eid: string)
    requires BomMatches(v, templates) && Carriers(templates, eid) !! EXTERNAL && ComputeBlock(b, v.topology, nodes, n)
    requires g == ContainerGroup(ComputeSection, "C", n, n, Without(v.bom, DroppedTags(NodesInContainer(nodes, n))))
    ensures BuiltBy([b], g, Carriers(templates, eid), eid)
  {
    ComputeListed(b, v, templates, nodes, n, eid);
    WithoutTags(v.bom.parts, DroppedTags(NodesInContainer(nodes, n)), eid);
    OneListed(b, g, n, Carriers(templates, eid), eid);
  }

  ghost predicate ComputeBlocks(blocks: seq<Block>, t: Option<Topology>, nodes: int) {
    forall k :: 0 <= k < |blocks| ==> ComputeBlock(blocks[k], t, nodes, k + 1)
  }

  lemma {:induction false} ComputeNames(blocks: seq<Block>, v: Variant, templates: Templates, order: Order, eid: string)
    requires BomMatches(v, templates) && Carriers(templates, eid) !! EXTERNAL
    requires |blocks| == order.computeQty == ComputeContainerCount(order.nodes) && ComputeBlocks(blocks, v.topology, order.nodes)
    ensures multiset(NamesUsing(Flat(blocks), Carriers(templates, eid))) == multiset(Somes(AllGroupTags(ComputeGroups(order, v.bom), eid)))
  {
    PackingConservesServers(order.nodes);
    var full, n := FullContainers(order), order.computeQty;
    var carriers := Carriers(templates, eid);
    var g := ContainerGroup(ComputeSection, "C", 1, full, v.bom);
    var h := ContainerGroup(ComputeSection, "C", n, n, Without(v.bom, DroppedTags(NodesInContainer(order.nodes, n))));
    if full == n {
      assert ComputeGroups(order, v.bom) == [g];
      FullBuilt(blocks, v, templates, order.nodes, g, eid);
      GroupNames(blocks, g, carriers, eid);
      OneGroup(g, eid);
    } else {
      assert blocks[full..] == [blocks[full]];
      PartialBuilt(blocks[full], v, templates, order.nodes, n, h, eid);
      if full == 0 {
        assert ComputeGroups(order, v.bom) == [h];
        assert blocks == [blocks[full]];
        GroupNames(blocks, h, carriers, eid);
        OneGroup(h, eid);
      } else {
        assert ComputeGroups(order, v.bom) == [g, h];
        FullBuilt(blocks[..full], v, templates, order.nodes, g, eid);
        TwoGroupNames(blocks, full, g, h, carriers, eid);
      }
    }
  }

  // ----- grid containers -----

  ghost predicate GridBlock(b: Block, t: Option<Topology>, k: nat) {
    Realizes(b, PlanOf(GridContainer, t, "G" + Dec(k), {})) && b.root.template in EXTERNAL
  }

  /** G_first, G_first+1, … all built from one variant. */
  lemma GridBuilt(blocks: seq<Block>, v: Variant, templates: Templates, first: nat, g: ContainerGroup, eid: string)
    requires BomMatches(v, templates) && Carriers(templates, eid) !! EXTERNAL
    requires forall k :: 0 <= k < |blocks| ==> GridBlock(blocks[k], v.topology, first + k)
    requires |blocks| > 0 && g == ContainerGroup(GridSection, "G", first, first + |blocks| - 1, v.bom)
    ensures BuiltBy(blocks, g, Carriers(templates, eid), eid)
  {
    var tags := BomTags(v.bom.parts, eid);
    forall k | 0 <= k < |blocks|
      ensures multiset(NamesUsing(BlockDevices(blocks[k]), Carriers(templates, eid))) == multiset(Somes(TagsAt("G", first + k, tags)))
    {
      ContainerListed(blocks[k], GridContainer, v, templates, "G", first + k, {}, eid);
      KeepAll(tags);
    }
  }

  ghost predicate GridBlocks(blocks: seq<Block>, m: Manifest, variants: seq<string>) {
    |blocks| == |variants| && forall k :: 0 <= k < |blocks| ==> GridBlock(blocks[k], m.Topology(GridContainer, variants[k]), k + 1)
  }

  ghost predicate GridsListed(pinned: Manifest, fetched: Manifest, prof: Profile, gridQty: nat, templates: Templates) {
    && (prof.gridContainer.Some? ==> ListedAlike(pinned, fetched, GridContainer, prof.gridContainer.value, templates))
    && (gridQty > 1 && prof.gridFeeder.Some? ==> ListedAlike(pinned, fetched, GridContainer, prof.gridFeeder.value, templates))
  }

  lemma {:induction false} GridNames(blocks: seq<Block>, pinned: Manifest, fetched: Manifest, prof: Profile, templates: Templates, gridQty: nat,
                                     groups: seq<ContainerGroup>, eid: string)
    requires GridVariants(prof, gridQty).Ok? && GridBlocks(blocks, pinned, GridVariants(prof, gridQty).value) && gridQty >= 1
    requires GridGroups(fetched, prof, gridQty) == Ok(groups) && GridsListed(pinned, fetched, prof, gridQty, templates)
    requires Carriers(templates, eid) !! EXTERNAL
    requires prof.gridContainer.Some? || gridQty == 1
    ensures multiset(NamesUsing(Flat(blocks), Carriers(templates, eid))) == multiset(Somes(AllGroupTags(groups, eid)))
  {
    if prof.gridContainer.None? {
      assert blocks == [] && groups == [];
    } else {
      var primary := Met(pinned, fetched, GridContainer, prof.gridContainer.value);
      var g := ContainerGroup(GridSection, "G", 1, 1, primary.bom);
      assert GridBlock(blocks[0], primary.topology, 1);
      GridBuilt(blocks[..1], primary, templates, 1, g, eid);
      if gridQty == 1 {
        assert blocks[..1] == blocks && groups == [g];
        GroupNames(blocks, g, Carriers(templates, eid), eid);
        OneGroup(g, eid);
      } else {
        FeedersBuilt(blocks, pinned, fetched, prof, templates, gridQty, eid);
        var h := ContainerGroup(GridSection, "G", 2, gridQty, fetched.assemblies[(GridContainer, prof.gridFeeder.value)].bom);
        assert groups == [g, h];
        TwoGroupNames(blocks, 1, g, h, Carriers(templates, eid), eid);
      }
    }
  }

  lemma FeedersBuilt(blocks: seq<Block>, pinned: Manifest, fetched: Manifest, prof: Profile, templates: Templates, gridQty: nat, eid: string)
    requires GridVariants(prof, gridQty).Ok? && GridBlocks(blocks, pinned, GridVariants(prof, gridQty).value) && gridQty >= 2
    requires prof.gridContainer.Some? && GridsListed(pinned, fetched, prof, gridQty, templates) && Carriers(templates, eid) !! EXTERNAL
    ensures prof.gridFeeder.Some? && |blocks| == gridQty
    ensures var feeder := fetched.assemblies[(GridContainer, prof.gridFeeder.value)];
            BuiltBy(blocks[1..], ContainerGroup(GridSection, "G", 2, gridQty, feeder.bom), Carriers(templates, eid), eid)
  {
    var feeder := Met(pinned, fetched, GridContainer, prof.gridFeeder.value);
    var variants := GridVariants(prof, gridQty).value;
    forall k | 0 <= k < |blocks[1..]| ensures GridBlock(blocks[1..][k], feeder.topology, 2 + k) {
      assert GridBlock(blocks[k + 1], pinned.Topology(GridContainer, variants[k + 1]), k + 1 + 1);
      assert variants[k + 1] == prof.gridFeeder.value;
    }
    GridBuilt(blocks[1..], feeder, templates, 2, ContainerGroup(GridSection, "G", 2, gridQty, feeder.bom), eid);
  }

  // ----- the battery pad -----

  /** PCS units on the pad are the pad's only equipment the BOM buys. */
  lemma PadNamesAre(b: Block, r: Resolution, templates: Templates, eid: string)
    requires BatteryPlan(r, templates).Ok? && Realizes(b, BatteryPlan(r, templates).value) && Carriers(templates, eid) !! EXTERNAL
    ensures NamesUsing(BlockDevices(b), Carriers(templates, eid))
         == if "pcs" in Carriers(templates, eid) then Somes(PcsTags(PcsUnits(r))) else []
  {
    var p, carriers := BatteryPlan(r, templates).value, Carriers(templates, eid);
    assert b.root.template in EXTERNAL;
    RootNotListed(b, carriers);
    NamesOfBlock(b, p, carriers);
    if r.coupling == AcCoupled {
      FilterNone(LeafUses(carriers), p.leaves);
    } else {
      var pcs := NumberedLeaves("pcs", "PCS-", PcsUnits(r));
      assert p.leaves == [BankLeaf(r)] + pcs;
      FilterAppend(LeafUses(carriers), [BankLeaf(r)], pcs);
      FilterNone(LeafUses(carriers), [BankLeaf(r)]);
      PcsLeavesNamed(pcs, carriers, PcsUnits(r));
    }
  }

  lemma PcsLeavesNamed(pcs: seq<Leaf>, carriers: set<string>, n: nat)
    requires pcs == NumberedLeaves("pcs", "PCS-", n)
    ensures LeafNames(pcs, carriers) == if "pcs" in carriers then Somes(PcsTags(n)) else []
  {
    if "pcs" in carriers {
      FilterAll(LeafUses(carriers), pcs);
    } else {
      FilterNone(LeafUses(carriers), pcs);
    }
  }

  // ----- the site -----

  lemma UtilityNotListed(offGrid: bool, carriers: set<string>)
    requires carriers !! EXTERNAL
    ensures NamesUsing(UtilityOf(offGrid), carriers) == []
  {
    FilterNone(UsesOneOf(carriers), UtilityOf(offGrid));
  }

  lemma {:induction false} SiteNamesSplit(plans: seq<Plan>, battery: Plan, r: Resolution, n: nat, carriers: set<string>)
    requires n <= |plans| && carriers !! EXTERNAL
    ensures NamesUsing(SiteDevices(plans, battery, r), carriers)
         == NamesUsing(Flat(Blocks(plans)[..n]), carriers) + NamesUsing(Flat(Blocks(plans)[n..]), carriers)
            + NamesUsing(BlockDevices(BlockOf(AllNames(plans), battery)), carriers)
  {
    var pad, util := BlockDevices(BlockOf(AllNames(plans), battery)), UtilityOf(r.offGrid);
    SiteDevicesSplit(plans, battery, r);
    NamesUsingAppend(Flat(Blocks(plans)), pad + util, carriers);
    NamesUsingAppend(pad, util, carriers);
    UtilityNotListed(r.offGrid, carriers);
    FlatSplit(Blocks(plans), n, carriers);
    assert NamesUsing(pad, carriers) + [] == NamesUsing(pad, carriers);
  }

  function OrderOf(r: Resolution, defense: bool): Order {
    Order(r.gpu, r.nodeCount, r.computeCount, r.gridCount, r.coupling, r.pcsCount, defense)
  }

  /** The tags a BOM names for one equipment id: containers by section, then PCS units. */
  function ListedTags(compute: seq<ContainerGroup>, grid: seq<ContainerGroup>, r: Resolution, templates: Templates, eid: string): seq<string> {
    AllGroupTags(compute, eid) + AllGroupTags(grid, eid)
    + if "pcs" in Carriers(templates, eid) then PcsTags(PcsUnits(r)) else []
  }

  /** The variants an order is built from list alike in topology.yaml and bom.yaml. */
  ghost predicate CatalogAgrees(pinned: Manifest, fetched: Manifest, prof: Profile, r: Resolution, templates: Templates) {
    && (prof.ComputeVariant(r.gpu).Some? ==> ListedAlike(pinned, fetched, ComputeContainer, prof.ComputeVariant(r.gpu).value, templates))
    && GridsListed(pinned, fetched, prof, r.gridCount, templates) && ProfileShaped(pinned, prof)
  }

  lemma PlanTemplate(m: Manifest, prof: Profile, r: Resolution, plans: seq<Plan>, k: nat)
    requires ContainerPlans(m, prof, r) == Ok(plans) && ProfileShaped(m, prof) && k < |plans|
    ensures plans[k].template in EXTERNAL
  {
    PlanKind(m, prof, r, plans, k);
  }

  lemma {:induction false} ComputeBlocksStand(m: Manifest, prof: Profile, r: Resolution, plans: seq<Plan>)
    requires ContainerPlans(m, prof, r) == Ok(plans) && ProfileShaped(m, prof) && r.computeCount <= |plans|
    ensures prof.ComputeVariant(r.gpu).Some?
    ensures ComputeBlocks(Blocks(plans)[..r.computeCount], m.Topology(ComputeContainer, prof.ComputeVariant(r.gpu).value), r.nodeCount)
  {
    var t := m.Topology(ComputeContainer, prof.ComputeVariant(r.gpu).value);
    forall k | 0 <= k < r.computeCount ensures ComputeBlock(Blocks(plans)[k], t, r.nodeCount, k + 1) {
      PlansAt(m, prof, r, plans, k);
      PlanTemplate(m, prof, r, plans, k);
      BlockRealizes(plans, k);
    }
  }

  /** Plans from `first` on are the grid containers of these variants. */
  ghost predicate GridPlansFrom(m: Manifest, plans: seq<Plan>, first: nat, variants: seq<string>) {
    && first + |variants| == |plans|
    && forall k :: 0 <= k < |variants| ==>
         plans[first + k] == GridPlan(m, variants[k], k + 1) && plans[first + k].template in EXTERNAL
  }

  lemma GridPlansAre(m: Manifest, prof: Profile, r: Resolution, plans: seq<Plan>)
    requires ContainerPlans(m, prof, r) == Ok(plans) && ProfileShaped(m, prof)
    ensures GridVariants(prof, r.gridCount).Ok? && GridPlansFrom(m, plans, r.computeCount, GridVariants(prof, r.gridCount).value)
  {
    forall k | r.computeCount <= k < |plans| ensures plans[k].template in EXTERNAL {
      PlanTemplate(m, prof, r, plans, k);
    }
  }

  lemma {:induction false} BlocksFromPlans(m: Manifest, plans: seq<Plan>, first: nat, variants: seq<string>)
    requires GridPlansFrom(m, plans, first, variants)
    ensures GridBlocks(Blocks(plans)[first..], m, variants)
  {
    var blocks := Blocks(plans)[first..];
    forall k | 0 <= k < |blocks| ensures GridBlock(blocks[k], m.Topology(GridContainer, variants[k]), k + 1) {
      BlockRealizes(plans, first + k);
    }
  }

  lemma {:induction false} GridBlocksStand(m: Manifest, prof: Profile, r: Resolution, plans: seq<Plan>)
    requires ContainerPlans(m, prof, r) == Ok(plans) && ProfileShaped(m, prof) && r.computeCount <= |plans|
    ensures GridVariants(prof, r.gridCount).Ok?
    ensures GridBlocks(Blocks(plans)[r.computeCount..], m, GridVariants(prof, r.gridCount).value)
  {
    GridPlansAre(m, prof, r, plans);
    BlocksFromPlans(m, plans, r.computeCount, GridVariants(prof, r.gridCount).value);
  }

  /** Device names of the site, for one equipment id: exactly the tags the BOM's container groups and PCS units carry. */
  lemma SiteListed(pinned: Manifest, fetched: Manifest, prof: Profile, r: Resolution, templates: Templates, plans: seq<Plan>,
                   battery: Plan, bom: BomYaml, grid: seq<ContainerGroup>, eid: string)
    requires ContainerPlans(pinned, prof, r) == Ok(plans) && BatteryPlan(r, templates) == Ok(battery)
    requires CatalogAgrees(pinned, fetched, prof, r, templates) && Carriers(templates, eid) !! EXTERNAL
    requires r.computeCount == ComputeContainerCount(r.nodeCount) && (prof.gridContainer.Some? || r.gridCount == 1)
    requires prof.ComputeVariant(r.gpu).Some? && BomOf(fetched, ComputeContainer, prof.ComputeVariant(r.gpu).value) == Ok(bom)
    requires GridGroups(fetched, prof, r.gridCount) == Ok(grid)
    ensures multiset(NamesUsing(SiteDevices(plans, battery, r), Carriers(templates, eid)))
         == multiset(Somes(ListedTags(ComputeGroups(OrderOf(r, false), bom), grid, r, templates, eid)))
  {
    var carriers, n := Carriers(templates, eid), r.computeCount;
    var compute := ComputeGroups(OrderOf(r, false), bom);
    ComputeCountWithin(pinned, prof, r, plans);
    assert multiset(NamesUsing(Flat(Blocks(plans)[..n]), carriers)) == multiset(Somes(AllGroupTags(compute, eid))) by {
      var v := Met(pinned, fetched, ComputeContainer, prof.ComputeVariant(r.gpu).value);
      ComputeBlocksStand(pinned, prof, r, plans);
      ComputeNames(Blocks(plans)[..n], v, templates, OrderOf(r, false), eid);
    }
    assert multiset(NamesUsing(Flat(Blocks(plans)[n..]), carriers)) == multiset(Somes(AllGroupTags(grid, eid))) by {
      GridBlocksStand(pinned, prof, r, plans);
      GridNames(Blocks(plans)[n..], pinned, fetched, prof, templates, r.gridCount, grid, eid);
    }
    BlockOfRealizes(AllNames(plans), battery);
    PadNamesAre(BlockOf(AllNames(plans), battery), r, templates, eid);
    SiteNamesSplit(plans, battery, r, n, carriers);
    SomesAppend(AllGroupTags(compute, eid), AllGroupTags(grid, eid));
    SomesAppend(AllGroupTags(compute, eid) + AllGroupTags(grid, eid), if "pcs" in carriers then PcsTags(PcsUnits(r)) else []);
  }
}
