/** The DTM read back as containers, the way the cable schedule sees it. */
module SiteIndex {
  import opened Lists
  import opened Text
  import opened Catalog
  import opened ComputeNodes
  import opened Dtm
  import opened SitePlan
  import opened DtmSpec
  import opened DtmSoundness
  import opened SiteNames
  import opened SiteShape
  import opened Sorting

  datatype Kind = Compute | Grid | Bess

  datatype Container = Container(tag: string, kind: Kind, devices: seq<Device>) {
    /** Children using any of these templates, in tag order. */
    function Of(templates: set<string>): seq<Device> { Filter(UsesOneOf(templates), devices) }

    /** The first child using any of these templates. */
    function One(templates: set<string>): Option<Device> {
      if Of(templates) == [] then None else Some(Of(templates)[0])
    }
  }

  function UsesOneOf(templates: set<string>): Device -> bool { (d: Device) => d.template in templates }

  function IsChildOf(id: string): Device -> bool { (d: Device) => d.parent == Some(id) }

  /** Site tag, or the device id where the DTM carries none. */
  function Tag(d: Device): string {
    if d.displayName.Some? && d.displayName.value != "" then d.displayName.value else d.id
  }

  function KindOf(template: string): Option<Kind> {
    if template == "compute_module" || template == "compute_module_h100" then Some(Compute)
    else if template == "bess_module" || template == "bess_module_dc" then Some(Bess)
    else if template == "grid_module" then Some(Grid) else None
  }

  function Rank(k: Kind): int { match k case Compute => 0 case Grid => 1 case Bess => 2 }

  /** C10 sorts after C9: text before the trailing number, then the number. */
  function Natural(text: string): (string, nat) {
    var k := NumStart(text);
    (text[..k], Num(text[k..]))
  }

  predicate NaturalLe(a: (string, nat), b: (string, nat)) {
    if a.0 == b.0 then a.1 <= b.1 else StrLe(a.0, b.0)
  }

  function ChildLe(): (Device, Device) -> bool { (a: Device, b: Device) => NaturalLe(Natural(Tag(a)), Natural(Tag(b))) }

  function ContainerLe(): (Container, Container) -> bool {
    (a: Container, b: Container) =>
      Rank(a.kind) < Rank(b.kind) || (a.kind == b.kind && NaturalLe(Natural(a.tag), Natural(b.tag)))
  }

  function ContainerFor(root: Device, kind: Kind, all: seq<Device>): Container {
    Container(Tag(root), kind, Sort(Filter(IsChildOf(root.id), all), ChildLe()))
  }

  function Entry(d: Device, all: seq<Device>): seq<Container> {
    if d.parent.Some? || KindOf(d.template).None? then [] else [ContainerFor(d, KindOf(d.template).value, all)]
  }

  /** Modules in DTM order, each with its children. */
  function Found(devices: seq<Device>, all: seq<Device>): seq<Container> {
    if devices == [] then []
    else Found(devices[..|devices| - 1], all) + Entry(devices[|devices| - 1], all)
  }

  function Containers(devices: seq<Device>): seq<Container> { Sort(Found(devices, devices), ContainerLe()) }

  /** containers(dtm), as the loop runs. */
  method CollectContainers(devices: seq<Device>) returns (sites: seq<Container>)
    ensures sites == Containers(devices)
  {
    var found: seq<Container> := [];
    for i := 0 to |devices|
      invariant found == Found(devices[..i], devices)
    {
      var root := devices[i];
      assert devices[..i + 1][..i] == devices[..i];
      if root.parent.None? {
        var kind := KindOf(root.template);
        if kind.Some? {
          var children := Sort(Filter(IsChildOf(root.id), devices), ChildLe());
          found := found + [Container(Tag(root), kind.value, children)];
        }
      }
    }
    assert devices[..|devices|] == devices;
    sites := Sort(found, ContainerLe());
  }

  // ----- reading back a generated site -----

  lemma {:induction false} FoundAppend(a: seq<Device>, b: seq<Device>, all: seq<Device>)
    ensures Found(a + b, all) == Found(a, all) + Found(b, all)
  {
    if b == [] {
      assert a + b == a;
    } else {
      var init, d := b[..|b| - 1], b[|b| - 1];
      FoundAppend(a, init, all);
      assert (a + b)[..|a + b| - 1] == a + init && (a + b)[|a + b| - 1] == d;
      Regroup3(Found(a, all), Found(init, all), Entry(d, all));
    }
  }

  lemma {:induction false} FoundNothing(devices: seq<Device>, all: seq<Device>)
    requires forall i :: 0 <= i < |devices| ==> devices[i].parent.Some? || KindOf(devices[i].template).None?
    ensures Found(devices, all) == []
  {
    if devices != [] {
      FoundNothing(devices[..|devices| - 1], all);
    }
  }

  ghost predicate IsBlock(b: Block) {
    b.root.parent.None? && forall i :: 0 <= i < |b.leaves| ==> b.leaves[i].parent == Some(b.root.id)
  }

  /** Modules on top, leaves under their own module, no module id used twice. */
  ghost predicate WellFormedBlocks(blocks: seq<Block>) {
    && (forall k :: 0 <= k < |blocks| ==> IsBlock(blocks[k]))
    && (forall i, j :: 0 <= i < j < |blocks| ==> blocks[i].root.id != blocks[j].root.id)
  }

  lemma {:induction false} SiteBlocks(plans: seq<Plan>)
    ensures WellFormedBlocks(Blocks(plans))
  {
    var blocks := Blocks(plans);
    forall k | 0 <= k < |blocks| ensures IsBlock(blocks[k]) {
      BlockRealizes(plans, k);
    }
    forall i, j | 0 <= i < j < |blocks| ensures blocks[i].root.id != blocks[j].root.id {
      assert blocks[i].root in BlockDevices(blocks[i]) && blocks[j].root in BlockDevices(blocks[j]);
      BlocksIdsDiffer(plans, i, j, blocks[i].root, blocks[j].root);
    }
  }

  lemma {:induction false} FlatAppend(a: seq<Block>, b: seq<Block>)
    ensures Flat(a + b) == Flat(a) + Flat(b)
  {
    if b == [] {
      assert a + b == a;
    } else {
      assert (a + b)[..|a + b| - 1] == a + b[..|b| - 1];
      FlatAppend(a, b[..|b| - 1]);
    }
  }

  lemma {:induction false} ChildrenElsewhere(blocks: seq<Block>, id: string)
    requires forall k :: 0 <= k < |blocks| ==> IsBlock(blocks[k]) && blocks[k].root.id != id
    ensures Filter(IsChildOf(id), Flat(blocks)) == []
  {
    forall i | 0 <= i < |Flat(blocks)| ensures !IsChildOf(id)(Flat(blocks)[i]) {
      FlatMember(blocks, Flat(blocks)[i]);
      var j :| 0 <= j < |blocks| && Flat(blocks)[i] in BlockDevices(blocks[j]);
      assert IsBlock(blocks[j]);
    }
    FilterNone(IsChildOf(id), Flat(blocks));
  }

  lemma OwnChildren(b: Block)
    requires IsBlock(b)
    ensures Filter(IsChildOf(b.root.id), BlockDevices(b)) == b.leaves
  {
    FilterAppend(IsChildOf(b.root.id), [b.root], b.leaves);
    FilterNone(IsChildOf(b.root.id), [b.root]);
    FilterAll(IsChildOf(b.root.id), b.leaves);
  }

  lemma {:induction false} ChildrenAmong(before: seq<Block>, b: Block, after: seq<Block>, utility: seq<Device>)
    requires IsBlock(b) && forall i :: 0 <= i < |utility| ==> utility[i].parent.None?
    requires forall k :: 0 <= k < |before| ==> IsBlock(before[k]) && before[k].root.id != b.root.id
    requires forall k :: 0 <= k < |after| ==> IsBlock(after[k]) && after[k].root.id != b.root.id
    ensures Filter(IsChildOf(b.root.id), Flat(before) + BlockDevices(b) + Flat(after) + utility) == b.leaves
  {
    var p := IsChildOf(b.root.id);
    FilterAppend(p, Flat(before) + BlockDevices(b) + Flat(after), utility);
    FilterAppend(p, Flat(before) + BlockDevices(b), Flat(after));
    FilterAppend(p, Flat(before), BlockDevices(b));
    ChildrenElsewhere(before, b.root.id);
    ChildrenElsewhere(after, b.root.id);
    OwnChildren(b);
    FilterNone(p, utility);
  }

  lemma {:induction false} FlatAround(blocks: seq<Block>, k: nat)
    requires k < |blocks|
    ensures Flat(blocks) == Flat(blocks[..k]) + BlockDevices(blocks[k]) + Flat(blocks[k + 1..])
  {
    assert blocks == (blocks[..k] + [blocks[k]]) + blocks[k + 1..];
    FlatAppend(blocks[..k] + [blocks[k]], blocks[k + 1..]);
    FlatSnoc(blocks[..k], blocks[k]);
  }

  /** Picking a roots children out of the whole site gives back exactly its block, in emission order. */
  lemma {:induction false} ChildrenOfBlock(blocks: seq<Block>, k: nat, utility: seq<Device>)
    requires WellFormedBlocks(blocks) && k < |blocks| && NoKind(utility)
    ensures Filter(IsChildOf(blocks[k].root.id), Flat(blocks) + utility) == blocks[k].leaves
  {
    FlatAround(blocks, k);
    ChildrenAmong(blocks[..k], blocks[k], blocks[k + 1..], utility);
  }

  ghost predicate NoKind(utility: seq<Device>) {
    forall i :: 0 <= i < |utility| ==> utility[i].parent.None? && KindOf(utility[i].template).None?
  }

  ghost predicate BlocksKinded(blocks: seq<Block>) {
    forall k :: 0 <= k < |blocks| ==> KindOf(blocks[k].root.template).Some?
  }

  /** What a block reads back as. */
  function SiteContainer(b: Block): Container
    requires KindOf(b.root.template).Some?
  {
    Container(Tag(b.root), KindOf(b.root.template).value, Sort(b.leaves, ChildLe()))
  }

  /** The containers a site reads back as, in emission order. */
  function SiteContainers(blocks: seq<Block>): (r: seq<Container>)
    requires BlocksKinded(blocks)
    ensures |r| == |blocks|
  {
    seq(|blocks|, k requires 0 <= k < |blocks| => SiteContainer(blocks[k]))
  }

  lemma {:induction false} FoundBlock(b: Block, all: seq<Device>)
    requires IsBlock(b) && KindOf(b.root.template).Some?
    requires Filter(IsChildOf(b.root.id), all) == b.leaves
    ensures Found(BlockDevices(b), all) == [SiteContainer(b)]
  {
    FoundAppend([b.root], b.leaves, all);
    FoundNothing(b.leaves, all);
    assert [b.root][..0] == [];
    assert Found([b.root], all) == [] + Entry(b.root, all);
  }

  lemma {:induction false} FoundBlocks(blocks: seq<Block>, all: seq<Device>)
    requires BlocksKinded(blocks)
    requires forall k :: 0 <= k < |blocks| ==> IsBlock(blocks[k]) && Filter(IsChildOf(blocks[k].root.id), all) == blocks[k].leaves
    ensures Found(Flat(blocks), all) == SiteContainers(blocks)
  {
    if blocks != [] {
      var init, b := blocks[..|blocks| - 1], blocks[|blocks| - 1];
      SiteContainersSnoc(init, b);
      assert blocks == init + [b];
      FoundBlocks(init, all);
      FoundAppend(Flat(init), BlockDevices(b), all);
      FoundBlock(b, all);
    }
  }

  lemma SiteContainersSnoc(init: seq<Block>, b: Block)
    requires BlocksKinded(init) && KindOf(b.root.template).Some?
    ensures BlocksKinded(init + [b]) && SiteContainers(init + [b]) == SiteContainers(init) + [SiteContainer(b)]
  {
  }

  /** Before sorting, the schedule already sees the blocks in emission order. */
  lemma {:induction false} FoundSite(blocks: seq<Block>, utility: seq<Device>)
    requires WellFormedBlocks(blocks) && BlocksKinded(blocks) && NoKind(utility)
    ensures Found(Flat(blocks) + utility, Flat(blocks) + utility) == SiteContainers(blocks)
  {
    var all := Flat(blocks) + utility;
    forall k | 0 <= k < |blocks| ensures Filter(IsChildOf(blocks[k].root.id), all) == blocks[k].leaves {
      ChildrenOfBlock(blocks, k, utility);
    }
    FoundBlocks(blocks, all);
    FoundAppend(Flat(blocks), utility, all);
    FoundNothing(utility, all);
  }

  // ----- container order -----

  lemma {:induction false} NaturalOfNumbered(stem: string, n: nat)
    requires stem == "" || !IsDigit(stem[|stem| - 1])
    ensures Natural(stem + Dec(n)) == (stem, n)
  {
    NumberedReads(stem, n);
  }

  lemma TagInOrder(stem: string, n: nat, a: Container, b: Container)
    requires stem == "" || !IsDigit(stem[|stem| - 1])
    requires a.kind == b.kind && a.tag == stem + Dec(n) && b.tag == stem + Dec(n + 1)
    ensures ContainerLe()(a, b)
  {
    NaturalOfNumbered(stem, n);
    NaturalOfNumbered(stem, n + 1);
  }

  /** C1…CN, then grid containers G1…GM, then the battery. */
  ghost predicate Ordered(sites: seq<Container>, computeCount: nat) {
    && computeCount < |sites|
    && (forall k :: 0 <= k < computeCount ==> sites[k].kind == Compute && sites[k].tag == "C" + Dec(k + 1))
    && (forall k :: computeCount <= k < |sites| - 1 ==>
          sites[k].kind == Grid && sites[k].tag == "G" + Dec(k - computeCount + 1))
    && sites[|sites| - 1].kind == Bess
  }

  lemma NeighboursInOrder(sites: seq<Container>, computeCount: nat, k: nat)
    requires Ordered(sites, computeCount) && 0 < k < |sites|
    ensures ContainerLe()(sites[k - 1], sites[k])
  {
    if k < computeCount {
      TagInOrder("C", k, sites[k - 1], sites[k]);
    } else if computeCount < k < |sites| - 1 {
      TagInOrder("G", k - computeCount, sites[k - 1], sites[k]);
    }
  }

  lemma {:induction false} OrderedStays(sites: seq<Container>, computeCount: nat)
    requires Ordered(sites, computeCount)
    ensures Sort(sites, ContainerLe()) == sites
  {
    forall k | 0 < k < |sites| ensures ContainerLe()(sites[k - 1], sites[k]) {
      NeighboursInOrder(sites, computeCount, k);
    }
    SortInOrder(sites, ContainerLe());
  }

  /** `containers` lists exactly the blocks in emission order: Cn is at position n - 1, then G1…GM, then the battery. */
  lemma {:induction false} SiteReadsBack(blocks: seq<Block>, computeCount: nat, utility: seq<Device>)
    requires WellFormedBlocks(blocks) && BlocksKinded(blocks) && NoKind(utility)
    requires Ordered(SiteContainers(blocks), computeCount)
    ensures Containers(Flat(blocks) + utility) == SiteContainers(blocks)
  {
    FoundSite(blocks, utility);
    OrderedStays(SiteContainers(blocks), computeCount);
  }
}
