/** The site as blocks: each container or battery pad is one module, its leaves and its own buses,
    numbered in emission order. This is what the accumulating generator is proved to build. */
module SitePlan {
  import opened Lists
  import opened Text
  import opened Numbering
  import opened Catalog
  import opened Dtm

  datatype Leaf = Leaf(template: string, name: Option<string>, connection: Option<Connection>, capacityKwh: Option<real>)

  /** A block before ids are assigned. */
  datatype Plan = Plan(tag: string, template: string, leaves: seq<Leaf>, buses: seq<BusSpec>)

  datatype Block = Block(root: Device, leaves: seq<Device>, buses: seq<Bus>)

  function LeafTemplates(leaves: seq<Leaf>): seq<string> { Map((l: Leaf) => l.template, leaves) }

  function BusNames(buses: seq<BusSpec>): seq<string> { Map((b: BusSpec) => b.busId, buses) }

  /** Names numbered for a block, in the order assign_slug is asked for them. */
  function Names(p: Plan): seq<string> {
    [p.template] + LeafTemplates(p.leaves) + BusNames(p.buses)
  }

  function AllNames(plans: seq<Plan>): seq<string> {
    if plans == [] then [] else AllNames(plans[..|plans| - 1]) + Names(plans[|plans| - 1])
  }

  function Members(ids: seq<string>, port: Option<string>): seq<BusMember> {
    Map((id: string) => BusMember(id, port), ids)
  }

  /** Template-pattern members become the ids of this block's devices. */
  function ExpandMembers(specs: seq<MemberSpec>, leaves: seq<Device>): seq<BusMember> {
    if specs == [] then []
    else
      var s := specs[|specs| - 1];
      ExpandMembers(specs[..|specs| - 1], leaves) + Members(IdsOf(leaves, s.template), s.port)
  }

  function LeafDevices(leaves: seq<Leaf>, ids: seq<string>, parent: string): (r: seq<Device>)
    requires |leaves| == |ids|
    ensures |r| == |leaves|
  {
    seq(|leaves|, i requires 0 <= i < |leaves| =>
      Device(ids[i], leaves[i].template, leaves[i].name, Some(parent), leaves[i].connection, leaves[i].capacityKwh))
  }

  function ExpandBuses(specs: seq<BusSpec>, ids: seq<string>, leaves: seq<Device>): (r: seq<Bus>)
    requires |specs| == |ids|
    ensures |r| == |specs|
  {
    seq(|specs|, j requires 0 <= j < |specs| =>
      Bus(ids[j], specs[j].kind, ExpandMembers(specs[j].members, leaves)))
  }

  /** Blocks number from where the site stands: `issued` are the names numbered so far. */
  function BlockOf(issued: seq<string>, p: Plan): Block {
    var ids := Ids(issued, Names(p));
    var n := 1 + |p.leaves|;
    var leaves := LeafDevices(p.leaves, ids[1..n], ids[0]);
    Block(Device(ids[0], p.template, Some(p.tag), None, None, None), leaves, ExpandBuses(p.buses, ids[n..], leaves))
  }

  function Blocks(plans: seq<Plan>): (r: seq<Block>)
    ensures |r| == |plans|
  {
    if plans == [] then []
    else
      var init := plans[..|plans| - 1];
      Blocks(init) + [BlockOf(AllNames(init), plans[|plans| - 1])]
  }

  function BlockDevices(b: Block): seq<Device> { [b.root] + b.leaves }

  function Flat(blocks: seq<Block>): seq<Device> {
    if blocks == [] then [] else Flat(blocks[..|blocks| - 1]) + BlockDevices(blocks[|blocks| - 1])
  }

  function FlatBuses(blocks: seq<Block>): seq<Bus> {
    if blocks == [] then [] else FlatBuses(blocks[..|blocks| - 1]) + blocks[|blocks| - 1].buses
  }

  function BusIds(buses: seq<Bus>): seq<string> { Map((b: Bus) => b.id, buses) }

  lemma {:induction false} BlocksSnoc(plans: seq<Plan>, p: Plan)
    ensures Blocks(plans + [p]) == Blocks(plans) + [BlockOf(AllNames(plans), p)]
    ensures AllNames(plans + [p]) == AllNames(plans) + Names(p)
  {
    assert (plans + [p])[..|plans|] == plans;
  }

  lemma {:induction false} FlatSnoc(blocks: seq<Block>, b: Block)
    ensures Flat(blocks + [b]) == Flat(blocks) + BlockDevices(b)
    ensures FlatBuses(blocks + [b]) == FlatBuses(blocks) + b.buses
  {
    assert (blocks + [b])[..|blocks|] == blocks;
  }

  lemma {:induction false} BlockAt(plans: seq<Plan>, k: nat)
    requires k < |plans|
    ensures Blocks(plans)[k] == BlockOf(AllNames(plans[..k]), plans[k])
  {
    var init := plans[..|plans| - 1];
    if k < |init| {
      BlockAt(init, k);
      assert init[..k] == plans[..k];
      assert Blocks(plans)[k] == Blocks(init)[k];
    }
  }

  /** A block's ids are exactly the ids issued for its names: module, leaves, then buses. */
  lemma {:induction false} BlockIds(issued: seq<string>, p: Plan)
    ensures var b := BlockOf(issued, p);
            DeviceIds(BlockDevices(b)) + BusIds(b.buses) == Ids(issued, Names(p))
  {
    var b := BlockOf(issued, p);
    assert |Names(p)| == 1 + |p.leaves| + |p.buses|;
  }

  lemma {:induction false} IssuedGrows(plans: seq<Plan>, j: nat) returns (rest: seq<string>)
    requires j <= |plans|
    ensures AllNames(plans) == AllNames(plans[..j]) + rest
  {
    if j == |plans| {
      rest := [];
      assert plans[..j] == plans;
    } else {
      var init := plans[..|plans| - 1];
      rest := IssuedGrows(init, j);
      assert init[..j] == plans[..j];
      assert AllNames(plans) == AllNames(plans[..j]) + (rest + Names(plans[|plans| - 1]));
      rest := rest + Names(plans[|plans| - 1]);
    }
  }

  lemma IssuedIdsGrow(plans: seq<Plan>, j: nat, k: nat, id: string)
    requires j <= k <= |plans| && id in Ids([], AllNames(plans[..j]))
    ensures id in Ids([], AllNames(plans[..k]))
  {
    var rest := IssuedGrows(plans[..k], j);
    assert plans[..k][..j] == plans[..j];
    IdsAppend([], AllNames(plans[..j]), rest);
  }

  /** Ids of the k-th block: distinct, never issued before it, issued after it. */
  lemma BlockIdsFresh(plans: seq<Plan>, k: nat)
    requires k < |plans|
    ensures var own := Ids(AllNames(plans[..k]), Names(plans[k]));
            && Distinct(own)
            && (forall id :: id in own ==> id !in Ids([], AllNames(plans[..k])))
            && (forall id :: id in own ==> id in Ids([], AllNames(plans[..k + 1])))
  {
    var before, names := AllNames(plans[..k]), Names(plans[k]);
    assert plans[..k + 1][..k] == plans[..k];
    IdsAppend([], before, names);
    assert [] + before == before;
    var all, a, own := Ids([], before + names), Ids([], before), Ids(before, names);
    IdsDistinct(before + names);
    assert all == a + own;
    DistinctParts(a, own);
  }

  lemma {:induction false} BlockDeviceIdIssued(plans: seq<Plan>, k: nat, d: Device)
    requires k < |plans| && d in BlockDevices(Blocks(plans)[k])
    ensures d.id in Ids(AllNames(plans[..k]), Names(plans[k]))
  {
    BlockAt(plans, k);
    BlockIds(AllNames(plans[..k]), plans[k]);
    DeviceIdsMember(BlockDevices(Blocks(plans)[k]), d.id);
  }

  /** Devices of different blocks never share an id. */
  lemma {:induction false} BlocksIdsDiffer(plans: seq<Plan>, i: nat, j: nat, d: Device, e: Device)
    requires i < j < |plans|
    requires d in BlockDevices(Blocks(plans)[i]) && e in BlockDevices(Blocks(plans)[j])
    ensures d.id != e.id
  {
    BlockDeviceIdIssued(plans, i, d);
    BlockDeviceIdIssued(plans, j, e);
    BlockIdsFresh(plans, i);
    BlockIdsFresh(plans, j);
    IssuedIdsGrow(plans, i + 1, j, d.id);
  }

  lemma {:induction false} FlatMember(blocks: seq<Block>, d: Device)
    ensures d in Flat(blocks) <==> exists k :: 0 <= k < |blocks| && d in BlockDevices(blocks[k])
  {
    if blocks != [] {
      var last := |blocks| - 1;
      FlatMember(blocks[..last], d);
      if d in Flat(blocks[..last]) {
        var k :| 0 <= k < last && d in BlockDevices(blocks[..last][k]);
        assert blocks[k] == blocks[..last][k];
      }
      if k :| 0 <= k < last && d in BlockDevices(blocks[k]) {
        assert d in BlockDevices(blocks[..last][k]);
      }
    }
  }

  lemma {:induction false} FlatBusesMember(blocks: seq<Block>, b: Bus)
    ensures b in FlatBuses(blocks) <==> exists k :: 0 <= k < |blocks| && b in blocks[k].buses
  {
    if blocks != [] {
      var last := |blocks| - 1;
      FlatBusesMember(blocks[..last], b);
      assert forall k :: 0 <= k < last ==> blocks[..last][k] == blocks[k];
    }
  }

  /** All device ids and bus ids of the site, taken together, are distinct issued ids. */
  ghost predicate AllIdsDistinct(devices: seq<Device>, buses: seq<Bus>) {
    && Distinct(DeviceIds(devices))
    && Distinct(BusIds(buses))
    && (forall id :: id in DeviceIds(devices) ==> id !in BusIds(buses))
  }

  ghost predicate IdsWithin(devices: seq<Device>, buses: seq<Bus>, ids: seq<string>) {
    && (forall id :: id in DeviceIds(devices) ==> id in ids)
    && (forall id :: id in BusIds(buses) ==> id in ids)
  }

  lemma {:induction false} SiteIdsIssued(plans: seq<Plan>)
    ensures AllIdsDistinct(Flat(Blocks(plans)), FlatBuses(Blocks(plans)))
    ensures IdsWithin(Flat(Blocks(plans)), FlatBuses(Blocks(plans)), Ids([], AllNames(plans)))
  {
    if plans != [] {
      var last := |plans| - 1;
      var init, p := plans[..last], plans[last];
      SiteIdsIssued(init);
      var b := BlockOf(AllNames(init), p);
      BlockIds(AllNames(init), p);
      BlockIdsFresh(plans, last);
      assert plans[..last + 1] == plans == init + [p];
      IssuedIdsGrowAll(plans, last);
      BlocksSnoc(init, p);
      FlatSnoc(Blocks(init), b);
      AddBlock(Flat(Blocks(init)), FlatBuses(Blocks(init)), b, Ids([], AllNames(init)), Ids([], AllNames(plans)));
    }
  }

  lemma {:induction false} IssuedIdsGrowAll(plans: seq<Plan>, j: nat)
    requires j <= |plans|
    ensures forall id :: id in Ids([], AllNames(plans[..j])) ==> id in Ids([], AllNames(plans))
  {
    assert plans[..|plans|] == plans;
    forall id | id in Ids([], AllNames(plans[..j])) ensures id in Ids([], AllNames(plans)) {
      IssuedIdsGrow(plans, j, |plans|, id);
    }
  }

  lemma AddBlock(devices: seq<Device>, buses: seq<Bus>, b: Block, before: seq<string>, after: seq<string>)
    requires AllIdsDistinct(devices, buses) && IdsWithin(devices, buses, before)
    requires Distinct(DeviceIds(BlockDevices(b)) + BusIds(b.buses))
    requires forall id :: id in DeviceIds(BlockDevices(b)) + BusIds(b.buses) ==> id !in before && id in after
    requires forall id :: id in before ==> id in after
    ensures AllIdsDistinct(devices + BlockDevices(b), buses + b.buses)
    ensures IdsWithin(devices + BlockDevices(b), buses + b.buses, after)
  {
    var d1, b1 := DeviceIds(BlockDevices(b)), BusIds(b.buses);
    assert DeviceIds(devices + BlockDevices(b)) == DeviceIds(devices) + d1;
    assert BusIds(buses + b.buses) == BusIds(buses) + b1;
    DistinctParts(d1, b1);
    DistinctPrefix(d1, b1);
    DistinctAppend(DeviceIds(devices), d1);
    DistinctAppend(BusIds(buses), b1);
  }
}
