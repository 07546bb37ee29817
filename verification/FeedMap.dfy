/** The feed map told twice: by the LV buses of the DTM and by the feeders of the cable schedule. */
module FeedMap {
  import opened Lists
  import opened Text
  import opened Catalog
  import opened ComputeNodes
  import opened ComputeFeeds
  import opened Dtm
  import opened SitePlan
  import opened DtmSpec
  import opened DtmSoundness
  import opened SiteNames
  import opened SiteShape
  import opened SiteIndex
  import opened Sorting
  import opened Cabling
  import opened PowerCables

  /** One LV bus has this switchboard feeding out and this module taking AC in. */
  ghost predicate JoinsBoth(b: Bus, swbd: string, root: string) {
    BusMember(swbd, Some("feeder_out")) in b.members && BusMember(root, Some("ac_in")) in b.members
  }

  ghost predicate Joins(buses: seq<Bus>, swbd: string, root: string) {
    exists b :: b in buses && JoinsBoth(b, swbd, root)
  }

  function SwitchboardId(grid: Block): string {
    var ids := IdsOf(BlockDevices(grid), "lv_switchboard");
    if ids == [] then "" else ids[0]
  }

  // ----- the DTM side -----

  lemma LvBusMembers(bus: Bus, xfmr: string, swbd: string, modules: seq<string>, id: string)
    requires bus == LvBus(bus.id, xfmr, swbd, modules)
    ensures BusMember(id, Some("feeder_out")) in bus.members <==> id == swbd
    ensures BusMember(id, Some("ac_in")) in bus.members <==> id in modules
  {
    var members := Members(modules, Some("ac_in"));
    if id in modules {
      var i :| 0 <= i < |modules| && modules[i] == id;
      assert members[i] == BusMember(id, Some("ac_in"));
    }
  }

  lemma FedIdsIff(ids: seq<string>, blocks: seq<Block>, fed: seq<int>, n: nat)
    requires FedIds(ids, blocks, fed) && WellFormedBlocks(blocks) && 1 <= n <= |blocks|
    ensures blocks[n - 1].root.id in ids <==> n in fed
  {
    if n in fed {
      var i :| 0 <= i < |fed| && fed[i] == n;
      assert ids[i] == blocks[n - 1].root.id;
    }
    if blocks[n - 1].root.id in ids {
      var i :| 0 <= i < |ids| && ids[i] == blocks[n - 1].root.id;
      assert fed[i] - 1 == n - 1;
    }
  }

  lemma FeedBusJoinsIff(bus: Bus, grid: Block, blocks: seq<Block>, fed: seq<int>, swbd: string, n: nat)
    requires FeedBus(bus, grid, blocks, fed) && WellFormedBlocks(blocks) && 1 <= n <= |blocks|
    ensures JoinsBoth(bus, swbd, blocks[n - 1].root.id) <==> swbd == SwitchboardId(grid) && n in fed
  {
    var xfmr, own := IdsOf(BlockDevices(grid), "transformer")[0], IdsOf(BlockDevices(grid), "lv_switchboard")[0];
    var ids :| FedIds(ids, blocks, fed) && bus == LvBus(bus.id, xfmr, own, ids);
    FedIdsIff(ids, blocks, fed, n);
    LvBusMembers(bus, xfmr, own, ids, swbd);
    LvBusMembers(bus, xfmr, own, ids, blocks[n - 1].root.id);
  }

  /** Each LV bus is its grid container's feed, and no two grid containers share a switchboard. */
  ghost predicate FeedBuses(lv: seq<Bus>, blocks: seq<Block>, first: nat, feeds: seq<seq<int>>) {
    && |lv| == |feeds| && |blocks| == first + |feeds|
    && (forall k :: 0 <= k < |lv| ==> FeedBus(lv[k], blocks[first + k], blocks, feeds[k]))
    && (forall i, j :: first <= i < j < |blocks| ==> SwitchboardId(blocks[i]) != SwitchboardId(blocks[j]))
  }

  lemma LvJoinsIff(lv: seq<Bus>, blocks: seq<Block>, first: nat, feeds: seq<seq<int>>, k: nat, n: nat)
    requires FeedBuses(lv, blocks, first, feeds) && WellFormedBlocks(blocks) && k < |feeds| && 1 <= n <= |blocks|
    ensures Joins(lv, SwitchboardId(blocks[first + k]), blocks[n - 1].root.id) <==> n in feeds[k]
  {
    var swbd, root := SwitchboardId(blocks[first + k]), blocks[n - 1].root.id;
    if n in feeds[k] {
      FeedBusJoinsIff(lv[k], blocks[first + k], blocks, feeds[k], swbd, n);
      assert lv[k] in lv && JoinsBoth(lv[k], swbd, root);
    }
    if Joins(lv, swbd, root) {
      var b :| b in lv && JoinsBoth(b, swbd, root);
      var j :| 0 <= j < |lv| && lv[j] == b;
      FeedBusJoinsIff(lv[j], blocks[first + j], blocks, feeds[j], swbd, n);
      assert first + j == first + k;
    }
  }

  lemma {:induction false} LeafIsNotOwnModule(plans: seq<Plan>, k: nat, d: Device)
    requires k < |plans| && d in Blocks(plans)[k].leaves
    ensures d.id != Blocks(plans)[k].root.id
  {
    BlockIdsFresh(plans, k);
    BlockAt(plans, k);
    BlockIds(AllNames(plans[..k]), plans[k]);
    DistinctPrefix(DeviceIds(BlockDevices(Blocks(plans)[k])), BusIds(Blocks(plans)[k].buses));
    var i :| 0 <= i < |Blocks(plans)[k].leaves| && Blocks(plans)[k].leaves[i] == d;
    assert DeviceIds(BlockDevices(Blocks(plans)[k]))[i + 1] == d.id;
  }

  lemma {:induction false} LeafIsNotModule(plans: seq<Plan>, k: nat, d: Device, n: nat)
    requires k < |plans| && n < |plans| && d in Blocks(plans)[k].leaves
    ensures d.id != Blocks(plans)[n].root.id
  {
    var root := Blocks(plans)[n].root;
    assert d in BlockDevices(Blocks(plans)[k]) && root in BlockDevices(Blocks(plans)[n]);
    if k < n {
      BlocksIdsDiffer(plans, k, n, d, root);
    } else if n < k {
      BlocksIdsDiffer(plans, n, k, root, d);
    } else {
      LeafIsNotOwnModule(plans, k, d);
    }
  }

  lemma {:induction false} ContainerBusJoinsNoModule(plans: seq<Plan>, bus: Bus, swbd: string, n: nat)
    requires n < |plans| && bus in FlatBuses(Blocks(plans))
    ensures !JoinsBoth(bus, swbd, Blocks(plans)[n].root.id)
  {
    var root := Blocks(plans)[n].root.id;
    if JoinsBoth(bus, swbd, root) {
      var member := BusMember(root, Some("ac_in"));
      FlatBusesMember(Blocks(plans), bus);
      var k :| 0 <= k < |Blocks(plans)| && bus in Blocks(plans)[k].buses;
      ContainerBusesLocal(plans, k, bus, member);
      DeviceIdsMember(Blocks(plans)[k].leaves, root);
      var d :| d in Blocks(plans)[k].leaves && d.id == root;
      LeafIsNotModule(plans, k, d, n);
    }
  }

  /** Of all the buses of a site, only LV buses join a switchboard to a compute module. */
  lemma {:induction false} OnlyLvJoins(plans: seq<Plan>, id: string, containers: seq<Device>, battery: string, lv: seq<Bus>, swbd: string, n: nat)
    requires n < |plans|
    ensures Joins(FlatBuses(Blocks(plans)) + ([SiteBusOf(id, containers, battery)] + lv), swbd, Blocks(plans)[n].root.id)
            <==> Joins(lv, swbd, Blocks(plans)[n].root.id)
  {
    var root, site := Blocks(plans)[n].root.id, SiteBusOf(id, containers, battery);
    var all := FlatBuses(Blocks(plans)) + ([site] + lv);
    assert "ac_in" != "voltage_in" && "ac_in" != "line_in" && "ac_in" != "ac_out";
    if Joins(all, swbd, root) {
      var b :| b in all && JoinsBoth(b, swbd, root);
      if b in FlatBuses(Blocks(plans)) {
        ContainerBusJoinsNoModule(plans, b, swbd, n);
      }
      assert b in lv;
    }
    if Joins(lv, swbd, root) {
      var b :| b in lv && JoinsBoth(b, swbd, root);
      assert b in all;
    }
  }

  // ----- the schedule side -----

  lemma {:induction false} FilterKind(sites: seq<Container>, k: Kind, lo: nat, hi: nat)
    requires lo <= hi <= |sites|
    requires forall i :: 0 <= i < |sites| ==> (sites[i].kind == k <==> lo <= i < hi)
    ensures Filter(OfKind(k), sites) == sites[lo..hi]
  {
    var before, own, after := sites[..lo], sites[lo..hi], sites[hi..];
    assert sites == before + own + after;
    FilterNone(OfKind(k), before);
    FilterAll(OfKind(k), own);
    FilterNone(OfKind(k), after);
    FilterThree(OfKind(k), before, own, after);
  }

  lemma {:induction false} FilterThree(p: Container -> bool, before: seq<Container>, own: seq<Container>, after: seq<Container>)
    requires Filter(p, before) == [] && Filter(p, own) == own && Filter(p, after) == []
    ensures Filter(p, before + own + after) == own
  {
    FilterAppend(p, before + own, after);
    FilterAppend(p, before, own);
  }

  lemma {:induction false} KindsInOrder(sites: seq<Container>, computeCount: nat)
    requires Ordered(sites, computeCount)
    ensures Filter(OfKind(Compute), sites) == sites[..computeCount]
    ensures Filter(OfKind(Grid), sites) == sites[computeCount..|sites| - 1]
  {
    FilterKind(sites, Compute, 0, computeCount);
    FilterKind(sites, Grid, computeCount, |sites| - 1);
  }

  lemma {:induction false} PadsHaveNoFeeder(pads: seq<Container>, c: Cable)
    requires c in AllPads(pads)
    ensures c.service != Feeder
  {
    if c in AllPads(pads[..|pads| - 1]) {
      PadsHaveNoFeeder(pads[..|pads| - 1], c);
    }
  }

  lemma {:induction false} NodeFeedsNoFeeder(nodes: seq<Device>, a: seq<Device>, b: seq<Device>, c: Cable)
    requires c in NodeFeeds(nodes, a, b)
    ensures c.service != Feeder
  {
    if c in NodeFeeds(nodes[..|nodes| - 1], a, b) {
      NodeFeedsNoFeeder(nodes[..|nodes| - 1], a, b, c);
    }
  }

  lemma {:induction false} SwitchFeedsNoFeeder(switches: seq<Device>, a: seq<Device>, b: seq<Device>, c: Cable)
    requires c in SwitchFeeds(switches, a, b)
    ensures c.service != Feeder
  {
    if c in SwitchFeeds(switches[..|switches| - 1], a, b) {
      SwitchFeedsNoFeeder(switches[..|switches| - 1], a, b, c);
    }
  }

  lemma BranchHasNoFeeder(own: Container, c: Cable)
    requires c in Branches(own)
    ensures c.service != Feeder
  {
    assert c in PanelRuns(own) ==> c.service != Feeder;
    if c in NodeFeeds(own.Of(GPU_NODES), Pdus(own, 'A'), Pdus(own, 'B')) {
      NodeFeedsNoFeeder(own.Of(GPU_NODES), Pdus(own, 'A'), Pdus(own, 'B'), c);
    } else if c in SwitchFeeds(own.Of(SWITCHES), Pdus(own, 'A'), Pdus(own, 'B')) {
      SwitchFeedsNoFeeder(own.Of(SWITCHES), Pdus(own, 'A'), Pdus(own, 'B'), c);
    }
  }

  lemma {:induction false} BranchesHaveNoFeeder(compute: seq<Container>, c: Cable)
    requires c in AllBranches(compute)
    ensures c.service != Feeder
  {
    var last := |compute| - 1;
    if c in AllBranches(compute[..last]) {
      BranchesHaveNoFeeder(compute[..last], c);
    } else {
      BranchHasNoFeeder(compute[last], c);
    }
  }

  /** Feeders of the sheet are exactly the feeders of its first part. */
  lemma {:induction false} SheetFeeders(a: seq<Cable>, pads: seq<Container>, compute: seq<Container>, swbd: Device, pnl: Device)
    ensures HasFeeder(a + AllPads(pads) + AllBranches(compute), swbd, pnl) <==> HasFeeder(a, swbd, pnl)
  {
    var all := a + AllPads(pads) + AllBranches(compute);
    if HasFeeder(all, swbd, pnl) {
      var c :| c in all && c.service == Feeder && c.fromTag == Tag(swbd) && c.toTag == Tag(pnl);
      if c in AllPads(pads) {
        PadsHaveNoFeeder(pads, c);
      } else if c in AllBranches(compute) {
        BranchesHaveNoFeeder(compute, c);
      }
    }
    if HasFeeder(a, swbd, pnl) {
      var c :| c in a && c.service == Feeder && c.fromTag == Tag(swbd) && c.toTag == Tag(pnl);
      assert c in all;
    }
  }

  lemma {:induction false} PartsFeederIff(compute: seq<Container>, grids: seq<Container>, pads: seq<Container>, k: nat, n: nat)
    requires GearTagged(grids, compute) && k < |grids| && 1 <= n <= |compute|
    ensures AllInRange(Feeds(|compute|, |grids|), compute)
    ensures HasFeeder(GridFeeders(grids, compute, Feeds(|compute|, |grids|)) + AllPads(pads) + AllBranches(compute),
                      Switchboard(grids[k]).value, Panelboard(compute[n - 1]).value)
            <==> n in Feeds(|compute|, |grids|)[k]
  {
    FeedsInRange(compute, |grids|);
    FeederIff(grids, compute, Feeds(|compute|, |grids|), k, n);
    SheetFeeders(GridFeeders(grids, compute, Feeds(|compute|, |grids|)), pads, compute,
                 Switchboard(grids[k]).value, Panelboard(compute[n - 1]).value);
  }

  lemma {:induction false} SheetIff(sites: seq<Container>, compute: seq<Container>, grids: seq<Container>, k: nat, n: nat)
    requires compute == Filter(OfKind(Compute), sites) && grids == Filter(OfKind(Grid), sites)
    requires GearTagged(grids, compute) && k < |grids| && 1 <= n <= |compute|
    ensures PowerSheet(sites).Ok?
    ensures HasFeeder(PowerSheet(sites).value, Switchboard(grids[k]).value, Panelboard(compute[n - 1]).value)
            <==> n in Feeds(|compute|, |grids|)[k]
  {
    PartsFeederIff(compute, grids, Filter(OfKind(Bess), sites), k, n);
    assert PowerSheet(sites).value == GridFeeders(grids, compute, Feeds(|compute|, |grids|))
                                      + AllPads(Filter(OfKind(Bess), sites)) + AllBranches(compute);
  }

  /** On ordered sites the sheet has a feeder Gk to Cn exactly when Gk feeds Cn. */
  lemma SheetFeederIff(sites: seq<Container>, compute: seq<Container>, grids: seq<Container>, k: nat, n: nat)
    requires Ordered(sites, |compute|)
    requires compute == sites[..|compute|] && grids == sites[|compute|..|sites| - 1]
    requires GearTagged(grids, compute) && k < |grids| && 1 <= n <= |compute|
    ensures PowerSheet(sites).Ok?
    ensures HasFeeder(PowerSheet(sites).value, Switchboard(grids[k]).value, Panelboard(compute[n - 1]).value)
            <==> n in Feeds(|compute|, |grids|)[k]
  {
    KindsInOrder(sites, |compute|);
    SheetIff(sites, compute, grids, k, n);
  }
}
