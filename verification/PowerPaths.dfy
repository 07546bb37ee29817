/** The power sheet of a site read backwards: what feeds each device. */
module PowerPaths {
  import opened Lists
  import opened Text
  import opened Numbering
  import opened Catalog
  import opened ComputeNodes
  import opened ComputeFeeds
  import opened Dtm
  import opened SitePlan
  import opened DtmSpec
  import opened DtmSoundness
  import opened SiteShape
  import opened SiteIndex
  import opened Sorting
  import opened Cabling
  import opened PowerCables
  import opened ManagementNetwork
  import opened DualPath
  import opened FeedMap
  import opened RunEnds

  // ----- where each part of the sheet lands -----

  lemma {:induction false} FilteredAreChildren(p: Device -> bool, devices: seq<Device>)
    ensures forall d :: d in Filter(p, devices) ==> d in devices && p(d)
  {
    forall d | d in Filter(p, devices) ensures d in devices && p(d) {
      FilterMember(p, devices, d);
    }
  }

  lemma OfAreChildren(c: Container, templates: set<string>)
    ensures forall d :: d in c.Of(templates) ==> d in c.devices && d.template in templates
  {
    FilteredAreChildren(UsesOneOf(templates), c.devices);
  }

  lemma PdusAreChildren(c: Container, side: char)
    ensures forall d :: d in Pdus(c, side) ==> d in c.devices && d.template == "pdu" && OnSide(side, d)
  {
    OfAreChildren(c, {"pdu"});
    FilteredAreChildren((d: Device) => OnSide(side, d), c.Of({"pdu"}));
  }

  lemma RunsLand(src: Device, dsts: seq<Device>, service: Service, media: string)
    ensures LandsOn(RunsFrom(src, dsts, service, media), dsts)
  {
    var runs := RunsFrom(src, dsts, service, media);
    forall i | 0 <= i < |runs| ensures runs[i].toTag in TagsOf(dsts) {
      assert TagsOf(dsts)[i] == runs[i].toTag;
    }
  }

  lemma OnPathLands(path: seq<Device>, i: nat, dst: Device, media: string, dsts: seq<Device>)
    requires dst in dsts
    ensures LandsOn(OnPath(path, i, dst, media), dsts)
  {
    TagOfMember(dsts, dst);
  }

  lemma {:induction false} NodeFeedsLand(nodes: seq<Device>, a: seq<Device>, b: seq<Device>)
    ensures LandsOn(NodeFeeds(nodes, a, b), nodes)
  {
    if nodes != [] {
      var i := |nodes| - 1;
      NodeFeedsLand(nodes[..i], a, b);
      LandsAmong(NodeFeeds(nodes[..i], a, b), nodes[..i], nodes);
      OnPathLands(a, i, nodes[i], NODE_CORD, nodes);
      OnPathLands(b, i, nodes[i], NODE_CORD, nodes);
    }
  }

  lemma {:induction false} SwitchFeedsLand(switches: seq<Device>, a: seq<Device>, b: seq<Device>)
    ensures LandsOn(SwitchFeeds(switches, a, b), switches)
  {
    if switches != [] {
      var i := |switches| - 1;
      SwitchFeedsLand(switches[..i], a, b);
      LandsAmong(SwitchFeeds(switches[..i], a, b), switches[..i], switches);
      OnPathLands(a, 0, switches[i], SWITCH_CORD, switches);
      OnPathLands(b, 0, switches[i], SWITCH_CORD, switches);
    }
  }

  /** What the panelboard feeds directly. */
  function PanelLoads(c: Container): seq<Device> { SidePdus(c) + Cooling(c) }

  function SidePdus(c: Container): seq<Device> { Pdus(c, 'A') + Pdus(c, 'B') }

  function Cooling(c: Container): seq<Device> { c.Of({"cdu"}) + c.Of(DRY_COOLERS) }

  lemma PanelLoadsAreChildren(c: Container)
    ensures forall d :: d in PanelLoads(c) ==> d in c.devices && d.template in {"pdu", "cdu"} + DRY_COOLERS
  {
    PdusAreChildren(c, 'A');
    PdusAreChildren(c, 'B');
    OfAreChildren(c, {"cdu"});
    OfAreChildren(c, DRY_COOLERS);
  }

  lemma PanelRunsLand(c: Container)
    ensures LandsOn(PanelRuns(c), PanelLoads(c))
  {
    if Panelboard(c).Some? {
      var pdus, loads := Pdus(c, 'A') + Pdus(c, 'B'), c.Of({"cdu"}) + c.Of(DRY_COOLERS);
      RunsLand(Panelboard(c).value, pdus, PduBranch, PDU_CORD);
      RunsLand(Panelboard(c).value, loads, LoadBranch, FIELD_WIRED);
      LandsAmong(RunsFrom(Panelboard(c).value, pdus, PduBranch, PDU_CORD), pdus, PanelLoads(c));
      LandsAmong(RunsFrom(Panelboard(c).value, loads, LoadBranch, FIELD_WIRED), loads, PanelLoads(c));
    }
  }

  /** A container's branches stay inside it. */
  lemma BranchesLand(c: Container)
    ensures LandsOn(Branches(c), c.devices)
  {
    var a, b := Pdus(c, 'A'), Pdus(c, 'B');
    PanelRunsLand(c);
    PanelLoadsAreChildren(c);
    LandsAmong(PanelRuns(c), PanelLoads(c), c.devices);
    NodeFeedsLand(c.Of(GPU_NODES), a, b);
    OfAreChildren(c, GPU_NODES);
    LandsAmong(NodeFeeds(c.Of(GPU_NODES), a, b), c.Of(GPU_NODES), c.devices);
    SwitchFeedsLand(c.Of(SWITCHES), a, b);
    OfAreChildren(c, SWITCHES);
    LandsAmong(SwitchFeeds(c.Of(SWITCHES), a, b), c.Of(SWITCHES), c.devices);
    LandsOnBoth(PanelRuns(c), NodeFeeds(c.Of(GPU_NODES), a, b), c.devices);
    LandsOnBoth(PanelRuns(c) + NodeFeeds(c.Of(GPU_NODES), a, b), SwitchFeeds(c.Of(SWITCHES), a, b), c.devices);
  }

  lemma TagNotAmong(devices: seq<Device>, d: Device, others: seq<Device>)
    requires Distinct(TagsOf(devices)) && d in devices && d !in others && forall e :: e in others ==> e in devices
    ensures Tag(d) !in TagsOf(others)
  {
    forall i | 0 <= i < |others| ensures Tag(others[i]) != Tag(d) {
      assert others[i] in others;
      if Tag(others[i]) == Tag(d) {
        SameIndex(devices, d, others[i]);
      }
    }
  }

  // ----- the whole sheet, one device at a time -----

  lemma TagElsewhere(sites: seq<Container>, k: nat, d: Device, j: nat)
    requires OneTagEach(sites) && k < |sites| && j < |sites| && j != k && d in sites[k].devices
    ensures Tag(d) !in TagsOf(sites[j].devices)
  {
    if Tag(d) in TagsOf(sites[j].devices) {
      var i :| 0 <= i < |sites[j].devices| && TagsOf(sites[j].devices)[i] == Tag(d);
      SameDevice(sites, k, j, d, sites[j].devices[i]);
    }
  }

  /** No other device of the site carries this device's tag. */
  ghost predicate OwnsTag(sites: seq<Container>, k: nat, d: Device)
    requires k < |sites|
  {
    && d in sites[k].devices
    && (forall e :: e in sites[k].devices && Tag(e) == Tag(d) ==> e == d)
    && (forall j :: 0 <= j < |sites| && j != k ==> Tag(d) !in TagsOf(sites[j].devices))
  }

  lemma TagIsOwn(sites: seq<Container>, k: nat, d: Device)
    requires OneTagEach(sites) && k < |sites| && d in sites[k].devices
    ensures OwnsTag(sites, k, d)
  {
    forall e | e in sites[k].devices && Tag(e) == Tag(d) ensures e == d {
      SameDevice(sites, k, k, e, d);
    }
    forall j | 0 <= j < |sites| && j != k ensures Tag(d) !in TagsOf(sites[j].devices) {
      TagElsewhere(sites, k, d, j);
    }
  }

  lemma BranchesElsewhere(sites: seq<Container>, k: nat, d: Device, j: nat)
    requires k < |sites| && j < |sites| && j != k && OwnsTag(sites, k, d)
    ensures Filter(Into(Tag(d)), Branches(sites[j])) == []
  {
    BranchesLand(sites[j]);
    NoneInto(Branches(sites[j]), sites[j].devices, Tag(d));
  }

  lemma {:induction false} AllBranchesGrouped(compute: seq<Container>)
    ensures AllBranches(compute) == Concat(Map((c: Container) => Branches(c), compute))
  {
    if compute != [] {
      var init := compute[..|compute| - 1];
      AllBranchesGrouped(init);
      var f := (c: Container) => Branches(c);
      assert Map(f, compute)[..|init|] == Map(f, init);
    }
  }

  lemma {:induction false} OneGroupInto(compute: seq<Container>, k: nat, t: string)
    requires k < |compute| && forall j :: 0 <= j < |compute| && j != k ==> Filter(Into(t), Branches(compute[j])) == []
    ensures Filter(Into(t), AllBranches(compute)) == Filter(Into(t), Branches(compute[k]))
  {
    var groups := Map((c: Container) => Branches(c), compute);
    AllBranchesGrouped(compute);
    assert forall j :: 0 <= j < |groups| ==> Filter(Into(t), groups[j]) == if j == k then Filter(Into(t), Branches(compute[k])) else [];
    OnlyGroup(Into(t), groups, k, Filter(Into(t), Branches(compute[k])));
  }

  /** Of all containers' branches, only its own reach a device. */
  lemma {:induction false} OwnBranches(sites: seq<Container>, first: nat, k: nat, d: Device)
    requires k < first <= |sites| && OwnsTag(sites, k, d)
    ensures Filter(Into(Tag(d)), AllBranches(sites[..first])) == Filter(Into(Tag(d)), Branches(sites[k]))
  {
    var compute := sites[..first];
    forall j | 0 <= j < |compute| && j != k ensures Filter(Into(Tag(d)), Branches(compute[j])) == [] {
      BranchesElsewhere(sites, k, d, j);
    }
    OneGroupInto(compute, k, Tag(d));
  }

  lemma PanelboardIsChild(c: Container)
    requires Panelboard(c).Some?
    ensures Panelboard(c).value in c.devices && Panelboard(c).value.template == "panelboard"
  {
    OfAreChildren(c, {"panelboard"});
    assert Panelboard(c).value in c.Of({"panelboard"});
  }

  lemma {:induction false} PadsAre(sites: seq<Container>, first: nat)
    requires Ordered(sites, first)
    ensures AllPads(Filter(OfKind(Bess), sites)) == PadStrings(Last(sites))
  {
    FilterKind(sites, Bess, |sites| - 1, |sites|);
    assert sites[|sites| - 1..|sites|] == [Last(sites)];
    OnePad(Last(sites));
  }

  lemma OnePad(pad: Container)
    ensures AllPads([pad]) == PadStrings(pad)
  {
    var pads := [pad];
    assert pads[..0] == [] && AllPads(pads) == [] + PadStrings(pads[0]);
  }

  lemma PadLands(pad: Container)
    ensures LandsOn(PadStrings(pad), pad.devices)
  {
    if pad.One({"bess_catl"}).Some? {
      RunsLand(pad.One({"bess_catl"}).value, pad.Of({"pcs"}), DcStrings, PCS_DC_CABLE);
      OfAreChildren(pad, {"pcs"});
      LandsAmong(PadStrings(pad), pad.Of({"pcs"}), pad.devices);
    }
  }

  /** The battery pad of a site in order. */
  function Last(sites: seq<Container>): Container
    requires sites != []
  {
    sites[|sites| - 1]
  }

  lemma NoStringInto(sites: seq<Container>, k: nat, d: Device)
    requires k < |sites| - 1 && OwnsTag(sites, k, d)
    ensures Filter(Into(Tag(d)), PadStrings(Last(sites))) == []
  {
    PadLands(Last(sites));
    NoneInto(PadStrings(Last(sites)), Last(sites).devices, Tag(d));
  }

  /** The feeders of a site whose first containers are compute and whose last is the pad. */
  function FeedersOn(sites: seq<Container>, first: nat): seq<Cable>
    requires first < |sites| - 1
  {
    FeedsInRange(sites[..first], |sites| - 1 - first);
    GridFeeders(sites[first..|sites| - 1], sites[..first], Feeds(first, |sites| - 1 - first))
  }

  /** Feeders reach panelboards only. */
  lemma {:induction false} NoFeederInto(sites: seq<Container>, first: nat, k: nat, d: Device)
    requires first < |sites| - 1 && k < |sites| && OwnsTag(sites, k, d) && d.template != "panelboard"
    ensures Filter(Into(Tag(d)), FeedersOn(sites, first)) == []
  {
    var grids, compute, feeds := sites[first..|sites| - 1], sites[..first], Feeds(first, |sites| - 1 - first);
    FeedsInRange(compute, |grids|);
    var feeders := FeedersOn(sites, first);
    forall x | 0 <= x < |feeders| ensures !Into(Tag(d))(feeders[x]) {
      assert feeders[x] in feeders;
      var g, i := FeederFrom(grids, compute, feeds, feeders[x]);
      var at := feeds[g][i] - 1;
      PanelboardIsChild(sites[at]);
      TagOfMember(sites[at].devices, Panelboard(sites[at]).value);
    }
    FilterNone(Into(Tag(d)), feeders);
  }

  /** The sheet in its three parts. */
  ghost predicate InParts(sites: seq<Container>, first: nat) {
    && first < |sites| - 1
    && PowerSheet(sites) == Ok(FeedersOn(sites, first) + PadStrings(Last(sites)) + AllBranches(sites[..first]))
  }

  lemma {:induction false} SheetIs(sites: seq<Container>, compute: seq<Container>, grids: seq<Container>)
    requires compute == Filter(OfKind(Compute), sites) && grids == Filter(OfKind(Grid), sites) && grids != []
    ensures AllInRange(Feeds(|compute|, |grids|), compute)
    ensures PowerSheet(sites) == Ok(GridFeeders(grids, compute, Feeds(|compute|, |grids|))
                                    + AllPads(Filter(OfKind(Bess), sites)) + AllBranches(compute))
  {
    FeedsInRange(compute, |grids|);
  }

  lemma {:induction false} SheetParts(sites: seq<Container>, first: nat)
    requires Ordered(sites, first) && first < |sites| - 1
    ensures InParts(sites, first)
  {
    KindsInOrder(sites, first);
    PadsAre(sites, first);
    PartsFrom(sites, first);
  }

  lemma {:induction false} PartsFrom(sites: seq<Container>, first: nat)
    requires first < |sites| - 1 && Filter(OfKind(Compute), sites) == sites[..first]
    requires Filter(OfKind(Grid), sites) == sites[first..|sites| - 1]
    requires AllPads(Filter(OfKind(Bess), sites)) == PadStrings(Last(sites))
    ensures InParts(sites, first)
  {
    SheetIs(sites, sites[..first], sites[first..|sites| - 1]);
    FeedersOnIs(sites, first, sites[..first], sites[first..|sites| - 1]);
  }

  lemma {:induction false} FeedersOnIs(sites: seq<Container>, first: nat, compute: seq<Container>, grids: seq<Container>)
    requires first < |sites| - 1 && compute == sites[..first] && grids == sites[first..|sites| - 1]
    ensures grids != [] && AllInRange(Feeds(|compute|, |grids|), compute)
    ensures FeedersOn(sites, first) == GridFeeders(grids, compute, Feeds(|compute|, |grids|))
  {
    FeedsInRange(compute, |grids|);
    assert |compute| == first && |grids| == |sites| - 1 - first;
  }

  lemma {:induction false} ThreeInto(a: seq<Cable>, b: seq<Cable>, c: seq<Cable>, t: string)
    ensures Filter(Into(t), a + b + c) == Filter(Into(t), a) + Filter(Into(t), b) + Filter(Into(t), c)
  {
    FilterAppend(Into(t), a + b, c);
    FilterAppend(Into(t), a, b);
  }

  lemma {:induction false} SheetIntoIs(sites: seq<Container>, first: nat, t: string, a: seq<Cable>, b: seq<Cable>, c: seq<Cable>)
    requires InParts(sites, first)
    requires Filter(Into(t), FeedersOn(sites, first)) == a && Filter(Into(t), PadStrings(Last(sites))) == b
    requires Filter(Into(t), AllBranches(sites[..first])) == c
    ensures Filter(Into(t), PowerSheet(sites).value) == a + b + c
    ensures a == b == [] ==> Filter(Into(t), PowerSheet(sites).value) == c
    ensures a == c == [] ==> Filter(Into(t), PowerSheet(sites).value) == b
    ensures b == c == [] ==> Filter(Into(t), PowerSheet(sites).value) == a
  {
    ThreeInto(FeedersOn(sites, first), PadStrings(Last(sites)), AllBranches(sites[..first]), t);
  }

  /** A compute container's device other than its panelboard is fed from inside the container and from nowhere else. */
  lemma {:induction false} FedFromInside(sites: seq<Container>, first: nat, k: nat, d: Device)
    requires InParts(sites, first) && k < first && OwnsTag(sites, k, d) && d.template != "panelboard"
    ensures Filter(Into(Tag(d)), PowerSheet(sites).value) == Filter(Into(Tag(d)), Branches(sites[k]))
  {
    NoFeederInto(sites, first, k, d);
    NoStringInto(sites, k, d);
    OwnBranches(sites, first, k, d);
    SheetIntoIs(sites, first, Tag(d), [], [], Filter(Into(Tag(d)), Branches(sites[k])));
  }

  // ----- servers -----

  lemma {:induction false} NodeFeedsInto(nodes: seq<Device>, a: seq<Device>, b: seq<Device>, i: nat)
    requires a != [] && b != [] && i < |nodes| && Distinct(TagsOf(nodes))
    ensures Filter(Into(Tag(nodes[i])), NodeFeeds(nodes, a, b))
         == [Run(a[i % |a|], nodes[i], PsuFeed, NODE_CORD), Run(b[i % |b|], nodes[i], PsuFeed, NODE_CORD)]
  {
    var last := |nodes| - 1;
    var t, before, init := Tag(nodes[i]), NodeFeeds(nodes[..last], a, b), nodes[..last];
    var ra, rb := Run(a[last % |a|], nodes[last], PsuFeed, NODE_CORD), Run(b[last % |b|], nodes[last], PsuFeed, NODE_CORD);
    assert TagsOf(nodes) == TagsOf(init) + [Tag(nodes[last])];
    DistinctPrefix(TagsOf(init), [Tag(nodes[last])]);
    assert NodeFeeds(nodes, a, b) == before + [ra] + [rb];
    IntoTwo(before, ra, rb, t);
    if i < last {
      NodeFeedsInto(init, a, b, i);
      assert TagsOf(nodes)[i] != TagsOf(nodes)[last];
    } else {
      NodeFeedsLand(init, a, b);
      NoneInto(before, init, t);
    }
  }

  lemma {:induction false} IntoTwo(before: seq<Cable>, x: Cable, y: Cable, t: string)
    ensures Filter(Into(t), before + [x] + [y])
         == Filter(Into(t), before) + (if x.toTag == t then [x] else []) + if y.toTag == t then [y] else []
  {
    assert (before + [x])[..|before|] == before;
    assert (before + [x] + [y])[..|before| + 1] == before + [x];
  }

  lemma {:induction false} IntoOne(before: seq<Cable>, x: Cable, t: string)
    ensures Filter(Into(t), before + [x]) == Filter(Into(t), before) + if x.toTag == t then [x] else []
  {
    assert (before + [x])[..|before|] == before;
  }

  lemma {:induction false} RunsInto(src: Device, dsts: seq<Device>, service: Service, media: string, i: nat)
    requires Distinct(TagsOf(dsts)) && i < |dsts|
    ensures Filter(Into(Tag(dsts[i])), RunsFrom(src, dsts, service, media)) == [Run(src, dsts[i], service, media)]
  {
    var last := |dsts| - 1;
    var init, t, x := dsts[..last], Tag(dsts[i]), Run(src, dsts[last], service, media);
    assert TagsOf(dsts) == TagsOf(init) + [Tag(dsts[last])];
    DistinctPrefix(TagsOf(init), [Tag(dsts[last])]);
    assert RunsFrom(src, dsts, service, media) == RunsFrom(src, init, service, media) + [x];
    IntoOne(RunsFrom(src, init, service, media), x, t);
    if i < last {
      RunsInto(src, init, service, media, i);
      assert TagsOf(dsts)[i] != TagsOf(dsts)[last];
    } else {
      RunsLand(src, init, service, media);
      NoneInto(RunsFrom(src, init, service, media), init, t);
    }
  }

  // ----- inside one container -----

  lemma InsideParts(c: Container, t: string)
    ensures Filter(Into(t), Branches(c))
         == Filter(Into(t), PanelRuns(c)) + Filter(Into(t), NodeFeeds(c.Of(GPU_NODES), Pdus(c, 'A'), Pdus(c, 'B')))
            + Filter(Into(t), SwitchFeeds(c.Of(SWITCHES), Pdus(c, 'A'), Pdus(c, 'B')))
  {
    var a, b := Pdus(c, 'A'), Pdus(c, 'B');
    FilterAppend(Into(t), PanelRuns(c) + NodeFeeds(c.Of(GPU_NODES), a, b), SwitchFeeds(c.Of(SWITCHES), a, b));
    FilterAppend(Into(t), PanelRuns(c), NodeFeeds(c.Of(GPU_NODES), a, b));
  }

  lemma NoPanelRunInto(c: Container, d: Device)
    requires Distinct(TagsOf(c.devices)) && d in c.devices && d.template !in {"pdu", "cdu"} + DRY_COOLERS
    ensures Filter(Into(Tag(d)), PanelRuns(c)) == []
  {
    PanelRunsLand(c);
    PanelLoadsAreChildren(c);
    TagNotAmong(c.devices, d, PanelLoads(c));
    NoneInto(PanelRuns(c), PanelLoads(c), Tag(d));
  }

  lemma NoNodeFeedInto(c: Container, d: Device)
    requires Distinct(TagsOf(c.devices)) && d in c.devices && d.template !in GPU_NODES
    ensures Filter(Into(Tag(d)), NodeFeeds(c.Of(GPU_NODES), Pdus(c, 'A'), Pdus(c, 'B'))) == []
  {
    NodeFeedsLand(c.Of(GPU_NODES), Pdus(c, 'A'), Pdus(c, 'B'));
    OfAreChildren(c, GPU_NODES);
    TagNotAmong(c.devices, d, c.Of(GPU_NODES));
    NoneInto(NodeFeeds(c.Of(GPU_NODES), Pdus(c, 'A'), Pdus(c, 'B')), c.Of(GPU_NODES), Tag(d));
  }

  lemma NoSwitchFeedInto(c: Container, d: Device)
    requires Distinct(TagsOf(c.devices)) && d in c.devices && d.template !in SWITCHES
    ensures Filter(Into(Tag(d)), SwitchFeeds(c.Of(SWITCHES), Pdus(c, 'A'), Pdus(c, 'B'))) == []
  {
    SwitchFeedsLand(c.Of(SWITCHES), Pdus(c, 'A'), Pdus(c, 'B'));
    OfAreChildren(c, SWITCHES);
    TagNotAmong(c.devices, d, c.Of(SWITCHES));
    NoneInto(SwitchFeeds(c.Of(SWITCHES), Pdus(c, 'A'), Pdus(c, 'B')), c.Of(SWITCHES), Tag(d));
  }

  /** Server i's two cordsets. */
  lemma ServerInside(c: Container, i: nat)
    requires Distinct(TagsOf(c.devices)) && Pdus(c, 'A') != [] && Pdus(c, 'B') != [] && i < |c.Of(GPU_NODES)|
    ensures Filter(Into(Tag(c.Of(GPU_NODES)[i])), Branches(c))
         == [Run(Pdus(c, 'A')[i % |Pdus(c, 'A')|], c.Of(GPU_NODES)[i], PsuFeed, NODE_CORD),
             Run(Pdus(c, 'B')[i % |Pdus(c, 'B')|], c.Of(GPU_NODES)[i], PsuFeed, NODE_CORD)]
  {
    var nodes := c.Of(GPU_NODES);
    InsideParts(c, Tag(nodes[i]));
    assert nodes[i] in nodes;
    OnlyNodeFeeds(c, nodes[i]);
    FilterTagsDistinct(UsesOneOf(GPU_NODES), c.devices);
    NodeFeedsInto(nodes, Pdus(c, 'A'), Pdus(c, 'B'), i);
  }

  lemma OnlyNodeFeeds(c: Container, node: Device)
    requires Distinct(TagsOf(c.devices)) && node in c.Of(GPU_NODES)
    ensures Filter(Into(Tag(node)), PanelRuns(c)) == []
    ensures Filter(Into(Tag(node)), SwitchFeeds(c.Of(SWITCHES), Pdus(c, 'A'), Pdus(c, 'B'))) == []
  {
    OfAreChildren(c, GPU_NODES);
    NoPanelRunInto(c, node);
    NoSwitchFeedInto(c, node);
  }

  lemma SidesDistinct(c: Container)
    requires Distinct(TagsOf(c.devices))
    ensures Distinct(TagsOf(SidePdus(c))) && Distinct(TagsOf(Cooling(c)))
  {
    var pdus := c.Of({"pdu"});
    FilterTagsDistinct(UsesOneOf({"pdu"}), c.devices);
    FilterTagsDistinct((d: Device) => OnSide('A', d), pdus);
    FilterTagsDistinct((d: Device) => OnSide('B', d), pdus);
    SidesApart(c);
    TagsJoin(Pdus(c, 'A'), Pdus(c, 'B'));
    FilterTagsDistinct(UsesOneOf({"cdu"}), c.devices);
    FilterTagsDistinct(UsesOneOf(DRY_COOLERS), c.devices);
    OfAreChildren(c, {"cdu"});
    OfAreChildren(c, DRY_COOLERS);
    forall i, j | 0 <= i < |c.Of({"cdu"})| && 0 <= j < |c.Of(DRY_COOLERS)| ensures Tag(c.Of({"cdu"})[i]) != Tag(c.Of(DRY_COOLERS)[j]) {
      DifferentTemplates(c, c.Of({"cdu"})[i], c.Of(DRY_COOLERS)[j]);
    }
    TagsJoin(c.Of({"cdu"}), c.Of(DRY_COOLERS));
  }

  lemma DifferentTemplates(c: Container, d: Device, e: Device)
    requires Distinct(TagsOf(c.devices)) && d in c.devices && e in c.devices && d.template != e.template
    ensures Tag(d) != Tag(e)
  {
    if Tag(d) == Tag(e) {
      SameIndex(c.devices, d, e);
    }
  }

  lemma TagsJoin(a: seq<Device>, b: seq<Device>)
    requires Distinct(TagsOf(a)) && Distinct(TagsOf(b))
    requires forall i, j :: 0 <= i < |a| && 0 <= j < |b| ==> Tag(a[i]) != Tag(b[j])
    ensures Distinct(TagsOf(a + b))
  {
    assert TagsOf(a + b) == TagsOf(a) + TagsOf(b);
    DistinctAppend(TagsOf(a), TagsOf(b));
  }

  lemma OnlyPanelRuns(c: Container, d: Device)
    requires Distinct(TagsOf(c.devices)) && d in c.devices && d.template !in GPU_NODES && d.template !in SWITCHES
    ensures Filter(Into(Tag(d)), Branches(c)) == Filter(Into(Tag(d)), PanelRuns(c))
  {
    InsideParts(c, Tag(d));
    NoNodeFeedInto(c, d);
    NoSwitchFeedInto(c, d);
  }

  lemma SidePdusAre(c: Container)
    ensures forall d :: d in SidePdus(c) ==> d in c.devices && d.template == "pdu"
  {
    PdusAreChildren(c, 'A');
    PdusAreChildren(c, 'B');
  }

  lemma CoolingAre(c: Container)
    ensures forall d :: d in Cooling(c) ==> d in c.devices && d.template in {"cdu"} + DRY_COOLERS
  {
    OfAreChildren(c, {"cdu"});
    OfAreChildren(c, DRY_COOLERS);
  }

  lemma PanelSplit(c: Container, t: string)
    requires Panelboard(c).Some?
    ensures Filter(Into(t), PanelRuns(c))
         == Filter(Into(t), RunsFrom(Panelboard(c).value, SidePdus(c), PduBranch, PDU_CORD))
            + Filter(Into(t), RunsFrom(Panelboard(c).value, Cooling(c), LoadBranch, FIELD_WIRED))
  {
    FilterAppend(Into(t), RunsFrom(Panelboard(c).value, SidePdus(c), PduBranch, PDU_CORD),
                 RunsFrom(Panelboard(c).value, Cooling(c), LoadBranch, FIELD_WIRED));
  }

  lemma NotCooling(c: Container, p: Device)
    requires Distinct(TagsOf(c.devices)) && p in SidePdus(c)
    ensures p in c.devices && p.template !in GPU_NODES && p.template !in SWITCHES && Tag(p) !in TagsOf(Cooling(c))
  {
    SidePdusAre(c);
    CoolingAre(c);
    TagNotAmong(c.devices, p, Cooling(c));
  }

  lemma NotPdu(c: Container, d: Device)
    requires Distinct(TagsOf(c.devices)) && d in Cooling(c)
    ensures d in c.devices && d.template !in GPU_NODES && d.template !in SWITCHES && Tag(d) !in TagsOf(SidePdus(c))
  {
    SidePdusAre(c);
    CoolingAre(c);
    TagNotAmong(c.devices, d, SidePdus(c));
  }

  /** A PDU's branch from the panelboard. */
  lemma PduInside(c: Container, i: nat)
    requires Distinct(TagsOf(c.devices)) && Panelboard(c).Some? && i < |SidePdus(c)|
    ensures Filter(Into(Tag(SidePdus(c)[i])), Branches(c)) == [Run(Panelboard(c).value, SidePdus(c)[i], PduBranch, PDU_CORD)]
  {
    var p := SidePdus(c)[i];
    NotCooling(c, p);
    OnlyPanelRuns(c, p);
    PanelSplit(c, Tag(p));
    SidesDistinct(c);
    RunsInto(Panelboard(c).value, SidePdus(c), PduBranch, PDU_CORD, i);
    RunsLand(Panelboard(c).value, Cooling(c), LoadBranch, FIELD_WIRED);
    NoneInto(RunsFrom(Panelboard(c).value, Cooling(c), LoadBranch, FIELD_WIRED), Cooling(c), Tag(p));
  }

  /** The CDU's and the dry coolers' branches from the panelboard. */
  lemma CoolingInside(c: Container, i: nat)
    requires Distinct(TagsOf(c.devices)) && Panelboard(c).Some? && i < |Cooling(c)|
    ensures Filter(Into(Tag(Cooling(c)[i])), Branches(c)) == [Run(Panelboard(c).value, Cooling(c)[i], LoadBranch, FIELD_WIRED)]
  {
    var d := Cooling(c)[i];
    NotPdu(c, d);
    OnlyPanelRuns(c, d);
    PanelSplit(c, Tag(d));
    SidesDistinct(c);
    RunsInto(Panelboard(c).value, Cooling(c), LoadBranch, FIELD_WIRED, i);
    RunsLand(Panelboard(c).value, SidePdus(c), PduBranch, PDU_CORD);
    NoneInto(RunsFrom(Panelboard(c).value, SidePdus(c), PduBranch, PDU_CORD), SidePdus(c), Tag(d));
  }

  lemma {:induction false} SwitchFeedsInto(switches: seq<Device>, a: seq<Device>, b: seq<Device>, i: nat)
    requires a != [] && b != [] && i < |switches| && Distinct(TagsOf(switches))
    ensures Filter(Into(Tag(switches[i])), SwitchFeeds(switches, a, b))
         == [Run(a[0], switches[i], PsuFeed, SWITCH_CORD), Run(b[0], switches[i], PsuFeed, SWITCH_CORD)]
  {
    var last := |switches| - 1;
    var t, before, init := Tag(switches[i]), SwitchFeeds(switches[..last], a, b), switches[..last];
    var ra, rb := Run(a[0], switches[last], PsuFeed, SWITCH_CORD), Run(b[0], switches[last], PsuFeed, SWITCH_CORD);
    assert TagsOf(switches) == TagsOf(init) + [Tag(switches[last])];
    DistinctPrefix(TagsOf(init), [Tag(switches[last])]);
    assert SwitchFeeds(switches, a, b) == before + [ra] + [rb];
    IntoTwo(before, ra, rb, t);
    if i < last {
      SwitchFeedsInto(init, a, b, i);
      assert TagsOf(switches)[i] != TagsOf(switches)[last];
    } else {
      SwitchFeedsLand(init, a, b);
      NoneInto(before, init, t);
    }
  }

  /** A switch takes the first PDU of each path. */
  lemma SwitchInside(c: Container, i: nat)
    requires Distinct(TagsOf(c.devices)) && Pdus(c, 'A') != [] && Pdus(c, 'B') != [] && i < |c.Of(SWITCHES)|
    ensures Filter(Into(Tag(c.Of(SWITCHES)[i])), Branches(c))
         == [Run(Pdus(c, 'A')[0], c.Of(SWITCHES)[i], PsuFeed, SWITCH_CORD), Run(Pdus(c, 'B')[0], c.Of(SWITCHES)[i], PsuFeed, SWITCH_CORD)]
  {
    var switches := c.Of(SWITCHES);
    InsideParts(c, Tag(switches[i]));
    assert switches[i] in switches;
    OnlySwitchFeeds(c, switches[i]);
    FilterTagsDistinct(UsesOneOf(SWITCHES), c.devices);
    SwitchFeedsInto(switches, Pdus(c, 'A'), Pdus(c, 'B'), i);
  }

  lemma OnlySwitchFeeds(c: Container, s: Device)
    requires Distinct(TagsOf(c.devices)) && s in c.Of(SWITCHES)
    ensures Filter(Into(Tag(s)), PanelRuns(c)) == []
    ensures Filter(Into(Tag(s)), NodeFeeds(c.Of(GPU_NODES), Pdus(c, 'A'), Pdus(c, 'B'))) == []
  {
    OfAreChildren(c, SWITCHES);
    NoPanelRunInto(c, s);
    NoNodeFeedInto(c, s);
  }

  // ----- feeders -----

  /** Every container has a panelboard, and of these only the k-th carries this tag. */
  ghost predicate OnePanel(compute: seq<Container>, k: nat, t: string) {
    && k < |compute|
    && forall n :: 0 <= n < |compute| ==> Panelboard(compute[n]).Some? && (Tag(Panelboard(compute[n]).value) == t <==> n == k)
  }

  function FeederTo(swbd: Device, compute: seq<Container>, k: nat): seq<Cable>
    requires k < |compute| && Panelboard(compute[k]).Some?
  {
    [Run(swbd, Panelboard(compute[k]).value, Feeder, FEEDER_CABLE)]
  }

  lemma {:induction false} FeederRunInto(compute: seq<Container>, k: nat, t: string, swbd: Device, n: nat)
    requires OnePanel(compute, k, t) && n < |compute|
    ensures Filter(Into(t), FeederRun(swbd, compute[n])) == if n == k then FeederTo(swbd, compute, k) else []
  {
    IntoOne([], Run(swbd, Panelboard(compute[n]).value, Feeder, FEEDER_CABLE), t);
    assert [] + FeederRun(swbd, compute[n]) == FeederRun(swbd, compute[n]);
  }

  lemma {:induction false} Position(fed: seq<int>, n: int) returns (at: nat)
    requires Distinct(fed)
    ensures forall i :: 0 <= i < |fed| ==> (fed[i] == n <==> i == at)
    ensures n in fed <==> at < |fed|
  {
    if n in fed {
      at :| at < |fed| && fed[at] == n;
    } else {
      at := |fed|;
    }
  }

  lemma {:induction false} FeederRunsInto(compute: seq<Container>, k: nat, t: string, swbd: Device, fed: seq<int>)
    requires OnePanel(compute, k, t) && InRange(fed, compute) && Distinct(fed)
    ensures Filter(Into(t), Concat(FeederRuns(swbd, compute, fed))) == if k + 1 in fed then FeederTo(swbd, compute, k) else []
  {
    var at := Position(fed, k + 1);
    RunsAtPosition(compute, k, t, swbd, fed, at);
  }

  lemma {:induction false} RunsAtPosition(compute: seq<Container>, k: nat, t: string, swbd: Device, fed: seq<int>, at: nat)
    requires OnePanel(compute, k, t) && InRange(fed, compute)
    requires forall i :: 0 <= i < |fed| ==> (fed[i] == k + 1 <==> i == at)
    ensures Filter(Into(t), Concat(FeederRuns(swbd, compute, fed))) == if at < |fed| then FeederTo(swbd, compute, k) else []
  {
    var runs := FeederRuns(swbd, compute, fed);
    forall i | 0 <= i < |runs| ensures Filter(Into(t), runs[i]) == if i == at then FeederTo(swbd, compute, k) else [] {
      FeederRunInto(compute, k, t, swbd, fed[i] - 1);
    }
    OnlyGroup(Into(t), runs, at, FeederTo(swbd, compute, k));
  }

  /** Exactly one feeder reaches a panelboard: from the one grid container that feeds it. */
  lemma {:induction false} OneFeederInto(compute: seq<Container>, k: nat, t: string, grids: seq<Container>, feeds: seq<seq<int>>, own: nat)
    requires OnePanel(compute, k, t) && |grids| == |feeds| && AllInRange(feeds, compute)
    requires forall g :: 0 <= g < |grids| ==> Switchboard(grids[g]).Some?
    requires forall g :: 0 <= g < |feeds| ==> Distinct(feeds[g]) && (k + 1 in feeds[g] <==> g == own)
    requires own < |grids|
    ensures Filter(Into(t), GridFeeders(grids, compute, feeds)) == FeederTo(Switchboard(grids[own]).value, compute, k)
  {
    var groups := FeederGroups(grids, compute, feeds);
    forall g | 0 <= g < |grids|
      ensures Filter(Into(t), groups[g]) == if g == own then FeederTo(Switchboard(grids[own]).value, compute, k) else []
    {
      FeederRunsInto(compute, k, t, Switchboard(grids[g]).value, feeds[g]);
    }
    OnlyGroup(Into(t), groups, own, FeederTo(Switchboard(grids[own]).value, compute, k));
  }

  lemma {:induction false} EachFeedDistinct(computeQty: nat, gridQty: nat)
    requires gridQty >= 1
    ensures forall g :: 0 <= g < gridQty ==> Distinct(Feeds(computeQty, gridQty)[g])
  {
    FeedsPartition(computeQty, gridQty);
    forall g | 0 <= g < gridQty ensures Distinct(Feeds(computeQty, gridQty)[g]) {
      DistinctGroup(Feeds(computeQty, gridQty), g);
    }
  }

  lemma {:induction false} OneFeedHas(computeQty: nat, gridQty: nat, n: nat) returns (own: nat)
    requires gridQty >= 1 && 1 <= n <= computeQty
    ensures own < gridQty && forall g :: 0 <= g < gridQty ==> (n in Feeds(computeQty, gridQty)[g] <==> g == own)
  {
    FedOnce(computeQty, gridQty, n, 0);
    own := (n - 1) / PerGrid(computeQty, gridQty);
    forall g | 0 <= g < gridQty ensures n in Feeds(computeQty, gridQty)[g] <==> g == own {
      FedOnce(computeQty, gridQty, n, g);
    }
  }

  lemma PanelboardIsOther()
    ensures "panelboard" !in {"pdu", "cdu"} + DRY_COOLERS && "panelboard" !in GPU_NODES && "panelboard" !in SWITCHES
  {
  }

  lemma {:induction false} NoBranchIntoPanel(c: Container)
    requires Distinct(TagsOf(c.devices)) && Panelboard(c).Some?
    ensures Filter(Into(Tag(Panelboard(c).value)), Branches(c)) == []
  {
    PanelboardIsChild(c);
    PanelboardIsOther();
    InsideParts(c, Tag(Panelboard(c).value));
    NoPanelRunInto(c, Panelboard(c).value);
    NoNodeFeedInto(c, Panelboard(c).value);
    NoSwitchFeedInto(c, Panelboard(c).value);
  }

  lemma {:induction false} OnlyPanel(sites: seq<Container>, first: nat, k: nat)
    requires k < first <= |sites| && forall n :: 0 <= n < first ==> Panelboard(sites[n]).Some?
    requires OwnsTag(sites, k, Panelboard(sites[k]).value)
    ensures OnePanel(sites[..first], k, Tag(Panelboard(sites[k]).value))
  {
    forall n | 0 <= n < first ensures Tag(Panelboard(sites[n]).value) == Tag(Panelboard(sites[k]).value) <==> n == k {
      PanelboardIsChild(sites[n]);
      TagOfMember(sites[n].devices, Panelboard(sites[n]).value);
    }
  }

  /** A panelboard's one supply. */
  lemma {:induction false} PanelFed(sites: seq<Container>, first: nat, k: nat) returns (g: nat)
    requires InParts(sites, first) && k < first && Panelboard(sites[k]).Some?
    requires OnePanel(sites[..first], k, Tag(Panelboard(sites[k]).value))
    requires forall g :: first <= g < |sites| - 1 ==> Switchboard(sites[g]).Some?
    requires OwnsTag(sites, k, Panelboard(sites[k]).value) && Distinct(TagsOf(sites[k].devices))
    ensures g < |sites| - 1 - first && k + 1 in Feeds(first, |sites| - 1 - first)[g]
    ensures Filter(Into(Tag(Panelboard(sites[k]).value)), PowerSheet(sites).value)
         == [Run(Switchboard(sites[first + g]).value, Panelboard(sites[k]).value, Feeder, FEEDER_CABLE)]
  {
    var panel := Panelboard(sites[k]).value;
    g := OneFeederOn(sites, first, k);
    NoStringInto(sites, k, panel);
    OwnBranches(sites, first, k, panel);
    NoBranchIntoPanel(sites[k]);
    SheetIntoIs(sites, first, Tag(panel), [Run(Switchboard(sites[first + g]).value, panel, Feeder, FEEDER_CABLE)], [], []);
  }

  lemma {:induction false} OneFeederOn(sites: seq<Container>, first: nat, k: nat) returns (g: nat)
    requires first < |sites| - 1 && k < first && Panelboard(sites[k]).Some?
    requires OnePanel(sites[..first], k, Tag(Panelboard(sites[k]).value))
    requires forall g :: first <= g < |sites| - 1 ==> Switchboard(sites[g]).Some?
    ensures g < |sites| - 1 - first && k + 1 in Feeds(first, |sites| - 1 - first)[g]
    ensures Filter(Into(Tag(Panelboard(sites[k]).value)), FeedersOn(sites, first))
         == [Run(Switchboard(sites[first + g]).value, Panelboard(sites[k]).value, Feeder, FEEDER_CABLE)]
  {
    var compute, grids := sites[..first], sites[first..|sites| - 1];
    FeedsInRange(compute, |grids|);
    EachFeedDistinct(first, |grids|);
    g := OneFeedHas(first, |grids|, k + 1);
    OneFeederInto(compute, k, Tag(Panelboard(sites[k]).value), grids, Feeds(first, |grids|), g);
  }

  // ----- the pad -----

  lemma {:induction false} NoBranchInto(sites: seq<Container>, first: nat, k: nat, d: Device)
    requires first <= k < |sites| && OwnsTag(sites, k, d)
    ensures Filter(Into(Tag(d)), AllBranches(sites[..first])) == []
  {
    var compute := sites[..first];
    forall j | 0 <= j < |compute| ensures Filter(Into(Tag(d)), Branches(compute[j])) == [] {
      BranchesElsewhere(sites, k, d, j);
    }
    NoGroupInto(compute, Tag(d));
  }

  lemma {:induction false} NoGroupInto(compute: seq<Container>, t: string)
    requires forall j :: 0 <= j < |compute| ==> Filter(Into(t), Branches(compute[j])) == []
    ensures Filter(Into(t), AllBranches(compute)) == []
  {
    AllBranchesGrouped(compute);
    OnlyGroup(Into(t), Map((c: Container) => Branches(c), compute), |compute|, []);
  }

  lemma PcsRunInto(pad: Container, i: nat)
    requires pad.One({"bess_catl"}).Some? && i < |pad.Of({"pcs"})| && Distinct(TagsOf(pad.devices))
    ensures Filter(Into(Tag(pad.Of({"pcs"})[i])), PadStrings(pad))
         == [Run(pad.One({"bess_catl"}).value, pad.Of({"pcs"})[i], DcStrings, PCS_DC_CABLE)]
    ensures pad.Of({"pcs"})[i] in pad.devices && pad.Of({"pcs"})[i].template != "panelboard"
  {
    assert pad.Of({"pcs"})[i] in pad.Of({"pcs"});
    OfAreChildren(pad, {"pcs"});
    FilterTagsDistinct(UsesOneOf({"pcs"}), pad.devices);
    RunsInto(pad.One({"bess_catl"}).value, pad.Of({"pcs"}), DcStrings, PCS_DC_CABLE, i);
  }

  /** A device of the pad other than a panelboard is fed by the pad's own strings and by nothing else. */
  lemma {:induction false} FedFromPad(sites: seq<Container>, first: nat, k: nat, d: Device)
    requires InParts(sites, first) && k == |sites| - 1 && OwnsTag(sites, k, d) && d.template != "panelboard"
    ensures Filter(Into(Tag(d)), PowerSheet(sites).value) == Filter(Into(Tag(d)), PadStrings(Last(sites)))
  {
    NoFeederInto(sites, first, k, d);
    NoBranchInto(sites, first, k, d);
    SheetIntoIs(sites, first, Tag(d), [], Filter(Into(Tag(d)), PadStrings(Last(sites))), []);
  }
}
