/** Power runs: the single-line diagram, run by run. */
module PowerCables {
  import opened Lists
  import opened Text
  import opened Numbering
  import opened Catalog
  import opened ComputeFeeds
  import opened Dtm
  import opened SiteIndex
  import opened Cabling

  const FEEDER_CABLE := "4 x 2/0 AWG Cu + ground, 175 A (size for run length)"
  const PCS_DC_CABLE := "1500 V DC PV/BESS cable, size per CATL string count"
  const PDU_CORD := "60 A 4P5W cord, IEC 60309 3P+N+PE plug"
  const FIELD_WIRED := "3ph 4-wire + ground, field-wired"
  const NODE_CORD := "C19-C20 cordset, 16 A, x4 (4 of 8 PSU inlets per path)"
  const SWITCH_CORD := "C13-C14 cordset"

  const GPU_NODES: set<string> := {"gpu_node", "gpu_node_h100"}
  const DRY_COOLERS: set<string> := {"dc_external", "dc_external_dod"}
  const SWITCHES: set<string> := {"network_switch", "mgmt_switch"}

  datatype PowerError = NoGridContainer

  function Switchboard(c: Container): Option<Device> { c.One({"lv_switchboard"}) }

  function Panelboard(c: Container): Option<Device> { c.One({"panelboard"}) }

  predicate InRange(fed: seq<int>, compute: seq<Container>) {
    forall i :: 0 <= i < |fed| ==> 1 <= fed[i] <= |compute|
  }

  predicate AllInRange(feeds: seq<seq<int>>, compute: seq<Container>) {
    forall k :: 0 <= k < |feeds| ==> InRange(feeds[k], compute)
  }

  predicate OnSide(side: char, d: Device) {
    LastSegment(Tag(d)) != "" && LastSegment(Tag(d))[0] == side
  }

  function Pdus(c: Container, side: char): seq<Device> {
    Filter((d: Device) => OnSide(side, d), c.Of({"pdu"}))
  }

  // ----- what the schedule should list -----

  function FeederRun(swbd: Device, c: Container): seq<Cable> {
    if Panelboard(c).None? then [] else [Run(swbd, Panelboard(c).value, Feeder, FEEDER_CABLE)]
  }

  function FeederRuns(swbd: Device, compute: seq<Container>, fed: seq<int>): (r: seq<seq<Cable>>)
    requires InRange(fed, compute)
    ensures |r| == |fed|
  {
    seq(|fed|, i requires 0 <= i < |fed| => FeederRun(swbd, compute[fed[i] - 1]))
  }

  function FeedersAt(grid: Container, compute: seq<Container>, fed: seq<int>): seq<Cable>
    requires InRange(fed, compute)
  {
    if Switchboard(grid).None? then [] else Concat(FeederRuns(Switchboard(grid).value, compute, fed))
  }

  function FeederGroups(grids: seq<Container>, compute: seq<Container>, feeds: seq<seq<int>>): (r: seq<seq<Cable>>)
    requires |grids| == |feeds| && AllInRange(feeds, compute)
    ensures |r| == |grids|
  {
    seq(|grids|, k requires 0 <= k < |grids| => FeedersAt(grids[k], compute, feeds[k]))
  }

  function GridFeeders(grids: seq<Container>, compute: seq<Container>, feeds: seq<seq<int>>): seq<Cable>
    requires |grids| == |feeds| && AllInRange(feeds, compute)
  {
    Concat(FeederGroups(grids, compute, feeds))
  }

  function RunsFrom(src: Device, dsts: seq<Device>, service: Service, media: string): seq<Cable> {
    Map((d: Device) => Run(src, d, service, media), dsts)
  }

  function PadStrings(pad: Container): seq<Cable> {
    if pad.One({"bess_catl"}).None? then []
    else RunsFrom(pad.One({"bess_catl"}).value, pad.Of({"pcs"}), DcStrings, PCS_DC_CABLE)
  }

  function OnPath(path: seq<Device>, i: nat, dst: Device, media: string): seq<Cable> {
    if path == [] then [] else [Run(path[i % |path|], dst, PsuFeed, media)]
  }

  /** Server i takes PDU i mod n on each path (ADR-005). */
  function NodeFeeds(nodes: seq<Device>, a: seq<Device>, b: seq<Device>): seq<Cable> {
    if nodes == [] then []
    else
      var i := |nodes| - 1;
      NodeFeeds(nodes[..i], a, b) + OnPath(a, i, nodes[i], NODE_CORD) + OnPath(b, i, nodes[i], NODE_CORD)
  }

  function SwitchFeeds(switches: seq<Device>, a: seq<Device>, b: seq<Device>): seq<Cable> {
    if switches == [] then []
    else
      var i := |switches| - 1;
      SwitchFeeds(switches[..i], a, b) + OnPath(a, 0, switches[i], SWITCH_CORD) + OnPath(b, 0, switches[i], SWITCH_CORD)
  }

  function PanelRuns(c: Container): seq<Cable> {
    if Panelboard(c).None? then []
    else
      RunsFrom(Panelboard(c).value, Pdus(c, 'A') + Pdus(c, 'B'), PduBranch, PDU_CORD)
      + RunsFrom(Panelboard(c).value, c.Of({"cdu"}) + c.Of(DRY_COOLERS), LoadBranch, FIELD_WIRED)
  }

  function Branches(c: Container): seq<Cable> {
    PanelRuns(c)
    + NodeFeeds(c.Of(GPU_NODES), Pdus(c, 'A'), Pdus(c, 'B'))
    + SwitchFeeds(c.Of(SWITCHES), Pdus(c, 'A'), Pdus(c, 'B'))
  }

  function AllPads(pads: seq<Container>): seq<Cable> {
    if pads == [] then [] else AllPads(pads[..|pads| - 1]) + PadStrings(pads[|pads| - 1])
  }

  function AllBranches(compute: seq<Container>): seq<Cable> {
    if compute == [] then [] else AllBranches(compute[..|compute| - 1]) + Branches(compute[|compute| - 1])
  }

  function OfKind(k: Kind): Container -> bool { (c: Container) => c.kind == k }

  lemma FeedsInRange(compute: seq<Container>, gridQty: nat)
    requires gridQty >= 1
    ensures AllInRange(Feeds(|compute|, gridQty), compute)
  {
    forall k, i | 0 <= k < gridQty && 0 <= i < |Feeds(|compute|, gridQty)[k]|
      ensures 1 <= Feeds(|compute|, gridQty)[k][i] <= |compute|
    {
      FeedMembers(|compute|, PerGrid(|compute|, gridQty), k, Feeds(|compute|, gridQty)[k][i]);
    }
  }

  /** The whole power sheet. Without a grid container the even split divides by zero. */
  function PowerSheet(sites: seq<Container>): Result<seq<Cable>, PowerError> {
    var compute, grids := Filter(OfKind(Compute), sites), Filter(OfKind(Grid), sites);
    if grids == [] then Err(NoGridContainer)
    else
      FeedsInRange(compute, |grids|);
      Ok(GridFeeders(grids, compute, Feeds(|compute|, |grids|)) + AllPads(Filter(OfKind(Bess), sites)) + AllBranches(compute))
  }

  // ----- the loops -----

  /** power_cables */
  method BuildPowerCables(sites: seq<Container>) returns (cables: Result<seq<Cable>, PowerError>)
    ensures cables == PowerSheet(sites)
  {
    var compute, grids := Filter(OfKind(Compute), sites), Filter(OfKind(Grid), sites);
    var pads := Filter(OfKind(Bess), sites);
    if grids == [] {
      return Err(NoGridContainer);
    }
    FeedsInRange(compute, |grids|);
    var feeders := BuildFeeders(grids, compute, Feeds(|compute|, |grids|));
    var strings := BuildPads(pads);
    var branches := BuildAllBranches(compute);
    cables := Ok(feeders + strings + branches);
  }

  method BuildPads(pads: seq<Container>) returns (rows: seq<Cable>)
    ensures rows == AllPads(pads)
  {
    rows := [];
    for i := 0 to |pads|
      invariant rows == AllPads(pads[..i])
    {
      assert pads[..i + 1][..i] == pads[..i];
      rows := rows + PadStrings(pads[i]);
    }
    assert pads[..|pads|] == pads;
  }

  method BuildAllBranches(compute: seq<Container>) returns (rows: seq<Cable>)
    ensures rows == AllBranches(compute)
  {
    rows := [];
    for i := 0 to |compute|
      invariant rows == AllBranches(compute[..i])
    {
      assert compute[..i + 1][..i] == compute[..i];
      var branches := BuildBranches(compute[i]);
      rows := rows + branches;
    }
    assert compute[..|compute|] == compute;
  }

  method BuildFeeders(grids: seq<Container>, compute: seq<Container>, feeds: seq<seq<int>>) returns (rows: seq<Cable>)
    requires |grids| == |feeds| && AllInRange(feeds, compute)
    ensures rows == GridFeeders(grids, compute, feeds)
  {
    rows := [];
    ghost var groups := FeederGroups(grids, compute, feeds);
    for k := 0 to |grids|
      invariant rows == Concat(groups[..k])
    {
      ConcatStep(groups, k);
      if Switchboard(grids[k]).Some? {
        var own := BuildFeedersOf(Switchboard(grids[k]).value, compute, feeds[k]);
        rows := rows + own;
      }
    }
    assert groups[..|grids|] == groups;
  }

  method BuildFeedersOf(swbd: Device, compute: seq<Container>, fed: seq<int>) returns (rows: seq<Cable>)
    requires InRange(fed, compute)
    ensures rows == Concat(FeederRuns(swbd, compute, fed))
  {
    rows := [];
    ghost var runs := FeederRuns(swbd, compute, fed);
    for i := 0 to |fed|
      invariant rows == Concat(runs[..i])
    {
      ConcatStep(runs, i);
      var run := FeederRun(swbd, compute[fed[i] - 1]);
      assert runs[i] == run;
      rows := rows + run;
    }
    assert runs[..|fed|] == runs;
  }

  /** _compute_branches */
  method BuildBranches(c: Container) returns (rows: seq<Cable>)
    ensures rows == Branches(c)
  {
    var a, b := Pdus(c, 'A'), Pdus(c, 'B');
    var nodes := BuildNodeFeeds(c.Of(GPU_NODES), a, b);
    var switches := BuildSwitchFeeds(c.Of(SWITCHES), a, b);
    rows := PanelRuns(c) + nodes + switches;
  }

  method BuildNodeFeeds(nodes: seq<Device>, a: seq<Device>, b: seq<Device>) returns (rows: seq<Cable>)
    ensures rows == NodeFeeds(nodes, a, b)
  {
    rows := [];
    for i := 0 to |nodes|
      invariant rows == NodeFeeds(nodes[..i], a, b)
    {
      assert nodes[..i + 1][..i] == nodes[..i];
      rows := rows + OnPath(a, i, nodes[i], NODE_CORD) + OnPath(b, i, nodes[i], NODE_CORD);
    }
    assert nodes[..|nodes|] == nodes;
  }

  method BuildSwitchFeeds(switches: seq<Device>, a: seq<Device>, b: seq<Device>) returns (rows: seq<Cable>)
    ensures rows == SwitchFeeds(switches, a, b)
  {
    rows := [];
    for i := 0 to |switches|
      invariant rows == SwitchFeeds(switches[..i], a, b)
    {
      assert switches[..i + 1][..i] == switches[..i];
      rows := rows + OnPath(a, 0, switches[i], SWITCH_CORD) + OnPath(b, 0, switches[i], SWITCH_CORD);
    }
    assert switches[..|switches|] == switches;
  }

  // ----- feeders -----

  /** Every grid container has a switchboard, every compute container a panelboard, and no tag is shared. */
  ghost predicate GearTagged(grids: seq<Container>, compute: seq<Container>) {
    && (forall k :: 0 <= k < |grids| ==> Switchboard(grids[k]).Some?)
    && (forall n :: 0 <= n < |compute| ==> Panelboard(compute[n]).Some?)
    && (forall i, j :: 0 <= i < j < |grids| ==> Tag(Switchboard(grids[i]).value) != Tag(Switchboard(grids[j]).value))
    && (forall i, j :: 0 <= i < j < |compute| ==> Tag(Panelboard(compute[i]).value) != Tag(Panelboard(compute[j]).value))
  }

  /** The schedule runs a feeder from Gk's switchboard to Cn's panelboard. */
  ghost predicate HasFeeder(cables: seq<Cable>, swbd: Device, pnl: Device) {
    exists c :: c in cables && c.service == Feeder && c.fromTag == Tag(swbd) && c.toTag == Tag(pnl)
  }

  lemma FeederHere(grids: seq<Container>, compute: seq<Container>, feeds: seq<seq<int>>, k: nat, i: nat)
    requires |grids| == |feeds| && AllInRange(feeds, compute)
    requires k < |grids| && i < |feeds[k]| && Switchboard(grids[k]).Some? && Panelboard(compute[feeds[k][i] - 1]).Some?
    ensures Run(Switchboard(grids[k]).value, Panelboard(compute[feeds[k][i] - 1]).value, Feeder, FEEDER_CABLE)
            in GridFeeders(grids, compute, feeds)
  {
    var swbd := Switchboard(grids[k]).value;
    var c := Run(swbd, Panelboard(compute[feeds[k][i] - 1]).value, Feeder, FEEDER_CABLE);
    var runs, groups := FeederRuns(swbd, compute, feeds[k]), FeederGroups(grids, compute, feeds);
    assert c in runs[i];
    ConcatMember(runs, c);
    assert c in groups[k];
    ConcatMember(groups, c);
  }

  lemma FeederFrom(grids: seq<Container>, compute: seq<Container>, feeds: seq<seq<int>>, c: Cable)
    returns (k: nat, i: nat)
    requires |grids| == |feeds| && AllInRange(feeds, compute) && c in GridFeeders(grids, compute, feeds)
    ensures k < |grids| && i < |feeds[k]| && Switchboard(grids[k]).Some? && Panelboard(compute[feeds[k][i] - 1]).Some?
    ensures c == Run(Switchboard(grids[k]).value, Panelboard(compute[feeds[k][i] - 1]).value, Feeder, FEEDER_CABLE)
  {
    var groups := FeederGroups(grids, compute, feeds);
    ConcatMember(groups, c);
    k :| 0 <= k < |groups| && c in groups[k];
    var runs := FeederRuns(Switchboard(grids[k]).value, compute, feeds[k]);
    ConcatMember(runs, c);
    i :| 0 <= i < |runs| && c in runs[i];
  }

  lemma FedHasFeeder(grids: seq<Container>, compute: seq<Container>, feeds: seq<seq<int>>, k: nat, n: nat)
    requires |grids| == |feeds| && AllInRange(feeds, compute)
    requires GearTagged(grids, compute) && k < |grids| && 1 <= n <= |compute| && n in feeds[k]
    ensures HasFeeder(GridFeeders(grids, compute, feeds), Switchboard(grids[k]).value, Panelboard(compute[n - 1]).value)
  {
    var i :| 0 <= i < |feeds[k]| && feeds[k][i] == n;
    FeederHere(grids, compute, feeds, k, i);
    var c := Run(Switchboard(grids[k]).value, Panelboard(compute[n - 1]).value, Feeder, FEEDER_CABLE);
    assert c in GridFeeders(grids, compute, feeds) && c.service == Feeder;
  }

  lemma FeederIsFed(grids: seq<Container>, compute: seq<Container>, feeds: seq<seq<int>>, k: nat, n: nat)
    requires |grids| == |feeds| && AllInRange(feeds, compute)
    requires GearTagged(grids, compute) && k < |grids| && 1 <= n <= |compute|
    requires HasFeeder(GridFeeders(grids, compute, feeds), Switchboard(grids[k]).value, Panelboard(compute[n - 1]).value)
    ensures n in feeds[k]
  {
    var swbd, pnl := Switchboard(grids[k]).value, Panelboard(compute[n - 1]).value;
    var c :| c in GridFeeders(grids, compute, feeds) && c.service == Feeder && c.fromTag == Tag(swbd) && c.toTag == Tag(pnl);
    var j, i := FeederFrom(grids, compute, feeds, c);
    assert j == k;
    assert feeds[j][i] - 1 == n - 1;
  }

  lemma FeederIff(grids: seq<Container>, compute: seq<Container>, feeds: seq<seq<int>>, k: nat, n: nat)
    requires |grids| == |feeds| && AllInRange(feeds, compute)
    requires GearTagged(grids, compute) && k < |grids| && 1 <= n <= |compute|
    ensures HasFeeder(GridFeeders(grids, compute, feeds), Switchboard(grids[k]).value, Panelboard(compute[n - 1]).value)
            <==> n in feeds[k]
  {
    if n in feeds[k] {
      FedHasFeeder(grids, compute, feeds, k, n);
    }
    if HasFeeder(GridFeeders(grids, compute, feeds), Switchboard(grids[k]).value, Panelboard(compute[n - 1]).value) {
      FeederIsFed(grids, compute, feeds, k, n);
    }
  }

  // ----- A/B paths -----

  function FromTags(cables: seq<Cable>): seq<string> { Map((c: Cable) => c.fromTag, cables) }

  function ToTags(cables: seq<Cable>): seq<string> { Map((c: Cable) => c.toTag, cables) }

  /** How many of the first m servers land on PDU j of p. */
  function FedBy(m: nat, p: nat, j: nat): nat
    requires p > 0
  {
    if m == 0 then 0 else FedBy(m - 1, p, j) + if (m - 1) % p == j then 1 else 0
  }

  lemma SmallMod(x: nat, p: nat)
    requires x < p
    ensures x % p == x
  {
  }

  lemma {:induction false} OneLap(m: nat, p: nat, j: nat)
    requires 0 < p && m <= p
    ensures FedBy(m, p, j) == if j < m then 1 else 0
  {
    if m > 0 {
      OneLap(m - 1, p, j);
      SmallMod(m - 1, p);
    }
  }

  lemma ModShift(x: nat, p: nat)
    requires p > 0
    ensures (x + p) % p == x % p
  {
    var d := x / p;
    assert d * p + x % p == x;
    assert (d + 1) * p == d * p + p;
    InSlot(x + p, p, d + 1);
  }

  lemma {:induction false} NextLap(m: nat, p: nat, j: nat)
    requires 0 < p
    ensures FedBy(m + p, p, j) == FedBy(m, p, j) + FedBy(p, p, j)
  {
    if m > 0 {
      NextLap(m - 1, p, j);
      ModShift(m - 1, p);
    }
  }

  /** Round robin over p PDUs never puts more than 3 of up to 3p servers on one. */
  lemma {:induction false} AtMostThree(m: nat, p: nat, j: nat)
    requires 0 < p && m <= 3 * p
    ensures FedBy(m, p, j) <= 3
  {
    OneLap(p, p, j);
    if m <= p {
      OneLap(m, p, j);
    } else if m <= 2 * p {
      OneLap(m - p, p, j);
      NextLap(m - p, p, j);
    } else {
      OneLap(m - 2 * p, p, j);
      NextLap(m - 2 * p, p, j);
      NextLap(m - p, p, j);
    }
  }

  function TagsOf(devices: seq<Device>): seq<string> { Map((d: Device) => Tag(d), devices) }
}
