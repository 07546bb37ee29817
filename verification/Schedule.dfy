/** The cable and hose schedule of a site, and the field material it asks for. */
module Schedule {
  import opened Lists
  import opened Text
  import opened Numbering
  import opened Catalog
  import opened ComputeFeeds
  import opened Dtm
  import opened SiteIndex
  import opened Cabling
  import opened PowerCables
  import opened CommsCables
  import opened Hoses
  import opened RefDes
  import opened BomModel
  import opened BomCoverage
  import opened FieldMaterial

  datatype ScheduleError = PowerFailed(power: PowerError) | CommsFailed(comms: CommsError)

  datatype CableHose = CableHose(cables: seq<Cable>, hoses: seq<Hose>)

  function TagCables(cables: seq<Cable>): (r: seq<Cable>)
    ensures |r| == |cables|
  {
    seq(|cables|, i requires 0 <= i < |cables| => cables[i].(tag := "CBL-" + Pad(4, i + 1)))
  }

  function TagHoses(hoses: seq<Hose>): (r: seq<Hose>)
    ensures |r| == |hoses|
  {
    seq(|hoses|, i requires 0 <= i < |hoses| => hoses[i].(tag := "HOS-" + Pad(4, i + 1)))
  }

  /** Power then comms cables, then hoses, each kind numbered through. */
  function ScheduleOf(used: Templates, devices: seq<Device>): Result<CableHose, ScheduleError> {
    var sites := Containers(devices);
    match PowerSheet(sites)
    case Err(e) => Err(PowerFailed(e))
    case Ok(power) =>
      match CommsSheet(used, sites)
      case Err(e) => Err(CommsFailed(e))
      case Ok(comms) => Ok(CableHose(TagCables(power + comms), TagHoses(AllHoses(sites))))
  }

  /** CableHoseScheduleService.generate */
  method BuildSchedule(used: Templates, devices: seq<Device>) returns (r: Result<CableHose, ScheduleError>)
    ensures r == ScheduleOf(used, devices)
  {
    var sites := CollectContainers(devices);
    var power := BuildPowerCables(sites);
    if power.Err? {
      return Err(PowerFailed(power.error));
    }
    var comms := BuildCommsCables(used, sites);
    if comms.Err? {
      return Err(CommsFailed(comms.error));
    }
    var hoses := BuildHoses(sites);
    r := Ok(CableHose(TagCables(power.value + comms.value), TagHoses(hoses)));
  }

  // ----- what the BOM buys of it -----

  function CableRuns(s: CableHose): seq<FieldRun> { Map((c: Cable) => FieldRun(c.media, c.tag), s.cables) }

  function HoseRuns(s: CableHose): seq<FieldRun> { Map((h: Hose) => FieldRun(h.kind, h.tag), s.hoses) }

  function RunsOf(s: CableHose): seq<FieldRun> { CableRuns(s) + HoseRuns(s) }

  function CableKinds(s: CableHose): seq<string> { Map((c: Cable) => c.media, s.cables) }

  function HoseKinds(s: CableHose): seq<string> { Map((h: Hose) => h.kind, s.hoses) }

  lemma RunsAreNumbered(cables: seq<Cable>, hoses: seq<Hose>)
    ensures var s := CableHose(TagCables(cables), TagHoses(hoses));
            RunsOf(s) == NumberRuns("CBL-", CableKinds(s)) + NumberRuns("HOS-", HoseKinds(s))
  {
    var s := CableHose(TagCables(cables), TagHoses(hoses));
    assert CableRuns(s) == NumberRuns("CBL-", CableKinds(s));
    assert HoseRuns(s) == NumberRuns("HOS-", HoseKinds(s));
  }

  /** Every cable and hose of the schedule is bought once, under a label that reads back to the tags of exactly the runs made
      of that material. */
  lemma EveryRunOrdered(used: Templates, devices: seq<Device>, k: nat)
    requires ScheduleOf(used, devices).Ok? && k < |FieldLines(RunsOf(ScheduleOf(used, devices).value))|
    ensures var s := ScheduleOf(used, devices).value;
            var line := FieldLines(RunsOf(s))[k];
            && Expand(line.refDes) == TagsOfKind(RunsOf(s), line.partNumber)
            && line.qty == |TagsOfKind(RunsOf(s), line.partNumber)|
            && QtySum(FieldLines(RunsOf(s))) == |s.cables| + |s.hoses|
  {
    var s, sites := ScheduleOf(used, devices).value, Containers(devices);
    RunsAreNumbered(PowerSheet(sites).value + CommsSheet(used, sites).value, AllHoses(sites));
    FieldLinesNameTheirRuns(CableKinds(s), HoseKinds(s), k);
  }

  // ----- no plate among the field material -----

  predicate CableMedia(kind: string) {
    kind in {FEEDER_CABLE, PCS_DC_CABLE, PDU_CORD, FIELD_WIRED, NODE_CORD, SWITCH_CORD, COPPER, FIBER}
  }

  predicate HoseMedia(kind: string) { kind in {PRIMARY_HOSE, SECONDARY_HOSE} }

  ghost predicate MediaKnown(cables: seq<Cable>) { forall i :: 0 <= i < |cables| ==> CableMedia(cables[i].media) }

  ghost predicate HosesAreHoses(hoses: seq<Hose>) { forall i :: 0 <= i < |hoses| ==> HoseMedia(hoses[i].kind) }

  lemma MediaAppend(a: seq<Cable>, b: seq<Cable>)
    requires MediaKnown(a) && MediaKnown(b)
    ensures MediaKnown(a + b)
  {
  }

  lemma {:induction false} ConcatKnown(groups: seq<seq<Cable>>)
    requires forall k :: 0 <= k < |groups| ==> MediaKnown(groups[k])
    ensures MediaKnown(Concat(groups))
  {
    if groups != [] {
      ConcatKnown(groups[..|groups| - 1]);
    }
  }

  lemma FeedersKnown(grids: seq<Container>, compute: seq<Container>, feeds: seq<seq<int>>)
    requires |grids| == |feeds| && AllInRange(feeds, compute)
    ensures MediaKnown(GridFeeders(grids, compute, feeds))
  {
    var groups := PowerCables.FeederGroups(grids, compute, feeds);
    forall k | 0 <= k < |groups| ensures MediaKnown(groups[k]) {
      if Switchboard(grids[k]).Some? {
        ConcatKnown(FeederRuns(Switchboard(grids[k]).value, compute, feeds[k]));
      }
    }
    ConcatKnown(groups);
  }

  lemma {:induction false} PadsKnown(pads: seq<Container>)
    ensures MediaKnown(AllPads(pads))
  {
    if pads != [] {
      PadsKnown(pads[..|pads| - 1]);
    }
  }

  lemma {:induction false} NodesKnown(nodes: seq<Device>, a: seq<Device>, b: seq<Device>)
    ensures MediaKnown(NodeFeeds(nodes, a, b))
  {
    if nodes != [] {
      NodesKnown(nodes[..|nodes| - 1], a, b);
    }
  }

  lemma {:induction false} SwitchesKnown(switches: seq<Device>, a: seq<Device>, b: seq<Device>)
    ensures MediaKnown(SwitchFeeds(switches, a, b))
  {
    if switches != [] {
      SwitchesKnown(switches[..|switches| - 1], a, b);
    }
  }

  lemma {:induction false} BranchesKnown(compute: seq<Container>)
    ensures MediaKnown(AllBranches(compute))
  {
    if compute != [] {
      var c := compute[|compute| - 1];
      BranchesKnown(compute[..|compute| - 1]);
      NodesKnown(c.Of(GPU_NODES), Pdus(c, 'A'), Pdus(c, 'B'));
      SwitchesKnown(c.Of(SWITCHES), Pdus(c, 'A'), Pdus(c, 'B'));
      PanelKnown(c);
      MediaAppend(PanelRuns(c), NodeFeeds(c.Of(GPU_NODES), Pdus(c, 'A'), Pdus(c, 'B')));
      MediaAppend(PanelRuns(c) + NodeFeeds(c.Of(GPU_NODES), Pdus(c, 'A'), Pdus(c, 'B')), SwitchFeeds(c.Of(SWITCHES), Pdus(c, 'A'), Pdus(c, 'B')));
      MediaAppend(AllBranches(compute[..|compute| - 1]), Branches(c));
    }
  }

  lemma PanelKnown(c: Container)
    ensures MediaKnown(PanelRuns(c))
  {
  }

  lemma PowerKnown(sites: seq<Container>)
    requires PowerSheet(sites).Ok?
    ensures MediaKnown(PowerSheet(sites).value)
  {
    var compute, grids := Filter(OfKind(Compute), sites), Filter(OfKind(Grid), sites);
    FeedsInRange(compute, |grids|);
    FeedersKnown(grids, compute, Feeds(|compute|, |grids|));
    PadsKnown(Filter(OfKind(Bess), sites));
    BranchesKnown(compute);
  }

  lemma CommsKnown(used: Templates, sites: seq<Container>)
    requires CommsSheet(used, sites).Ok?
    ensures MediaKnown(CommsSheet(used, sites).value)
  {
    var g1 := PrimarySwitch(sites);
    if g1.Some? {
      ConcatKnown(Map((c: Container) => UplinksOf(c, g1.value), sites));
    }
  }

  lemma {:induction false} LoopsKnown(cdu: Device, nodes: seq<Device>)
    ensures HosesAreHoses(NodeLoops(cdu, nodes))
  {
    if nodes != [] {
      LoopsKnown(cdu, nodes[..|nodes| - 1]);
    }
  }

  lemma ContainerHosesKnown(c: Container)
    ensures HosesAreHoses(HosesOf(c))
  {
    if c.One({"cdu"}).Some? {
      LoopsKnown(c.One({"cdu"}).value, c.Of(GPU_NODES));
    }
  }

  lemma {:induction false} HosesKnown(sites: seq<Container>)
    ensures HosesAreHoses(AllHoses(sites))
  {
    if sites != [] {
      HosesKnown(sites[..|sites| - 1]);
      ContainerHosesKnown(sites[|sites| - 1]);
    }
  }

  ghost predicate RunsKnown(runs: seq<FieldRun>) { forall i :: 0 <= i < |runs| ==> CableMedia(runs[i].kind) || HoseMedia(runs[i].kind) }

  lemma ScheduleKnown(used: Templates, devices: seq<Device>)
    requires ScheduleOf(used, devices).Ok?
    ensures RunsKnown(RunsOf(ScheduleOf(used, devices).value))
  {
    var s, sites := ScheduleOf(used, devices).value, Containers(devices);
    PowerKnown(sites);
    CommsKnown(used, sites);
    HosesKnown(sites);
    MediaAppend(PowerSheet(sites).value, CommsSheet(used, sites).value);
    forall i | 0 <= i < |s.cables| ensures CableMedia(CableRuns(s)[i].kind) {
      assert s.cables[i].media == (PowerSheet(sites).value + CommsSheet(used, sites).value)[i].media;
    }
    forall i | 0 <= i < |s.hoses| ensures HoseMedia(HoseRuns(s)[i].kind) {
      assert s.hoses[i].kind == AllHoses(sites)[i].kind;
    }
  }

  lemma LineIsARun(runs: seq<FieldRun>, k: nat) returns (i: nat)
    requires k < |FieldLines(runs)|
    ensures i < |runs| && FieldLines(runs)[k].partNumber == runs[i].kind
  {
    var kinds := KindsOf(runs);
    FirstSeenMember(kinds, FieldLines(runs)[k].partNumber);
    i :| 0 <= i < |kinds| && kinds[i] == FieldLines(runs)[k].partNumber;
  }

  lemma MediaAreNoPlate(kind: string, pid: string, defense: bool)
    requires CableMedia(kind) || HoseMedia(kind)
    ensures kind != PlateNumber(pid, defense)
  {
    assert Last(FEEDER_CABLE) == ')' && Last(PCS_DC_CABLE) == 't' && Last(PDU_CORD) == 'g' && Last(FIELD_WIRED) == 'd';
    assert Last(NODE_CORD) == ')' && Last(SWITCH_CORD) == 't' && Last(COPPER) == 'P' && Last(FIBER) == 'x';
    assert Last(PRIMARY_HOSE) == 'd' && Last(SECONDARY_HOSE) == 'd';
    PlateNumberEnds(pid, defense);
  }

  lemma PlateNumberEnds(pid: string, defense: bool)
    ensures var number := PlateNumber(pid, defense); number != "" && Last(number) == if defense then 'D' else '1'
  {
  }

  /** Field material is never a plate: no schedule makes a line that carries a plate's part number. */
  lemma ScheduleBuysNoPlate(used: Templates, devices: seq<Device>, pid: string, defense: bool, k: nat)
    requires ScheduleOf(used, devices).Ok? && k < |FieldLines(RunsOf(ScheduleOf(used, devices).value))|
    ensures FieldLines(RunsOf(ScheduleOf(used, devices).value))[k].partNumber != PlateNumber(pid, defense)
  {
    var runs := RunsOf(ScheduleOf(used, devices).value);
    ScheduleKnown(used, devices);
    var i := LineIsARun(runs, k);
    MediaAreNoPlate(runs[i].kind, pid, defense);
  }
}
