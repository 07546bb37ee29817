/** Comms runs: the management network of ADR-019. */
module CommsCables {
  import opened Lists
  import opened Text
  import opened Numbering
  import opened Catalog
  import opened Dtm
  import opened SiteIndex
  import opened Cabling

  const MGMT_SWITCHES: set<string> := {"mgmt_switch", "grid_mgmt_switch"}
  const COPPER := "Cat6 STP"
  const FIBER := "Single-mode fiber pair, LC duplex"
  const GATEWAY := "EMS-GW"

  datatype CommsError = NoManagementSwitch(container: string)

  /** A polled device and the switch it patches into. */
  datatype Job = Job(device: Device, switch: Device)

  function IsPolled(): Device -> bool { (d: Device) => d.connection.Some? }

  function Polled(c: Container): seq<Device> { Filter(IsPolled(), c.devices) }

  function OwnSwitch(c: Container): Option<Device> { c.One(MGMT_SWITCHES) }

  function PrimarySwitch(sites: seq<Container>): Option<Device> {
    var grids := Filter((c: Container) => c.kind == Grid, sites);
    if grids == [] then None else OwnSwitch(grids[0])
  }

  /** The battery's controller patches to G1's switch, everything else to its own container's. */
  function SwitchFor(c: Container, g1: Option<Device>): Option<Device> {
    if c.kind == Bess then g1 else OwnSwitch(c)
  }

  function JobsOf(c: Container, g1: Option<Device>): seq<Job> {
    if SwitchFor(c, g1).None? then [] else Map((d: Device) => Job(d, SwitchFor(c, g1).value), Polled(c))
  }

  function JobGroups(sites: seq<Container>, g1: Option<Device>): seq<seq<Job>> {
    Map((c: Container) => JobsOf(c, g1), sites)
  }

  function Jobs(sites: seq<Container>, g1: Option<Device>): seq<Job> { Concat(JobGroups(sites, g1)) }

  function SwitchTags(jobs: seq<Job>): seq<string> { Map((j: Job) => Tag(j.switch), jobs) }

  function PatchFor(templates: Templates, j: Job, port: nat): Cable {
    var protocol := if j.device.template in templates then templates[j.device.template].protocol else None;
    Cable("", Patch(protocol), Tag(j.device), "MGMT", Tag(j.switch), "1/" + Dec(port), COPPER)
  }

  /** Ports are numbered per switch in the order devices are patched. */
  function Patches(templates: Templates, jobs: seq<Job>): (r: seq<Cable>)
    ensures |r| == |jobs|
  {
    seq(|jobs|, i requires 0 <= i < |jobs| => PatchFor(templates, jobs[i], Ordinal(SwitchTags(jobs), i)))
  }

  function UplinkTo(switch: Device, to: string, media: string): Cable {
    Cable("", Uplink, Tag(switch), "UPLINK", to, "DOWNLINK", media)
  }

  function UplinksOf(c: Container, g1: Device): seq<Cable> {
    if OwnSwitch(c).None? || OwnSwitch(c).value == g1 then [] else [UplinkTo(OwnSwitch(c).value, Tag(g1), FIBER)]
  }

  function Uplinks(sites: seq<Container>, g1: Option<Device>): seq<Cable> {
    if g1.None? then []
    else Concat(Map((c: Container) => UplinksOf(c, g1.value), sites)) + [UplinkTo(g1.value, GATEWAY, COPPER)]
  }

  predicate Orphaned(c: Container, g1: Option<Device>) { SwitchFor(c, g1).None? && Polled(c) != [] }

  /** First container whose polled devices have no switch to patch into. */
  function FirstOrphan(sites: seq<Container>, g1: Option<Device>): Option<string> {
    if sites == [] then None
    else
      var before := FirstOrphan(sites[..|sites| - 1], g1);
      if before.Some? then before
      else if Orphaned(sites[|sites| - 1], g1) then Some(sites[|sites| - 1].tag) else None
  }

  function CommsSheet(templates: Templates, sites: seq<Container>): Result<seq<Cable>, CommsError> {
    var g1 := PrimarySwitch(sites);
    match FirstOrphan(sites, g1)
    case Some(tag) => Err(NoManagementSwitch(tag))
    case None => Ok(Patches(templates, Jobs(sites, g1)) + Uplinks(sites, g1))
  }

  // ----- the loops -----

  ghost predicate Ports(used: map<string, nat>, jobs: seq<Job>) {
    forall t :: (if t in used then used[t] else 0) == Count(SwitchTags(jobs), t)
  }

  lemma {:induction false} OrdinalsStay(tags: seq<string>, t: string)
    ensures forall i :: 0 <= i < |tags| ==> Ordinal(tags + [t], i) == Ordinal(tags, i)
    ensures Ordinal(tags + [t], |tags|) == Count(tags, t) + 1
  {
    forall i | 0 <= i < |tags| ensures Ordinal(tags + [t], i) == Ordinal(tags, i) {
      assert (tags + [t])[..i] == tags[..i];
    }
    assert (tags + [t])[..|tags|] == tags;
  }

  lemma PatchStays(templates: Templates, jobs: seq<Job>, j: Job, i: nat)
    requires i < |jobs|
    ensures Patches(templates, jobs + [j])[i] == Patches(templates, jobs)[i]
  {
    assert SwitchTags(jobs + [j]) == SwitchTags(jobs) + [Tag(j.switch)];
    OrdinalsStay(SwitchTags(jobs), Tag(j.switch));
  }

  lemma PatchesSnoc(templates: Templates, jobs: seq<Job>, j: Job)
    ensures SwitchTags(jobs + [j]) == SwitchTags(jobs) + [Tag(j.switch)]
    ensures Patches(templates, jobs + [j])
         == Patches(templates, jobs) + [PatchFor(templates, j, Count(SwitchTags(jobs), Tag(j.switch)) + 1)]
  {
    OrdinalsStay(SwitchTags(jobs), Tag(j.switch));
    forall i | 0 <= i < |jobs| ensures Patches(templates, jobs + [j])[i] == Patches(templates, jobs)[i] {
      PatchStays(templates, jobs, j, i);
    }
  }

  /** Rows patched and ports used when patching has come from `jobs` to `done`. */
  ghost predicate Patched(templates: Templates, jobs: seq<Job>, done: seq<Job>, rows: seq<Cable>, used: map<string, nat>) {
    Patches(templates, jobs) + rows == Patches(templates, done) && Ports(used, done)
  }

  lemma PatchedStep(templates: Templates, jobs: seq<Job>, done: seq<Job>, rows: seq<Cable>, used: map<string, nat>, j: Job)
    requires Patched(templates, jobs, done, rows, used)
    ensures var port := (if Tag(j.switch) in used then used[Tag(j.switch)] else 0) + 1;
            Patched(templates, jobs, done + [j], rows + [PatchFor(templates, j, port)], used[Tag(j.switch) := port])
  {
    PatchesSnoc(templates, done, j);
    PortTaken(used, done, j);
  }

  /** … with the first i of a container's jobs done. */
  ghost predicate PatchedTo(templates: Templates, jobs: seq<Job>, own: seq<Job>, i: nat, rows: seq<Cable>, used: map<string, nat>) {
    i <= |own| && Patched(templates, jobs, jobs + own[..i], rows, used)
  }

  lemma PatchedToNext(templates: Templates, jobs: seq<Job>, own: seq<Job>, i: nat, rows: seq<Cable>, used: map<string, nat>)
    requires PatchedTo(templates, jobs, own, i, rows, used) && i < |own|
    ensures var t := Tag(own[i].switch);
            var port := (if t in used then used[t] else 0) + 1;
            PatchedTo(templates, jobs, own, i + 1, rows + [PatchFor(templates, own[i], port)], used[t := port])
  {
    PatchedStep(templates, jobs, jobs + own[..i], rows, used, own[i]);
    assert jobs + own[..i + 1] == jobs + own[..i] + [own[i]];
  }

  /** One container's polled devices, each taking the next port of its switch. */
  method PatchContainer(templates: Templates, c: Container, switch: Device, used0: map<string, nat>, ghost jobs: seq<Job>)
    returns (rows: seq<Cable>, used: map<string, nat>)
    requires Ports(used0, jobs)
    ensures Patched(templates, jobs, jobs + Map((d: Device) => Job(d, switch), Polled(c)), rows, used)
  {
    var polled := Polled(c);
    used := used0;
    rows := [];
    ghost var own := Map((d: Device) => Job(d, switch), polled);
    assert jobs + own[..0] == jobs;
    for i := 0 to |polled|
      invariant PatchedTo(templates, jobs, own, i, rows, used)
    {
      PatchedToNext(templates, jobs, own, i, rows, used);
      assert own[i] == Job(polled[i], switch);
      var port := (if Tag(switch) in used then used[Tag(switch)] else 0) + 1;
      used := used[Tag(switch) := port];
      rows := rows + [PatchFor(templates, Job(polled[i], switch), port)];
    }
    assert own[..|polled|] == own;
  }

  lemma PortTaken(used: map<string, nat>, jobs: seq<Job>, j: Job)
    requires Ports(used, jobs)
    ensures var t := Tag(j.switch);
            var port := (if t in used then used[t] else 0) + 1;
            port == Count(SwitchTags(jobs), t) + 1 && Ports(used[t := port], jobs + [j])
  {
    assert SwitchTags(jobs + [j]) == SwitchTags(jobs) + [Tag(j.switch)];
    var port := (if Tag(j.switch) in used then used[Tag(j.switch)] else 0) + 1;
    forall t ensures (if t in used[Tag(j.switch) := port] then used[Tag(j.switch) := port][t] else 0) == Count(SwitchTags(jobs + [j]), t) {
      CountSnoc(SwitchTags(jobs), Tag(j.switch), t);
    }
  }

  ghost predicate PatchedUpTo(templates: Templates, groups: seq<seq<Job>>, k: nat, rows: seq<Cable>, used: map<string, nat>)
    requires k <= |groups|
  {
    rows == Patches(templates, Concat(groups[..k])) && Ports(used, Concat(groups[..k]))
  }

  /** One container of the patch loop: nothing to patch, or its devices appended. */
  method PatchNext(templates: Templates, sites: seq<Container>, g1: Option<Device>, k: nat,
                   rows0: seq<Cable>, used0: map<string, nat>)
    returns (rows: seq<Cable>, used: map<string, nat>)
    requires k < |sites| && PatchedUpTo(templates, JobGroups(sites, g1), k, rows0, used0)
    ensures PatchedUpTo(templates, JobGroups(sites, g1), k + 1, rows, used)
  {
    ghost var groups := JobGroups(sites, g1);
    ConcatStep(groups, k);
    var switch := SwitchFor(sites[k], g1);
    if switch.None? {
      rows, used := rows0, used0;
      assert groups[k] == [];
      assert Concat(groups[..k]) + [] == Concat(groups[..k]);
    } else {
      var own;
      own, used := PatchContainer(templates, sites[k], switch.value, used0, Concat(groups[..k]));
      rows := rows0 + own;
    }
  }

  method BuildPatches(templates: Templates, sites: seq<Container>, g1: Option<Device>) returns (rows: Result<seq<Cable>, CommsError>)
    ensures rows == match FirstOrphan(sites, g1)
                    case Some(tag) => Err(NoManagementSwitch(tag))
                    case None => Ok(Patches(templates, Jobs(sites, g1)))
  {
    var patches: seq<Cable> := [];
    var used: map<string, nat> := map[];
    for k := 0 to |sites|
      invariant FirstOrphan(sites[..k], g1).None?
      invariant PatchedUpTo(templates, JobGroups(sites, g1), k, patches, used)
    {
      assert sites[..k + 1][..k] == sites[..k];
      if Orphaned(sites[k], g1) {
        OrphanKept(sites, g1, k + 1, sites[k].tag);
        return Err(NoManagementSwitch(sites[k].tag));
      }
      patches, used := PatchNext(templates, sites, g1, k, patches, used);
    }
    assert sites[..|sites|] == sites && JobGroups(sites, g1)[..|sites|] == JobGroups(sites, g1);
    rows := Ok(patches);
  }

  method BuildUplinks(sites: seq<Container>, g1: Device) returns (uplinks: seq<Cable>)
    ensures uplinks == Concat(Map((c: Container) => UplinksOf(c, g1), sites))
  {
    uplinks := [];
    ghost var links := Map((c: Container) => UplinksOf(c, g1), sites);
    for k := 0 to |sites|
      invariant uplinks == Concat(links[..k])
    {
      assert links[..k + 1][..k] == links[..k];
      uplinks := uplinks + UplinksOf(sites[k], g1);
    }
    assert links[..|sites|] == links;
  }

  /** comms_cables */
  method BuildCommsCables(templates: Templates, sites: seq<Container>) returns (cables: Result<seq<Cable>, CommsError>)
    ensures cables == CommsSheet(templates, sites)
  {
    var g1 := PrimarySwitch(sites);
    var patches := BuildPatches(templates, sites, g1);
    if patches.Err? || g1.None? {
      assert patches.Ok? ==> patches.value + [] == patches.value;
      return patches;
    }
    var uplinks := BuildUplinks(sites, g1.value);
    cables := Ok(patches.value + (uplinks + [UplinkTo(g1.value, GATEWAY, COPPER)]));
  }

  lemma {:induction false} OrphanKept(sites: seq<Container>, g1: Option<Device>, k: nat, tag: string)
    requires k <= |sites|
    requires FirstOrphan(sites[..k], g1) == Some(tag) || (k > 0 && FirstOrphan(sites[..k - 1], g1).None? && Orphaned(sites[k - 1], g1) && sites[k - 1].tag == tag)
    ensures FirstOrphan(sites, g1) == Some(tag)
    decreases |sites| - k
  {
    if k > 0 {
      assert sites[..k][..k - 1] == sites[..k - 1];
    }
    if k < |sites| {
      assert sites[..k + 1][..k] == sites[..k];
      OrphanKept(sites, g1, k + 1, tag);
    } else {
      assert sites[..k] == sites;
    }
  }

  // ----- the network -----

  /** The sheet fails only for a container that polls with no switch to patch into. */
  lemma CommsSheetOkIff(templates: Templates, sites: seq<Container>)
    ensures CommsSheet(templates, sites).Ok? <==> forall k :: 0 <= k < |sites| ==> !Orphaned(sites[k], PrimarySwitch(sites))
  {
    NoOrphanIff(sites, PrimarySwitch(sites));
  }

  lemma {:induction false} NoOrphanIff(sites: seq<Container>, g1: Option<Device>)
    ensures FirstOrphan(sites, g1).None? <==> forall k :: 0 <= k < |sites| ==> !Orphaned(sites[k], g1)
  {
    if sites != [] {
      var init := sites[..|sites| - 1];
      NoOrphanIff(init, g1);
      assert forall k :: 0 <= k < |init| ==> init[k] == sites[k];
    }
  }

  /** No two patches share a switch port. */
  lemma PortsNeverShared(templates: Templates, jobs: seq<Job>, i: nat, j: nat)
    requires i < |jobs| && j < |jobs|
    requires Patches(templates, jobs)[i].toTag == Patches(templates, jobs)[j].toTag
    requires Patches(templates, jobs)[i].toPort == Patches(templates, jobs)[j].toPort
    ensures i == j
  {
    var tags := SwitchTags(jobs);
    var a, b := "1/" + Dec(Ordinal(tags, i)), "1/" + Dec(Ordinal(tags, j));
    assert a[2..] == Dec(Ordinal(tags, i)) && b[2..] == Dec(Ordinal(tags, j));
    DecInjective(Ordinal(tags, i), Ordinal(tags, j));
    OrdinalInjective(tags, i, j);
  }

  /** Each switch's ports are 1..k with no gap, even where the battery patches into G1's switch. */
  lemma {:induction false} PortsHaveNoGaps(templates: Templates, jobs: seq<Job>, switchTag: string, port: nat)
    ensures 1 <= port <= Count(SwitchTags(jobs), switchTag)
            <==> exists i :: 0 <= i < |jobs| && Patches(templates, jobs)[i].toTag == switchTag
                             && Patches(templates, jobs)[i].toPort == "1/" + Dec(port)
  {
    var tags := SwitchTags(jobs);
    if 1 <= port <= Count(tags, switchTag) {
      OrdinalOnto(tags, switchTag, port);
      var i :| 0 <= i < |tags| && tags[i] == switchTag && Ordinal(tags, i) == port;
      assert Patches(templates, jobs)[i].toTag == switchTag && Patches(templates, jobs)[i].toPort == "1/" + Dec(port);
    }
    if i :| 0 <= i < |jobs| && Patches(templates, jobs)[i].toTag == switchTag && Patches(templates, jobs)[i].toPort == "1/" + Dec(port) {
      var a, b := "1/" + Dec(Ordinal(tags, i)), "1/" + Dec(port);
      assert a[2..] == Dec(Ordinal(tags, i)) && b[2..] == Dec(port);
      DecInjective(Ordinal(tags, i), port);
      OrdinalAtMostCount(tags, i);
    }
  }
}
