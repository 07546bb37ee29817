/** What the comms sheet adds up to: a tree of cables into the EMS gateway. */
module ManagementNetwork {
  import opened Lists
  import opened Text
  import opened Numbering
  import opened Catalog
  import opened Dtm
  import opened SiteIndex
  import opened Cabling
  import opened PowerCables
  import opened CommsCables

  function PolledTags(sites: seq<Container>): seq<string> {
    Concat(Map((c: Container) => TagsOf(CommsCables.Polled(c)), sites))
  }

  function ChildTags(sites: seq<Container>): seq<string> {
    Concat(Map((c: Container) => TagsOf(c.devices), sites))
  }

  function UplinkTagsOf(c: Container, g1: Device): seq<string> {
    if OwnSwitch(c).None? || OwnSwitch(c).value == g1 then [] else [Tag(OwnSwitch(c).value)]
  }

  function UplinkTags(sites: seq<Container>, g1: Device): seq<string> {
    Concat(Map((c: Container) => UplinkTagsOf(c, g1), sites))
  }

  /** Site tags are unique and none is the gateway's. */
  ghost predicate OneTagEach(sites: seq<Container>) {
    Distinct(ChildTags(sites)) && GATEWAY !in ChildTags(sites)
  }

  /** A management switch that is itself polled over the network it carries. */
  ghost predicate PollsOwnSwitch(c: Container) {
    OwnSwitch(c).Some? && OwnSwitch(c).value.connection.Some?
  }

  ghost predicate SomeSwitchPolled(sites: seq<Container>) {
    exists k :: 0 <= k < |sites| && PollsOwnSwitch(sites[k])
  }

  // ----- counting tags -----

  lemma {:induction false} CountZeroIff(names: seq<string>, t: string)
    ensures Count(names, t) == 0 <==> t !in names
  {
    if names != [] {
      CountZeroIff(names[..|names| - 1], t);
      assert names == names[..|names| - 1] + [names[|names| - 1]];
    }
  }

  lemma {:induction false} DistinctIffCount(names: seq<string>)
    ensures Distinct(names) <==> forall t :: Count(names, t) <= 1
  {
    if Distinct(names) {
      forall t ensures Count(names, t) <= 1 {
        DistinctCount(names, t);
      }
    } else {
      var i, j :| 0 <= i < j < |names| && names[i] == names[j];
      PrefixCounts(names, i, j, names[j]);
      PrefixCounts(names, j, |names|, names[j]);
      assert names[..|names|] == names;
      assert Count(names, names[j]) >= 2;
    }
  }

  lemma {:induction false} DistinctCount(names: seq<string>, t: string)
    requires Distinct(names)
    ensures Count(names, t) <= 1
  {
    if names != [] {
      var init := names[..|names| - 1];
      DistinctCount(init, t);
      CountZeroIff(init, t);
    }
  }

  /** Groups counted one by one: two lists, plus one extra name against group k1, stay within a third. */
  lemma {:induction false} CountGroups(a: seq<seq<string>>, u: seq<seq<string>>, all: seq<seq<string>>, k1: nat, x: string, t: string)
    requires |a| == |u| == |all|
    requires forall k :: 0 <= k < |all| ==>
               Count(a[k], t) + Count(u[k], t) + (if k == k1 && x == t then 1 else 0) <= Count(all[k], t)
    ensures Count(Concat(a), t) + Count(Concat(u), t) + (if k1 < |all| && x == t then 1 else 0) <= Count(Concat(all), t)
  {
    if all != [] {
      var last := |all| - 1;
      CountGroups(a[..last], u[..last], all[..last], k1, x, t);
      CountAppend(Concat(a[..last]), a[last], t);
      CountAppend(Concat(u[..last]), u[last], t);
      CountAppend(Concat(all[..last]), all[last], t);
    }
  }

  lemma {:induction false} PolledSnoc(init: seq<Device>, d: Device, t: string)
    ensures Count(TagsOf(Filter(IsPolled(), init + [d])), t)
         == Count(TagsOf(Filter(IsPolled(), init)), t) + if d.connection.Some? && Tag(d) == t then 1 else 0
  {
    assert (init + [d])[..|init|] == init;
    if d.connection.Some? {
      assert TagsOf(Filter(IsPolled(), init) + [d]) == TagsOf(Filter(IsPolled(), init)) + [Tag(d)];
      CountSnoc(TagsOf(Filter(IsPolled(), init)), Tag(d), t);
    } else {
      assert Filter(IsPolled(), init + [d]) == Filter(IsPolled(), init);
    }
  }

  lemma {:induction false} ChildSnoc(init: seq<Device>, d: Device, t: string)
    ensures Count(TagsOf(init + [d]), t) == Count(TagsOf(init), t) + if Tag(d) == t then 1 else 0
  {
    assert TagsOf(init + [d]) == TagsOf(init) + [Tag(d)];
    CountSnoc(TagsOf(init), Tag(d), t);
  }

  lemma {:induction false} PolledWithin(devices: seq<Device>, t: string)
    ensures Count(TagsOf(Filter(IsPolled(), devices)), t) <= Count(TagsOf(devices), t)
  {
    if devices != [] {
      var init, d := devices[..|devices| - 1], devices[|devices| - 1];
      assert devices == init + [d];
      PolledWithin(init, t);
      PolledSnoc(init, d, t);
      ChildSnoc(init, d, t);
    }
  }

  /** An unpolled device leaves room for its own uplink. */
  lemma {:induction false} PolledAndUplink(devices: seq<Device>, own: Device, t: string)
    requires own in devices && own.connection.None?
    ensures Count(TagsOf(Filter(IsPolled(), devices)), t) + (if Tag(own) == t then 1 else 0) <= Count(TagsOf(devices), t)
  {
    var init, d := devices[..|devices| - 1], devices[|devices| - 1];
    assert devices == init + [d];
    PolledSnoc(init, d, t);
    ChildSnoc(init, d, t);
    if d == own {
      PolledWithin(init, t);
    } else {
      PolledAndUplink(init, own, t);
    }
  }

  // ----- where cables leave -----

  lemma OwnSwitchIsChild(c: Container)
    requires OwnSwitch(c).Some?
    ensures OwnSwitch(c).value in c.devices
  {
    FilterMember(UsesOneOf(MGMT_SWITCHES), c.devices, OwnSwitch(c).value);
  }

  /** The first grid container, whose switch every other one uplinks to. */
  lemma PrimaryAt(sites: seq<Container>) returns (k1: nat)
    requires PrimarySwitch(sites).Some?
    ensures k1 < |sites| && OwnSwitch(sites[k1]) == PrimarySwitch(sites)
  {
    var isGrid := (c: Container) => c.kind == Grid;
    var grids := Filter(isGrid, sites);
    FilterMember(isGrid, sites, grids[0]);
    k1 :| 0 <= k1 < |sites| && sites[k1] == grids[0];
  }

  /** Patches leave exactly the polled devices, container by container: none forgotten, none twice. */
  lemma {:induction false} PatchSources(templates: Templates, sites: seq<Container>, g1: Option<Device>)
    requires FirstOrphan(sites, g1).None?
    ensures FromTags(Patches(templates, Jobs(sites, g1))) == PolledTags(sites)
  {
    JobSources(sites, g1);
    assert FromTags(Patches(templates, Jobs(sites, g1))) == Map((j: Job) => Tag(j.device), Jobs(sites, g1));
  }

  lemma {:induction false} JobSources(sites: seq<Container>, g1: Option<Device>)
    requires FirstOrphan(sites, g1).None?
    ensures Map((j: Job) => Tag(j.device), Jobs(sites, g1)) == PolledTags(sites)
  {
    if sites != [] {
      var init, c := sites[..|sites| - 1], sites[|sites| - 1];
      JobSources(init, g1);
      assert JobGroups(sites, g1)[..|init|] == JobGroups(init, g1);
      MapAppend((j: Job) => Tag(j.device), Jobs(init, g1), JobsOf(c, g1));
      assert Map((j: Job) => Tag(j.device), JobsOf(c, g1)) == TagsOf(CommsCables.Polled(c));
      var tags := (c: Container) => TagsOf(CommsCables.Polled(c));
      assert Map(tags, sites)[..|init|] == Map(tags, init);
    }
  }

  lemma {:induction false} LinkSources(sites: seq<Container>, g1: Device)
    ensures FromTags(Concat(Map((c: Container) => UplinksOf(c, g1), sites))) == UplinkTags(sites, g1)
  {
    if sites != [] {
      var init, c := sites[..|sites| - 1], sites[|sites| - 1];
      LinkSources(init, g1);
      var links, tags := (c: Container) => UplinksOf(c, g1), (c: Container) => UplinkTagsOf(c, g1);
      assert Map(links, sites)[..|init|] == Map(links, init) && Map(tags, sites)[..|init|] == Map(tags, init);
      MapAppend((c: Cable) => c.fromTag, Concat(Map(links, init)), UplinksOf(c, g1));
    }
  }

  /** Every cable of the sheet leaves a polled device, a container's own switch or G1's switch. */
  lemma SheetSources(templates: Templates, sites: seq<Container>)
    requires CommsSheet(templates, sites).Ok? && PrimarySwitch(sites).Some?
    ensures FromTags(CommsSheet(templates, sites).value)
         == PolledTags(sites) + (UplinkTags(sites, PrimarySwitch(sites).value) + [Tag(PrimarySwitch(sites).value)])
  {
    var g1 := PrimarySwitch(sites);
    var patches, links := Patches(templates, Jobs(sites, g1)), Concat(Map((c: Container) => UplinksOf(c, g1.value), sites));
    var last := UplinkTo(g1.value, GATEWAY, COPPER);
    PatchSources(templates, sites, g1);
    LinkSources(sites, g1.value);
    assert CommsSheet(templates, sites).value == patches + (links + [last]);
    SplitSources(patches, links, last);
  }

  lemma SplitSources(a: seq<Cable>, b: seq<Cable>, last: Cable)
    ensures FromTags(a + (b + [last])) == FromTags(a) + (FromTags(b) + [last.fromTag])
  {
  }

  lemma {:induction false} SourcesWithin(c: Container, g1: Device, t: string)
    requires !PollsOwnSwitch(c)
    ensures Count(TagsOf(CommsCables.Polled(c)), t) + Count(UplinkTagsOf(c, g1), t)
            + (if OwnSwitch(c) == Some(g1) && Tag(g1) == t then 1 else 0) <= Count(TagsOf(c.devices), t)
  {
    if OwnSwitch(c).None? {
      PolledWithin(c.devices, t);
    } else {
      var own := OwnSwitch(c).value;
      OwnSwitchIsChild(c);
      PolledAndUplink(c.devices, own, t);
      CountSnoc([], Tag(own), t);
      assert [] + [Tag(own)] == [Tag(own)];
    }
  }

  /** One cable out of every device, unless a management switch is itself polled. */
  lemma OneCableOut(templates: Templates, sites: seq<Container>)
    requires CommsSheet(templates, sites).Ok? && PrimarySwitch(sites).Some? && OneTagEach(sites)
    requires !SomeSwitchPolled(sites)
    ensures Distinct(FromTags(CommsSheet(templates, sites).value))
  {
    var g1 := PrimarySwitch(sites).value;
    var out := FromTags(CommsSheet(templates, sites).value);
    var k1 := PrimaryAt(sites);
    SheetSources(templates, sites);
    DistinctIffCount(ChildTags(sites));
    forall t ensures Count(out, t) <= 1 {
      CountSources(sites, g1, k1, t);
      CountAppend(PolledTags(sites), UplinkTags(sites, g1) + [Tag(g1)], t);
      CountSnoc(UplinkTags(sites, g1), Tag(g1), t);
    }
    DistinctIffCount(out);
  }

  lemma {:induction false} CountSources(sites: seq<Container>, g1: Device, k1: nat, t: string)
    requires !SomeSwitchPolled(sites) && k1 < |sites| && OwnSwitch(sites[k1]) == Some(g1)
    ensures Count(PolledTags(sites), t) + Count(UplinkTags(sites, g1), t) + (if Tag(g1) == t then 1 else 0)
            <= Count(ChildTags(sites), t)
  {
    var a := Map((c: Container) => TagsOf(CommsCables.Polled(c)), sites);
    var u := Map((c: Container) => UplinkTagsOf(c, g1), sites);
    var all := Map((c: Container) => TagsOf(c.devices), sites);
    forall k | 0 <= k < |sites|
      ensures Count(a[k], t) + Count(u[k], t) + (if k == k1 && Tag(g1) == t then 1 else 0) <= Count(all[k], t)
    {
      assert !PollsOwnSwitch(sites[k]);
      SourcesWithin(sites[k], g1, t);
    }
    CountGroups(a, u, all, k1, Tag(g1), t);
  }

  lemma {:induction false} PolledTagsWithin(sites: seq<Container>, t: string)
    ensures Count(PolledTags(sites), t) <= Count(ChildTags(sites), t)
  {
    var a := Map((c: Container) => TagsOf(CommsCables.Polled(c)), sites);
    var none := Map((c: Container) => [], sites);
    var all := Map((c: Container) => TagsOf(c.devices), sites);
    forall k | 0 <= k < |sites| ensures Count(a[k], t) + Count(none[k], t) <= Count(all[k], t) {
      PolledWithin(sites[k].devices, t);
    }
    CountGroups(a, none, all, |sites|, t, t);
  }

  /** Every polled device has exactly one patch cable, the battery's controller included. */
  lemma PatchedOnce(templates: Templates, sites: seq<Container>, k: nat, d: Device)
    requires CommsSheet(templates, sites).Ok? && OneTagEach(sites)
    requires k < |sites| && d in sites[k].devices && d.connection.Some?
    ensures Count(FromTags(Patches(templates, Jobs(sites, PrimarySwitch(sites)))), Tag(d)) == 1
  {
    PatchSources(templates, sites, PrimarySwitch(sites));
    PolledTagListed(sites, k, d);
    PolledTagsWithin(sites, Tag(d));
    DistinctIffCount(ChildTags(sites));
    CountZeroIff(PolledTags(sites), Tag(d));
  }

  lemma TagInGroups(sites: seq<Container>, f: Container -> seq<string>, k: nat, t: string)
    requires k < |sites| && t in f(sites[k])
    ensures t in Concat(Map(f, sites))
  {
    ConcatMember(Map(f, sites), t);
    assert t in Map(f, sites)[k];
  }

  lemma TagOfMember(devices: seq<Device>, d: Device)
    requires d in devices
    ensures Tag(d) in TagsOf(devices)
  {
    var i :| 0 <= i < |devices| && devices[i] == d;
    assert TagsOf(devices)[i] == Tag(d);
  }

  lemma PolledTagListed(sites: seq<Container>, k: nat, d: Device)
    requires k < |sites| && d in sites[k].devices && d.connection.Some?
    ensures d in CommsCables.Polled(sites[k]) && Tag(d) in PolledTags(sites)
  {
    FilterMember(IsPolled(), sites[k].devices, d);
    TagOfMember(CommsCables.Polled(sites[k]), d);
    TagInGroups(sites, (c: Container) => TagsOf(CommsCables.Polled(c)), k, Tag(d));
  }

  lemma SwitchTagListed(sites: seq<Container>, g1: Device, k: nat)
    requires k < |sites| && OwnSwitch(sites[k]).Some?
    ensures Tag(OwnSwitch(sites[k]).value) in UplinkTags(sites, g1) + [Tag(g1)]
  {
    if OwnSwitch(sites[k]).value != g1 {
      TagInGroups(sites, (c: Container) => UplinkTagsOf(c, g1), k, Tag(OwnSwitch(sites[k]).value));
    }
  }

  /** A polled switch has two cables out: its patch and its uplink. */
  lemma PolledSwitchTwice(templates: Templates, sites: seq<Container>)
    requires CommsSheet(templates, sites).Ok? && PrimarySwitch(sites).Some? && SomeSwitchPolled(sites)
    ensures !Distinct(FromTags(CommsSheet(templates, sites).value))
  {
    var k :| 0 <= k < |sites| && PollsOwnSwitch(sites[k]);
    var own, g1 := OwnSwitch(sites[k]).value, PrimarySwitch(sites).value;
    SheetSources(templates, sites);
    OwnSwitchIsChild(sites[k]);
    PolledTagListed(sites, k, own);
    SwitchTagListed(sites, g1, k);
    if Distinct(FromTags(CommsSheet(templates, sites).value)) {
      DistinctParts(PolledTags(sites), UplinkTags(sites, g1) + [Tag(g1)]);
      assert false;
    }
  }

  // ----- reaching the gateway -----

  /** Following at most `hops` cables leads from one tag to another. */
  ghost predicate Reaches(cables: seq<Cable>, from: string, to: string, hops: nat)
    decreases hops
  {
    from == to || (hops > 0 && exists c :: c in cables && c.fromTag == from && Reaches(cables, c.toTag, to, hops - 1))
  }

  lemma {:induction false} Step(cables: seq<Cable>, c: Cable, to: string, hops: nat)
    requires c in cables && Reaches(cables, c.toTag, to, hops)
    ensures Reaches(cables, c.fromTag, to, hops + 1)
  {
  }

  lemma {:induction false} MoreHops(cables: seq<Cable>, from: string, to: string, hops: nat)
    requires Reaches(cables, from, to, hops)
    ensures Reaches(cables, from, to, hops + 1)
    decreases hops
  {
    if from != to {
      var c :| c in cables && c.fromTag == from && Reaches(cables, c.toTag, to, hops - 1);
      MoreHops(cables, c.toTag, to, hops - 1);
    }
  }

  lemma SheetHasUplink(templates: Templates, sites: seq<Container>, c: Cable)
    requires CommsSheet(templates, sites).Ok? && c in Uplinks(sites, PrimarySwitch(sites))
    ensures c in CommsSheet(templates, sites).value
  {
  }

  lemma GatewayReached(templates: Templates, sites: seq<Container>)
    requires CommsSheet(templates, sites).Ok? && PrimarySwitch(sites).Some?
    ensures Reaches(CommsSheet(templates, sites).value, Tag(PrimarySwitch(sites).value), GATEWAY, 1)
  {
    var c := UplinkTo(PrimarySwitch(sites).value, GATEWAY, COPPER);
    SheetHasUplink(templates, sites, c);
    assert Reaches(CommsSheet(templates, sites).value, c.toTag, GATEWAY, 0);
    Step(CommsSheet(templates, sites).value, c, GATEWAY, 0);
  }

  lemma SwitchReaches(templates: Templates, sites: seq<Container>, k: nat)
    requires CommsSheet(templates, sites).Ok? && PrimarySwitch(sites).Some?
    requires k < |sites| && OwnSwitch(sites[k]).Some?
    ensures Reaches(CommsSheet(templates, sites).value, Tag(OwnSwitch(sites[k]).value), GATEWAY, 2)
  {
    var g1 := PrimarySwitch(sites).value;
    var cables := CommsSheet(templates, sites).value;
    GatewayReached(templates, sites);
    if OwnSwitch(sites[k]).value == g1 {
      MoreHops(cables, Tag(g1), GATEWAY, 1);
    } else {
      var links := Map((c: Container) => UplinksOf(c, g1), sites);
      var c := UplinkTo(OwnSwitch(sites[k]).value, Tag(g1), FIBER);
      assert c in links[k];
      ConcatMember(links, c);
      SheetHasUplink(templates, sites, c);
      Step(cables, c, GATEWAY, 1);
    }
  }

  lemma SwitchOfReaches(templates: Templates, sites: seq<Container>, k: nat)
    requires CommsSheet(templates, sites).Ok? && PrimarySwitch(sites).Some?
    requires k < |sites| && SwitchFor(sites[k], PrimarySwitch(sites)).Some?
    ensures Reaches(CommsSheet(templates, sites).value, Tag(SwitchFor(sites[k], PrimarySwitch(sites)).value), GATEWAY, 2)
  {
    if sites[k].kind == Bess {
      var k1 := PrimaryAt(sites);
      SwitchReaches(templates, sites, k1);
    } else {
      SwitchReaches(templates, sites, k);
    }
  }

  /** A polled device's patch into the switch its container uses. */
  /** A device's patch into a switch: copper, over the protocol of the device's template. */
  ghost predicate IsPatch(templates: Templates, c: Cable, d: Device, switch: Device) {
    && c.fromTag == Tag(d) && c.fromPort == "MGMT" && c.toTag == Tag(switch) && c.media == "Cat6 STP"
    && c.service == Patch(if d.template in templates then templates[d.template].protocol else None)
  }

  lemma PatchOf(templates: Templates, sites: seq<Container>, k: nat, d: Device) returns (c: Cable)
    requires CommsSheet(templates, sites).Ok?
    requires k < |sites| && d in sites[k].devices && d.connection.Some?
    ensures SwitchFor(sites[k], PrimarySwitch(sites)).Some?
    ensures c in Patches(templates, Jobs(sites, PrimarySwitch(sites))) && c in CommsSheet(templates, sites).value
    ensures IsPatch(templates, c, d, SwitchFor(sites[k], PrimarySwitch(sites)).value)
  {
    var g1 := PrimarySwitch(sites);
    PolledTagListed(sites, k, d);
    NoOrphanIff(sites, g1);
    var groups, j := JobGroups(sites, g1), Job(d, SwitchFor(sites[k], g1).value);
    var polled := CommsCables.Polled(sites[k]);
    var p :| 0 <= p < |polled| && polled[p] == d;
    assert groups[k][p] == j;
    ConcatMember(groups, j);
    var jobs := Jobs(sites, g1);
    var i :| 0 <= i < |jobs| && jobs[i] == j;
    c := Patches(templates, jobs)[i];
  }

  /** Every polled device reaches EMS-GW over at most three cables. */
  lemma PolledReaches(templates: Templates, sites: seq<Container>, k: nat, d: Device)
    requires CommsSheet(templates, sites).Ok? && PrimarySwitch(sites).Some?
    requires k < |sites| && d in sites[k].devices && d.connection.Some?
    ensures Reaches(CommsSheet(templates, sites).value, Tag(d), GATEWAY, 3)
  {
    var c := PatchOf(templates, sites, k, d);
    SwitchOfReaches(templates, sites, k);
    Step(CommsSheet(templates, sites).value, c, GATEWAY, 2);
  }

  ghost predicate InNetwork(sites: seq<Container>, d: Device) {
    exists k :: 0 <= k < |sites| && ((d in sites[k].devices && d.connection.Some?) || OwnSwitch(sites[k]) == Some(d))
  }

  /** The gateway is the root: nothing leaves it. */
  lemma GatewayIsRoot(templates: Templates, sites: seq<Container>)
    requires CommsSheet(templates, sites).Ok? && PrimarySwitch(sites).Some? && OneTagEach(sites)
    ensures GATEWAY !in FromTags(CommsSheet(templates, sites).value)
  {
    var g1 := PrimarySwitch(sites).value;
    SheetSources(templates, sites);
    if GATEWAY in PolledTags(sites) {
      forall c: Container | GATEWAY in TagsOf(CommsCables.Polled(c)) ensures GATEWAY in TagsOf(c.devices) {
        PolledTagIsChild(c, GATEWAY);
      }
      GroupTagIsChild(sites, (c: Container) => TagsOf(CommsCables.Polled(c)), GATEWAY);
    } else if GATEWAY in UplinkTags(sites, g1) {
      forall c: Container | GATEWAY in UplinkTagsOf(c, g1) ensures GATEWAY in TagsOf(c.devices) {
        OwnSwitchIsChild(c);
        TagOfMember(c.devices, OwnSwitch(c).value);
      }
      GroupTagIsChild(sites, (c: Container) => UplinkTagsOf(c, g1), GATEWAY);
    } else if GATEWAY == Tag(g1) {
      var k1 := PrimaryAt(sites);
      OwnSwitchIsChild(sites[k1]);
      TagOfMember(sites[k1].devices, g1);
      TagInGroups(sites, (c: Container) => TagsOf(c.devices), k1, GATEWAY);
    }
  }

  lemma PolledTagIsChild(c: Container, t: string)
    requires t in TagsOf(CommsCables.Polled(c))
    ensures t in TagsOf(c.devices)
  {
    PolledWithin(c.devices, t);
    CountZeroIff(TagsOf(CommsCables.Polled(c)), t);
    CountZeroIff(TagsOf(c.devices), t);
  }

  lemma GroupTagIsChild(sites: seq<Container>, f: Container -> seq<string>, t: string)
    requires t in Concat(Map(f, sites))
    requires forall c: Container :: t in f(c) ==> t in TagsOf(c.devices)
    ensures t in ChildTags(sites)
  {
    ConcatMember(Map(f, sites), t);
    var k :| 0 <= k < |sites| && t in Map(f, sites)[k];
    TagInGroups(sites, (c: Container) => TagsOf(c.devices), k, t);
  }

  lemma NodeReaches(templates: Templates, sites: seq<Container>, d: Device)
    requires CommsSheet(templates, sites).Ok? && PrimarySwitch(sites).Some? && InNetwork(sites, d)
    ensures Reaches(CommsSheet(templates, sites).value, Tag(d), GATEWAY, 3)
  {
    var k :| 0 <= k < |sites| && ((d in sites[k].devices && d.connection.Some?) || OwnSwitch(sites[k]) == Some(d));
    if OwnSwitch(sites[k]) == Some(d) {
      SwitchReaches(templates, sites, k);
      MoreHops(CommsSheet(templates, sites).value, Tag(d), GATEWAY, 2);
    } else {
      PolledReaches(templates, sites, k, d);
    }
  }

  /** The management network: every polled device and every switch leads to EMS-GW, nothing leaves EMS-GW, and
      no device has two ways out, exactly when no management switch is itself polled. */
  lemma TreeIntoGateway(templates: Templates, sites: seq<Container>)
    requires CommsSheet(templates, sites).Ok? && PrimarySwitch(sites).Some? && OneTagEach(sites)
    ensures var cables := CommsSheet(templates, sites).value;
            && (forall d :: InNetwork(sites, d) ==> Reaches(cables, Tag(d), GATEWAY, 3))
            && GATEWAY !in FromTags(cables)
            && (Distinct(FromTags(cables)) <==> !SomeSwitchPolled(sites))
  {
    var cables := CommsSheet(templates, sites).value;
    forall d | InNetwork(sites, d) ensures Reaches(cables, Tag(d), GATEWAY, 3) {
      NodeReaches(templates, sites, d);
    }
    GatewayIsRoot(templates, sites);
    if SomeSwitchPolled(sites) {
      PolledSwitchTwice(templates, sites);
    } else {
      OneCableOut(templates, sites);
    }
  }

  lemma OnlyContainerTags(c: Container)
    ensures ChildTags([c]) == TagsOf(c.devices)
  {
    var groups := Map((c: Container) => TagsOf(c.devices), [c]);
    assert groups == [TagsOf(c.devices)] && groups[..0] == [];
    assert Concat(groups) == [] + TagsOf(c.devices);
  }

  lemma OnlySwitch(c: Container, switch: Device)
    requires c.kind == Grid && c.devices == [switch] && switch.template in MGMT_SWITCHES
    ensures OwnSwitch(c) == Some(switch) && PrimarySwitch([c]) == Some(switch)
  {
    FilterAll((c: Container) => c.kind == Grid, [c]);
    FilterAll(UsesOneOf(MGMT_SWITCHES), [switch]);
  }

  lemma OnlySwitchSheet(templates: Templates, sites: seq<Container>)
    requires |sites| == 1 && PrimarySwitch(sites).Some? && OwnSwitch(sites[0]).Some?
    ensures CommsSheet(templates, sites).Ok?
  {
    CommsSheetOkIff(templates, sites);
  }

  lemma OnlyTag(c: Container, switch: Device)
    requires c.devices == [switch] && Tag(switch) != GATEWAY
    ensures OneTagEach([c])
  {
    OnlyContainerTags(c);
    assert TagsOf(c.devices) == [Tag(switch)];
  }

  /** A switch polled over the network it carries is patched into itself beside its uplink: two cables out, no tree. */
  lemma PolledSwitchPatchesItself(templates: Templates, sites: seq<Container>, switch: Device)
    requires |sites| == 1 && sites[0].kind == Grid && sites[0].devices == [switch] && switch.template in MGMT_SWITCHES
    requires switch.connection.Some? && Tag(switch) != GATEWAY
    ensures CommsSheet(templates, sites).Ok? && PrimarySwitch(sites).Some? && OneTagEach(sites)
    ensures !Distinct(FromTags(CommsSheet(templates, sites).value))
  {
    assert sites == [sites[0]];
    OnlySwitch(sites[0], switch);
    OnlyTag(sites[0], switch);
    OnlySwitchSheet(templates, sites);
    assert PollsOwnSwitch(sites[0]);
    PolledSwitchTwice(templates, sites);
  }

  const PolledSwitch := Device("grid_mgmt_switch_1", "grid_mgmt_switch", Some("G1-SW-1"), Some("grid_module_1"),
                               Some(Connection("10.0.0.2", "502", None)), None)

  lemma PolledSwitchIsNoTree(templates: Templates)
    ensures var sites := [Container("G1", Grid, [PolledSwitch])];
            && CommsSheet(templates, sites).Ok? && PrimarySwitch(sites).Some? && OneTagEach(sites)
            && !Distinct(FromTags(CommsSheet(templates, sites).value))
  {
    PolledSwitchPatchesItself(templates, [Container("G1", Grid, [PolledSwitch])], PolledSwitch);
  }

  // ----- the patches as a whole -----

  /** Each polled device has one patch: into its own container's switch, or from the battery pad into the first grid
      container's. */
  ghost predicate OnePatchEach(templates: Templates, sites: seq<Container>, patches: seq<Cable>) {
    forall k, d :: 0 <= k < |sites| && d in sites[k].devices && d.connection.Some? ==>
      && Count(FromTags(patches), Tag(d)) == 1
      && exists c, switch ::
           && c in patches && IsPatch(templates, c, d, switch)
           && Some(switch) == if sites[k].kind == Bess then PrimarySwitch(sites) else OwnSwitch(sites[k])
  }

  /** Each other container's switch has a fiber uplink to the first grid container's, and that one copper to the gateway. */
  ghost predicate Uplinked(sites: seq<Container>, cables: seq<Cable>, g1: Device) {
    && (forall k :: 0 <= k < |sites| && OwnSwitch(sites[k]).Some? && OwnSwitch(sites[k]).value != g1 ==>
          Cable("", Uplink, Tag(OwnSwitch(sites[k]).value), "UPLINK", Tag(g1), "DOWNLINK", "Single-mode fiber pair, LC duplex") in cables)
    && Cable("", Uplink, Tag(g1), "UPLINK", "EMS-GW", "DOWNLINK", "Cat6 STP") in cables
  }

  lemma LinkOf(sites: seq<Container>, g1: Device, k: nat)
    requires k < |sites| && OwnSwitch(sites[k]).Some? && OwnSwitch(sites[k]).value != g1
    ensures UplinkTo(OwnSwitch(sites[k]).value, Tag(g1), FIBER) in Uplinks(sites, Some(g1))
  {
    var links := Map((c: Container) => UplinksOf(c, g1), sites);
    assert UplinkTo(OwnSwitch(sites[k]).value, Tag(g1), FIBER) in links[k];
    ConcatMember(links, UplinkTo(OwnSwitch(sites[k]).value, Tag(g1), FIBER));
  }

  lemma AllUplinked(sites: seq<Container>, g1: Device, patches: seq<Cable>)
    ensures Uplinked(sites, patches + Uplinks(sites, Some(g1)), g1)
  {
    forall k | 0 <= k < |sites| && OwnSwitch(sites[k]).Some? && OwnSwitch(sites[k]).value != g1
      ensures UplinkTo(OwnSwitch(sites[k]).value, Tag(g1), FIBER) in Uplinks(sites, Some(g1))
    {
      LinkOf(sites, g1, k);
    }
    assert UplinkTo(g1, GATEWAY, COPPER) in Uplinks(sites, Some(g1));
  }

  ghost predicate SharePort(patches: seq<Cable>, i: nat, j: nat)
    requires i < |patches| && j < |patches|
  {
    patches[i].toTag == patches[j].toTag && patches[i].toPort == patches[j].toPort
  }

  ghost predicate PortTakenOn(patches: seq<Cable>, switchTag: string, port: nat) {
    exists i :: 0 <= i < |patches| && patches[i].toTag == switchTag && patches[i].toPort == "1/" + Dec(port)
  }

  /** No port patched twice, and every switch filled from port 1 without a gap. */
  ghost predicate PortsInOrder(patches: seq<Cable>) {
    && (forall i, j :: 0 <= i < |patches| && 0 <= j < |patches| && SharePort(patches, i, j) ==> i == j)
    && (forall t, port: nat :: PortTakenOn(patches, t, port) <==> 1 <= port <= Count(ToTags(patches), t))
  }

  lemma PatchPortsInOrder(templates: Templates, jobs: seq<Job>)
    ensures PortsInOrder(Patches(templates, jobs))
  {
    var patches := Patches(templates, jobs);
    forall i, j | 0 <= i < |patches| && 0 <= j < |patches| && SharePort(patches, i, j) ensures i == j {
      PortsNeverShared(templates, jobs, i, j);
    }
    assert ToTags(patches) == SwitchTags(jobs);
    forall t, port: nat ensures PortTakenOn(patches, t, port) <==> 1 <= port <= Count(ToTags(patches), t) {
      PortsHaveNoGaps(templates, jobs, t, port);
    }
  }

  lemma AllPatchedOnce(templates: Templates, sites: seq<Container>)
    requires CommsSheet(templates, sites).Ok? && OneTagEach(sites)
    ensures OnePatchEach(templates, sites, Patches(templates, Jobs(sites, PrimarySwitch(sites))))
  {
    var patches := Patches(templates, Jobs(sites, PrimarySwitch(sites)));
    forall k, d | 0 <= k < |sites| && d in sites[k].devices && d.connection.Some?
      ensures Count(FromTags(patches), Tag(d)) == 1
      ensures exists c, switch ::
                && c in patches && IsPatch(templates, c, d, switch)
                && Some(switch) == if sites[k].kind == Bess then PrimarySwitch(sites) else OwnSwitch(sites[k])
    {
      PatchedOnce(templates, sites, k, d);
      var c := PatchOf(templates, sites, k, d);
    }
  }
}
