/** What holds of every site the generator produces. */
module DtmSoundness {
  import opened Lists
  import opened Text
  import opened Numbering
  import opened Catalog
  import opened ComputeNodes
  import opened ComputeFeeds
  import opened Dtm
  import opened SitePlan
  import opened DtmSpec

  /** A block is its plan with ids filled in. */
  ghost predicate Realizes(b: Block, p: Plan) {
    && b.root.template == p.template && b.root.displayName == Some(p.tag)
    && b.root.parent == None && b.root.connection == None
    && |b.leaves| == |p.leaves|
    && (forall i :: 0 <= i < |b.leaves| ==>
          && b.leaves[i].template == p.leaves[i].template
          && b.leaves[i].displayName == p.leaves[i].name
          && b.leaves[i].connection == p.leaves[i].connection
          && b.leaves[i].parent == Some(b.root.id))
    && |b.buses| == |p.buses|
    && (forall j :: 0 <= j < |b.buses| ==> b.buses[j].members == ExpandMembers(p.buses[j].members, b.leaves))
  }

  lemma BlockOfRealizes(issued: seq<string>, p: Plan)
    ensures Realizes(BlockOf(issued, p), p)
  {
    var ids, n := Ids(issued, Names(p)), 1 + |p.leaves|;
    var b := BlockOf(issued, p);
    assert b.leaves == LeafDevices(p.leaves, ids[1..n], ids[0]);
    assert b.buses == ExpandBuses(p.buses, ids[n..], b.leaves);
  }

  lemma {:induction false} BlockRealizes(plans: seq<Plan>, k: nat)
    requires k < |plans|
    ensures Realizes(Blocks(plans)[k], plans[k])
  {
    BlockAt(plans, k);
    BlockOfRealizes(AllNames(plans[..k]), plans[k]);
  }

  /** The pieces a generated site is made of. */
  lemma Parts(profile: string, r: Resolution, m: Manifest, templates: Templates)
    returns (plans: seq<Plan>, battery: Plan, between: seq<Bus>)
    requires Generate(profile, r, m, templates).Ok?
    ensures profile in m.profiles && ContainerPlans(m, m.profiles[profile], r) == Ok(plans)
    ensures BatteryPlan(r, templates) == Ok(battery)
    ensures BetweenBuses(AllNames(plans + [battery]), r, Flat(Blocks(plans)), SiteDevices(plans, battery, r),
                         Blocks(plans + [battery])[|plans|].root.id) == Ok(between)
    ensures var dtm := Generate(profile, r, m, templates).value;
            && dtm.devices == SiteDevices(plans, battery, r)
            && dtm.buses == FlatBuses(Blocks(plans)) + between
            && UsedTemplates(dtm.devices, templates) == Ok(dtm.templatesUsed)
  {
    plans := ContainerPlans(m, m.profiles[profile], r).value;
    battery := BatteryPlan(r, templates).value;
    between := CompletedParts(r, templates, plans, battery);
    BlocksSnoc(plans, battery);
  }

  lemma {:induction false} CompletedIs(r: Resolution, templates: Templates, plans: seq<Plan>, battery: Plan)
    requires CompletedSite(r, templates, plans, battery).Ok?
    ensures SiteBuses(plans, battery, r).Ok?
    ensures var dtm := CompletedSite(r, templates, plans, battery).value;
            && dtm.devices == SiteDevices(plans, battery, r) && dtm.buses == SiteBuses(plans, battery, r).value
            && UsedTemplates(dtm.devices, templates) == Ok(dtm.templatesUsed)
  {
  }

  lemma CompletedParts(r: Resolution, templates: Templates, plans: seq<Plan>, battery: Plan) returns (between: seq<Bus>)
    requires CompletedSite(r, templates, plans, battery).Ok?
    ensures BetweenBuses(AllNames(plans) + Names(battery), r, Flat(Blocks(plans)), SiteDevices(plans, battery, r),
                         BlockOf(AllNames(plans), battery).root.id) == Ok(between)
    ensures var dtm := CompletedSite(r, templates, plans, battery).value;
            && dtm.devices == SiteDevices(plans, battery, r)
            && dtm.buses == FlatBuses(Blocks(plans)) + between
            && UsedTemplates(dtm.devices, templates) == Ok(dtm.templatesUsed)
  {
    CompletedIs(r, templates, plans, battery);
    between := SiteBusesParts(plans, battery, r);
  }

  lemma SiteBusesParts(plans: seq<Plan>, battery: Plan, r: Resolution) returns (between: seq<Bus>)
    requires SiteBuses(plans, battery, r).Ok?
    ensures BetweenBuses(AllNames(plans) + Names(battery), r, Flat(Blocks(plans)), SiteDevices(plans, battery, r),
                         BlockOf(AllNames(plans), battery).root.id) == Ok(between)
    ensures SiteBuses(plans, battery, r).value == FlatBuses(Blocks(plans)) + between
  {
    between := BetweenBuses(AllNames(plans) + Names(battery), r, Flat(Blocks(plans)), SiteDevices(plans, battery, r),
                            BlockOf(AllNames(plans), battery).root.id).value;
  }

  /** Every id of the site is numbered once, so no device overwrote another and no bus shares an id. */
  lemma IdsDistinctEverywhere(profile: string, r: Resolution, m: Manifest, templates: Templates)
    requires Generate(profile, r, m, templates).Ok?
    ensures var dtm := Generate(profile, r, m, templates).value;
            AllIdsDistinct(dtm.devices, dtm.buses)
  {
    var plans, battery, between := Parts(profile, r, m, templates);
    var issued := AllNames(plans + [battery]);
    PadAddsNoBus(plans, battery);
    SiteIdsIssued(plans + [battery]);
    BetweenIdsFresh(issued, r, Flat(Blocks(plans)), SiteDevices(plans, battery, r),
                    Blocks(plans + [battery])[|plans|].root.id, between);
    var devices, buses := Flat(Blocks(plans + [battery])), FlatBuses(Blocks(plans));
    AddBetween(devices, buses, issued, between, BusNamesOf(|between|));
    AddUtility(devices, buses + between, issued + BusNamesOf(|between|), r.offGrid);
  }

  lemma {:induction false} PadAddsNoBus(plans: seq<Plan>, battery: Plan)
    requires battery.buses == []
    ensures FlatBuses(Blocks(plans + [battery])) == FlatBuses(Blocks(plans))
  {
    BlocksSnoc(plans, battery);
    FlatSnoc(Blocks(plans), BlockOf(AllNames(plans), battery));
    BlockOfRealizes(AllNames(plans), battery);
  }

  /** Names asked for by the buses between blocks: the site bus, then LV buses. */
  function BusNamesOf(n: nat): (names: seq<string>)
    ensures |names| == n
  {
    if n == 0 then [] else if n == 1 then ["site_mv"] else BusNamesOf(n - 1) + ["lv_main"]
  }

  /** lv_main numbered from where the site stands. */
  function LvSlugs(issued: seq<string>, n: nat): (r: seq<string>)
    ensures |r| == n
  {
    seq(n, k requires 0 <= k < n => Slug("lv_main", Count(issued, "lv_main") + k + 1))
  }

  lemma {:induction false} LvIdsAre(issued: seq<string>, devices: seq<Device>, xfmrs: seq<string>, swbds: seq<string>,
                                    feeds: seq<seq<int>>, lv: seq<Bus>)
    requires |xfmrs| == |swbds| == |feeds| && LvBusList(issued, devices, xfmrs, swbds, feeds) == Ok(lv)
    ensures BusIds(lv) == LvSlugs(issued, |feeds|)
  {
    if feeds != [] {
      var last := |feeds| - 1;
      LvInit(issued, devices, xfmrs, swbds, feeds, lv);
      LvFinal(issued, devices, xfmrs, swbds, feeds, lv);
      LvIdsAre(issued, devices, xfmrs[..last], swbds[..last], feeds[..last], lv[..last]);
      LvSlugsLast(issued, |feeds|);
    }
  }

  lemma {:induction false} LvSlugsLast(issued: seq<string>, n: nat)
    requires n > 0
    ensures LvSlugs(issued, n) == LvSlugs(issued, n - 1) + [Slug("lv_main", Count(issued, "lv_main") + n)]
  {
  }

  lemma {:induction false} BetweenNumbers(issued: seq<string>, n: nat)
    ensures Count(BusNamesOf(1 + n), "lv_main") == n
    ensures [Slug("site_mv", Count(issued, "site_mv") + 1)] + LvSlugs(issued, n) == Ids(issued, BusNamesOf(1 + n))
  {
    if n == 0 {
      assert BusNamesOf(1) == ["site_mv"];
      assert ["site_mv"][..0] == [];
    } else {
      BetweenNumbers(issued, n - 1);
      var names := BusNamesOf(n);
      assert BusNamesOf(1 + n) == names + ["lv_main"];
      assert (names + ["lv_main"])[..|names|] == names;
      LvSlugsLast(issued, n);
    }
  }

  lemma {:induction false} LvIds(issued: seq<string>, devices: seq<Device>, xfmrs: seq<string>, swbds: seq<string>,
                                 feeds: seq<seq<int>>)
    requires |xfmrs| == |swbds| == |feeds|
    requires LvBusList(issued + ["site_mv"], devices, xfmrs, swbds, feeds).Ok?
    ensures [Slug("site_mv", Count(issued, "site_mv") + 1)]
            + BusIds(LvBusList(issued + ["site_mv"], devices, xfmrs, swbds, feeds).value)
            == Ids(issued, BusNamesOf(1 + |feeds|))
  {
    LvIdsAre(issued + ["site_mv"], devices, xfmrs, swbds, feeds, LvBusList(issued + ["site_mv"], devices, xfmrs, swbds, feeds).value);
    CountSnoc(issued, "site_mv", "lv_main");
    assert LvSlugs(issued + ["site_mv"], |feeds|) == LvSlugs(issued, |feeds|);
    BetweenNumbers(issued, |feeds|);
  }

  lemma {:induction false} LvIdsOf(issued: seq<string>, r: Resolution, containers: seq<Device>, devices: seq<Device>)
    requires LvBusesOf(issued + ["site_mv"], r, containers, devices).Ok?
    ensures var lv := LvBusesOf(issued + ["site_mv"], r, containers, devices).value;
            [Slug("site_mv", Count(issued, "site_mv") + 1)] + BusIds(lv) == Ids(issued, BusNamesOf(1 + |lv|))
  {
    var xfmrs, swbds := IdsOf(containers, "transformer"), IdsOf(containers, "lv_switchboard");
    if swbds == [] {
      LvIds(issued, devices, [], [], []);
    } else {
      LvIds(issued, devices, xfmrs, swbds, Feeds(r.computeCount, r.gridCount));
    }
  }

  lemma {:induction false} BetweenIs(issued: seq<string>, r: Resolution, containers: seq<Device>, devices: seq<Device>, battery: string,
                                     between: seq<Bus>)
    requires BetweenBuses(issued, r, containers, devices, battery) == Ok(between)
    ensures LvBusesOf(issued + ["site_mv"], r, containers, devices).Ok?
    ensures between == [SiteBusOf(Slug("site_mv", Count(issued, "site_mv") + 1), containers, battery)]
                       + LvBusesOf(issued + ["site_mv"], r, containers, devices).value
  {
  }

  lemma {:induction false} BetweenIdsFresh(issued: seq<string>, r: Resolution, containers: seq<Device>, devices: seq<Device>, battery: string,
                                           between: seq<Bus>)
    requires BetweenBuses(issued, r, containers, devices, battery) == Ok(between)
    ensures BusIds(between) == Ids(issued, BusNamesOf(|between|))
  {
    BetweenIs(issued, r, containers, devices, battery, between);
    LvIdsOf(issued, r, containers, devices);
  }

  lemma {:induction false} AddBetween(devices: seq<Device>, buses: seq<Bus>, issued: seq<string>, between: seq<Bus>, names: seq<string>)
    requires AllIdsDistinct(devices, buses) && IdsWithin(devices, buses, Ids([], issued))
    requires BusIds(between) == Ids(issued, names)
    ensures AllIdsDistinct(devices, buses + between)
    ensures IdsWithin(devices, buses + between, Ids([], issued + names))
  {
    LaterIdsFresh(issued, names);
    AppendBusIds(devices, buses, between, Ids([], issued), Ids([], issued + names));
  }

  lemma AppendBusIds(devices: seq<Device>, buses: seq<Bus>, between: seq<Bus>, before: seq<string>, after: seq<string>)
    requires AllIdsDistinct(devices, buses) && IdsWithin(devices, buses, before)
    requires Distinct(BusIds(between)) && after == before + BusIds(between)
    requires forall id :: id in BusIds(between) ==> id !in before
    ensures AllIdsDistinct(devices, buses + between)
    ensures IdsWithin(devices, buses + between, after)
  {
    assert BusIds(buses + between) == BusIds(buses) + BusIds(between);
    DistinctAppend(BusIds(buses), BusIds(between));
  }

  lemma {:induction false} LaterIdsFresh(issued: seq<string>, names: seq<string>)
    ensures Ids([], issued + names) == Ids([], issued) + Ids(issued, names)
    ensures Distinct(Ids(issued, names))
    ensures forall id :: id in Ids(issued, names) ==> id !in Ids([], issued)
  {
    IdsAppend([], issued, names);
    assert [] + issued == issued;
    IdsDistinct(issued + names);
    DistinctParts(Ids([], issued), Ids(issued, names));
  }

  lemma {:induction false} AddUtility(devices: seq<Device>, buses: seq<Bus>, issued: seq<string>, offGrid: bool)
    requires AllIdsDistinct(devices, buses) && IdsWithin(devices, buses, Ids([], issued))
    ensures AllIdsDistinct(devices + UtilityOf(offGrid), buses)
  {
    forall id | id in Ids([], issued) ensures id != "der_dispatch" && id != "operating_envelope" {
      var i :| 0 <= i < |issued| && Ids([], issued)[i] == id;
      IdsAreOrdinals(issued, i);
      SlugEndsInDigit(issued[i], Ordinal(issued, i));
    }
    assert DeviceIds(devices + UtilityOf(offGrid)) == DeviceIds(devices) + DeviceIds(UtilityOf(offGrid));
    DistinctAppend(DeviceIds(devices), DeviceIds(UtilityOf(offGrid)));
  }

  // ----- referential integrity -----

  lemma {:induction false} SiteDevicesSplit(plans: seq<Plan>, battery: Plan, r: Resolution)
    ensures SiteDevices(plans, battery, r)
         == Flat(Blocks(plans)) + (BlockDevices(BlockOf(AllNames(plans), battery)) + UtilityOf(r.offGrid))
    ensures Blocks(plans + [battery])[|plans|] == BlockOf(AllNames(plans), battery)
  {
    var b := BlockOf(AllNames(plans), battery);
    BlocksSnoc(plans, battery);
    FlatSnoc(Blocks(plans), b);
    Regroup3(Flat(Blocks(plans)), BlockDevices(b), UtilityOf(r.offGrid));
  }

  lemma Regroup3<T>(a: seq<T>, b: seq<T>, c: seq<T>)
    ensures a + b + c == a + (b + c)
  {
  }

  lemma InBlock(plans: seq<Plan>, d: Device) returns (k: nat)
    requires d in Flat(Blocks(plans))
    ensures k < |plans| && d in BlockDevices(Blocks(plans)[k]) && Realizes(Blocks(plans)[k], plans[k])
  {
    FlatMember(Blocks(plans), d);
    k :| 0 <= k < |Blocks(plans)| && d in BlockDevices(Blocks(plans)[k]);
    BlockRealizes(plans, k);
  }

  lemma {:induction false} BlockInFlat(plans: seq<Plan>, k: nat, d: Device)
    requires k < |plans| && d in BlockDevices(Blocks(plans)[k])
    ensures d in Flat(Blocks(plans))
  {
    FlatMember(Blocks(plans), d);
  }

  lemma IdInAppend(a: seq<Device>, b: seq<Device>, id: string)
    requires id in DeviceIds(a)
    ensures id in DeviceIds(a + b)
  {
    DeviceIdsMember(a, id);
    DeviceIdsMember(a + b, id);
  }

  /** Every parent is a module of the same site. */
  lemma {:induction false} ParentsResolve(plans: seq<Plan>, offGrid: bool, d: Device)
    requires d in Flat(Blocks(plans)) + UtilityOf(offGrid) && d.parent.Some?
    ensures d.parent.value in DeviceIds(Flat(Blocks(plans)) + UtilityOf(offGrid))
  {
    assert d in Flat(Blocks(plans));
    ParentInFlat(plans, d);
    IdInAppend(Flat(Blocks(plans)), UtilityOf(offGrid), d.parent.value);
  }

  lemma {:induction false} ParentInFlat(plans: seq<Plan>, d: Device)
    requires d in Flat(Blocks(plans)) && d.parent.Some?
    ensures d.parent.value in DeviceIds(Flat(Blocks(plans)))
  {
    var k := InBlock(plans, d);
    var root := Blocks(plans)[k].root;
    assert root in BlockDevices(Blocks(plans)[k]);
    BlockInFlat(plans, k, root);
    DeviceIdsMember(Flat(Blocks(plans)), root.id);
  }

  lemma {:induction false} ExpandedMembersLocal(specs: seq<MemberSpec>, leaves: seq<Device>, member: BusMember)
    requires member in ExpandMembers(specs, leaves)
    ensures member.deviceId in DeviceIds(leaves)
  {
    var init, s := specs[..|specs| - 1], specs[|specs| - 1];
    if member in ExpandMembers(init, leaves) {
      ExpandedMembersLocal(init, leaves, member);
    } else {
      MemberOfIds(leaves, s.template, s.port, member);
    }
  }

  lemma {:induction false} MemberOfIds(devices: seq<Device>, template: string, port: Option<string>, member: BusMember)
    requires member in Members(IdsOf(devices, template), port)
    ensures member.deviceId in DeviceIds(devices)
  {
    var ids := IdsOf(devices, template);
    var i :| 0 <= i < |ids| && member == BusMember(ids[i], port);
    IdsOfMember(devices, template, ids[i]);
    DeviceIdsMember(devices, ids[i]);
  }

  /** A container's buses join that container's own leaves and nothing else. */
  lemma {:induction false} ContainerBusesLocal(plans: seq<Plan>, k: nat, bus: Bus, member: BusMember)
    requires k < |plans| && bus in Blocks(plans)[k].buses && member in bus.members
    ensures member.deviceId in DeviceIds(Blocks(plans)[k].leaves)
  {
    BlockRealizes(plans, k);
    var b := Blocks(plans)[k];
    var j :| 0 <= j < |b.buses| && b.buses[j] == bus;
    ExpandedMembersLocal(plans[k].buses[j].members, b.leaves, member);
  }

  lemma {:induction false} ContainerBusResolves(plans: seq<Plan>, bus: Bus, member: BusMember)
    requires bus in FlatBuses(Blocks(plans)) && member in bus.members
    ensures member.deviceId in DeviceIds(Flat(Blocks(plans)))
  {
    FlatBusesMember(Blocks(plans), bus);
    var k :| 0 <= k < |Blocks(plans)| && bus in Blocks(plans)[k].buses;
    ContainerBusesLocal(plans, k, bus, member);
    DeviceIdsMember(Blocks(plans)[k].leaves, member.deviceId);
    var d :| d in Blocks(plans)[k].leaves && d.id == member.deviceId;
    BlockInFlat(plans, k, d);
    DeviceIdsMember(Flat(Blocks(plans)), d.id);
  }

  lemma {:induction false} ModuleNamedFound(devices: seq<Device>, name: string)
    requires ModuleNamed(devices, name).Some?
    ensures ModuleNamed(devices, name).value in DeviceIds(devices)
  {
    var init, d := devices[..|devices| - 1], devices[|devices| - 1];
    assert devices == init + [d];
    assert DeviceIds(devices) == DeviceIds(init) + [d.id];
    if !(d.parent.None? && d.displayName == Some(name)) {
      ModuleNamedFound(init, name);
    }
  }

  lemma {:induction false} ModuleIdsFound(devices: seq<Device>, fed: seq<int>, id: string)
    requires ModuleIds(devices, fed).Ok? && id in ModuleIds(devices, fed).value
    ensures id in DeviceIds(devices)
  {
    var init := fed[..|fed| - 1];
    if id in ModuleIds(devices, init).value {
      ModuleIdsFound(devices, init, id);
    } else {
      ModuleNamedFound(devices, "C" + IntText(fed[|fed| - 1]));
    }
  }

  /** A bus joining one transformer, its switchboard and the modules it feeds. */
  ghost predicate IsLvBus(bus: Bus, devices: seq<Device>, xfmr: string, swbd: string, fed: seq<int>) {
    && ModuleIds(devices, fed).Ok?
    && bus == LvBus(bus.id, xfmr, swbd, ModuleIds(devices, fed).value)
  }

  lemma {:induction false} LvInit(issued: seq<string>, devices: seq<Device>, xfmrs: seq<string>, swbds: seq<string>, feeds: seq<seq<int>>, lv: seq<Bus>)
    requires |xfmrs| == |swbds| == |feeds| && feeds != [] && LvBusList(issued, devices, xfmrs, swbds, feeds) == Ok(lv)
    ensures var last := |feeds| - 1;
            |lv| == |feeds| && LvBusList(issued, devices, xfmrs[..last], swbds[..last], feeds[..last]) == Ok(lv[..last])
  {
  }

  lemma {:induction false} LvFinal(issued: seq<string>, devices: seq<Device>, xfmrs: seq<string>, swbds: seq<string>, feeds: seq<seq<int>>, lv: seq<Bus>)
    requires |xfmrs| == |swbds| == |feeds| && feeds != [] && LvBusList(issued, devices, xfmrs, swbds, feeds) == Ok(lv)
    ensures var last := |feeds| - 1;
            && IsLvBus(lv[last], devices, xfmrs[last], swbds[last], feeds[last])
            && lv[last].id == Slug("lv_main", Count(issued, "lv_main") + |feeds|)
  {
  }

  lemma {:induction false} LvAt(issued: seq<string>, devices: seq<Device>, xfmrs: seq<string>, swbds: seq<string>, feeds: seq<seq<int>>,
                                lv: seq<Bus>, k: nat)
    requires |xfmrs| == |swbds| == |feeds| && k < |feeds|
    requires LvBusList(issued, devices, xfmrs, swbds, feeds) == Ok(lv)
    ensures IsLvBus(lv[k], devices, xfmrs[k], swbds[k], feeds[k])
  {
    var last := |feeds| - 1;
    LvInit(issued, devices, xfmrs, swbds, feeds, lv);
    if k < last {
      LvAt(issued, devices, xfmrs[..last], swbds[..last], feeds[..last], lv[..last], k);
    } else {
      LvFinal(issued, devices, xfmrs, swbds, feeds, lv);
    }
  }

  /** The k-th LV bus joins the k-th transformer, the k-th switchboard and the k-th feed. */
  lemma {:induction false} LvBusAt(issued: seq<string>, devices: seq<Device>, xfmrs: seq<string>, swbds: seq<string>,
                                   feeds: seq<seq<int>>, k: nat)
    requires |xfmrs| == |swbds| == |feeds| && k < |feeds|
    requires LvBusList(issued, devices, xfmrs, swbds, feeds).Ok?
    ensures IsLvBus(LvBusList(issued, devices, xfmrs, swbds, feeds).value[k], devices, xfmrs[k], swbds[k], feeds[k])
  {
    LvAt(issued, devices, xfmrs, swbds, feeds, LvBusList(issued, devices, xfmrs, swbds, feeds).value, k);
  }

  lemma LvBusResolves(devices: seq<Device>, bus: Bus, xfmr: string, swbd: string, fed: seq<int>, member: BusMember)
    requires xfmr in DeviceIds(devices) && swbd in DeviceIds(devices) && IsLvBus(bus, devices, xfmr, swbd, fed)
    requires member in bus.members
    ensures member.deviceId in DeviceIds(devices)
  {
    var modules := ModuleIds(devices, fed).value;
    if member in Members(modules, Some("ac_in")) {
      var i :| 0 <= i < |modules| && member == BusMember(modules[i], Some("ac_in"));
      ModuleIdsFound(devices, fed, modules[i]);
    }
  }

  lemma {:induction false} IdsOfWithin(devices: seq<Device>, rest: seq<Device>, template: string, id: string)
    requires id in IdsOf(devices, template)
    ensures id in DeviceIds(devices + rest)
  {
    IdsOfMember(devices, template, id);
    DeviceIdsMember(devices, id);
    IdInAppend(devices, rest, id);
  }

  lemma LvMemberResolves(issued: seq<string>, r: Resolution, containers: seq<Device>, rest: seq<Device>, bus: Bus, member: BusMember)
    requires LvBusesOf(issued, r, containers, containers + rest).Ok?
    requires bus in LvBusesOf(issued, r, containers, containers + rest).value && member in bus.members
    ensures member.deviceId in DeviceIds(containers + rest)
  {
    var xfmrs, swbds := IdsOf(containers, "transformer"), IdsOf(containers, "lv_switchboard");
    var feeds := Feeds(r.computeCount, r.gridCount);
    var lv := LvBusesOf(issued, r, containers, containers + rest).value;
    var k :| 0 <= k < |lv| && lv[k] == bus;
    LvBusAt(issued, containers + rest, xfmrs, swbds, feeds, k);
    IdsOfWithin(containers, rest, "transformer", xfmrs[k]);
    IdsOfWithin(containers, rest, "lv_switchboard", swbds[k]);
    LvBusResolves(containers + rest, bus, xfmrs[k], swbds[k], feeds[k], member);
  }

  lemma SiteBusResolves(id: string, containers: seq<Device>, rest: seq<Device>, battery: string, member: BusMember)
    requires member in SiteBusOf(id, containers, battery).members && battery in DeviceIds(containers + rest)
    ensures member.deviceId in DeviceIds(containers + rest)
  {
    if member in Members(IdsOf(containers, "poi_meter"), Some("voltage_in")) {
      MemberOfIds(containers, "poi_meter", Some("voltage_in"), member);
      IdInAppend(containers, rest, member.deviceId);
    } else if member in Members(IdsOf(containers, "switchgear"), Some("line_in")) {
      MemberOfIds(containers, "switchgear", Some("line_in"), member);
      IdInAppend(containers, rest, member.deviceId);
    }
  }

  lemma {:induction false} ContainerMembersResolve(plans: seq<Plan>, battery: Plan, r: Resolution, bus: Bus, member: BusMember)
    requires bus in FlatBuses(Blocks(plans)) && member in bus.members
    ensures member.deviceId in DeviceIds(SiteDevices(plans, battery, r))
  {
    SiteDevicesSplit(plans, battery, r);
    ContainerBusResolves(plans, bus, member);
    IdInAppend(Flat(Blocks(plans)), BlockDevices(BlockOf(AllNames(plans), battery)) + UtilityOf(r.offGrid), member.deviceId);
  }

  lemma {:induction false} BetweenMembersResolve(plans: seq<Plan>, battery: Plan, r: Resolution, devices: seq<Device>, id: string,
                                                 between: seq<Bus>, bus: Bus, member: BusMember)
    requires devices == SiteDevices(plans, battery, r) && id == Blocks(plans + [battery])[|plans|].root.id
    requires BetweenBuses(AllNames(plans + [battery]), r, Flat(Blocks(plans)), devices, id) == Ok(between)
    requires bus in between && member in bus.members
    ensures member.deviceId in DeviceIds(devices)
  {
    SiteDevicesSplit(plans, battery, r);
    var pad := BlockOf(AllNames(plans), battery);
    PadIdPresent(Flat(Blocks(plans)), pad, UtilityOf(r.offGrid));
    BetweenMemberResolves(AllNames(plans + [battery]), r, Flat(Blocks(plans)), BlockDevices(pad) + UtilityOf(r.offGrid),
                          devices, id, between, bus, member);
  }

  lemma PadIdPresent(containers: seq<Device>, pad: Block, utility: seq<Device>)
    ensures pad.root.id in DeviceIds(containers + (BlockDevices(pad) + utility))
  {
    assert (BlockDevices(pad) + utility)[0] == pad.root;
    assert pad.root in containers + (BlockDevices(pad) + utility);
    DeviceIdsMember(containers + (BlockDevices(pad) + utility), pad.root.id);
  }

  lemma BetweenMemberResolves(issued: seq<string>, r: Resolution, containers: seq<Device>, rest: seq<Device>,
                              devices: seq<Device>, battery: string, between: seq<Bus>, bus: Bus, member: BusMember)
    requires devices == containers + rest && battery in DeviceIds(devices)
    requires BetweenBuses(issued, r, containers, devices, battery) == Ok(between)
    requires bus in between && member in bus.members
    ensures member.deviceId in DeviceIds(devices)
  {
    BetweenIs(issued, r, containers, devices, battery, between);
    var siteBus := SiteBusOf(Slug("site_mv", Count(issued, "site_mv") + 1), containers, battery);
    if bus == siteBus {
      SiteBusResolves(siteBus.id, containers, rest, battery, member);
    } else {
      LvMemberResolves(issued + ["site_mv"], r, containers, rest, bus, member);
    }
  }

  /** The three Dtm validators accept every site the generator composes, whatever the catalog holds. */
  lemma ValidatorsNeverFire(profile: string, r: Resolution, m: Manifest, templates: Templates)
    requires Generate(profile, r, m, templates).Ok?
    ensures var dtm := Generate(profile, r, m, templates).value;
            ParentChainResolves(dtm) && TemplateRefsResolve(dtm) && BusMembersResolve(dtm)
  {
    var dtm := Generate(profile, r, m, templates).value;
    var plans, battery, between := Parts(profile, r, m, templates);
    forall d | d in dtm.devices && d.parent.Some? ensures d.parent.value in DeviceIds(dtm.devices) {
      ParentsResolve(plans + [battery], r.offGrid, d);
    }
    forall b, mem | b in dtm.buses && mem in b.members ensures mem.deviceId in DeviceIds(dtm.devices) {
      if b in FlatBuses(Blocks(plans)) {
        ContainerMembersResolve(plans, battery, r, b, mem);
      } else {
        BetweenMembersResolve(plans, battery, r, dtm.devices, Blocks(plans + [battery])[|plans|].root.id, between, b, mem);
      }
    }
  }
}
