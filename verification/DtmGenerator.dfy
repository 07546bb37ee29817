/** DtmGeneratorService.generate as it runs: shared dicts and lists filled container by container. */
module DtmGenerator {
  import opened Lists
  import opened Text
  import opened Numbering
  import opened Catalog
  import opened ComputeNodes
  import opened ComputeFeeds
  import opened Dtm
  import opened SitePlan
  import opened DtmSpec

  /** d.get(k, []) */
  function Get(m: map<string, seq<string>>, k: string): seq<string> { if k in m then m[k] else [] }

  /** d.setdefault(k, []).append(v) */
  function AppendAt(m: map<string, seq<string>>, k: string, v: string): map<string, seq<string>> {
    m[k := Get(m, k) + [v]]
  }

  /** expand_bus: template patterns looked up in the container's own table. */
  function ExpandFrom(specs: seq<MemberSpec>, table: map<string, seq<string>>): seq<BusMember> {
    if specs == [] then []
    else
      var s := specs[|specs| - 1];
      ExpandFrom(specs[..|specs| - 1], table) + Members(Get(table, s.template), s.port)
  }

  ghost predicate Indexes(table: map<string, seq<string>>, devices: seq<Device>) {
    forall t :: Get(table, t) == IdsOf(devices, t)
  }

  lemma {:induction false} ExpandFromIndex(specs: seq<MemberSpec>, table: map<string, seq<string>>, leaves: seq<Device>)
    requires Indexes(table, leaves)
    ensures ExpandFrom(specs, table) == ExpandMembers(specs, leaves)
  {
    if specs != [] {
      ExpandFromIndex(specs[..|specs| - 1], table, leaves);
    }
  }

  lemma IndexesSnoc(table: map<string, seq<string>>, devices: seq<Device>, d: Device)
    requires Indexes(table, devices)
    ensures Indexes(AppendAt(table, d.template, d.id), devices + [d])
  {
    assert (devices + [d])[..|devices|] == devices;
  }

  lemma {:induction false} IdsCut(issued: seq<string>, t: string, ts: seq<string>, bs: seq<string>)
    ensures var ids := Ids(issued, [t] + ts + bs);
            && ids[0] == Slug(t, Count(issued, t) + 1)
            && ids[1..1 + |ts|] == Ids(issued + [t], ts)
            && ids[1 + |ts|..] == Ids(issued + [t] + ts, bs)
  {
    IdsAppend(issued, [t] + ts, bs);
    IdsAppend(issued, [t], ts);
    assert issued + ([t] + ts) == issued + [t] + ts;
    assert [t][..0] == [];
    assert Ids(issued, [t]) == [Slug(t, Count(issued, t) + 1)];
  }

  /** A block cut at the points where the loops stand. */
  lemma {:induction false} BlockParts(issued: seq<string>, p: Plan)
    ensures var b := BlockOf(issued, p);
            var ts, bs := LeafTemplates(p.leaves), BusNames(p.buses);
            && b.root == RootOf(p.template, p.tag, Slug(p.template, Count(issued, p.template) + 1))
            && b.leaves == Emitted(issued + [p.template], p.leaves, b.root.id)
            && b.buses == ExpandBuses(p.buses, Ids(issued + [p.template] + ts, bs), b.leaves)
  {
    IdsCut(issued, p.template, LeafTemplates(p.leaves), BusNames(p.buses));
  }

  lemma IdsSnoc(issued: seq<string>, names: seq<string>, t: string)
    ensures Ids(issued, names + [t]) == Ids(issued, names) + [Slug(t, Count(issued + names, t) + 1)]
  {
    assert (names + [t])[..|names|] == names;
    CountAppend(issued, names, t);
  }

  /** counter.get(t, 0) */
  function Tally(counter: map<string, nat>, t: string): nat { if t in counter then counter[t] else 0 }

  ghost predicate CountsMatch(counter: map<string, nat>, issued: seq<string>) {
    forall t :: Tally(counter, t) == Count(issued, t)
  }

  lemma {:induction false} CountsSnoc(counter: map<string, nat>, issued: seq<string>, t: string)
    requires CountsMatch(counter, issued)
    ensures Tally(counter, t) == Count(issued, t)
    ensures CountsMatch(counter[t := Tally(counter, t) + 1], issued + [t])
  {
    forall u ensures Tally(counter[t := Tally(counter, t) + 1], u) == Count(issued + [t], u) {
      CountSnoc(issued, t, u);
    }
  }

  function DeviceOf(leaf: Leaf, id: string, parent: string): Device {
    Device(id, leaf.template, leaf.name, Some(parent), leaf.connection, leaf.capacityKwh)
  }

  /** The devices made of some leaves when numbering stands at `issued`. */
  function Emitted(issued: seq<string>, leaves: seq<Leaf>, parent: string): seq<Device> {
    LeafDevices(leaves, Ids(issued, LeafTemplates(leaves)), parent)
  }

  lemma {:induction false} EmittedSnoc(issued: seq<string>, leaves: seq<Leaf>, leaf: Leaf, parent: string)
    ensures LeafTemplates(leaves + [leaf]) == LeafTemplates(leaves) + [leaf.template]
    ensures Emitted(issued, leaves + [leaf], parent)
         == Emitted(issued, leaves, parent)
            + [DeviceOf(leaf, Slug(leaf.template, Count(issued + LeafTemplates(leaves), leaf.template) + 1), parent)]
  {
    var ts := LeafTemplates(leaves);
    assert LeafTemplates(leaves + [leaf]) == ts + [leaf.template];
    IdsSnoc(issued, ts, leaf.template);
  }

  /** The leaf loop, as a fact about values: `kept` have been emitted since `before` and `devices0`. */
  ghost predicate LeavesDone(before: seq<string>, devices0: seq<Device>, parent: string, kept: seq<Leaf>,
                             issued: seq<string>, devices: seq<Device>)
  {
    issued == before + LeafTemplates(kept) && devices == devices0 + Emitted(before, kept, parent)
  }

  function NextId(issued: seq<string>, t: string): string { Slug(t, Count(issued, t) + 1) }

  lemma LeavesDoneStep(before: seq<string>, devices0: seq<Device>, parent: string, kept: seq<Leaf>,
                       issued: seq<string>, devices: seq<Device>, leaf: Leaf)
    requires LeavesDone(before, devices0, parent, kept, issued, devices)
    ensures LeavesDone(before, devices0, parent, kept + [leaf], issued + [leaf.template],
                       devices + [DeviceOf(leaf, NextId(issued, leaf.template), parent)])
    ensures Emitted(before, kept + [leaf], parent)
         == Emitted(before, kept, parent) + [DeviceOf(leaf, NextId(issued, leaf.template), parent)]
  {
    EmittedSnoc(before, kept, leaf, parent);
  }

  lemma NumberedSnoc(kept: seq<Leaf>, template: string, stem: string, n: nat)
    ensures kept + NumberedLeaves(template, stem, n + 1)
         == kept + NumberedLeaves(template, stem, n) + [Leaf(template, Some(stem + Dec(n + 1)), Polled(None), None)]
  {
  }

  ghost predicate BusesDone(before: seq<string>, buses0: seq<Bus>, leaves: seq<Device>, done: seq<BusSpec>,
                            issued: seq<string>, buses: seq<Bus>)
  {
    issued == before + BusNames(done) && buses == buses0 + ExpandBuses(done, Ids(before, BusNames(done)), leaves)
  }

  ghost predicate TopologyDone(before: seq<string>, devices0: seq<Device>, buses0: seq<Bus>, parent: string,
                               leaves: seq<Leaf>, specs: seq<BusSpec>,
                               issued: seq<string>, devices: seq<Device>, buses: seq<Bus>)
  {
    var numbered := before + LeafTemplates(leaves);
    && LeavesDone(before, devices0, parent, leaves, numbered, devices)
    && BusesDone(numbered, buses0, Emitted(before, leaves, parent), specs, issued, buses)
  }

  lemma {:induction false} BusesDoneStep(before: seq<string>, buses0: seq<Bus>, leaves: seq<Device>, done: seq<BusSpec>,
                                         issued: seq<string>, buses: seq<Bus>, spec: BusSpec, local: map<string, seq<string>>)
    requires BusesDone(before, buses0, leaves, done, issued, buses) && Indexes(local, leaves)
    ensures BusesDone(before, buses0, leaves, done + [spec], issued + [spec.busId],
                      buses + [Bus(NextId(issued, spec.busId), spec.kind, ExpandFrom(spec.members, local))])
  {
    BusesSnoc(before, buses0, done, spec, leaves, local);
  }

  /** collect_templates_used: a template the catalog lacks fails the whole site. */
  method CollectTemplatesUsed(devices: seq<Device>, templates: Templates) returns (used: Result<Templates, DtmError>)
    ensures used == UsedTemplates(devices, templates)
  {
    var slugs := TemplateSlugs(devices);
    var result: Templates := map[];
    var rest := slugs;
    while rest != {}
      invariant rest <= slugs && result.Keys == slugs - rest
      invariant forall t :: t in result ==> t in templates && result[t] == templates[t]
    {
      var slug :| slug in rest;
      if slug !in templates {
        return Err(UnknownTemplate);
      }
      result := result[slug := templates[slug]];
      rest := rest - {slug};
    }
    assert forall t :: t in slugs ==> t in result;
    assert result == map t | t in slugs :: templates[t];
    used := Ok(result);
  }

  class SiteBuilder {
    var devices: seq<Device>
    var buses: seq<Bus>
    var slugCounter: map<string, nat>
    var byTemplate: map<string, seq<string>>
    ghost var issued: seq<string>

    /** The counters count the names numbered so far. */
    ghost predicate Counted()
      reads this
    {
      CountsMatch(slugCounter, issued)
    }

    /** … and every id in use so far is a numbered one. */
    ghost predicate Valid()
      reads this
    {
      Counted() && IdsWithin(devices, buses, Ids([], issued))
    }

    constructor ()
      ensures Built([])
    {
      devices, buses, slugCounter, byTemplate, issued := [], [], map[], map[], [];
    }

    /** assign_slug */
    method AssignSlug(t: string) returns (slug: string)
      requires Counted()
      modifies this`slugCounter, this`issued
      ensures Counted()
      ensures issued == old(issued) + [t] && slug == NextId(old(issued), t)
    {
      CountsSnoc(slugCounter, issued, t);
      var n := Tally(slugCounter, t) + 1;
      slugCounter := slugCounter[t := n];
      issued := issued + [t];
      slug := Slug(t, n);
    }

    method AssignFreshSlug(t: string) returns (slug: string)
      requires Valid()
      modifies this`slugCounter, this`issued
      ensures Valid()
      ensures issued == old(issued) + [t] && slug == NextId(old(issued), t)
      ensures slug !in DeviceIds(devices) && slug in Ids([], issued)
    {
      NextIdIsFresh(issued, t);
      slug := AssignSlug(t);
    }

    /** devices[slug] = Device(device_id=slug, …); the id is new, so nothing is overwritten. */
    method AddDevice(d: Device)
      requires Valid() && d.id !in DeviceIds(devices) && d.id in Ids([], issued)
      modifies this`devices
      ensures Valid() && devices == old(devices) + [d]
    {
      devices := Put(devices, d);
      assert DeviceIds(devices) == DeviceIds(old(devices)) + [d.id];
    }

    /** assign_slug, then the new device goes into `devices` and `by_template`. */
    method Store(draft: Device) returns (slug: string)
      requires Valid() && Indexes(byTemplate, devices)
      modifies this`devices, this`slugCounter, this`byTemplate, this`issued
      ensures Valid() && Indexes(byTemplate, devices)
      ensures slug == NextId(old(issued), draft.template)
      ensures issued == old(issued) + [draft.template]
      ensures devices == old(devices) + [draft.(id := slug)]
    {
      IndexesSnoc(byTemplate, devices, draft.(id := NextId(issued, draft.template)));
      slug := AssignFreshSlug(draft.template);
      AddDevice(draft.(id := slug));
      byTemplate := AppendAt(byTemplate, draft.template, slug);
    }

    /** One topology device: numbered, stored, and entered in both template tables. */
    method EmitLeaf(leaf: Leaf, parent: string, local0: map<string, seq<string>>, ghost leaves: seq<Device>)
      returns (local: map<string, seq<string>>)
      requires Valid() && Indexes(byTemplate, devices) && Indexes(local0, leaves)
      modifies this`devices, this`slugCounter, this`byTemplate, this`issued
      ensures Valid() && Indexes(byTemplate, devices)
      ensures issued == old(issued) + [leaf.template]
      ensures devices == old(devices) + [DeviceOf(leaf, NextId(old(issued), leaf.template), parent)]
      ensures Indexes(local, leaves + [DeviceOf(leaf, NextId(old(issued), leaf.template), parent)])
    {
      IndexesSnoc(local0, leaves, DeviceOf(leaf, NextId(issued, leaf.template), parent));
      var slug := Store(DeviceOf(leaf, "", parent));
      local := AppendAt(local0, leaf.template, slug);
    }

    /** Leaves of one container, appended in topology order; `local` is the container's own table. */
    method EmitLeaves(tag: string, specs: seq<DeviceSpec>, drop: set<string>, parent: string)
      returns (local: map<string, seq<string>>)
      requires Valid() && Indexes(byTemplate, devices)
      modifies this`devices, this`slugCounter, this`byTemplate, this`issued
      ensures Valid() && Indexes(byTemplate, devices)
      ensures LeavesDone(old(issued), old(devices), parent, Leaves(tag, specs, drop), issued, devices)
      ensures Indexes(local, Emitted(old(issued), Leaves(tag, specs, drop), parent))
    {
      local := map[];
      ghost var before, devices0, kept := issued, devices, Leaves(tag, specs[..0], drop);
      for k := 0 to |specs|
        invariant Valid() && Indexes(byTemplate, devices)
        invariant kept == Leaves(tag, specs[..k], drop)
        invariant LeavesDone(before, devices0, parent, kept, issued, devices)
        invariant Indexes(local, Emitted(before, kept, parent))
      {
        assert specs[..k + 1][..k] == specs[..k];
        if !IsDropped(specs[k], drop) {
          var leaf := LeafOf(tag, specs[k]);
          LeavesDoneStep(before, devices0, parent, kept, issued, devices, leaf);
          local := EmitLeaf(leaf, parent, local, Emitted(before, kept, parent));
          kept := kept + [leaf];
        }
      }
      assert specs[..|specs|] == specs;
    }

    /** Everything emitted so far is exactly the blocks of `plans`. */
    ghost predicate Built(plans: seq<Plan>)
      reads this
    {
      && Valid() && Indexes(byTemplate, devices)
      && devices == Flat(Blocks(plans))
      && buses == FlatBuses(Blocks(plans))
      && issued == AllNames(plans)
    }

    /** The container's own buses, numbered like device slugs. */
    method EmitBuses(specs: seq<BusSpec>, local: map<string, seq<string>>, ghost leaves: seq<Device>)
      requires Valid() && Indexes(local, leaves)
      modifies this`buses, this`slugCounter, this`issued
      ensures Valid() && BusesDone(old(issued), old(buses), leaves, specs, issued, buses)
    {
      ghost var before, buses0, done := issued, buses, specs[..0];
      for j := 0 to |specs|
        invariant done == specs[..j]
        invariant Valid() && BusesDone(before, buses0, leaves, done, issued, buses)
      {
        EmitBus(specs[j], local, leaves, before, buses0, done);
        done := done + [specs[j]];
      }
      assert specs[..|specs|] == specs;
    }

    method EmitBus(spec: BusSpec, local: map<string, seq<string>>, ghost leaves: seq<Device>, ghost before: seq<string>,
                   ghost buses0: seq<Bus>, ghost done: seq<BusSpec>)
      requires Valid() && Indexes(local, leaves) && BusesDone(before, buses0, leaves, done, issued, buses)
      modifies this`buses, this`slugCounter, this`issued
      ensures Valid() && BusesDone(before, buses0, leaves, done + [spec], issued, buses)
    {
      BusesDoneStep(before, buses0, leaves, done, issued, buses, spec, local);
      var slug := AssignFreshSlug(spec.busId);
      AddBus(Bus(slug, spec.kind, ExpandFrom(spec.members, local)));
    }

    method AddBus(b: Bus)
      requires Valid() && b.id in Ids([], issued)
      modifies this`buses
      ensures Valid() && buses == old(buses) + [b]
    {
      buses := buses + [b];
      assert BusIds(buses) == BusIds(old(buses)) + [b.id];
    }

    /** The leaves and buses of a container whose module has just been stored. */
    method EmitTopology(t: Topology, tag: string, drop: set<string>, parent: string)
      requires Valid() && Indexes(byTemplate, devices)
      modifies this
      ensures Valid() && Indexes(byTemplate, devices)
      ensures TopologyDone(old(issued), old(devices), old(buses), parent, Leaves(tag, t.devices, drop), t.buses,
                           issued, devices, buses)
    {
      ghost var emitted := Emitted(issued, Leaves(tag, t.devices, drop), parent);
      var local := EmitLeaves(tag, t.devices, drop, parent);
      EmitBuses(t.buses, local, emitted);
    }

    method EmitModule(template: string, tag: string) returns (slug: string)
      requires Valid() && Indexes(byTemplate, devices)
      modifies this`devices, this`slugCounter, this`byTemplate, this`issued
      ensures Valid() && Indexes(byTemplate, devices)
      ensures slug == NextId(old(issued), template)
      ensures devices == old(devices) + [RootOf(template, tag, slug)] && issued == old(issued) + [template]
    {
      slug := Store(RootOf(template, tag, ""));
    }

    /** A container whose variant publishes no topology.yaml: the module alone. */
    method EmitBare(p: Plan, ghost plans: seq<Plan>)
      requires Built(plans) && p.leaves == [] && p.buses == []
      modifies this
      ensures Built(plans + [p])
    {
      var slug := EmitModule(p.template, p.tag);
      BlockBuilt(plans, p, slug, issued, devices, buses);
    }

    method EmitFull(template: string, t: Topology, tag: string, drop: set<string>, ghost plans: seq<Plan>)
      requires Built(plans)
      modifies this
      ensures Built(plans + [Plan(tag, template, Leaves(tag, t.devices, drop), t.buses)])
    {
      ghost var p := Plan(tag, template, Leaves(tag, t.devices, drop), t.buses);
      var slug := EmitModule(template, tag);
      EmitTopology(t, tag, drop, slug);
      BlockBuilt(plans, p, slug, issued, devices, buses);
    }

    /** emit_container */
    method EmitContainer(asm: AsmType, topology: Option<Topology>, tag: string, drop: set<string>, ghost plans: seq<Plan>)
      requires Built(plans)
      modifies this
      ensures Built(plans + [PlanOf(asm, topology, tag, drop)])
    {
      if topology.Some? {
        EmitFull(ModuleTemplate(asm, topology), topology.value, tag, drop, plans);
      } else {
        EmitBare(PlanOf(asm, topology, tag, drop), plans);
      }
    }

    /** One device of the battery pad; the pad is not entered in `by_template`. */
    method EmitPadDevice(leaf: Leaf, parent: string)
      requires Valid()
      modifies this`devices, this`slugCounter, this`issued
      ensures Valid() && issued == old(issued) + [leaf.template]
      ensures devices == old(devices) + [DeviceOf(leaf, NextId(old(issued), leaf.template), parent)]
    {
      ghost var id := NextId(issued, leaf.template);
      var slug := AssignFreshSlug(leaf.template);
      assert slug == id;
      AddDevice(DeviceOf(leaf, slug, parent));
    }

    method EmitNumbered(template: string, stem: string, count: nat, parent: string,
                        ghost before: seq<string>, ghost devices0: seq<Device>, ghost kept: seq<Leaf>)
      requires Valid() && LeavesDone(before, devices0, parent, kept, issued, devices)
      modifies this`devices, this`slugCounter, this`issued
      ensures Valid()
      ensures LeavesDone(before, devices0, parent, kept + NumberedLeaves(template, stem, count), issued, devices)
    {
      ghost var done := kept;
      for n := 0 to count
        invariant done == kept + NumberedLeaves(template, stem, n)
        invariant Valid() && LeavesDone(before, devices0, parent, done, issued, devices)
      {
        var leaf := Leaf(template, Some(stem + Dec(n + 1)), Polled(None), None);
        LeavesDoneStep(before, devices0, parent, done, issued, devices, leaf);
        EmitPadDevice(leaf, parent);
        NumberedSnoc(kept, template, stem, n);
        done := done + [leaf];
      }
    }

    /** _emit_megapacks */
    method EmitMegapacks(r: Resolution, kwh: real, slug: string)
      requires Valid() && kwh != 0.0
      modifies this`devices, this`slugCounter, this`issued
      ensures Valid()
      ensures LeavesDone(old(issued), old(devices), slug,
                         NumberedLeaves("bess_rack", "BESS-1-MP-", MegapackUnits(r.bessCapacityMwh, kwh)), issued, devices)
    {
      var units := MegapackUnits(r.bessCapacityMwh, kwh);
      assert [] + NumberedLeaves("bess_rack", "BESS-1-MP-", units) == NumberedLeaves("bess_rack", "BESS-1-MP-", units);
      EmitNumbered("bess_rack", "BESS-1-MP-", units, slug, issued, devices, []);
    }

    /** The CATL bank and, on dc_ext, the PCS beside it. */
    method EmitDcPad(r: Resolution, slug: string)
      requires Valid()
      modifies this`devices, this`slugCounter, this`issued
      ensures Valid() && LeavesDone(old(issued), old(devices), slug, DcLeaves(r), issued, devices)
    {
      ghost var before, devices0 := issued, devices;
      LeavesDoneStep(before, devices0, slug, [], issued, devices, BankLeaf(r));
      assert [] + [BankLeaf(r)] == [BankLeaf(r)];
      EmitPadDevice(BankLeaf(r), slug);
      EmitNumbered("pcs", "PCS-", PcsUnits(r), slug, before, devices0, [BankLeaf(r)]);
    }

    method EmitPadModule(template: string) returns (slug: string)
      requires Valid()
      modifies this`devices, this`slugCounter, this`issued
      ensures Valid() && slug == NextId(old(issued), template)
      ensures devices == old(devices) + [RootOf(template, "BESS", slug)] && issued == old(issued) + [template]
    {
      slug := AssignFreshSlug(template);
      AddDevice(RootOf(template, "BESS", slug));
    }

    method EmitAcPad(r: Resolution, kwh: real) returns (slug: string)
      requires Valid() && kwh != 0.0
      modifies this`devices, this`slugCounter, this`issued
      ensures Valid()
      ensures PadEmitted(old(issued), old(devices), AcPlan(r, kwh), slug, issued, devices)
    {
      ghost var issued0, devices0 := issued, devices;
      slug := EmitPadModule("bess_module");
      EmitMegapacks(r, kwh, slug);
      PadBlock(issued0, devices0, AcPlan(r, kwh), slug, issued, devices);
    }

    method EmitCatlPad(r: Resolution) returns (slug: string)
      requires Valid()
      modifies this`devices, this`slugCounter, this`issued
      ensures Valid()
      ensures PadEmitted(old(issued), old(devices), DcPlan(r), slug, issued, devices)
    {
      ghost var issued0, devices0 := issued, devices;
      slug := EmitPadModule("bess_module_dc");
      EmitDcPad(r, slug);
      PadBlock(issued0, devices0, DcPlan(r), slug, issued, devices);
    }

    /** emit_battery */
    method EmitBattery(r: Resolution, templates: Templates) returns (pad: Result<string, DtmError>)
      requires Valid()
      modifies this`devices, this`slugCounter, this`issued
      ensures pad.Err? <==> BatteryPlan(r, templates).Err?
      ensures pad.Err? ==> pad.error == BatteryPlan(r, templates).error
      ensures pad.Ok? ==> Valid()
      ensures pad.Ok? ==>
                PadEmitted(old(issued), old(devices), BatteryPlan(r, templates).value, pad.value, issued, devices)
    {
      if r.coupling == AcCoupled {
        if "bess_rack" !in templates || templates["bess_rack"].capacityKwh.None?
           || templates["bess_rack"].capacityKwh.value == 0.0 {
          return Err(NoMegapackCapacity);
        }
        var slug := EmitAcPad(r, templates["bess_rack"].capacityKwh.value);
        pad := Ok(slug);
      } else {
        var slug := EmitCatlPad(r);
        pad := Ok(slug);
      }
    }

    /** emit_utility_devices: two fixed ids that can never be numbered ids. */
    method EmitUtilityDevices(offGrid: bool)
      requires Valid()
      modifies this`devices
      ensures devices == old(devices) + UtilityOf(offGrid)
    {
      if !offGrid {
        UtilityIdsFree(issued);
        ghost var before := devices;
        devices := Put(devices, UTILITY_DEVICES[0]);
        assert DeviceIds(devices) == DeviceIds(before) + ["der_dispatch"];
        devices := Put(devices, UTILITY_DEVICES[1]);
      }
    }

    /** site_bus */
    method AddSiteBus(battery: string, ghost containers: seq<Device>) returns (bus: Bus)
      requires Counted() && Indexes(byTemplate, containers)
      modifies this`buses, this`slugCounter, this`issued
      ensures Counted() && issued == old(issued) + ["site_mv"]
      ensures bus == SiteBusOf(NextId(old(issued), "site_mv"), containers, battery)
      ensures buses == old(buses) + [bus]
    {
      var slug := AssignSlug("site_mv");
      bus := Bus(slug, "ac", Members(Get(byTemplate, "poi_meter"), Some("voltage_in"))
                             + Members(Get(byTemplate, "switchgear"), Some("line_in"))
                             + [BusMember(battery, Some("ac_out"))]);
      buses := buses + [bus];
    }

    /** lv_main_buses */
    method LvMainBuses(r: Resolution, ghost containers: seq<Device>) returns (lv: Result<seq<Bus>, DtmError>)
      requires Counted() && Indexes(byTemplate, containers)
      modifies this`slugCounter, this`issued
      ensures lv == LvBusesOf(old(issued), r, containers, devices)
    {
      var xfmrs, swbds := Get(byTemplate, "transformer"), Get(byTemplate, "lv_switchboard");
      if swbds == [] {
        return Ok([]);
      }
      var feeds := Feeds(r.computeCount, r.gridCount);
      if !(|xfmrs| == |swbds| == |feeds|) {
        return Err(UnequalFeeds);
      }
      lv := LvZip(ModuleTable(devices), xfmrs, swbds, feeds);
    }

    /** One numbered bus per (transformer, switchboard, feed). */
    method LvZip(modules: map<Option<string>, string>, xfmrs: seq<string>, swbds: seq<string>, feeds: seq<seq<int>>)
      returns (lv: Result<seq<Bus>, DtmError>)
      requires Counted() && modules == ModuleTable(devices) && |xfmrs| == |swbds| == |feeds|
      modifies this`slugCounter, this`issued
      ensures lv == LvBusList(old(issued), devices, xfmrs, swbds, feeds)
    {
      ghost var before := issued;
      var built: seq<Bus> := [];
      for k := 0 to |feeds|
        invariant Counted() && Count(issued, "lv_main") == Count(before, "lv_main") + k
        invariant LvDone(before, devices, xfmrs, swbds, feeds, k, built)
      {
        var slug := AssignSlug("lv_main");
        CountSnoc(old(issued), "lv_main", "lv_main");
        var fed := ModuleIdsFrom(modules, feeds[k]);
        LvStep(before, devices, xfmrs, swbds, feeds, k, built);
        if fed.Err? {
          return Err(fed.error);
        }
        built := built + [LvBus(slug, xfmrs[k], swbds[k], fed.value)];
      }
      assert xfmrs[..|feeds|] == xfmrs && swbds[..|feeds|] == swbds && feeds[..|feeds|] == feeds;
      lv := Ok(built);
    }

    /** DtmGeneratorService.generate */
    method Generate(profile: string, r: Resolution, m: Manifest, templates: Templates) returns (dtm: Result<Dtm, DtmError>)
      requires Built([])
      modifies this
      ensures dtm == DtmSpec.Generate(profile, r, m, templates)
    {
      if profile !in m.profiles {
        return Err(UnknownProfile);
      }
      var prof := m.profiles[profile];
      var variant := prof.ComputeVariant(r.gpu);
      if variant.None? {
        return Err(NoComputeVariant);
      }
      EmitCompute(m.Topology(ComputeContainer, variant.value), r);
      var grids := GridVariants(prof, r.gridCount);
      if grids.Err? {
        return Err(grids.error);
      }
      ghost var plans := ComputePlans(m.Topology(ComputeContainer, variant.value), r.nodeCount, r.computeCount);
      EmitGrids(m, grids.value, plans);
      dtm := FinishSite(r, templates, plans + GridPlans(m, grids.value));
    }

    method EmitCompute(topology: Option<Topology>, r: Resolution)
      requires Built([])
      modifies this
      ensures Built(ComputePlans(topology, r.nodeCount, r.computeCount))
    {
      ghost var plans: seq<Plan> := [];
      for n := 0 to r.computeCount
        invariant plans == ComputePlans(topology, r.nodeCount, n) && Built(plans)
      {
        EmitContainer(ComputeContainer, topology, "C" + Dec(n + 1), DroppedTags(NodesInContainer(r.nodeCount, n + 1)), plans);
        ComputePlansSnoc(topology, r.nodeCount, n);
        plans := plans + [ComputePlan(topology, r.nodeCount, n + 1)];
      }
    }

    method EmitGrids(m: Manifest, variants: seq<string>, ghost compute: seq<Plan>)
      requires Built(compute)
      modifies this
      ensures Built(compute + GridPlans(m, variants))
    {
      ghost var plans := compute;
      for k := 0 to |variants|
        invariant plans == compute + GridPlans(m, variants[..k]) && Built(plans)
      {
        EmitContainer(GridContainer, m.Topology(GridContainer, variants[k]), "G" + Dec(k + 1), {}, plans);
        GridPlansSnoc(m, variants, k, compute);
        plans := plans + [GridPlan(m, variants[k], k + 1)];
      }
      assert variants[..|variants|] == variants;
    }

    /** emit_battery, then emit_utility_devices. */
    method EmitPadAndUtility(r: Resolution, templates: Templates, ghost plans: seq<Plan>) returns (pad: Result<string, DtmError>)
      requires Built(plans)
      modifies this`devices, this`slugCounter, this`issued
      ensures pad.Err? <==> BatteryPlan(r, templates).Err?
      ensures pad.Err? ==> pad.error == BatteryPlan(r, templates).error
      ensures pad.Ok? ==>
                var battery := BatteryPlan(r, templates).value;
                && Counted()
                && devices == SiteDevices(plans, battery, r)
                && issued == AllNames(plans) + Names(battery)
                && pad.value == BlockOf(AllNames(plans), battery).root.id
    {
      ghost var issued0, devices0 := issued, devices;
      pad := EmitBattery(r, templates);
      if pad.Err? {
        return;
      }
      ghost var battery := BatteryPlan(r, templates).value;
      assert PadEmitted(issued0, devices0, battery, pad.value, issued, devices);
      PadIsLastBlock(plans, battery, r, pad.value, issued, devices);
      EmitUtilityDevices(r.offGrid);
    }

    /** Battery pad, utility devices, site buses and templates_used, once the containers stand. */
    method FinishSite(r: Resolution, templates: Templates, ghost plans: seq<Plan>) returns (dtm: Result<Dtm, DtmError>)
      requires Built(plans)
      modifies this
      ensures dtm == FinishedSite(r, templates, plans)
    {
      var pad := EmitPadAndUtility(r, templates, plans);
      if pad.Err? {
        return Err(pad.error);
      }
      dtm := CompleteSite(r, templates, pad.value, plans, BatteryPlan(r, templates).value);
    }

    method CompleteSite(r: Resolution, templates: Templates, pad: string, ghost plans: seq<Plan>, ghost battery: Plan)
      returns (dtm: Result<Dtm, DtmError>)
      requires Counted() && Indexes(byTemplate, Flat(Blocks(plans)))
      requires devices == SiteDevices(plans, battery, r) && buses == FlatBuses(Blocks(plans))
      requires issued == AllNames(plans) + Names(battery) && pad == BlockOf(AllNames(plans), battery).root.id
      modifies this`buses, this`slugCounter, this`issued
      ensures dtm == CompletedSite(r, templates, plans, battery)
    {
      SiteBusesAre(plans, battery, r);
      var lv := AddSiteBuses(r, pad, Flat(Blocks(plans)));
      if lv.Err? {
        return Err(lv.error);
      }
      var used := CollectTemplatesUsed(devices, templates);
      if used.Err? {
        return Err(used.error);
      }
      if !IdsValid(devices) {
        return Err(InvalidDeviceId);
      }
      dtm := Ok(Dtm(devices, buses, used.value));
    }

    /** The buses between containers, appended after every container's own. */
    method AddSiteBuses(r: Resolution, battery: string, ghost containers: seq<Device>)
      returns (lv: Result<seq<Bus>, DtmError>)
      requires Counted() && Indexes(byTemplate, containers)
      modifies this`buses, this`slugCounter, this`issued
      ensures lv == LvBusesOf(old(issued) + ["site_mv"], r, containers, devices)
      ensures lv.Ok? ==>
                buses == old(buses) + [SiteBusOf(NextId(old(issued), "site_mv"), containers, battery)] + lv.value
    {
      var _ := AddSiteBus(battery, containers);
      lv := LvMainBuses(r, containers);
      if lv.Ok? {
        buses := buses + lv.value;
      }
    }
  }

  /** SiteBuses, by whether the LV buses could be made. */
  lemma {:induction false} SiteBusesAre(plans: seq<Plan>, battery: Plan, r: Resolution)
    ensures var issued := AllNames(plans) + Names(battery);
            var containers := Flat(Blocks(plans));
            var lv := LvBusesOf(issued + ["site_mv"], r, containers, SiteDevices(plans, battery, r));
            var pad := BlockOf(AllNames(plans), battery).root.id;
            SiteBuses(plans, battery, r)
            == if lv.Err? then Err(lv.error)
               else Ok(FlatBuses(Blocks(plans)) + [SiteBusOf(NextId(issued, "site_mv"), containers, pad)] + lv.value)
  {
    var lv := LvBusesOf(AllNames(plans) + Names(battery) + ["site_mv"], r, Flat(Blocks(plans)), SiteDevices(plans, battery, r));
    if lv.Ok? {
      Regroup(FlatBuses(Blocks(plans)),
              SiteBusOf(NextId(AllNames(plans) + Names(battery), "site_mv"), Flat(Blocks(plans)), BlockOf(AllNames(plans), battery).root.id),
              lv.value);
    }
  }

  lemma ComputePlansSnoc(topology: Option<Topology>, nodes: int, n: nat)
    ensures ComputePlans(topology, nodes, n + 1) == ComputePlans(topology, nodes, n) + [ComputePlan(topology, nodes, n + 1)]
  {
  }

  lemma GridPlansSnoc(m: Manifest, variants: seq<string>, k: nat, compute: seq<Plan>)
    requires k < |variants|
    ensures compute + GridPlans(m, variants[..k + 1]) == compute + GridPlans(m, variants[..k]) + [GridPlan(m, variants[k], k + 1)]
  {
  }

  lemma {:induction false} PadIsLastBlock(plans: seq<Plan>, battery: Plan, r: Resolution, id: string, issued: seq<string>, devices: seq<Device>)
    requires PadEmitted(AllNames(plans), Flat(Blocks(plans)), battery, id, issued, devices)
    ensures devices + UtilityOf(r.offGrid) == SiteDevices(plans, battery, r)
    ensures issued == AllNames(plans) + Names(battery) && id == BlockOf(AllNames(plans), battery).root.id
  {
    BlocksSnoc(plans, battery);
    FlatSnoc(Blocks(plans), BlockOf(AllNames(plans), battery));
  }

  /** The battery pad went in as the block of plan `p`, under the module `id`. */
  ghost predicate PadEmitted(issued0: seq<string>, devices0: seq<Device>, p: Plan, id: string,
                             issued: seq<string>, devices: seq<Device>)
  {
    var b := BlockOf(issued0, p);
    id == b.root.id && devices == devices0 + BlockDevices(b) && issued == issued0 + Names(p)
  }

  function RootOf(template: string, tag: string, id: string): Device {
    Device(id, template, Some(tag), None, None, None)
  }

  lemma {:induction false} BusesSnoc(before: seq<string>, buses: seq<Bus>, done: seq<BusSpec>, spec: BusSpec, leaves: seq<Device>,
                                     local: map<string, seq<string>>)
    requires Indexes(local, leaves)
    ensures before + BusNames(done + [spec]) == before + BusNames(done) + [spec.busId]
    ensures var id := Slug(spec.busId, Count(before + BusNames(done), spec.busId) + 1);
            buses + ExpandBuses(done + [spec], Ids(before, BusNames(done + [spec])), leaves)
            == buses + ExpandBuses(done, Ids(before, BusNames(done)), leaves)
               + [Bus(id, spec.kind, ExpandFrom(spec.members, local))]
  {
    var id := Slug(spec.busId, Count(before + BusNames(done), spec.busId) + 1);
    assert BusNames(done + [spec]) == BusNames(done) + [spec.busId];
    IdsSnoc(before, BusNames(done), spec.busId);
    ExpandFromIndex(spec.members, local, leaves);
    assert ExpandBuses(done + [spec], Ids(before, BusNames(done)) + [id], leaves)
        == ExpandBuses(done, Ids(before, BusNames(done)), leaves) + [Bus(id, spec.kind, ExpandMembers(spec.members, leaves))];
  }

  /** Module, leaves, buses: appended in that order they are the next block. */
  lemma {:induction false} BlockBuilt(plans: seq<Plan>, p: Plan, id: string, issued: seq<string>, devices: seq<Device>, buses: seq<Bus>)
    requires id == NextId(AllNames(plans), p.template)
    requires TopologyDone(AllNames(plans) + [p.template], Flat(Blocks(plans)) + [RootOf(p.template, p.tag, id)],
                          FlatBuses(Blocks(plans)), id, p.leaves, p.buses, issued, devices, buses)
    ensures devices == Flat(Blocks(plans + [p]))
    ensures buses == FlatBuses(Blocks(plans + [p]))
    ensures issued == AllNames(plans + [p])
  {
    var b := BlockOf(AllNames(plans), p);
    BlockParts(AllNames(plans), p);
    assert b.root == RootOf(p.template, p.tag, id);
    assert devices == Flat(Blocks(plans)) + [b.root] + b.leaves;
    assert buses == FlatBuses(Blocks(plans)) + b.buses;
    BlockAppended(plans, p);
    NamesAppended(plans, p);
  }

  lemma {:induction false} BlockAppended(plans: seq<Plan>, p: Plan)
    ensures var b := BlockOf(AllNames(plans), p);
            && Flat(Blocks(plans)) + [b.root] + b.leaves == Flat(Blocks(plans + [p]))
            && FlatBuses(Blocks(plans)) + b.buses == FlatBuses(Blocks(plans + [p]))
  {
    var b := BlockOf(AllNames(plans), p);
    BlocksSnoc(plans, p);
    FlatSnoc(Blocks(plans), b);
    Regroup(Flat(Blocks(plans)), b.root, b.leaves);
  }

  lemma {:induction false} NamesAppended(plans: seq<Plan>, p: Plan)
    ensures AllNames(plans) + [p.template] + LeafTemplates(p.leaves) + BusNames(p.buses) == AllNames(plans + [p])
  {
    BlocksSnoc(plans, p);
  }

  lemma Regroup<T>(a: seq<T>, x: T, b: seq<T>)
    ensures a + [x] + b == a + ([x] + b)
  {
  }

  lemma PadBlock(issued0: seq<string>, devices0: seq<Device>, p: Plan, id: string, issued: seq<string>, devices: seq<Device>)
    requires p.buses == [] && id == NextId(issued0, p.template)
    requires LeavesDone(issued0 + [p.template], devices0 + [RootOf(p.template, p.tag, id)], id, p.leaves, issued, devices)
    ensures var b := BlockOf(issued0, p);
            id == b.root.id && devices == devices0 + BlockDevices(b) && issued == issued0 + Names(p)
  {
    var b := BlockOf(issued0, p);
    BlockParts(issued0, p);
    assert BusNames([]) == [];
    Regroup(devices0, b.root, b.leaves);
  }

  lemma {:induction false} UtilityIdsFree(issued: seq<string>)
    ensures "der_dispatch" !in Ids([], issued) && "operating_envelope" !in Ids([], issued)
  {
    forall i | 0 <= i < |issued| ensures Ids([], issued)[i] != "der_dispatch" && Ids([], issued)[i] != "operating_envelope" {
      IdsAreOrdinals(issued, i);
      SlugEndsInDigit(issued[i], Ordinal(issued, i));
    }
  }

  /** {d.display_name: d.device_id for d in devices.values() if d.parent is None} */
  function ModuleTable(devices: seq<Device>): map<Option<string>, string> {
    if devices == [] then map[]
    else
      var d, init := devices[|devices| - 1], ModuleTable(devices[..|devices| - 1]);
      if d.parent.None? then init[d.displayName := d.id] else init
  }

  function ModuleIdsFrom(table: map<Option<string>, string>, fed: seq<int>): Result<seq<string>, DtmError> {
    if fed == [] then Ok([])
    else
      var init :- ModuleIdsFrom(table, fed[..|fed| - 1]);
      var name := Some("C" + IntText(fed[|fed| - 1]));
      if name in table then Ok(init + [table[name]]) else Err(MissingModule)
  }

  lemma {:induction false} TableLookup(devices: seq<Device>, name: string)
    ensures ModuleNamed(devices, name)
         == if Some(name) in ModuleTable(devices) then Some(ModuleTable(devices)[Some(name)]) else None
  {
    if devices != [] {
      TableLookup(devices[..|devices| - 1], name);
    }
  }

  lemma {:induction false} TableFinds(devices: seq<Device>, fed: seq<int>)
    ensures ModuleIdsFrom(ModuleTable(devices), fed) == ModuleIds(devices, fed)
  {
    if fed != [] {
      TableFinds(devices, fed[..|fed| - 1]);
      TableLookup(devices, "C" + IntText(fed[|fed| - 1]));
    }
  }

  ghost predicate LvDone(issued: seq<string>, devices: seq<Device>, xfmrs: seq<string>, swbds: seq<string>,
                         feeds: seq<seq<int>>, k: nat, built: seq<Bus>)
    requires |xfmrs| == |swbds| == |feeds| && k <= |feeds|
  {
    LvBusList(issued, devices, xfmrs[..k], swbds[..k], feeds[..k]) == Ok(built)
  }

  lemma {:induction false} LvListNext(issued: seq<string>, devices: seq<Device>, xfmrs: seq<string>, swbds: seq<string>, feeds: seq<seq<int>>, k: nat)
    requires |xfmrs| == |swbds| == |feeds| && k < |feeds| && LvBusList(issued, devices, xfmrs[..k], swbds[..k], feeds[..k]).Ok?
    ensures LvBusList(issued, devices, xfmrs[..k + 1], swbds[..k + 1], feeds[..k + 1])
         == match ModuleIds(devices, feeds[k])
            case Err(e) => Err(e)
            case Ok(ids) => Ok(LvBusList(issued, devices, xfmrs[..k], swbds[..k], feeds[..k]).value
                               + [LvBus(Slug("lv_main", Count(issued, "lv_main") + k + 1), xfmrs[k], swbds[k], ids)])
  {
    var xs, ss, fs := xfmrs[..k + 1], swbds[..k + 1], feeds[..k + 1];
    assert xs[..k] == xfmrs[..k] && ss[..k] == swbds[..k] && fs[..k] == feeds[..k];
    assert xs[k] == xfmrs[k] && ss[k] == swbds[k] && fs[k] == feeds[k];
  }

  lemma {:induction false} LvStep(issued: seq<string>, devices: seq<Device>, xfmrs: seq<string>, swbds: seq<string>,
                                  feeds: seq<seq<int>>, k: nat, built: seq<Bus>)
    requires |xfmrs| == |swbds| == |feeds| && k < |feeds| && LvDone(issued, devices, xfmrs, swbds, feeds, k, built)
    ensures var fed := ModuleIdsFrom(ModuleTable(devices), feeds[k]);
            if fed.Err? then LvBusList(issued, devices, xfmrs, swbds, feeds) == Err(fed.error)
            else LvDone(issued, devices, xfmrs, swbds, feeds, k + 1,
                        built + [LvBus(Slug("lv_main", Count(issued, "lv_main") + k + 1), xfmrs[k], swbds[k], fed.value)])
  {
    TableFinds(devices, feeds[k]);
    LvListNext(issued, devices, xfmrs, swbds, feeds, k);
    if ModuleIds(devices, feeds[k]).Err? {
      LvFails(issued, devices, xfmrs, swbds, feeds, k + 1);
    }
  }

  /** A missing module anywhere in a prefix fails the whole list. */
  lemma {:induction false} LvFails(issued: seq<string>, devices: seq<Device>, xfmrs: seq<string>, swbds: seq<string>,
                                   feeds: seq<seq<int>>, k: nat)
    requires |xfmrs| == |swbds| == |feeds| && k <= |feeds|
    requires LvBusList(issued, devices, xfmrs[..k], swbds[..k], feeds[..k]).Err?
    ensures LvBusList(issued, devices, xfmrs, swbds, feeds)
         == LvBusList(issued, devices, xfmrs[..k], swbds[..k], feeds[..k])
    decreases |feeds| - k
  {
    if k < |feeds| {
      assert xfmrs[..k + 1][..k] == xfmrs[..k];
      assert swbds[..k + 1][..k] == swbds[..k];
      assert feeds[..k + 1][..k] == feeds[..k];
      LvFails(issued, devices, xfmrs, swbds, feeds, k + 1);
    } else {
      assert xfmrs[..k] == xfmrs && swbds[..k] == swbds && feeds[..k] == feeds;
    }
  }
}
