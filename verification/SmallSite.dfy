/** One small site, written out: an order for seven servers, and what can go wrong with it. */
module SmallSite {
  import opened Lists
  import opened Text
  import opened Numbering
  import opened Catalog
  import opened ComputeNodes
  import opened Dtm
  import opened SitePlan
  import opened DtmSpec
  import opened DtmSoundness
  import opened SiteNames
  import opened DeviceSlugs
  import opened SiteShape
  import opened SiteIndex
  import opened CommsCables
  import opened ContainerGear
  import opened Coherence
  import opened SiteNetwork
  import opened ContainerLabels
  import opened BomModel
  import opened BomCoverage
  import opened BomPricing
  import opened BomGenerator
  import opened BomSite
  import opened BomHardware
  import opened BomBudget
  import opened BomAgreement
  import opened FieldMaterial
  import opened Schedule
  import opened Artifacts
  import opened Jobs
  import opened PlatePromises
  import opened Pipeline

  // ----- the catalog -----

  const GRID := Topology(None, [DeviceSpec("transformer", Some("XF-1"), None), DeviceSpec("lv_switchboard", Some("SWB-1"), None),
                                DeviceSpec("grid_mgmt_switch", Some("SW-1"), None)], [])

  const PLAIN_BOM := BomYaml(Shell("ISO-20FT", "container"), [], [])
  const CDU_BOM := BomYaml(Shell("ISO-20FT", "container"), [Part("CDU-001", 1, ["CDU-1"])], [])

  function LongName(): (name: string)
    ensures |name| == 63
  {
    seq(63, _ => 'a')
  }

  const NAMES: set<string> := FIXED_TEMPLATES + {"transformer", "lv_switchboard", "grid_mgmt_switch", "cdu", LongName()}

  function EquipmentOf(t: string): Option<string> {
    if t == "cdu" then Some("CDU-001") else if t == "pcs" then Some(PCS_ID) else None
  }

  const TEMPLATES: Templates := map t | t in NAMES :: Template(EquipmentOf(t), None, None, [])

  const PARTS := PartsCatalog(map["CDU-001" := Spec("CDU-001", "Coolco", "CDU-XL", false)],
                              map["CG-1" := PlateUrls("cg1.step", None)], PriceBook(map[], map[]))

  /** One profile, one compute and one grid variant. */
  function SmallProfile(plates: seq<string>): Profile { Profile("c", map[], Some("g"), None, plates) }

  function SmallManifest(devices: seq<DeviceSpec>, bom: BomYaml, plates: seq<string>): Manifest {
    Manifest(map["p" := SmallProfile(plates)],
             map[(ComputeContainer, "c") := Variant(bom, Some(Topology(None, devices, []))),
                 (GridContainer, "g") := Variant(PLAIN_BOM, Some(GRID))])
  }

  /** Seven B200 servers: one full compute container, one grid container, a CATL bank. */
  const ORDER := Resolution(1, 7, 1, 0, DcIntegratedPcs, 2.0, B200, false)

  lemma SmallTopologies(devices: seq<DeviceSpec>, bom: BomYaml, plates: seq<string>)
    ensures var m := SmallManifest(devices, bom, plates);
            && m.Topology(ComputeContainer, "c") == Some(Topology(None, devices, []))
            && m.Topology(GridContainer, "g") == Some(GRID)
  {
  }

  lemma GridShaped()
    ensures GridTopology(Some(GRID)) && TagsDistinct(GRID.devices)
  {
    var specs := GRID.devices;
    OneTransformerOneSwitchboard(specs[0], specs[1]);
    SpecsOfSnoc([specs[0], specs[1]], specs[2], "transformer");
    SpecsOfSnoc([specs[0], specs[1]], specs[2], "lv_switchboard");
    assert specs == [specs[0], specs[1]] + [specs[2]];
  }

  /** Compute devices that are not grid gear, each under its own tag, from templates the catalog has. */
  ghost predicate PlainDevices(devices: seq<DeviceSpec>) {
    && SpecsOf(devices, "transformer") == 0 && SpecsOf(devices, "lv_switchboard") == 0 && TagsDistinct(devices)
    && forall i :: 0 <= i < |devices| ==> devices[i].template in NAMES && devices[i].connection.None?
  }

  lemma SmallReadable(devices: seq<DeviceSpec>, bom: BomYaml, plates: seq<string>)
    requires PlainDevices(devices)
    ensures var m := SmallManifest(devices, bom, plates);
            Readable(m, SmallProfile(plates)) && TemplatesComplete(m, TEMPLATES)
  {
    SmallTopologies(devices, bom, plates);
    GridShaped();
  }

  // ----- the site planned -----

  function ComputeOf(devices: seq<DeviceSpec>): Plan { ComputePlan(Some(Topology(None, devices, [])), 7, 1) }

  lemma SmallPlans(devices: seq<DeviceSpec>, bom: BomYaml, plates: seq<string>)
    ensures var m := SmallManifest(devices, bom, plates);
            ContainerPlans(m, SmallProfile(plates), ORDER) == Ok([ComputeOf(devices), GridPlan(m, "g", 1)])
    ensures BatteryPlan(ORDER, TEMPLATES) == Ok(DcPlan(ORDER))
  {
    var m := SmallManifest(devices, bom, plates);
    SmallTopologies(devices, bom, plates);
    assert GridVariants(SmallProfile(plates), 1) == Ok(["g"]);
    assert ComputePlans(Some(Topology(None, devices, [])), 7, 1) == [ComputeOf(devices)];
    assert GridPlans(m, ["g"]) == [GridPlan(m, "g", 1)];
    assert [ComputeOf(devices)] + [GridPlan(m, "g", 1)] == [ComputeOf(devices), GridPlan(m, "g", 1)];
  }

  lemma {:induction false} ThreeLeaves(tag: string)
    ensures Leaves(tag, GRID.devices, {}) == [LeafOf(tag, GRID.devices[0]), LeafOf(tag, GRID.devices[1]), LeafOf(tag, GRID.devices[2])]
  {
    var specs := GRID.devices;
    assert specs[..2] == [specs[0], specs[1]] && specs[..2][..1] == [specs[0]] && specs[..2][..1][..0] == [];
    assert Leaves(tag, specs[..2][..1], {}) == [LeafOf(tag, specs[0])];
    assert Leaves(tag, specs[..2], {}) == [LeafOf(tag, specs[0]), LeafOf(tag, specs[1])];
  }

  lemma GridLeaves(m: Manifest)
    requires m.Topology(GridContainer, "g") == Some(GRID)
    ensures Names(GridPlan(m, "g", 1)) == ["grid_module", "transformer", "lv_switchboard", "grid_mgmt_switch"]
    ensures !PlanPolls(GridPlan(m, "g", 1)) && PlanSwitched(GridPlan(m, "g", 1))
  {
    var p := GridPlan(m, "g", 1);
    ThreeLeaves("G" + Dec(1));
    assert |p.leaves| == 3 && p.leaves[2].template == "grid_mgmt_switch";
    assert LeafTemplates(p.leaves) == ["transformer", "lv_switchboard", "grid_mgmt_switch"];
  }

  lemma PadIs()
    ensures Names(DcPlan(ORDER)) == ["bess_module_dc", "bess_catl"]
  {
    assert DcPlan(ORDER).leaves == [BankLeaf(ORDER)];
    assert LeafTemplates(DcPlan(ORDER).leaves) == ["bess_catl"];
  }

  lemma EmptyCompute()
    ensures Names(ComputeOf([])) == ["compute_module"] && !PlanPolls(ComputeOf([]))
  {
  }

  lemma SnakeNames()
    ensures ShortName("compute_module") && ShortName("grid_module") && ShortName("transformer") && ShortName("lv_switchboard")
    ensures ShortName("grid_mgmt_switch") && ShortName("bess_module_dc") && ShortName("bess_catl")
  {
  }

  lemma OneName(a: Plan)
    ensures AllNames([a]) == Names(a)
  {
    assert [a][..0] == [];
    assert AllNames([a]) == [] + Names(a);
  }

  lemma ThreeNames(a: Plan, b: Plan, c: Plan)
    ensures AllNames([a, b] + [c]) == Names(a) + Names(b) + Names(c)
  {
    OneName(a);
    BlocksSnoc([a, b], c);
    BlocksSnoc([a], b);
    assert [a] + [b] == [a, b];
  }

  lemma EmptySiteFits(m: Manifest)
    requires m.Topology(GridContainer, "g") == Some(GRID)
    ensures SiteIdsFit([ComputeOf([]), GridPlan(m, "g", 1)] + [DcPlan(ORDER)])
  {
    GridLeaves(m);
    PadIs();
    EmptyCompute();
    SnakeNames();
    ThreeNames(ComputeOf([]), GridPlan(m, "g", 1), DcPlan(ORDER));
    ShortSiteFits([ComputeOf([]), GridPlan(m, "g", 1)] + [DcPlan(ORDER)]);
  }

  /** With nothing but its module in the compute container, the site can be generated and scheduled. */
  lemma EmptySiteStands(bom: BomYaml, plates: seq<string>)
    ensures var m := SmallManifest([], bom, plates);
            SiteBuildable(m, SmallProfile(plates), ORDER, TEMPLATES) && SitePatchable(m, SmallProfile(plates), ORDER, TEMPLATES)
  {
    var m := SmallManifest([], bom, plates);
    SmallPlans([], bom, plates);
    SmallTopologies([], bom, plates);
    EmptySiteFits(m);
    GridLeaves(m);
    EmptyCompute();
  }

  // ----- its BOM -----

  const SMALL_ORDER := OrderOf(ORDER, false)

  lemma SmallGroups(devices: seq<DeviceSpec>, bom: BomYaml, plates: seq<string>)
    ensures var m := SmallManifest(devices, bom, plates);
            && BomOf(m, ComputeContainer, "c") == Ok(bom)
            && ComputeGroups(SMALL_ORDER, bom) == [ContainerGroup(ComputeSection, "C", 1, 1, bom)]
            && GridGroups(m, SmallProfile(plates), 1) == Ok([ContainerGroup(GridSection, "G", 1, 1, PLAIN_BOM)])
  {
    assert [ContainerGroup(GridSection, "G", 1, 1, PLAIN_BOM)] + [] == [ContainerGroup(GridSection, "G", 1, 1, PLAIN_BOM)];
    assert ComputeGroups(SMALL_ORDER, bom) == [ContainerGroup(ComputeSection, "C", 1, 1, bom)] + [];
  }

  lemma SmallSupplied(devices: seq<DeviceSpec>, bom: BomYaml, plates: seq<string>)
    requires bom == PLAIN_BOM || bom == CDU_BOM
    ensures OrderSupplied(SmallManifest(devices, bom, plates), PARTS, "p", SMALL_ORDER)
  {
    SmallGroups(devices, bom, plates);
  }

  lemma NothingListed(m: Manifest, field: seq<Line>)
    ensures OrderPriceable(m, PARTS, "p", SMALL_ORDER, field)
  {
  }

  /** The whole pipeline succeeds on the small site, whichever of the two bom.yaml files is fetched for its BOM. */
  lemma SmallPipeline(fetched: BomYaml, plates: seq<string>)
    requires fetched == PLAIN_BOM || fetched == CDU_BOM
    ensures RunPipeline("p", ORDER, SmallManifest([], PLAIN_BOM, plates), SmallManifest([], fetched, plates), TEMPLATES, PARTS, false).Ok?
  {
    var pinned, again := SmallManifest([], PLAIN_BOM, plates), SmallManifest([], fetched, plates);
    SmallReadable([], PLAIN_BOM, plates);
    EmptySiteStands(PLAIN_BOM, plates);
    SmallSupplied([], fetched, plates);
    if Generate("p", ORDER, pinned, TEMPLATES).Ok? {
      NothingListed(again, FieldOf(Generate("p", ORDER, pinned, TEMPLATES).value));
    }
    PipelineSucceedsIff("p", ORDER, pinned, again, TEMPLATES, PARTS, false);
  }

  lemma SiteOf(pinned: Manifest, fetched: Manifest) returns (site: SiteArtifacts)
    requires RunPipeline("p", ORDER, pinned, fetched, TEMPLATES, PARTS, false).Ok?
    ensures RunPipeline("p", ORDER, pinned, fetched, TEMPLATES, PARTS, false) == Ok(site)
    ensures Generate("p", ORDER, pinned, TEMPLATES) == Ok(site.dtm)
    ensures GenerateBom(fetched, PARTS, "p", SMALL_ORDER, FieldOf(site.dtm)) == Ok(site.bom)
  {
    MadeBom("p", ORDER, pinned, fetched, TEMPLATES, PARTS, false);
    site := RunPipeline("p", ORDER, pinned, fetched, TEMPLATES, PARTS, false).value;
  }

  // ----- a promise that cannot be kept -----

  const PLATED := SmallManifest([], PLAIN_BOM, ["CG-1"])

  lemma PlateApart()
    ensures PlatesApart(SmallProfile(["CG-1"]), PLATED, PARTS, false)
  {
    assert PlateNumber("CG-1", false)[0] == 'A' && "CDU-XL"[0] == 'C' && "ISO-20FT"[0] == 'I';
  }

  lemma PlatePromised()
    ensures PlateRefs(PARTS, ["CG-1"]).Some?
    ensures PromisesPlates(PlateRefs(PARTS, ["CG-1"]).value, PARTS, SmallProfile(["CG-1"]))
  {
    assert ["CG-1"][..0] == [] && PlateRefs(PARTS, []) == Some([]);
    var plates := PlateRefs(PARTS, ["CG-1"]).value;
    assert plates == [] + plates + [] && NoPlates([]);
  }

  /** The profile promises plate CG-1 and neither container's bom.yaml lists it: DTM, schedule and BOM are all made, drawings
      and uploads raise nothing, and the job ends FAILED after its 202. */
  lemma PlateNeverBought(job: JobRecord, outcome: Outcome)
    requires job.status == Running && job.manifest == PLATED && Some(job.urls) == PlateRefs(PARTS, ["CG-1"])
    requires Follows(outcome, RunPipeline("p", ORDER, PLATED, PLATED, TEMPLATES, PARTS, false), None, false)
    ensures RunPipeline("p", ORDER, PLATED, PLATED, TEMPLATES, PARTS, false).Ok? && outcome.Built?
    ensures Ended(job, outcome).status == Failed
  {
    SmallPipeline(PLAIN_BOM, ["CG-1"]);
    PlateApart();
    PlatePromised();
    PlateUnlisted();
    var site := SiteOf(PLATED, PLATED);
    UnlistedPlateFails(job, PARTS, "p", PLATED, PARTS, SMALL_ORDER, site.dtm, site.bom, None, outcome, "CG-1");
  }

  lemma PlateUnlisted()
    ensures PLATED.profiles["p"] == SmallProfile(["CG-1"]) && "CG-1" in SmallProfile(["CG-1"]).interfacePlates
    ensures !OrderLists(PLATED, SmallProfile(["CG-1"]), SMALL_ORDER, "CG-1")
  {
  }

  // ----- a manifest republished between create and execute -----

  const PINNED := SmallManifest([], PLAIN_BOM, [])
  const REPUBLISHED := SmallManifest([], CDU_BOM, [])

  lemma CarriersNamed(t: string, eid: string)
    ensures t in Carriers(TEMPLATES, eid) <==> t in NAMES && EquipmentOf(t) == Some(eid)
  {
    assert t in TEMPLATES <==> t in NAMES;
    assert t in Carriers(TEMPLATES, eid) <==> t in TEMPLATES && TEMPLATES[t].equipmentId == Some(eid);
  }

  lemma CarriersInside(eid: string)
    requires eid != PCS_ID
    ensures Carriers(TEMPLATES, eid) !! EXTERNAL
  {
    var carriers := Carriers(TEMPLATES, eid);
    forall t | t in carriers ensures t == "cdu" {
      CarriersNamed(t, eid);
    }
    assert carriers * EXTERNAL == {};
  }

  lemma {:induction false} PlainListed(devices: seq<DeviceSpec>, eid: string)
    requires forall i :: 0 <= i < |devices| ==> EquipmentOf(devices[i].template) == None
    ensures multiset(Somes(BomTags(PLAIN_BOM.parts, eid))) == multiset(TagsUsing(devices, Carriers(TEMPLATES, eid)))
  {
    forall i | 0 <= i < |devices| ensures !SpecUses(Carriers(TEMPLATES, eid))(devices[i]) {
      CarriersNamed(devices[i].template, eid);
    }
    FilterNone(SpecUses(Carriers(TEMPLATES, eid)), devices);
  }

  /** As pinned, bom.yaml and topology.yaml agree. */
  lemma PinnedAgrees()
    ensures CatalogAgrees(PINNED, PINNED, SmallProfile([]), ORDER, TEMPLATES)
  {
    SmallReadable([], PLAIN_BOM, []);
    SmallTopologies([], PLAIN_BOM, []);
    forall eid ensures multiset(Somes(BomTags(PLAIN_BOM.parts, eid))) == multiset(TagsUsing([], Carriers(TEMPLATES, eid))) {
      PlainListed([], eid);
    }
    forall eid ensures multiset(Somes(BomTags(PLAIN_BOM.parts, eid))) == multiset(TagsUsing(GRID.devices, Carriers(TEMPLATES, eid))) {
      PlainListed(GRID.devices, eid);
    }
  }

  lemma {:induction false} OneContainerTags(section: Section, prefix: string, bom: BomYaml, eid: string)
    ensures |AllGroupTags([ContainerGroup(section, prefix, 1, 1, bom)], eid)| == |BomTags(bom.parts, eid)|
  {
    OneGroup(ContainerGroup(section, prefix, 1, 1, bom), eid);
    CoverLength(prefix, 1, 1, BomTags(bom.parts, eid));
  }

  lemma {:induction false} SmallBought(bom: BomYaml, eid: string)
    ensures BoughtTags(SmallManifest([], bom, []), SmallProfile([]), SMALL_ORDER, eid) == |BomTags(bom.parts, eid)|
  {
    SmallGroups([], bom, []);
    OneContainerTags(ComputeSection, "C", bom, eid);
    OneContainerTags(GridSection, "G", PLAIN_BOM, eid);
  }

  lemma SmallCounted(bom: BomYaml)
    requires Counted(bom.parts)
    ensures OrderCounted(SmallManifest([], bom, []), SmallProfile([]), SMALL_ORDER)
  {
    SmallGroups([], bom, []);
  }

  lemma CduListed()
    ensures BomTags(CDU_BOM.parts, "CDU-001") == ["CDU-1"] && BomTags(PLAIN_BOM.parts, "CDU-001") == [] && Counted(CDU_BOM.parts)
  {
    assert CDU_BOM.parts[..0] == [];
  }

  lemma SmallSpecsNamed()
    ensures SpecsNamed(PARTS) && PcsKnown(TEMPLATES)
  {
  }

  lemma RepublishedBomBuysOne(dtm: Dtm)
    requires GenerateBom(REPUBLISHED, PARTS, "p", SMALL_ORDER, FieldOf(dtm)).Ok?
    ensures QtyOf(GenerateBom(REPUBLISHED, PARTS, "p", SMALL_ORDER, FieldOf(dtm)).value.lines, "CDU-001") == 1
  {
    SmallSpecsNamed();
    CduListed();
    SmallCounted(CDU_BOM);
    SmallBought(CDU_BOM, "CDU-001");
    FieldIsField(dtm);
    BomQty(REPUBLISHED, PARTS, "p", SMALL_ORDER, FieldOf(dtm), "CDU-001");
  }

  lemma PinnedSiteHasNone()
    requires Generate("p", ORDER, PINNED, TEMPLATES).Ok?
    ensures NamesUsing(Generate("p", ORDER, PINNED, TEMPLATES).value.devices, Carriers(TEMPLATES, "CDU-001")) == []
  {
    PinnedAgrees();
    SmallSpecsNamed();
    CarriersInside("CDU-001");
    CduListed();
    SmallBought(PLAIN_BOM, "CDU-001");
    DeviceCount("p", ORDER, PINNED, PINNED, TEMPLATES, SMALL_ORDER, "CDU-001");
  }

  /** A CDU added to bom.yaml and republished after create: job and DTM keep the pinned manifest, the BOM is made from the
      new one, and buys a CDU the site does not have. */
  lemma RepublishedBuysAnother(site: SiteArtifacts)
    requires RunPipeline("p", ORDER, PINNED, REPUBLISHED, TEMPLATES, PARTS, false) == Ok(site)
    ensures QtyOf(site.bom.lines, "CDU-001") == 1 && NamesUsing(site.dtm.devices, Carriers(TEMPLATES, "CDU-001")) == []
  {
    var made := SiteOf(PINNED, REPUBLISHED);
    RepublishedBomBuysOne(site.dtm);
    PinnedSiteHasNone();
  }

  /** … and the pipeline raises nothing on the way. */
  lemma RepublishedGoesUnnoticed()
    ensures RunPipeline("p", ORDER, PINNED, REPUBLISHED, TEMPLATES, PARTS, false).Ok?
  {
    SmallPipeline(CDU_BOM, []);
  }

  // ----- a template name with no room for a number -----

  function LongDevices(): seq<DeviceSpec> { [DeviceSpec(LongName(), Some("X-1"), None)] }

  lemma LongDevicesPlain()
    ensures PlainDevices(LongDevices())
  {
    var specs := LongDevices();
    assert specs[..0] == [] && |specs[0].template| == 63 && |"transformer"| == 11 && |"lv_switchboard"| == 14;
  }

  lemma NothingDropped()
    ensures DroppedTags(7) == {}
  {
  }

  lemma LongPlan()
    ensures var p := ComputeOf(LongDevices()); |p.leaves| == 1 && Names(p)[1] == LongName()
  {
    var specs := LongDevices();
    NothingDropped();
    assert specs[..0] == [];
    assert Leaves("C" + Dec(1), specs, DroppedTags(7)) == [LeafOf("C" + Dec(1), specs[0])];
  }

  lemma LongSiteUnfit(plans: seq<Plan>)
    requires plans != [] && plans[0] == ComputeOf(LongDevices())
    ensures !SiteIdsFit(plans)
  {
    LongPlan();
    LongNeverFits(AllNames(plans[..0]) + Names(plans[0])[..1], LongName());
    assert !PlanIdsFit(AllNames(plans[..0]), plans[0]);
  }

  lemma LongIdsUnfit()
    ensures !IdsFit(SmallManifest(LongDevices(), PLAIN_BOM, []), SmallProfile([]), ORDER, TEMPLATES)
  {
    SmallPlans(LongDevices(), PLAIN_BOM, []);
    var m := SmallManifest(LongDevices(), PLAIN_BOM, []);
    LongSiteUnfit([ComputeOf(LongDevices()), GridPlan(m, "g", 1)] + [DcPlan(ORDER)]);
  }

  lemma SmallOrder(devices: seq<DeviceSpec>, bom: BomYaml, plates: seq<string>)
    ensures var m := SmallManifest(devices, bom, plates);
            "p" in m.profiles && m.profiles["p"] == SmallProfile(plates) && SmallProfile(plates).ComputeVariant(ORDER.gpu) == Some("c")
    ensures ORDER.gridCount == 1 && BatterySizable(ORDER, TEMPLATES)
  {
  }

  lemma RefusedForIds(m: Manifest)
    requires "p" in m.profiles && m.profiles["p"] == SmallProfile([]) && Readable(m, SmallProfile([])) && TemplatesComplete(m, TEMPLATES)
    requires !IdsFit(m, SmallProfile([]), ORDER, TEMPLATES)
    ensures Generate("p", ORDER, m, TEMPLATES) == Err(InvalidDeviceId)
  {
    InvalidIdFails("p", ORDER, m, TEMPLATES);
  }

  lemma LongNameIsValid()
    ensures ValidSlug(LongName())
  {
    assert forall i :: 0 <= i < 63 ==> LongName()[i] == 'a';
  }

  /** A topology that uses a 63-character template: the name obeys the id rule itself, and no order for it can be generated. */
  lemma LongTemplateRefused()
    ensures ValidSlug(LongName())
    ensures Generate("p", ORDER, SmallManifest(LongDevices(), PLAIN_BOM, []), TEMPLATES) == Err(InvalidDeviceId)
  {
    LongNameIsValid();
    LongDevicesPlain();
    SmallReadable(LongDevices(), PLAIN_BOM, []);
    LongIdsUnfit();
    SmallOrder(LongDevices(), PLAIN_BOM, []);
    RefusedForIds(SmallManifest(LongDevices(), PLAIN_BOM, []));
  }
}
