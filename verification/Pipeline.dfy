/** The pipeline of one job, and when all of it succeeds. */
module Pipeline {
  import opened Lists
  import opened Catalog
  import opened ComputeNodes
  import opened Offers
  import opened Dtm
  import opened SitePlan
  import opened DtmSpec
  import opened DtmSoundness
  import opened SiteNames
  import opened SiteShape
  import opened SiteIndex
  import opened PowerCables
  import opened CommsCables
  import opened Coherence
  import opened SiteNetwork
  import opened Schedule
  import opened BomModel
  import opened BomCoverage
  import opened BomPricing
  import opened BomGenerator
  import opened BomSite
  import opened BomHardware
  import opened BomBudget
  import opened BomAgreement
  import opened FieldMaterial
  import opened Artifacts
  import opened Jobs
  import opened PlatePromises

  datatype PipelineError = TopologyFailed(dtm: DtmError) | SheetFailed(sheet: ScheduleError) | BomFailed(bom: BomError)

  datatype SiteArtifacts = SiteArtifacts(dtm: Dtm, schedule: CableHose, bom: Bom)

  /** PipelineService.run up to the offers: the DTM and its schedule from the manifest pinned at create, the BOM from the one
      the BOM generator fetches for itself. */
  function RunPipeline(profile: string, r: Resolution, pinned: Manifest, fetched: Manifest, templates: Templates, cat: PartsCatalog, defense: bool)
    : Result<SiteArtifacts, PipelineError>
  {
    match Generate(profile, r, pinned, templates)
    case Err(e) => Err(TopologyFailed(e))
    case Ok(dtm) =>
      match ScheduleOf(dtm.templatesUsed, dtm.devices)
      case Err(e) => Err(SheetFailed(e))
      case Ok(schedule) =>
        match GenerateBom(fetched, cat, profile, OrderOf(r, defense), FieldLines(RunsOf(schedule)))
        case Err(e) => Err(BomFailed(e))
        case Ok(bom) => Ok(SiteArtifacts(dtm, schedule, bom))
  }

  // ----- when the BOM can be made -----

  /** Every part has a published spec and every plate its drawings. */
  ghost predicate GroupSupplied(cat: PartsCatalog, g: ContainerGroup) {
    && (forall i :: 0 <= i < |g.bom.parts| ==> g.bom.parts[i].equipmentId in cat.specs)
    && (forall i :: 0 <= i < |g.bom.plates| ==> g.bom.plates[i].id in cat.plates)
  }

  ghost predicate GroupsSupplied(cat: PartsCatalog, groups: seq<ContainerGroup>) {
    forall k :: 0 <= k < |groups| ==> GroupSupplied(cat, groups[k])
  }

  /** The bom.yaml files the order needs are published. */
  predicate VariantsPublished(m: Manifest, prof: Profile, order: Order) {
    && prof.ComputeVariant(order.gpu).Some? && (ComputeContainer, prof.ComputeVariant(order.gpu).value) in m.assemblies
    && (prof.gridContainer.Some? ==>
          && (GridContainer, prof.gridContainer.value) in m.assemblies
          && (order.gridQty > 1 ==> prof.gridFeeder.Some? && (GridContainer, prof.gridFeeder.value) in m.assemblies))
  }

  /** … and so is all they list, and the PCS where the order has any. */
  ghost predicate OrderSupplied(m: Manifest, cat: PartsCatalog, profile: string, order: Order) {
    && profile in m.profiles && VariantsPublished(m, m.profiles[profile], order)
    && (ContainerGroups(m, m.profiles[profile], order).Ok? ==> GroupsSupplied(cat, ContainerGroups(m, m.profiles[profile], order).value))
    && (order.coupling == DcExternalPcs ==> PCS_ID in cat.specs)
  }

  lemma PartOkIff(cat: PartsCatalog, groups: seq<ContainerGroup>, section: Section, e: string)
    ensures PartLine(cat, groups, section, e).Ok? <==> e in cat.specs
  {
  }

  lemma {:induction false} PartsOkSnoc(cat: PartsCatalog, groups: seq<ContainerGroup>, section: Section, init: seq<string>, e: string)
    ensures PartLines(cat, groups, section, init + [e]).Ok?
            <==> PartLines(cat, groups, section, init).Ok? && PartLine(cat, groups, section, e).Ok?
  {
    assert (init + [e])[..|init|] == init;
  }

  predicate AllIn(ids: seq<string>, known: set<string>) { forall i :: 0 <= i < |ids| ==> ids[i] in known }

  ghost predicate PartsKnown(cat: PartsCatalog, groups: seq<ContainerGroup>, section: Section, ids: seq<string>) {
    PartLines(cat, groups, section, ids).Ok? <==> AllIn(ids, cat.specs.Keys)
  }

  lemma {:induction false} PartsKnownNext(cat: PartsCatalog, groups: seq<ContainerGroup>, section: Section, init: seq<string>, e: string)
    requires PartsKnown(cat, groups, section, init)
    ensures PartsKnown(cat, groups, section, init + [e])
  {
    PartOkIff(cat, groups, section, e);
    PartsOkSnoc(cat, groups, section, init, e);
  }

  lemma {:induction false} PartLinesOkIff(cat: PartsCatalog, groups: seq<ContainerGroup>, section: Section, ids: seq<string>)
    ensures PartLines(cat, groups, section, ids).Ok? <==> AllIn(ids, cat.specs.Keys)
  {
    var holds := (known: seq<string>) => PartsKnown(cat, groups, section, known);
    forall init, e | holds(init) ensures holds(init + [e]) {
      PartsKnownNext(cat, groups, section, init, e);
    }
    SnocInduction(holds, ids);
    assert PartsKnown(cat, groups, section, ids);
  }

  lemma {:induction false} PlatesOkSnoc(cat: PartsCatalog, groups: seq<ContainerGroup>, section: Section, defense: bool, init: seq<string>, p: string)
    ensures PlateLines(cat, groups, section, defense, init + [p]).Ok?
            <==> PlateLines(cat, groups, section, defense, init).Ok? && p in cat.plates
  {
    assert (init + [p])[..|init|] == init;
  }

  ghost predicate PlatesKnown(cat: PartsCatalog, groups: seq<ContainerGroup>, section: Section, defense: bool, ids: seq<string>) {
    PlateLines(cat, groups, section, defense, ids).Ok? <==> AllIn(ids, cat.plates.Keys)
  }

  lemma {:induction false} PlatesKnownNext(cat: PartsCatalog, groups: seq<ContainerGroup>, section: Section, defense: bool, init: seq<string>, p: string)
    requires PlatesKnown(cat, groups, section, defense, init)
    ensures PlatesKnown(cat, groups, section, defense, init + [p])
  {
    PlatesOkSnoc(cat, groups, section, defense, init, p);
  }

  lemma {:induction false} PlateLinesOkIff(cat: PartsCatalog, groups: seq<ContainerGroup>, section: Section, defense: bool, ids: seq<string>)
    ensures PlateLines(cat, groups, section, defense, ids).Ok? <==> AllIn(ids, cat.plates.Keys)
  {
    var holds := (known: seq<string>) => PlatesKnown(cat, groups, section, defense, known);
    forall init, p | holds(init) ensures holds(init + [p]) {
      PlatesKnownNext(cat, groups, section, defense, init, p);
    }
    SnocInduction(holds, ids);
    assert PlatesKnown(cat, groups, section, defense, ids);
  }

  lemma PartIdsOf(groups: seq<ContainerGroup>, e: string)
    ensures e in FirstSeen(AllPartIds(groups))
            <==> exists k, i :: 0 <= k < |groups| && 0 <= i < |groups[k].bom.parts| && groups[k].bom.parts[i].equipmentId == e
  {
    var ids := Map((g: ContainerGroup) => PartIds(g), groups);
    FirstSeenMember(AllPartIds(groups), e);
    ConcatMember(ids, e);
    if k, i :| 0 <= k < |groups| && 0 <= i < |groups[k].bom.parts| && groups[k].bom.parts[i].equipmentId == e {
      assert ids[k][i] == e;
    }
    if k :| 0 <= k < |ids| && e in ids[k] {
      var i :| 0 <= i < |ids[k]| && ids[k][i] == e;
      assert groups[k].bom.parts[i].equipmentId == e;
    }
  }

  lemma PlateIdsOf(groups: seq<ContainerGroup>, p: string)
    ensures p in FirstSeen(AllPlateIds(groups))
            <==> exists k, i :: 0 <= k < |groups| && 0 <= i < |groups[k].bom.plates| && groups[k].bom.plates[i].id == p
  {
    var ids := Map((g: ContainerGroup) => PlateIds(g), groups);
    FirstSeenMember(AllPlateIds(groups), p);
    ConcatMember(ids, p);
    if k, i :| 0 <= k < |groups| && 0 <= i < |groups[k].bom.plates| && groups[k].bom.plates[i].id == p {
      assert ids[k][i] == p;
    }
    if k :| 0 <= k < |ids| && p in ids[k] {
      var i :| 0 <= i < |ids[k]| && ids[k][i] == p;
      assert groups[k].bom.plates[i].id == p;
    }
  }

  lemma PartsSuppliedIff(cat: PartsCatalog, groups: seq<ContainerGroup>)
    ensures AllIn(FirstSeen(AllPartIds(groups)), cat.specs.Keys)
            <==> forall k, i :: 0 <= k < |groups| && 0 <= i < |groups[k].bom.parts| ==> groups[k].bom.parts[i].equipmentId in cat.specs
  {
    forall e ensures e in FirstSeen(AllPartIds(groups))
                     <==> exists k, i :: 0 <= k < |groups| && 0 <= i < |groups[k].bom.parts| && groups[k].bom.parts[i].equipmentId == e
    {
      PartIdsOf(groups, e);
    }
    assert AllIn(FirstSeen(AllPartIds(groups)), cat.specs.Keys) <==> forall e :: e in FirstSeen(AllPartIds(groups)) ==> e in cat.specs;
  }

  lemma PlatesSuppliedIff(cat: PartsCatalog, groups: seq<ContainerGroup>)
    ensures AllIn(FirstSeen(AllPlateIds(groups)), cat.plates.Keys)
            <==> forall k, i :: 0 <= k < |groups| && 0 <= i < |groups[k].bom.plates| ==> groups[k].bom.plates[i].id in cat.plates
  {
    forall p ensures p in FirstSeen(AllPlateIds(groups))
                     <==> exists k, i :: 0 <= k < |groups| && 0 <= i < |groups[k].bom.plates| && groups[k].bom.plates[i].id == p
    {
      PlateIdsOf(groups, p);
    }
    assert AllIn(FirstSeen(AllPlateIds(groups)), cat.plates.Keys) <==> forall p :: p in FirstSeen(AllPlateIds(groups)) ==> p in cat.plates;
  }

  lemma SectionOkIff(cat: PartsCatalog, groups: seq<ContainerGroup>, defense: bool)
    ensures SectionLines(cat, groups, defense).Ok? <==> GroupsSupplied(cat, groups)
  {
    if groups != [] {
      PartLinesOkIff(cat, groups, groups[0].section, FirstSeen(AllPartIds(groups)));
      PlateLinesOkIff(cat, groups, groups[0].section, defense, FirstSeen(AllPlateIds(groups)));
      PartsSuppliedIff(cat, groups);
      PlatesSuppliedIff(cat, groups);
    }
  }

  lemma GroupsOkIff(m: Manifest, prof: Profile, order: Order)
    ensures ContainerGroups(m, prof, order).Ok? <==> VariantsPublished(m, prof, order)
  {
  }

  lemma SuppliedAppend(cat: PartsCatalog, a: seq<ContainerGroup>, b: seq<ContainerGroup>)
    ensures GroupsSupplied(cat, a + b) <==> GroupsSupplied(cat, a) && GroupsSupplied(cat, b)
  {
    if GroupsSupplied(cat, a + b) {
      forall k | 0 <= k < |a| ensures GroupSupplied(cat, a[k]) {
        assert (a + b)[k] == a[k];
      }
      forall k | 0 <= k < |b| ensures GroupSupplied(cat, b[k]) {
        assert (a + b)[|a| + k] == b[k];
      }
    }
  }

  lemma LinesOfGroups(m: Manifest, cat: PartsCatalog, profile: string, order: Order, field: seq<Line>, bom: BomYaml, grid: seq<ContainerGroup>)
    requires profile in m.profiles && m.profiles[profile].ComputeVariant(order.gpu).Some?
    requires BomOf(m, ComputeContainer, m.profiles[profile].ComputeVariant(order.gpu).value) == Ok(bom)
    requires GridGroups(m, m.profiles[profile], order.gridQty) == Ok(grid)
    ensures OrderLines(m, cat, profile, order, field).Ok?
            <==> SectionLines(cat, ComputeGroups(order, bom), order.defense).Ok? && SectionLines(cat, grid, order.defense).Ok? && PcsLines(cat, order).Ok?
  {
    GroupsTile(m, m.profiles[profile], order, bom, grid);
    SectionsSplit(ComputeGroups(order, bom), grid);
  }

  /** The lines of an order can be drawn up exactly when all it needs is published. */
  lemma OrderLinesOkIff(m: Manifest, cat: PartsCatalog, profile: string, order: Order, field: seq<Line>)
    ensures OrderLines(m, cat, profile, order, field).Ok? <==> OrderSupplied(m, cat, profile, order)
  {
    if profile in m.profiles {
      var prof := m.profiles[profile];
      GroupsOkIff(m, prof, order);
      if ContainerGroups(m, prof, order).Ok? {
        var bom := BomOf(m, ComputeContainer, prof.ComputeVariant(order.gpu).value).value;
        var grid := GridGroups(m, prof, order.gridQty).value;
        LinesOfGroups(m, cat, profile, order, field, bom, grid);
        SectionOkIff(cat, ComputeGroups(order, bom), order.defense);
        SectionOkIff(cat, grid, order.defense);
        SuppliedAppend(cat, ComputeGroups(order, bom), grid);
      }
    }
  }

  /** No listed part of the order is bought below its first break. */
  ghost predicate OrderPriceable(m: Manifest, cat: PartsCatalog, profile: string, order: Order, field: seq<Line>) {
    OrderLines(m, cat, profile, order, field).Ok? ==>
      var lines := OrderLines(m, cat, profile, order, field).value;
      forall i :: 0 <= i < |lines| ==> !BelowFirstBreak(lines[i], cat.book, OrderQty(lines, PriceKey(lines[i])))
  }

  lemma BomOkIff(m: Manifest, cat: PartsCatalog, profile: string, order: Order, field: seq<Line>)
    ensures GenerateBom(m, cat, profile, order, field).Ok?
            <==> OrderSupplied(m, cat, profile, order) && OrderPriceable(m, cat, profile, order, field)
  {
    OrderLinesOkIff(m, cat, profile, order, field);
    if OrderLines(m, cat, profile, order, field).Ok? {
      var lines := OrderLines(m, cat, profile, order, field).value;
      PricingWorksIff(lines, cat.book, lines);
    }
  }

  // ----- when everything can be made -----

  /** The profile and the order, as GenerateSucceedsIff and SitePowerIff ask for them. */
  ghost predicate SiteBuildable(m: Manifest, prof: Profile, r: Resolution, templates: Templates) {
    && prof.ComputeVariant(r.gpu).Some? && prof.gridContainer.Some? && (r.gridCount > 1 ==> prof.gridFeeder.Some?)
    && BatterySizable(r, templates) && IdsFit(m, prof, r, templates)
  }

  /** Every planned block that polls has a switch to patch into. */
  ghost predicate SitePatchable(m: Manifest, prof: Profile, r: Resolution, templates: Templates) {
    ContainerPlans(m, prof, r).Ok? && BatteryPlan(r, templates).Ok? && r.computeCount < |ContainerPlans(m, prof, r).value| ==>
      Patchable(ContainerPlans(m, prof, r).value, BatteryPlan(r, templates).value, r.computeCount)
  }

  /** The field material of the site's schedule. */
  function FieldOf(dtm: Dtm): seq<Line> {
    match ScheduleOf(dtm.templatesUsed, dtm.devices)
    case Err(_) => []
    case Ok(schedule) => FieldLines(RunsOf(schedule))
  }

  lemma FieldIsField(dtm: Dtm)
    ensures FieldOnly(FieldOf(dtm)) && AllFresh(FieldOf(dtm))
  {
    if ScheduleOf(dtm.templatesUsed, dtm.devices).Ok? {
      FieldLinesFit(RunsOf(ScheduleOf(dtm.templatesUsed, dtm.devices).value));
    }
  }

  lemma ScheduleOkIff(profile: string, r: Resolution, m: Manifest, templates: Templates)
    requires Generate(profile, r, m, templates).Ok? && profile in m.profiles && Readable(m, m.profiles[profile])
    ensures var dtm := Generate(profile, r, m, templates).value;
            ScheduleOf(dtm.templatesUsed, dtm.devices).Ok?
            <==> m.profiles[profile].gridContainer.Some? && SitePatchable(m, m.profiles[profile], r, templates)
  {
    SitePowerIff(profile, r, m, templates);
    if m.profiles[profile].gridContainer.Some? {
      SiteSheetOkIff(profile, r, m, templates, Generate(profile, r, m, templates).value.templatesUsed);
    }
  }

  /** DTM, schedule and BOM are all made exactly when a caller finds, in the two manifests, the catalog and the order: a
      container for the GPU, a primary grid variant, and a feeder variant where there is more than one grid container; a
      Megapack capacity; template names short enough for their numbers; a switch in every block that polls; every bom.yaml,
      spec and plate published; and no listed part bought below its first break. */
  lemma PipelineSucceedsIff(profile: string, r: Resolution, pinned: Manifest, fetched: Manifest, templates: Templates, cat: PartsCatalog, defense: bool)
    requires profile in pinned.profiles && Readable(pinned, pinned.profiles[profile]) && TemplatesComplete(pinned, templates)
    ensures var prof, order := pinned.profiles[profile], OrderOf(r, defense);
            RunPipeline(profile, r, pinned, fetched, templates, cat, defense).Ok?
            <==> && SiteBuildable(pinned, prof, r, templates) && SitePatchable(pinned, prof, r, templates)
                 && OrderSupplied(fetched, cat, profile, order)
                 && (Generate(profile, r, pinned, templates).Ok? ==>
                       OrderPriceable(fetched, cat, profile, order, FieldOf(Generate(profile, r, pinned, templates).value)))
  {
    GenerateSucceedsIff(profile, r, pinned, templates);
    if Generate(profile, r, pinned, templates).Ok? {
      var dtm := Generate(profile, r, pinned, templates).value;
      ScheduleOkIff(profile, r, pinned, templates);
      if ScheduleOf(dtm.templatesUsed, dtm.devices).Ok? {
        BomOkIff(fetched, cat, profile, OrderOf(r, defense), FieldOf(dtm));
      }
    }
  }

  // ----- how the job ends -----

  /** The outcome of a pipeline whose drawings and uploads raise nothing. */
  ghost predicate Follows(outcome: Outcome, result: Result<SiteArtifacts, PipelineError>, enriched: Option<map<string, seq<Offer>>>, defense: bool) {
    match result
    case Err(_) => outcome.Raised?
    case Ok(site) =>
      && outcome.Built? && outcome.build.defense == defense
      && outcome.build.lines == if enriched.Some? then Attached(site.bom.lines, enriched.value) else site.bom.lines
  }

  lemma FieldHasNoPlate(dtm: Dtm, pid: string, defense: bool)
    ensures !Carries(FieldOf(dtm), PlateNumber(pid, defense))
  {
    if ScheduleOf(dtm.templatesUsed, dtm.devices).Ok? {
      forall k | 0 <= k < |FieldOf(dtm)| ensures FieldOf(dtm)[k].partNumber != PlateNumber(pid, defense) {
        ScheduleBuysNoPlate(dtm.templatesUsed, dtm.devices, pid, defense, k);
      }
    }
  }

  lemma MadeBom(profile: string, r: Resolution, pinned: Manifest, fetched: Manifest, templates: Templates, cat: PartsCatalog, defense: bool)
    requires RunPipeline(profile, r, pinned, fetched, templates, cat, defense).Ok?
    ensures var site := RunPipeline(profile, r, pinned, fetched, templates, cat, defense).value;
            && Generate(profile, r, pinned, templates) == Ok(site.dtm)
            && ScheduleOf(site.dtm.templatesUsed, site.dtm.devices) == Ok(site.schedule)
            && GenerateBom(fetched, cat, profile, OrderOf(r, defense), FieldOf(site.dtm)) == Ok(site.bom)
  {
  }

  lemma KnownProfile(m: Manifest, cat: PartsCatalog, profile: string, order: Order, field: seq<Line>)
    requires GenerateBom(m, cat, profile, order, field).Ok?
    ensures profile in m.profiles
  {
  }

  /** The plates of a profile have part numbers of their own. */
  ghost predicate PlatesApart(prof: Profile, m: Manifest, cat: PartsCatalog, defense: bool) {
    forall pid :: pid in prof.interfacePlates ==> SpecsApart(cat, PlateNumber(pid, defense)) && ShellsApart(m, PlateNumber(pid, defense))
  }

  lemma BuiltJobEnds(job: JobRecord, pinnedCat: PartsCatalog, profile: string, fetched: Manifest, cat: PartsCatalog, order: Order, dtm: Dtm,
                     bom: Bom, enriched: Option<map<string, seq<Offer>>>, outcome: Outcome)
    requires job.status == Running && profile in job.manifest.profiles && profile in fetched.profiles
    requires PromisesPlates(job.urls, pinnedCat, job.manifest.profiles[profile])
    requires PlatesApart(job.manifest.profiles[profile], fetched, cat, order.defense)
    requires GenerateBom(fetched, cat, profile, order, FieldOf(dtm)) == Ok(bom)
    requires outcome.Built? && outcome.build.defense == order.defense
    requires outcome.build.lines == if enriched.Some? then Attached(bom.lines, enriched.value) else bom.lines
    ensures Ended(job, outcome).status == Complete
            <==> forall pid :: pid in job.manifest.profiles[profile].interfacePlates ==>
                                 OrderLists(fetched, fetched.profiles[profile], order, pid)
  {
    forall pid | pid in job.manifest.profiles[profile].interfacePlates
      ensures NumberApart(fetched, cat, FieldOf(dtm), PlateNumber(pid, order.defense))
    {
      FieldHasNoPlate(dtm, pid, order.defense);
    }
    assert SameNumbers(outcome.build.lines, bom.lines) by {
      if enriched.Some? {
        OffersKeepNumbers(bom.lines, enriched.value);
      }
    }
    JobFailsIff(job, pinnedCat, fetched, cat, profile, order, FieldOf(dtm), outcome);
  }

  /** One plate of the pinned profile that no bom.yaml of the order lists is enough for a finished build to fail its job. */
  lemma UnlistedPlateFails(job: JobRecord, pinnedCat: PartsCatalog, profile: string, fetched: Manifest, cat: PartsCatalog, order: Order, dtm: Dtm,
                           bom: Bom, enriched: Option<map<string, seq<Offer>>>, outcome: Outcome, pid: string)
    requires job.status == Running && profile in job.manifest.profiles && profile in fetched.profiles
    requires PromisesPlates(job.urls, pinnedCat, job.manifest.profiles[profile])
    requires PlatesApart(job.manifest.profiles[profile], fetched, cat, order.defense)
    requires GenerateBom(fetched, cat, profile, order, FieldOf(dtm)) == Ok(bom)
    requires outcome.Built? && outcome.build.defense == order.defense
    requires outcome.build.lines == if enriched.Some? then Attached(bom.lines, enriched.value) else bom.lines
    requires pid in job.manifest.profiles[profile].interfacePlates && !OrderLists(fetched, fetched.profiles[profile], order, pid)
    ensures Ended(job, outcome).status == Failed
  {
    BuiltJobEnds(job, pinnedCat, profile, fetched, cat, order, dtm, bom, enriched, outcome);
    TwoEnds(job, outcome);
  }

  lemma TwoEnds(job: JobRecord, outcome: Outcome)
    ensures Ended(job, outcome).status == Failed || Ended(job, outcome).status == Complete
  {
  }

  /** Drawings and uploads aside, a job's end is settled by its inputs: it completes exactly when the pipeline's conditions
      hold (PipelineSucceedsIff) and every plate of the pinned profile is listed by a bom.yaml the order is built from. */
  lemma JobCompletesIff(job: JobRecord, pinnedCat: PartsCatalog, profile: string, r: Resolution, fetched: Manifest, templates: Templates,
                        cat: PartsCatalog, defense: bool, enriched: Option<map<string, seq<Offer>>>, outcome: Outcome)
    requires job.status == Running && profile in job.manifest.profiles
    requires PromisesPlates(job.urls, pinnedCat, job.manifest.profiles[profile])
    requires PlatesApart(job.manifest.profiles[profile], fetched, cat, defense)
    requires Follows(outcome, RunPipeline(profile, r, job.manifest, fetched, templates, cat, defense), enriched, defense)
    ensures Ended(job, outcome).status == Complete
            <==> && RunPipeline(profile, r, job.manifest, fetched, templates, cat, defense).Ok?
                 && profile in fetched.profiles
                 && forall pid :: pid in job.manifest.profiles[profile].interfacePlates ==>
                                    OrderLists(fetched, fetched.profiles[profile], OrderOf(r, defense), pid)
  {
    var result := RunPipeline(profile, r, job.manifest, fetched, templates, cat, defense);
    if result.Ok? {
      MadeBom(profile, r, job.manifest, fetched, templates, cat, defense);
      KnownProfile(fetched, cat, profile, OrderOf(r, defense), FieldOf(result.value.dtm));
      BuiltJobEnds(job, pinnedCat, profile, fetched, cat, OrderOf(r, defense), result.value.dtm, result.value.bom, enriched, outcome);
    }
  }
}
