/** From a validated order to its artifacts: every agreement, with the resolver's counts put in. */
module OrderCompiler {
  import opened Lists
  import opened Text
  import opened Catalog
  import opened ComputeNodes
  import opened ComputeFeeds
  import opened GridRules
  import opened Sizing
  import opened Dtm
  import opened DtmSpec
  import opened SiteIndex
  import opened SiteNames
  import opened PowerCables
  import opened ContainerGear
  import opened CommsCables
  import opened Coherence
  import opened SiteNetwork
  import opened Schedule
  import opened BomModel
  import opened BomCoverage
  import opened BomGenerator
  import opened BomSite
  import opened BomHardware
  import opened BomAgreement
  import opened HoseLoops
  import opened SitePower
  import opened Pipeline

  /** What the generators read of a resolved order. */
  function ResolutionOf(p: Payload): Resolution
    requires p.Valid()
  {
    ResolvedOrderShaped(p);
    var r := Resolve(p);
    Resolution(r.computeCount, r.nodes, r.gridCount, r.pcsCount, r.coupling, r.capacityMwh, r.gpu, p.grid.path == OffGrid)
  }

  /** The grid containers an order gets carry it: no transformer above nameplate, and the feeds are the ones the DTM and
      the schedule use. */
  lemma OrderWithinTransformers(p: Payload, k: nat)
    requires p.Valid() && k < ResolutionOf(p).gridCount
    ensures LoadKw(p.gpu, ResolutionOf(p).nodeCount, Feeds(ResolutionOf(p).computeCount, ResolutionOf(p).gridCount)[k]) < GRID_CONTAINER_KVA
  {
    TransformerHolds(p.gpu, p.gpus, k);
  }

  /** What the site theorems ask of the two manifests and the parts catalog. */
  ghost predicate OrderCatalog(pinned: Manifest, fetched: Manifest, profile: string, r: Resolution, cat: PartsCatalog, templates: Templates) {
    && HardwareCatalog(pinned, fetched, profile, r, cat, templates) && TidyCatalog(fetched, fetched.profiles[profile])
    && Readable(pinned, pinned.profiles[profile]) && PanelsTagged(pinned, pinned.profiles[profile])
  }

  /** A schedule was made, so there is a primary grid variant, and the comms sheet is the network it should be. */
  lemma SheetsStand(profile: string, r: Resolution, m: Manifest, templates: Templates, dtm: Dtm)
    requires Generate(profile, r, m, templates) == Ok(dtm) && ScheduleOf(dtm.templatesUsed, dtm.devices).Ok?
    requires profile in m.profiles && Readable(m, m.profiles[profile]) && PanelsTagged(m, m.profiles[profile])
    requires r.computeCount == ComputeContainerCount(r.nodeCount)
    ensures Schedulable(m, m.profiles[profile])
    ensures PrimarySwitch(Containers(dtm.devices)).Some? ==> NetworkStands(dtm.templatesUsed, Containers(dtm.devices))
  {
    SitePowerIff(profile, r, m, templates);
    if PrimarySwitch(Containers(dtm.devices)).Some? {
      SiteTagsApart(profile, r, m, templates);
      SitesTree(dtm.templatesUsed, Containers(dtm.devices));
    }
  }

  /** The BOM buys, and its labels name, exactly the devices of one equipment id. */
  ghost predicate SameHardware(bom: Bom, dtm: Dtm, templates: Templates, eid: string) {
    && QtyOf(bom.lines, eid) == |NamesUsing(dtm.devices, Carriers(templates, eid))|
    && multiset(Somes(NamedBy(bom.lines, eid))) == multiset(NamesUsing(dtm.devices, Carriers(templates, eid)))
  }

  lemma HardwareAgrees(profile: string, r: Resolution, pinned: Manifest, fetched: Manifest, templates: Templates, cat: PartsCatalog,
                       defense: bool, dtm: Dtm, bom: Bom, eid: string)
    requires Generate(profile, r, pinned, templates) == Ok(dtm)
    requires GenerateBom(fetched, cat, profile, OrderOf(r, defense), FieldOf(dtm)) == Ok(bom)
    requires HardwareCatalog(pinned, fetched, profile, r, cat, templates) && TidyCatalog(fetched, fetched.profiles[profile])
    requires r.computeCount == ComputeContainerCount(r.nodeCount) && Carriers(templates, eid) !! EXTERNAL
    ensures SameHardware(bom, dtm, templates, eid)
  {
    FieldIsField(dtm);
    QuantitiesAgree(profile, r, pinned, fetched, templates, cat, defense, FieldOf(dtm), eid);
    LabelsAgree(profile, r, pinned, fetched, templates, cat, defense, FieldOf(dtm), eid);
  }

  /** The transformers carry the site the preview showed: none above nameplate, together exactly the previewed peak. */
  ghost predicate LoadsAsShown(r: Resolution, k: nat, previewPeak: real)
    requires k < r.gridCount
  {
    && LoadKw(r.gpu, r.nodeCount, Feeds(r.computeCount, r.gridCount)[k]) < GRID_CONTAINER_KVA
    && previewPeak * 1000.0 == TotalLoadKw(r.gpu, r.nodeCount, Feeds(r.computeCount, r.gridCount))
  }

  lemma OrderLoads(p: Payload, k: nat, standard: Flex, limits: Limits)
    requires p.Valid() && standard.Valid() && k < ResolutionOf(p).gridCount
    ensures ResolutionOf(p).computeCount == ComputeContainerCount(ResolutionOf(p).nodeCount)
    ensures ValidRequest(RequestOf(p)) && LoadsAsShown(ResolutionOf(p), k, PreviewOf(RequestOf(p), standard, limits).sitePeak)
  {
    ResolvedOrderShaped(p);
    ThreePathsAgree(p, standard, limits);
    OrderWithinTransformers(p, k);
    FeedsCarrySitePeak(p.gpu, p.gpus, ResolutionOf(p).gridCount);
  }

  /** Whenever the pipeline succeeds, its DTM, cable schedule and BOM describe one site. */
  ghost predicate OneSite(site: SiteArtifacts, templates: Templates, r: Resolution, eid: string, k: nat, n: nat) {
    var sites := Containers(site.dtm.devices);
    && FeedsAgree(site.dtm, sites, r, k, n)
    && (PrimarySwitch(sites).Some? ==> NetworkStands(site.dtm.templatesUsed, sites))
    && SameHardware(site.bom, site.dtm, templates, eid)
  }

  lemma {:induction false} PipelineMakesOneSite(profile: string, r: Resolution, pinned: Manifest, fetched: Manifest, templates: Templates,
                                                cat: PartsCatalog, defense: bool, site: SiteArtifacts, eid: string, k: nat, n: nat)
    requires RunPipeline(profile, r, pinned, fetched, templates, cat, defense) == Ok(site)
    requires OrderCatalog(pinned, fetched, profile, r, cat, templates) && Carriers(templates, eid) !! EXTERNAL
    requires r.computeCount == ComputeContainerCount(r.nodeCount) && k < r.gridCount && 1 <= n <= r.computeCount
    ensures OneSite(site, templates, r, eid, k, n)
  {
    MadeBom(profile, r, pinned, fetched, templates, cat, defense);
    SheetsStand(profile, r, pinned, templates, site.dtm);
    FeedMapsAgree(profile, r, pinned, templates, k, n);
    HardwareAgrees(profile, r, pinned, fetched, templates, cat, defense, site.dtm, site.bom, eid);
  }

  /** One order, one site: whenever the pipeline of a validated order succeeds, its DTM, cable schedule and BOM describe the
      same feed map, the same hardware under the same names and a management network that stands, and the preview showed the
      operator the load of the site that was built. */
  lemma {:induction false} OneOrderOneSite(p: Payload, profile: string, pinned: Manifest, fetched: Manifest, templates: Templates,
                                           cat: PartsCatalog, defense: bool, site: SiteArtifacts, eid: string, k: nat, n: nat,
                                           standard: Flex, limits: Limits)
    requires p.Valid() && standard.Valid()
    requires RunPipeline(profile, ResolutionOf(p), pinned, fetched, templates, cat, defense) == Ok(site)
    requires OrderCatalog(pinned, fetched, profile, ResolutionOf(p), cat, templates) && Carriers(templates, eid) !! EXTERNAL
    requires k < ResolutionOf(p).gridCount && 1 <= n <= ResolutionOf(p).computeCount
    ensures OneSite(site, templates, ResolutionOf(p), eid, k, n)
    ensures ValidRequest(RequestOf(p)) && LoadsAsShown(ResolutionOf(p), k, PreviewOf(RequestOf(p), standard, limits).sitePeak)
  {
    OrderLoads(p, k, standard, limits);
    PipelineMakesOneSite(profile, ResolutionOf(p), pinned, fetched, templates, cat, defense, site, eid, k, n);
  }

  /** … and the schedule of that site powers and cools it: in every compute container each server takes one cordset from
      either path, no PDU feeds more than three, and every server has its supply and return hose. */
  lemma {:induction false} OneOrderPowered(profile: string, r: Resolution, pinned: Manifest, fetched: Manifest, templates: Templates,
                                           cat: PartsCatalog, defense: bool, site: SiteArtifacts, at: nat) returns (k: nat)
    requires RunPipeline(profile, r, pinned, fetched, templates, cat, defense) == Ok(site)
    requires OrderCatalog(pinned, fetched, profile, r, cat, templates) && PowerCatalog(pinned, pinned.profiles[profile])
    requires r.computeCount == ComputeContainerCount(r.nodeCount) && at < r.computeCount
    ensures k == NodesInContainer(r.nodeCount, at + 1)
    ensures PowerStands(Containers(site.dtm.devices), r.computeCount, at, k)
    ensures at < |Containers(site.dtm.devices)| && CoolantStands(Containers(site.dtm.devices), at)
  {
    MadeBom(profile, r, pinned, fetched, templates, cat, defense);
    SheetsStand(profile, r, pinned, templates, site.dtm);
    k := SitePowered(profile, r, pinned, templates, at);
    SiteCooled(profile, r, pinned, templates, at);
  }
}
