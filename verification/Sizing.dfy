/** Sizing arithmetic: what the preview tells the operator, what the resolver orders, what the DTM declares. */
module Sizing {
  import opened Lists
  import opened Catalog
  import opened ComputeNodes
  import opened ComputeFeeds
  import opened GridRules

  const ETA_D := 0.95
  const ETA_C := 0.95
  const PCS_KW := 1043.0
  const CATL_RACK_KWH := 379.4
  const CATL_RACK_KW := 379.4

  datatype Onsite = NoOnsite | Nuclear(capacityMw: real) | Solar(capacityMw: real) {
    predicate Valid() { !NoOnsite? ==> capacityMw > 0.0 }
  }

  function Max(a: real, b: real): real { if a < b then b else a }

  function MinReal(a: real, b: real): real { if b < a then b else a }

  /** Nuclear counts as firm, solar does not. */
  function FirmOnsiteMw(g: Onsite): real { if g.Nuclear? then g.capacityMw else 0.0 }

  function GridPeakMw(sitePeak: real, firm: real): real { Max(0.0, sitePeak - firm) }

  function ReserveMwh(rideThroughH: real, gridPeak: real): real { rideThroughH * gridPeak / ETA_D }

  function Depth(fx: Flex): real { fx.depthPct / 100.0 }

  /** Energy to ride one curtailment event. */
  function FlexEnergyMwh(gridPeak: real, fx: Flex): real { Depth(fx) * gridPeak * fx.maxDurationH / ETA_D }

  /** Power that refills it before the next event. */
  function RechargeMw(eFlex: real, fx: Flex): real
    requires fx.minIntervalH > 0.0
  {
    eFlex / (ETA_C * fx.minIntervalH)
  }

  function BessMinMwh(reserve: real, eFlex: Option<real>): real { reserve + if eFlex.Some? then eFlex.value else 0.0 }

  // ----- flexible service -----

  datatype FlexPreview = FlexPreview(
    eFlex: real, eMinUsable: real, pContract: real, pRecharge: real, coversH: real, gpuCapPct: Option<real>)

  /** Hours of one event the battery covers; the reserve is held back. */
  function CoversH(gridPeak: real, fx: Flex, reserve: real, usable: real): real {
    var shed := Depth(fx) * gridPeak;
    if shed == 0.0 then fx.maxDurationH
    else MinReal(fx.maxDurationH, Max(0.0, usable - reserve) * ETA_D / shed)
  }

  function FlexPreviewOf(gridPeak: real, fx: Flex, reserve: real, usable: real): FlexPreview
    requires fx.minIntervalH > 0.0
  {
    var eFlex := FlexEnergyMwh(gridPeak, fx);
    var recharge := RechargeMw(eFlex, fx);
    var covers := CoversH(gridPeak, fx, reserve, usable);
    FlexPreview(eFlex, reserve + eFlex, gridPeak + recharge, recharge, covers,
                if covers < fx.maxDurationH then Some((1.0 - Depth(fx)) * 100.0) else None)
  }

  // ----- the PCS fleet -----

  /** Python's round(x, 6) on exact reals: to the nearest millionth, ties to even. */
  function RoundEven(y: real): int {
    var low := y.Floor;
    var rest := y - low as real;
    if rest < 0.5 then low else if rest > 0.5 then low + 1 else if low % 2 == 0 then low else low + 1
  }

  function Round6(x: real): real { RoundEven(x * 1000000.0) as real / 1000000.0 }

  function PcsNeed(needMw: real): real { needMw * 1000.0 / PCS_KW }

  /** PCS units for a power need; at least one so the battery connects. */
  function PcsCount(needMw: real): int {
    var units := Ceil(Round6(PcsNeed(needMw)));
    if units < 1 then 1 else units
  }

  function CatlRacks(capacityMwh: real): int { Ceil(Round6(capacityMwh * 1000.0 / CATL_RACK_KWH)) }

  /** DC power of the CATL bank: whole racks at 1C. */
  function BessDcPowerMw(capacityMwh: real): real { CatlRacks(capacityMwh) as real * CATL_RACK_KW / 1000.0 }

  /** What the power need is computed from: a full grid or the preview's partial one. */
  datatype PowerGrid = PowerGrid(path: Option<GridPath>, exportMode: Option<ExportMode>, exportLimitMw: Option<real>)

  function CarryJobs(gridPeak: real, rideThroughH: real, g: PowerGrid): seq<real> {
    if rideThroughH > 0.0 || g.path == Some(OffGrid) then [gridPeak] else []
  }

  function FlexJobs(gridPeak: real, flex: Option<Flex>): seq<real>
    requires flex.Some? ==> flex.value.minIntervalH > 0.0
  {
    if flex.None? then []
    else [Depth(flex.value) * gridPeak, RechargeMw(FlexEnergyMwh(gridPeak, flex.value), flex.value)]
  }

  /** A preview may not know the export limit yet. */
  function ExportJobs(g: PowerGrid, capacityMwh: real): seq<real> {
    if g.exportMode == Some(LimitedExport) then [if g.exportLimitMw.Some? then g.exportLimitMw.value else 0.0]
    else if g.exportMode == Some(FullExport) then [BessDcPowerMw(capacityMwh)]
    else []
  }

  /** The power jobs of the battery: carry the site, curtail and refill, export. */
  function Jobs(gridPeak: real, rideThroughH: real, g: PowerGrid, flex: Option<Flex>, capacityMwh: real): seq<real>
    requires flex.Some? ==> flex.value.minIntervalH > 0.0
  {
    [0.0] + CarryJobs(gridPeak, rideThroughH, g) + FlexJobs(gridPeak, flex) + ExportJobs(g, capacityMwh)
  }

  function Largest(jobs: seq<real>): (m: real)
    requires jobs != []
    ensures m in jobs && forall j :: j in jobs ==> j <= m
  {
    if |jobs| == 1 then jobs[0]
    else
      assert jobs == jobs[..|jobs| - 1] + [jobs[|jobs| - 1]];
      Max(Largest(jobs[..|jobs| - 1]), jobs[|jobs| - 1])
  }

  function PowerNeedMw(gridPeak: real, rideThroughH: real, g: PowerGrid, flex: Option<Flex>, capacityMwh: real): real
    requires flex.Some? ==> flex.value.minIntervalH > 0.0
  {
    Largest(Jobs(gridPeak, rideThroughH, g, flex, capacityMwh))
  }

  /** bess_power_need_mw */
  method BessPowerNeed(gridPeak: real, rideThroughH: real, g: PowerGrid, flex: Option<Flex>, capacityMwh: real) returns (need: real)
    requires flex.Some? ==> flex.value.minIntervalH > 0.0
    ensures need == PowerNeedMw(gridPeak, rideThroughH, g, flex, capacityMwh)
    ensures need >= 0.0 && forall job :: job in Jobs(gridPeak, rideThroughH, g, flex, capacityMwh) ==> job <= need
  {
    var jobs := [0.0];
    if rideThroughH > 0.0 || g.path == Some(OffGrid) {
      jobs := jobs + [gridPeak];
    }
    assert jobs == [0.0] + CarryJobs(gridPeak, rideThroughH, g);
    if flex.Some? {
      var eFlex := FlexEnergyMwh(gridPeak, flex.value);
      jobs := jobs + [Depth(flex.value) * gridPeak];
      jobs := jobs + [RechargeMw(eFlex, flex.value)];
    }
    assert jobs == [0.0] + CarryJobs(gridPeak, rideThroughH, g) + FlexJobs(gridPeak, flex);
    if g.exportMode == Some(LimitedExport) {
      jobs := jobs + [if g.exportLimitMw.Some? then g.exportLimitMw.value else 0.0];
    } else if g.exportMode == Some(FullExport) {
      jobs := jobs + [BessDcPowerMw(capacityMwh)];
    }
    assert jobs == Jobs(gridPeak, rideThroughH, g, flex, capacityMwh);
    need := Largest(jobs);
    assert jobs[0] == 0.0 && jobs[0] in jobs;
  }

  // ----- preview -----

  datatype LimitState = Within | Near | Over

  datatype Limits = Limits(distributionMw: real, nearMw: real)

  function LimitOf(gridPeak: real, limits: Limits): LimitState {
    if gridPeak > limits.distributionMw then Over else if gridPeak >= limits.nearMw then Near else Within
  }

  datatype FlagCode =
    | TransmissionManualEngagement | NearDistributionLimit | FlexBessShortfall | RechargeHeadroom | ReserveShortfall
    | BessPowerShortfall | ExportReview | ExportPcsRatingUnverified | NonExportTransientUnverified
    | IslandingReviewRequired | IslandingTransferUnverified

  /** The preview's partial grid: anything may still be open. */
  datatype PreviewGrid = PreviewGrid(
    path: Option<GridPath>, region: Option<string>, service: Option<ServiceType>, flex: Option<Flex>,
    exportMode: Option<ExportMode>, exportLimitMw: Option<real>, islanding: bool)
  {
    function Power(): PowerGrid { PowerGrid(path, exportMode, exportLimitMw) }
  }

  datatype Request = Request(
    gpu: GpuVariant, gpus: int, coupling: Coupling, capacityMwh: real, rideThroughH: real, onsite: Onsite, grid: PreviewGrid)

  datatype Preview = Preview(
    sitePeak: real, firmOnsite: real, gridPeak: real, reserve: real, bessMin: real, limit: LimitState,
    flex: Option<FlexPreview>, flags: seq<FlagCode>)

  /** One row of the flag table. */
  datatype FlagRow = FlagRow(fires: bool, code: FlagCode)

  function FlagRows(g: PreviewGrid, limit: LimitState, service: Option<ServiceType>, usable: real, reserve: real,
                    eMinUsable: Option<real>, rideThroughH: real, powerShort: bool): seq<FlagRow>
  {
    var flexible := service == Some(FlexibleService);
    var onGrid := g.path.Some? && g.path != Some(OffGrid);
    [
      FlagRow(limit == Over && onGrid, TransmissionManualEngagement),
      FlagRow(limit == Near, NearDistributionLimit),
      FlagRow(flexible && eMinUsable.Some? && usable < eMinUsable.value, FlexBessShortfall),
      FlagRow(flexible, RechargeHeadroom),
      FlagRow(rideThroughH > 0.0 && usable < reserve, ReserveShortfall),
      FlagRow(powerShort, BessPowerShortfall),
      FlagRow(g.exportMode.Some? && g.exportMode != Some(NonExport), ExportReview),
      FlagRow(g.region == Some("ercot") && g.exportMode == Some(FullExport), ExportPcsRatingUnverified),
      FlagRow(g.exportMode == Some(NonExport) && onGrid, NonExportTransientUnverified),
      FlagRow(g.islanding, IslandingReviewRequired),
      FlagRow(g.islanding, IslandingTransferUnverified)
    ]
  }

  function Flags(rows: seq<FlagRow>): seq<FlagCode> {
    Map((r: FlagRow) => r.code, Filter((r: FlagRow) => r.fires, rows))
  }

  /** The obligation a preview sizes against: the request's, else the standard preset, when service is flexible. */
  function PreviewFlex(g: PreviewGrid, standard: Flex): Option<Flex> {
    if EffectiveService(g.path, g.service) == Some(FlexibleService)
    then Some(if g.flex.Some? then g.flex.value else standard) else None
  }

  function PowerShort(req: Request, gridPeak: real, fx: Option<Flex>): bool
    requires fx.Some? ==> fx.value.minIntervalH > 0.0
  {
    req.coupling != AcCoupled
    && BessDcPowerMw(req.capacityMwh) < PowerNeedMw(gridPeak, req.rideThroughH, req.grid.Power(), fx, req.capacityMwh)
  }

  predicate ValidRequest(req: Request) {
    && req.gpus >= 1 && req.capacityMwh >= 0.0 && req.rideThroughH >= 0.0 && req.onsite.Valid()
    && (req.grid.flex.Some? ==> req.grid.flex.value.Valid())
  }

  function PreviewOf(req: Request, standard: Flex, limits: Limits): Preview
    requires ValidRequest(req) && standard.Valid()
  {
    var peak := SitePeakMw(req.gpu, req.gpus);
    var gridPeak := GridPeakMw(peak, FirmOnsiteMw(req.onsite));
    var reserve := ReserveMwh(req.rideThroughH, gridPeak);
    var fx := PreviewFlex(req.grid, standard);
    var flex := if fx.Some? then Some(FlexPreviewOf(gridPeak, fx.value, reserve, req.capacityMwh)) else None;
    var limit := LimitOf(gridPeak, limits);
    Preview(peak, FirmOnsiteMw(req.onsite), gridPeak, reserve,
            BessMinMwh(reserve, if flex.Some? then Some(flex.value.eFlex) else None), limit, flex,
            Flags(FlagRows(req.grid, limit, EffectiveService(req.grid.path, req.grid.service), req.capacityMwh, reserve,
                           if flex.Some? then Some(flex.value.eMinUsable) else None, req.rideThroughH,
                           PowerShort(req, gridPeak, fx))))
  }

  // ----- resolver and DTM -----

  datatype Payload = Payload(
    gpu: GpuVariant, gpus: int, coupling: Coupling, capacityMwh: real, rideThroughH: real, onsite: Onsite, grid: Grid)
  {
    predicate Valid() {
      gpus >= 1 && capacityMwh > 0.0 && rideThroughH >= 0.0 && onsite.Valid() && grid.Valid()
    }
  }

  /** ModuleResolution's sizing fields. */
  datatype Resolved = Resolved(
    nodes: int, computeCount: int, gridCount: int, pcsCount: int, gpus: int, gpu: GpuVariant, coupling: Coupling,
    capacityMwh: real, rideThroughH: real, onsite: Onsite, grid: Grid)

  function PowerOf(g: Grid): PowerGrid { PowerGrid(Some(g.path), Some(g.exportMode), g.exportLimitMw) }

  function PayloadPeakMw(p: Payload): real { GridPeakMw(SitePeakMw(p.gpu, p.gpus), FirmOnsiteMw(p.onsite)) }

  function PayloadNeedMw(p: Payload): real
    requires p.Valid()
  {
    PowerNeedMw(PayloadPeakMw(p), p.rideThroughH, PowerOf(p.grid), p.grid.flex, p.capacityMwh)
  }

  function Resolve(p: Payload): Resolved
    requires p.Valid()
  {
    var nodes := GpuNodeCount(p.gpus);
    Resolved(nodes, ComputeContainerCount(nodes), GridContainerCount(SitePeakMw(p.gpu, p.gpus)),
             if p.coupling != DcExternalPcs then 0 else PcsCount(PayloadNeedMw(p)),
             nodes * GPUS_PER_NODE, p.gpu, p.coupling, p.capacityMwh, p.rideThroughH, p.onsite, p.grid)
  }

  /** The DTM's sizing block. */
  datatype SizingParams = SizingParams(computeKw: real, essKwh: real, reserveFloorMwh: real, readinessMwh: real, rechargeMw: real)

  function SizingOf(r: Resolved): SizingParams
    requires r.grid.flex.Some? ==> r.grid.flex.value.Valid()
  {
    var peak := SitePeakMw(r.gpu, r.gpus);
    var gridPeak := GridPeakMw(peak, FirmOnsiteMw(r.onsite));
    var reserve := ReserveMwh(r.rideThroughH, gridPeak);
    var eFlex := if r.grid.flex.None? then 0.0 else FlexEnergyMwh(gridPeak, r.grid.flex.value);
    SizingParams(peak * 1000.0, r.capacityMwh * 1000.0, reserve, reserve + eFlex,
                 if r.grid.flex.None? then 0.0 else RechargeMw(eFlex, r.grid.flex.value))
  }

  /** The preview request of an order. */
  function RequestOf(p: Payload): Request {
    Request(p.gpu, p.gpus, p.coupling, p.capacityMwh, p.rideThroughH, p.onsite,
            PreviewGrid(Some(p.grid.path), p.grid.region, p.grid.service, p.grid.flex, Some(p.grid.exportMode), p.grid.exportLimitMw,
                        p.grid.islanding))
  }

  // ----- what the numbers mean -----

  lemma DividedBack(a: real, b: real)
    requires b != 0.0
    ensures a / b * b == a
  {
  }

  lemma MulSwap(a: real, b: real, c: real)
    ensures a * b * c == a * c * b
  {
  }

  /** What the grid must carry: the site's peak less a nuclear plant's capacity, and nothing when that covers it; solar
      counts for nothing. */
  ghost predicate GridCarriesTheRest(sitePeak: real, onsite: Onsite, gridPeak: real) {
    var rest := sitePeak - if onsite.Nuclear? then onsite.capacityMw else 0.0;
    (rest >= 0.0 && gridPeak == rest) || (rest < 0.0 && gridPeak == 0.0)
  }

  /** The reserve, delivered at the discharge efficiency, carries the grid peak for the ride-through. */
  ghost predicate CarriesThrough(reserve: real, rideThroughH: real, gridPeak: real) {
    reserve * 0.95 == rideThroughH * gridPeak
  }

  /** The event energy, delivered, carries the shed share of the grid peak for one event; the recharge power, less charging
      losses, refills it between two events. */
  ghost predicate CarriesEvent(eFlex: real, pRecharge: real, fx: Flex, gridPeak: real) {
    && 100.0 * (eFlex * 0.95) == fx.depthPct * (gridPeak * fx.maxDurationH)
    && pRecharge * 0.95 * fx.minIntervalH == eFlex
  }

  lemma PeakIsTheRest(sitePeak: real, onsite: Onsite)
    ensures GridCarriesTheRest(sitePeak, onsite, GridPeakMw(sitePeak, FirmOnsiteMw(onsite)))
  {
  }

  lemma ReserveCarries(rideThroughH: real, gridPeak: real)
    ensures CarriesThrough(ReserveMwh(rideThroughH, gridPeak), rideThroughH, gridPeak)
  {
    DividedBack(rideThroughH * gridPeak, ETA_D);
  }

  lemma EventCarried(fx: Flex, gridPeak: real)
    requires fx.Valid()
    ensures CarriesEvent(FlexEnergyMwh(gridPeak, fx), RechargeMw(FlexEnergyMwh(gridPeak, fx), fx), fx, gridPeak)
  {
    var shed, eFlex := Depth(fx) * gridPeak, FlexEnergyMwh(gridPeak, fx);
    DividedBack(shed * fx.maxDurationH, ETA_D);
    DividedBack(fx.depthPct, 100.0);
    assert 100.0 * shed == fx.depthPct * gridPeak;
    assert 100.0 * (shed * fx.maxDurationH) == (100.0 * shed) * fx.maxDurationH;
    assert (fx.depthPct * gridPeak) * fx.maxDurationH == fx.depthPct * (gridPeak * fx.maxDurationH);
    MulPositive(ETA_C, fx.minIntervalH);
    DividedBack(eFlex, ETA_C * fx.minIntervalH);
    assert RechargeMw(eFlex, fx) * (ETA_C * fx.minIntervalH) == RechargeMw(eFlex, fx) * ETA_C * fx.minIntervalH;
  }

  /** What any preview tells the operator, against the request alone: the grid peak, the reserve, whether there is an
      obligation and of which terms, its energy and powers, and the distribution limit. */
  lemma PreviewMeans(req: Request, standard: Flex, limits: Limits)
    requires ValidRequest(req) && standard.Valid()
    ensures var p := PreviewOf(req, standard, limits);
            var fx := if req.grid.flex.Some? then req.grid.flex.value else standard;
            && GridCarriesTheRest(p.sitePeak, req.onsite, p.gridPeak)
            && CarriesThrough(p.reserve, req.rideThroughH, p.gridPeak)
            && (p.flex.Some? <==> req.grid.service == Some(FlexibleService)
                                  || (req.grid.service.None? && req.grid.path == Some(Flexible)))
            && (p.flex.None? ==> p.bessMin == p.reserve)
            && (p.flex.Some? ==>
                  && CarriesEvent(p.flex.value.eFlex, p.flex.value.pRecharge, fx, p.gridPeak)
                  && p.flex.value.pContract - p.flex.value.pRecharge == p.gridPeak
                  && p.bessMin == p.flex.value.eMinUsable == p.reserve + p.flex.value.eFlex)
            && (p.limit == Over <==> p.gridPeak > limits.distributionMw)
            && (p.limit == Near <==> limits.nearMw <= p.gridPeak <= limits.distributionMw)
  {
    var p := PreviewOf(req, standard, limits);
    PeakIsTheRest(p.sitePeak, req.onsite);
    ReserveCarries(req.rideThroughH, p.gridPeak);
    if p.flex.Some? {
      EventCarried(PreviewFlex(req.grid, standard).value, p.gridPeak);
    }
  }

  /** Coverage of an event: all of it when the battery holds reserve and event, else the hours that what is above the reserve
      carries the shed share; a capped GPU share is the share not shed. */
  ghost predicate Covers(flex: FlexPreview, fx: Flex, gridPeak: real, reserve: real, usable: real) {
    var spare := if usable >= reserve then usable - reserve else 0.0;
    if usable >= flex.eMinUsable then flex.coversH == fx.maxDurationH && flex.gpuCapPct.None?
    else
      && 0.0 <= flex.coversH < fx.maxDurationH
      && flex.coversH * (fx.depthPct * gridPeak) == 100.0 * (spare * 0.95)
      && flex.gpuCapPct == Some(100.0 - fx.depthPct)
  }

  lemma FlexCovers(gridPeak: real, fx: Flex, reserve: real, usable: real)
    requires fx.Valid() && gridPeak >= 0.0 && usable >= 0.0 && (gridPeak == 0.0 ==> reserve == 0.0)
    ensures Covers(FlexPreviewOf(gridPeak, fx, reserve, usable), fx, gridPeak, reserve, usable)
  {
    var flex := FlexPreviewOf(gridPeak, fx, reserve, usable);
    ShortfallToldStraight(gridPeak, fx, reserve, usable);
    if usable < flex.eMinUsable {
      ShortHours(gridPeak, fx, reserve, usable);
      DividedBack(fx.depthPct, 100.0);
    } else {
      AtMostTheEvent(gridPeak, fx, reserve, usable);
    }
  }

  lemma AtMostTheEvent(gridPeak: real, fx: Flex, reserve: real, usable: real)
    ensures CoversH(gridPeak, fx, reserve, usable) <= fx.maxDurationH
  {
  }

  lemma CoverageMeans(req: Request, standard: Flex, limits: Limits)
    requires ValidRequest(req) && standard.Valid() && PreviewOf(req, standard, limits).flex.Some?
    ensures var p, fx := PreviewOf(req, standard, limits), if req.grid.flex.Some? then req.grid.flex.value else standard;
            Covers(p.flex.value, fx, p.gridPeak, p.reserve, req.capacityMwh)
  {
    var p, fx := PreviewOf(req, standard, limits), PreviewFlex(req.grid, standard).value;
    ReserveNonneg(req.rideThroughH, p.gridPeak);
    FlexCovers(p.gridPeak, fx, p.reserve, req.capacityMwh);
  }

  lemma ShortHours(gridPeak: real, fx: Flex, reserve: real, usable: real)
    requires fx.Valid() && gridPeak >= 0.0 && CoversH(gridPeak, fx, reserve, usable) < fx.maxDurationH
    ensures CoversH(gridPeak, fx, reserve, usable) >= 0.0
    ensures CoversH(gridPeak, fx, reserve, usable) * (fx.depthPct * gridPeak) == 100.0 * (Max(0.0, usable - reserve) * 0.95)
  {
    var shed, spare := Depth(fx) * gridPeak, Max(0.0, usable - reserve) * ETA_D;
    ShedNonneg(fx, gridPeak);
    NonnegQuotient(spare, shed);
    DividedBack(spare, shed);
    DividedBack(fx.depthPct, 100.0);
    assert fx.depthPct * gridPeak == 100.0 * shed;
    assert spare / shed * (100.0 * shed) == 100.0 * (spare / shed * shed);
  }

  /** What the DTM declares of any resolved order: load and storage in kW and kWh, the reserve, reserve and event together,
      and the recharge power; without an obligation, no event and no recharge. */
  lemma DtmSizingMeans(p: Payload) returns (gridPeak: real)
    requires p.Valid()
    ensures GridCarriesTheRest(SitePeakMw(p.gpu, p.gpus), p.onsite, gridPeak)
    ensures var dtm, flex := SizingOf(Resolve(p)), p.grid.flex;
            && dtm.computeKw == SitePeakMw(p.gpu, p.gpus) * 1000.0
            && dtm.essKwh == p.capacityMwh * 1000.0
            && CarriesThrough(dtm.reserveFloorMwh, p.rideThroughH, gridPeak)
            && if flex.None? then dtm.readinessMwh == dtm.reserveFloorMwh && dtm.rechargeMw == 0.0
               else CarriesEvent(dtm.readinessMwh - dtm.reserveFloorMwh, dtm.rechargeMw, flex.value, gridPeak)
  {
    DeliveredSizesAsRequested(p.gpu, p.gpus);
    gridPeak := GridPeakMw(SitePeakMw(p.gpu, p.gpus), FirmOnsiteMw(p.onsite));
    ReserveCarries(p.rideThroughH, gridPeak);
    if p.grid.flex.Some? {
      var fx := p.grid.flex.value;
      EventCarried(fx, gridPeak);
      var reserve, eFlex := ReserveMwh(p.rideThroughH, gridPeak), FlexEnergyMwh(gridPeak, fx);
      assert reserve + eFlex - reserve == eFlex;
    }
  }

  /** The power need against the order alone: it is enough for every job the battery may be given … */
  lemma NeedSuffices(gridPeak: real, rideThroughH: real, g: PowerGrid, fx: Option<Flex>, capacityMwh: real)
    requires fx.Some? ==> fx.value.Valid()
    ensures var need := PowerNeedMw(gridPeak, rideThroughH, g, fx, capacityMwh);
            && need >= 0.0
            && (rideThroughH > 0.0 || g.path == Some(OffGrid) ==> need >= gridPeak)
            && (g.exportMode == Some(LimitedExport) && g.exportLimitMw.Some? ==> need >= g.exportLimitMw.value)
            && (g.exportMode == Some(FullExport) ==> need * 1000.0 >= CatlRacks(capacityMwh) as real * 379.4)
  {
    EnoughFor(gridPeak, rideThroughH, g, fx, capacityMwh, 0.0);
    if rideThroughH > 0.0 || g.path == Some(OffGrid) {
      EnoughFor(gridPeak, rideThroughH, g, fx, capacityMwh, gridPeak);
    }
    if g.exportMode == Some(LimitedExport) && g.exportLimitMw.Some? {
      EnoughFor(gridPeak, rideThroughH, g, fx, capacityMwh, g.exportLimitMw.value);
    }
    if g.exportMode == Some(FullExport) {
      EnoughFor(gridPeak, rideThroughH, g, fx, capacityMwh, BessDcPowerMw(capacityMwh));
    }
  }

  lemma EnoughFor(gridPeak: real, rideThroughH: real, g: PowerGrid, fx: Option<Flex>, capacityMwh: real, job: real)
    requires fx.Some? ==> fx.value.minIntervalH > 0.0
    requires || job == 0.0 || job in CarryJobs(gridPeak, rideThroughH, g) || job in FlexJobs(gridPeak, fx)
             || job in ExportJobs(g, capacityMwh)
    ensures PowerNeedMw(gridPeak, rideThroughH, g, fx, capacityMwh) >= job
  {
    JobsAre(gridPeak, rideThroughH, g, fx, capacityMwh);
    var jobs := Jobs(gridPeak, rideThroughH, g, fx, capacityMwh);
    assert job in jobs;
    assert Largest(jobs) >= job;
  }

  /** Power that sheds one event's share and refills its energy in time, in percent of the grid peak. */
  ghost predicate ServesEvents(power: real, fx: Flex, gridPeak: real) {
    && 100.0 * power >= fx.depthPct * gridPeak
    && 100.0 * (power * 0.95 * fx.minIntervalH * 0.95) >= fx.depthPct * (gridPeak * fx.maxDurationH)
  }

  /** … both jobs of an obligation among them … */
  lemma NeedSufficesForEvents(gridPeak: real, rideThroughH: real, g: PowerGrid, fx: Flex, capacityMwh: real)
    requires fx.Valid()
    ensures ServesEvents(PowerNeedMw(gridPeak, rideThroughH, g, Some(fx), capacityMwh), fx, gridPeak)
  {
    TwoFlexJobs(fx, gridPeak);
    EnoughFor(gridPeak, rideThroughH, g, Some(fx), capacityMwh, Depth(fx) * gridPeak);
    EnoughFor(gridPeak, rideThroughH, g, Some(fx), capacityMwh, RechargeMw(FlexEnergyMwh(gridPeak, fx), fx));
    BothJobsServe(fx, gridPeak, PowerNeedMw(gridPeak, rideThroughH, g, Some(fx), capacityMwh));
  }

  lemma BothJobsServe(fx: Flex, gridPeak: real, power: real)
    requires fx.Valid() && power >= Depth(fx) * gridPeak && power >= RechargeMw(FlexEnergyMwh(gridPeak, fx), fx)
    ensures ServesEvents(power, fx, gridPeak)
  {
    ShedInPercent(fx, gridPeak);
    RefillsWith(fx, gridPeak, power);
  }

  lemma TwoFlexJobs(fx: Flex, gridPeak: real)
    requires fx.Valid()
    ensures Depth(fx) * gridPeak in FlexJobs(gridPeak, Some(fx))
    ensures RechargeMw(FlexEnergyMwh(gridPeak, fx), fx) in FlexJobs(gridPeak, Some(fx))
  {
    var jobs := FlexJobs(gridPeak, Some(fx));
    assert |jobs| == 2;
    assert jobs[0] == Depth(fx) * gridPeak;
    assert jobs[1] == RechargeMw(FlexEnergyMwh(gridPeak, fx), fx);
    assert jobs[0] in jobs && jobs[1] in jobs;
  }

  lemma RefillsWith(fx: Flex, gridPeak: real, power: real)
    requires fx.Valid() && power >= RechargeMw(FlexEnergyMwh(gridPeak, fx), fx)
    ensures 100.0 * (power * 0.95 * fx.minIntervalH * 0.95) >= fx.depthPct * (gridPeak * fx.maxDurationH)
  {
    var recharge := RechargeMw(FlexEnergyMwh(gridPeak, fx), fx);
    EventCarried(fx, gridPeak);
    MulNonneg(power - recharge, fx.minIntervalH);
    MulSwap(power, 0.95, fx.minIntervalH);
    MulSwap(recharge, 0.95, fx.minIntervalH);
    assert (power - recharge) * fx.minIntervalH == power * fx.minIntervalH - recharge * fx.minIntervalH;
  }

  lemma ShedInPercent(fx: Flex, gridPeak: real)
    ensures 100.0 * (Depth(fx) * gridPeak) == fx.depthPct * gridPeak
  {
    DividedBack(fx.depthPct, 100.0);
  }

  /** A power that some job of the battery asks for, or none. */
  ghost predicate AskedFor(power: real, gridPeak: real, rideThroughH: real, g: PowerGrid, fx: Option<Flex>, capacityMwh: real)
    requires fx.Some? ==> fx.value.Valid()
  {
    || power == 0.0
    || ((rideThroughH > 0.0 || g.path == Some(OffGrid)) && power == gridPeak)
    || (fx.Some? && 100.0 * power == fx.value.depthPct * gridPeak)
    || (fx.Some? && CarriesEvent(power * 0.95 * fx.value.minIntervalH, power, fx.value, gridPeak))
    || (g.exportMode == Some(LimitedExport) && g.exportLimitMw == Some(power))
    || (g.exportMode == Some(FullExport) && power * 1000.0 == CatlRacks(capacityMwh) as real * 379.4)
  }

  /** … and no more than one of them, or nothing. */
  lemma NeedIsAJob(gridPeak: real, rideThroughH: real, g: PowerGrid, fx: Option<Flex>, capacityMwh: real)
    requires fx.Some? ==> fx.value.Valid()
    ensures AskedFor(PowerNeedMw(gridPeak, rideThroughH, g, fx, capacityMwh), gridPeak, rideThroughH, g, fx, capacityMwh)
  {
    NeedIsListed(gridPeak, rideThroughH, g, fx, capacityMwh);
    JobIs(gridPeak, rideThroughH, g, fx, capacityMwh, PowerNeedMw(gridPeak, rideThroughH, g, fx, capacityMwh));
  }

  lemma NeedIsListed(gridPeak: real, rideThroughH: real, g: PowerGrid, fx: Option<Flex>, capacityMwh: real)
    requires fx.Some? ==> fx.value.Valid()
    ensures PowerNeedMw(gridPeak, rideThroughH, g, fx, capacityMwh) in Jobs(gridPeak, rideThroughH, g, fx, capacityMwh)
  {
  }

  lemma JobIs(gridPeak: real, rideThroughH: real, g: PowerGrid, fx: Option<Flex>, capacityMwh: real, job: real)
    requires (fx.Some? ==> fx.value.Valid()) && job in Jobs(gridPeak, rideThroughH, g, fx, capacityMwh)
    ensures AskedFor(job, gridPeak, rideThroughH, g, fx, capacityMwh)
  {
    JobsAre(gridPeak, rideThroughH, g, fx, capacityMwh);
    if job in FlexJobs(gridPeak, fx) {
      FlexJobIs(fx.value, gridPeak, job);
    } else if job != 0.0 {
      OtherJobIs(gridPeak, rideThroughH, g, fx, capacityMwh, job);
    }
  }

  lemma OtherJobIs(gridPeak: real, rideThroughH: real, g: PowerGrid, fx: Option<Flex>, capacityMwh: real, job: real)
    requires (fx.Some? ==> fx.value.Valid()) && job != 0.0
    requires job in CarryJobs(gridPeak, rideThroughH, g) || job in ExportJobs(g, capacityMwh)
    ensures AskedFor(job, gridPeak, rideThroughH, g, fx, capacityMwh)
  {
    if job in ExportJobs(g, capacityMwh) && g.exportMode == Some(FullExport) {
      assert job == BessDcPowerMw(capacityMwh);
      DividedBack(CatlRacks(capacityMwh) as real * CATL_RACK_KW, 1000.0);
    }
  }

  lemma FlexJobIs(fx: Flex, gridPeak: real, job: real)
    requires fx.Valid() && job in FlexJobs(gridPeak, Some(fx))
    ensures 100.0 * job == fx.depthPct * gridPeak || CarriesEvent(job * 0.95 * fx.minIntervalH, job, fx, gridPeak)
  {
    ShedInPercent(fx, gridPeak);
    EventCarried(fx, gridPeak);
  }

  lemma JobsAre(gridPeak: real, rideThroughH: real, g: PowerGrid, fx: Option<Flex>, capacityMwh: real)
    requires fx.Some? ==> fx.value.minIntervalH > 0.0
    ensures forall job :: job in Jobs(gridPeak, rideThroughH, g, fx, capacityMwh) <==>
              || job == 0.0 || job in CarryJobs(gridPeak, rideThroughH, g) || job in FlexJobs(gridPeak, fx)
              || job in ExportJobs(g, capacityMwh)
  {
  }

  // ----- one order, three paths -----

  /** Preview, resolver and DTM agree on every validated order: peak (requested against delivered GPUs), battery minimum,
      reserve, recharge and the power the PCS fleet is sized for, whatever the standard preset and region limits are. */
  lemma ThreePathsAgree(p: Payload, standard: Flex, limits: Limits)
    requires p.Valid() && standard.Valid()
    ensures ValidRequest(RequestOf(p))
    ensures var preview, r, dtm := PreviewOf(RequestOf(p), standard, limits), Resolve(p), SizingOf(Resolve(p));
            && preview.sitePeak * 1000.0 == dtm.computeKw
            && preview.reserve == dtm.reserveFloorMwh
            && preview.bessMin == dtm.readinessMwh
            && dtm.rechargeMw == (if preview.flex.Some? then preview.flex.value.pRecharge else 0.0)
            && r.gridCount == GridContainerCount(preview.sitePeak)
            && preview.gridPeak == PayloadPeakMw(p)
            && PreviewFlex(RequestOf(p).grid, standard) == p.grid.flex
            && PowerNeedMw(preview.gridPeak, p.rideThroughH, RequestOf(p).grid.Power(), PreviewFlex(RequestOf(p).grid, standard), p.capacityMwh)
               == PayloadNeedMw(p)
  {
    ObligationIffFlexible(p.grid);
    DeliveredSizesAsRequested(p.gpu, p.gpus);
    assert PreviewFlex(RequestOf(p).grid, standard) == p.grid.flex;
  }

  /** Every resolved order has the counts the generators rely on. */
  lemma ResolvedOrderShaped(p: Payload)
    requires p.Valid()
    ensures var r := Resolve(p);
            && r.nodes >= 1 && r.computeCount >= 1 && r.gridCount >= 1 && r.pcsCount >= 0
            && r.computeCount == ComputeContainerCount(r.nodes)
            && r.gpus / GPUS_PER_NODE == r.nodes && p.gpus <= r.gpus < p.gpus + GPUS_PER_NODE
            && (r.pcsCount == 0 <==> p.coupling != DcExternalPcs)
  {
    var n, m := CountsOf(p.gpu, p.gpus);
  }

  // ----- the fleet -----

  lemma RoundEvenNear(y: real)
    ensures y - 0.5 <= RoundEven(y) as real <= y + 0.5
  {
  }

  lemma Round6Near(x: real)
    ensures x - 0.0000005 <= Round6(x) <= x + 0.0000005
  {
    RoundEvenNear(x * 1000000.0);
  }

  /** An integer below a multiple of a millionth is below it by at least a millionth. */
  lemma BelowByAMillionth(k: int, n: int)
    requires k as real < n as real / 1000000.0
    ensures k as real + 0.000001 <= n as real / 1000000.0
  {
    assert (k * 1000000) as real == k as real * 1000000.0;
    assert k * 1000000 < n;
  }

  /** The fleet covers the need to half a millionth of a 1043 kW unit, and one unit fewer does not, unless one is all there
      is; the CATL racks cover the capacity alike. */
  lemma FleetCoversAndIsMinimal(needMw: real)
    ensures var k := PcsCount(needMw);
            && k >= 1
            && k as real * 1043.0 + 0.0005215 >= needMw * 1000.0
            && (k == 1 || (k - 1) as real * 1043.0 + 0.0005215 <= needMw * 1000.0)
  {
    UnitsCover(PcsNeed(needMw));
    DividedBack(needMw * 1000.0, PCS_KW);
  }

  lemma RacksCoverAndAreMinimal(capacityMwh: real)
    ensures var k := CatlRacks(capacityMwh);
            && k as real * 379.4 + 0.0001897 >= capacityMwh * 1000.0
            && (k - 1) as real * 379.4 + 0.0001897 <= capacityMwh * 1000.0
  {
    UnitsCover(capacityMwh * 1000.0 / CATL_RACK_KWH);
    DividedBack(capacityMwh * 1000.0, CATL_RACK_KWH);
  }

  lemma UnitsCover(x: real)
    ensures var k := Ceil(Round6(x));
            && k as real + 0.0000005 >= x
            && (k - 1) as real + 0.0000005 <= x
  {
    Round6Near(x);
    BelowByAMillionth(Ceil(Round6(x)) - 1, RoundEven(x * 1000000.0));
  }

  function Part(x: real): real { x - x.Floor as real }

  lemma NearEven(k: int, g: real)
    requires k % 2 == 0 && 0.0 <= g <= 0.5
    ensures RoundEven(k as real + g) == k
  {
  }

  lemma Scaled(n: int, f: real)
    ensures (n as real + f) * 1000000.0 == (n * 1000000) as real + f * 1000000.0
  {
    assert (n * 1000000) as real == n as real * 1000000.0;
  }

  lemma RoundsDown(n: int, f: real)
    requires 0.0 <= f <= 0.0000005
    ensures RoundEven((n as real + f) * 1000000.0) == n * 1000000
  {
    Scaled(n, f);
    assert n * 1000000 == 2 * (n * 500000);
    NearEven(n * 1000000, f * 1000000.0);
  }

  lemma RoundsUp(n: int, f: real)
    requires 0.0000005 < f < 1.0
    ensures RoundEven((n as real + f) * 1000000.0) > n * 1000000
  {
    var y := (n as real + f) * 1000000.0;
    Scaled(n, f);
    RoundEvenNear(y);
    assert y.Floor >= n * 1000000;
    if y.Floor == n * 1000000 {
      assert y - y.Floor as real == f * 1000000.0;
    }
  }

  lemma CeilOfRounded(n: int, x: real)
    ensures RoundEven(x * 1000000.0) == n * 1000000 ==> Ceil(Round6(x)) == n
    ensures RoundEven(x * 1000000.0) > n * 1000000 ==> Ceil(Round6(x)) >= n + 1
  {
    assert (n * 1000000) as real == n as real * 1000000.0;
    var r := RoundEven(x * 1000000.0);
    if r == n * 1000000 {
      assert Round6(x) == n as real;
    } else if r > n * 1000000 {
      assert Round6(x) > n as real;
    }
  }

  /** Rounding off float noise is also rounding off load: the fleet carries the whole need exactly when one unit is enough
      or the need is not within half a millionth above a whole number of units. */
  lemma FleetCarriesInFullIff(needMw: real)
    requires needMw >= 0.0
    ensures var x := PcsNeed(needMw);
            PcsCount(needMw) as real >= x <==> x <= 1.0 || Part(x) == 0.0 || Part(x) > 0.0000005
  {
    var x := PcsNeed(needMw);
    var n, f := x.Floor, Part(x);
    assert x == n as real + f && 0.0 <= f < 1.0;
    CeilOfRounded(n, x);
    if f <= 0.0000005 {
      RoundsDown(n, f);
    } else {
      RoundsUp(n, f);
    }
  }

  /** 1043.0003 kW is ordered one 1043 kW unit. */
  lemma FleetCanFallShort()
    ensures PcsNeed(1.0430003) > 1.0 && PcsCount(1.0430003) == 1 && PcsCount(1.0430003) as real * PCS_KW < 1.0430003 * 1000.0
  {
    var x := PcsNeed(1.0430003);
    assert x * 1043.0 == 1043.0003;
    assert 1.0 < x < 1.0000005;
    RoundsDown(1, x - 1.0);
    CeilOfRounded(1, x);
  }

  /** Every job of the battery is within the ordered fleet's power (0.53 W of rounding); on full export that is the
      whole CATL bank. */
  lemma FleetCarriesEveryJob(p: Payload, job: real)
    requires p.Valid() && p.coupling == DcExternalPcs
    requires job in Jobs(PayloadPeakMw(p), p.rideThroughH, PowerOf(p.grid), p.grid.flex, p.capacityMwh)
    ensures Resolve(p).pcsCount as real * PCS_KW + 0.0000005 * PCS_KW >= job * 1000.0
  {
    var need := PayloadNeedMw(p);
    FleetCoversAndIsMinimal(need);
    assert PcsNeed(need) * PCS_KW == need * 1000.0;
  }

  lemma FullExportCarriesTheBank(p: Payload)
    requires p.Valid() && p.coupling == DcExternalPcs && p.grid.exportMode == FullExport
    ensures Resolve(p).pcsCount as real * PCS_KW + 0.0000005 * PCS_KW >= CatlRacks(p.capacityMwh) as real * CATL_RACK_KW
    ensures CatlRacks(p.capacityMwh) as real + 0.0000005 >= p.capacityMwh * 1000.0 / CATL_RACK_KWH
  {
    var jobs := Jobs(PayloadPeakMw(p), p.rideThroughH, PowerOf(p.grid), p.grid.flex, p.capacityMwh);
    assert jobs[|jobs| - 1] == BessDcPowerMw(p.capacityMwh);
    FleetCarriesEveryJob(p, BessDcPowerMw(p.capacityMwh));
    Round6Near(p.capacityMwh * 1000.0 / CATL_RACK_KWH);
  }

  // ----- flexible service told straight -----

  lemma MulPositive(a: real, b: real)
    requires a > 0.0 && b > 0.0
    ensures a * b > 0.0
  {
  }

  lemma DivideBelow(a: real, b: real, c: real)
    requires b > 0.0
    ensures a / b < c <==> a < c * b
  {
    var q := a / b;
    assert q * b == a;
    if q < c {
      MulPositive(c - q, b);
      assert (c - q) * b == c * b - q * b;
    } else {
      MulNonneg(q - c, b);
      assert (q - c) * b == q * b - c * b;
    }
  }

  lemma MulNonneg(a: real, b: real)
    requires a >= 0.0 && b >= 0.0
    ensures a * b >= 0.0
  {
  }

  /** Coverage falls short of the event exactly when usable energy is below reserve plus event energy. */
  lemma ShortCoverageIff(shed: real, hours: real, reserve: real, usable: real)
    requires shed > 0.0 && hours > 0.0
    ensures MinReal(hours, Max(0.0, usable - reserve) * ETA_D / shed) < hours <==> usable < reserve + shed * hours / ETA_D
  {
    var spare := Max(0.0, usable - reserve);
    DivideBelow(spare * ETA_D, shed, hours);
    DivideBelow(shed * hours, ETA_D, spare);
    MulPositive(shed, hours);
    var event := shed * hours / ETA_D;
    assert event * ETA_D == shed * hours;
    assert hours * shed == shed * hours;
    assert event > 0.0 by {
      DivideBelow(0.0, ETA_D, shed * hours);
      if event <= 0.0 {
        MulNonneg(-event, ETA_D);
      }
    }
    if spare * ETA_D < shed * hours {
      if spare >= event {
        MulNonneg(spare - event, ETA_D);
      }
    } else if spare < event {
      MulPositive(event - spare, ETA_D);
    }
  }

  lemma ReserveNonneg(hours: real, gridPeak: real)
    requires hours >= 0.0 && gridPeak >= 0.0
    ensures ReserveMwh(hours, gridPeak) >= 0.0
    ensures gridPeak == 0.0 ==> ReserveMwh(hours, gridPeak) == 0.0
  {
    MulNonneg(hours, gridPeak);
    NonnegQuotient(hours * gridPeak, ETA_D);
  }

  lemma NonnegQuotient(a: real, b: real)
    requires a >= 0.0 && b > 0.0
    ensures a / b >= 0.0
  {
  }

  lemma ShedNonneg(fx: Flex, gridPeak: real)
    requires fx.Valid() && gridPeak >= 0.0
    ensures Depth(fx) * gridPeak >= 0.0
    ensures Depth(fx) * gridPeak == 0.0 <==> gridPeak == 0.0
  {
    if gridPeak > 0.0 {
      MulPositive(Depth(fx), gridPeak);
    }
  }

  /** What the battery spends covering an event comes from above the reserve. */
  lemma CoverageSparesReserve(gridPeak: real, fx: Flex, reserve: real, usable: real)
    requires fx.Valid() && gridPeak >= 0.0
    ensures CoversH(gridPeak, fx, reserve, usable) * (Depth(fx) * gridPeak) <= Max(0.0, usable - reserve) * ETA_D
    ensures Depth(fx) * gridPeak > 0.0 && usable <= reserve ==> CoversH(gridPeak, fx, reserve, usable) == 0.0
  {
    ShedNonneg(fx, gridPeak);
    var shed, spare := Depth(fx) * gridPeak, Max(0.0, usable - reserve) * ETA_D;
    if shed > 0.0 {
      assert spare / shed * shed == spare;
      NonnegQuotient(spare, shed);
      if CoversH(gridPeak, fx, reserve, usable) < spare / shed {
        MulNonneg(spare / shed - fx.maxDurationH, shed);
        assert (spare / shed - fx.maxDurationH) * shed == spare / shed * shed - fx.maxDurationH * shed;
      }
    }
  }

  /** The event energy behind the flag is the one behind the coverage. */
  lemma ShortfallToldStraight(gridPeak: real, fx: Flex, reserve: real, usable: real)
    requires fx.Valid() && gridPeak >= 0.0 && usable >= 0.0 && (gridPeak == 0.0 ==> reserve == 0.0)
    ensures var flex := FlexPreviewOf(gridPeak, fx, reserve, usable);
            && (flex.gpuCapPct.Some? <==> flex.coversH < fx.maxDurationH)
            && (flex.coversH < fx.maxDurationH <==> usable < flex.eMinUsable)
  {
    ShedNonneg(fx, gridPeak);
    if gridPeak > 0.0 {
      ShortCoverageIff(Depth(fx) * gridPeak, fx.maxDurationH, reserve, usable);
    }
  }

  lemma FlagMember(rows: seq<FlagRow>, code: FlagCode)
    ensures code in Flags(rows) <==> exists r :: r in rows && r.fires && r.code == code
  {
    var fires := (r: FlagRow) => r.fires;
    var fired := Filter(fires, rows);
    if code in Flags(rows) {
      var i :| 0 <= i < |fired| && fired[i].code == code;
      FilterMember(fires, rows, fired[i]);
    }
    if r :| r in rows && r.fires && r.code == code {
      FilterMember(fires, rows, r);
      var i :| 0 <= i < |fired| && fired[i] == r;
      assert Flags(rows)[i] == code;
    }
  }

  /** Where a code stands in the table. */
  function Place(code: FlagCode): nat {
    match code
    case TransmissionManualEngagement => 0
    case NearDistributionLimit => 1
    case FlexBessShortfall => 2
    case RechargeHeadroom => 3
    case ReserveShortfall => 4
    case BessPowerShortfall => 5
    case ExportReview => 6
    case ExportPcsRatingUnverified => 7
    case NonExportTransientUnverified => 8
    case IslandingReviewRequired => 9
    case IslandingTransferUnverified => 10
  }

  /** Each row has its own code. */
  ghost predicate CodesApart(rows: seq<FlagRow>) {
    forall i, j :: 0 <= i < j < |rows| ==> rows[i].code != rows[j].code
  }

  lemma FlagAt(rows: seq<FlagRow>, i: nat, code: FlagCode)
    requires i < |rows| && CodesApart(rows) && rows[i].code == code
    ensures code in Flags(rows) <==> rows[i].fires
  {
    FlagMember(rows, code);
    if rows[i].fires {
      assert rows[i] in rows;
    }
  }

  lemma RowsApart(g: PreviewGrid, limit: LimitState, service: Option<ServiceType>, usable: real, reserve: real,
                  eMinUsable: Option<real>, rideThroughH: real, powerShort: bool)
    ensures CodesApart(FlagRows(g, limit, service, usable, reserve, eMinUsable, rideThroughH, powerShort))
  {
    var rows := FlagRows(g, limit, service, usable, reserve, eMinUsable, rideThroughH, powerShort);
    forall i | 0 <= i < |rows| ensures Place(rows[i].code) == i {
    }
  }

  lemma FlexShortfallFlag(g: PreviewGrid, limit: LimitState, service: Option<ServiceType>, usable: real, reserve: real,
                          eMinUsable: Option<real>, rideThroughH: real, powerShort: bool)
    ensures var flags := Flags(FlagRows(g, limit, service, usable, reserve, eMinUsable, rideThroughH, powerShort));
            && (FlexBessShortfall in flags <==> service == Some(FlexibleService) && eMinUsable.Some? && usable < eMinUsable.value)
            && (ReserveShortfall in flags <==> rideThroughH > 0.0 && usable < reserve)
            && (BessPowerShortfall in flags <==> powerShort)
            && (RechargeHeadroom in flags <==> service == Some(FlexibleService))
  {
    var rows := FlagRows(g, limit, service, usable, reserve, eMinUsable, rideThroughH, powerShort);
    RowsApart(g, limit, service, usable, reserve, eMinUsable, rideThroughH, powerShort);
    FlagAt(rows, 2, FlexBessShortfall);
    FlagAt(rows, 3, RechargeHeadroom);
    FlagAt(rows, 4, ReserveShortfall);
    FlagAt(rows, 5, BessPowerShortfall);
  }

  lemma GridFlags(g: PreviewGrid, limit: LimitState, service: Option<ServiceType>, usable: real, reserve: real,
                  eMinUsable: Option<real>, rideThroughH: real, powerShort: bool)
    ensures var flags := Flags(FlagRows(g, limit, service, usable, reserve, eMinUsable, rideThroughH, powerShort));
            var onGrid := g.path.Some? && g.path.value != OffGrid;
            && (TransmissionManualEngagement in flags <==> limit == Over && onGrid)
            && (NearDistributionLimit in flags <==> limit == Near)
            && (ExportReview in flags <==> g.exportMode.Some? && g.exportMode.value != NonExport)
            && (ExportPcsRatingUnverified in flags <==> g.region == Some("ercot") && g.exportMode == Some(FullExport))
            && (NonExportTransientUnverified in flags <==> g.exportMode == Some(NonExport) && onGrid)
            && (IslandingReviewRequired in flags <==> g.islanding)
            && (IslandingTransferUnverified in flags <==> g.islanding)
  {
    var rows := FlagRows(g, limit, service, usable, reserve, eMinUsable, rideThroughH, powerShort);
    RowsApart(g, limit, service, usable, reserve, eMinUsable, rideThroughH, powerShort);
    FlagAt(rows, 0, TransmissionManualEngagement);
    FlagAt(rows, 1, NearDistributionLimit);
    FlagAt(rows, 6, ExportReview);
    FlagAt(rows, 7, ExportPcsRatingUnverified);
    FlagAt(rows, 8, NonExportTransientUnverified);
    FlagAt(rows, 9, IslandingReviewRequired);
    FlagAt(rows, 10, IslandingTransferUnverified);
  }

  /** What the preview's flags say of the request: the battery's against reserve, event and power need … */
  lemma BatteryFlagsMean(req: Request, standard: Flex, limits: Limits)
    requires ValidRequest(req) && standard.Valid()
    ensures var p := PreviewOf(req, standard, limits);
            var fx := if p.flex.Some? then Some(if req.grid.flex.Some? then req.grid.flex.value else standard) else None;
            var need := PowerNeedMw(p.gridPeak, req.rideThroughH, req.grid.Power(), fx, req.capacityMwh);
            && (FlexBessShortfall in p.flags <==> p.flex.Some? && req.capacityMwh < p.flex.value.eMinUsable)
            && (RechargeHeadroom in p.flags <==> p.flex.Some?)
            && (ReserveShortfall in p.flags <==> req.rideThroughH > 0.0 && req.capacityMwh < p.reserve)
            && (BessPowerShortfall in p.flags <==>
                  req.coupling != AcCoupled && CatlRacks(req.capacityMwh) as real * 379.4 / 1000.0 < need)
  {
    var p, fx := PreviewOf(req, standard, limits), PreviewFlex(req.grid, standard);
    FlexShortfallFlag(req.grid, p.limit, EffectiveService(req.grid.path, req.grid.service), req.capacityMwh, p.reserve,
                      if p.flex.Some? then Some(p.flex.value.eMinUsable) else None, req.rideThroughH, PowerShort(req, p.gridPeak, fx));
  }

  /** … and the grid's against its path, limit, region and export. */
  lemma GridFlagsMean(req: Request, standard: Flex, limits: Limits)
    requires ValidRequest(req) && standard.Valid()
    ensures var p, g := PreviewOf(req, standard, limits), req.grid;
            var onGrid := g.path.Some? && g.path.value != OffGrid;
            && (TransmissionManualEngagement in p.flags <==> p.gridPeak > limits.distributionMw && onGrid)
            && (NearDistributionLimit in p.flags <==> limits.nearMw <= p.gridPeak <= limits.distributionMw)
            && (ExportReview in p.flags <==> g.exportMode.Some? && g.exportMode.value != NonExport)
            && (ExportPcsRatingUnverified in p.flags <==> g.region == Some("ercot") && g.exportMode == Some(FullExport))
            && (NonExportTransientUnverified in p.flags <==> g.exportMode == Some(NonExport) && onGrid)
            && (IslandingReviewRequired in p.flags <==> g.islanding)
            && (IslandingTransferUnverified in p.flags <==> g.islanding)
  {
    var p, fx := PreviewOf(req, standard, limits), PreviewFlex(req.grid, standard);
    GridFlags(req.grid, p.limit, EffectiveService(req.grid.path, req.grid.service), req.capacityMwh, p.reserve,
              if p.flex.Some? then Some(p.flex.value.eMinUsable) else None, req.rideThroughH, PowerShort(req, p.gridPeak, fx));
  }

  /** A flexible shortfall is told exactly when it exists: the flag, the GPU cap and short coverage come and go together;
      a reserve shortfall leaves nothing for curtailment; without flexible service there is neither preview nor flag. */
  lemma PreviewToldStraight(req: Request, standard: Flex, limits: Limits)
    requires ValidRequest(req) && standard.Valid()
    ensures var preview, fx := PreviewOf(req, standard, limits), PreviewFlex(req.grid, standard);
            && (preview.flex.Some? <==> fx.Some?)
            && (preview.flex.None? ==> FlexBessShortfall !in preview.flags)
            && (preview.flex.Some? ==>
                  && (FlexBessShortfall in preview.flags <==> preview.flex.value.gpuCapPct.Some?)
                  && (FlexBessShortfall in preview.flags <==> preview.flex.value.coversH < fx.value.maxDurationH)
                  && (ReserveShortfall in preview.flags ==> preview.flex.value.coversH == 0.0))
  {
    var preview, fx := PreviewOf(req, standard, limits), PreviewFlex(req.grid, standard);
    FlexShortfallFlag(req.grid, preview.limit, EffectiveService(req.grid.path, req.grid.service), req.capacityMwh, preview.reserve,
                      if preview.flex.Some? then Some(preview.flex.value.eMinUsable) else None, req.rideThroughH,
                      PowerShort(req, preview.gridPeak, fx));
    if fx.Some? {
      ReserveNonneg(req.rideThroughH, preview.gridPeak);
      ShortfallToldStraight(preview.gridPeak, fx.value, preview.reserve, req.capacityMwh);
      ShedNonneg(fx.value, preview.gridPeak);
      CoverageSparesReserve(preview.gridPeak, fx.value, preview.reserve, req.capacityMwh);
    }
  }
}
