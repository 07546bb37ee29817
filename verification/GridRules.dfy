/** Grid participation of an order and its structural validators. */
module GridRules {
  import opened Lists

  datatype GridPath = OffGrid | Flexible | Firm | GridRevenue
  datatype ServiceType = FirmService | FlexibleService
  datatype ExportMode = NonExport | LimitedExport | FullExport

  /** The terms of a flexible obligation. */
  datatype Flex = Flex(depthPct: real, maxDurationH: real, minIntervalH: real) {
    predicate Valid() { 0.0 < depthPct <= 100.0 && maxDurationH > 0.0 && minIntervalH > 0.0 }
  }

  datatype Grid = Grid(
    path: GridPath,
    interconnection: Option<string>,
    wiresOwner: Option<string>,
    retailSeparate: bool,
    region: Option<string>,
    service: Option<ServiceType>,
    flex: Option<Flex>,
    exportMode: ExportMode,
    exportLimitMw: Option<real>,
    marketAccess: Option<string>,
    marketProgram: Option<string>,
    settlementPoint: Option<string>,
    islanding: bool)
  {
    /** V1: off grid means no grid participation at all. */
    predicate OffGridIsBare() {
      path == OffGrid ==>
        && interconnection.None? && wiresOwner.None? && region.None? && service.None? && flex.None?
        && exportLimitMw.None? && marketProgram.None? && settlementPoint.None?
        && !retailSeparate && exportMode == NonExport && marketAccess.None? && !islanding
    }

    /** V2/V3: flexible and firm fix the service, and neither exports nor trades. */
    predicate FlexibleOrFirmShape() {
      path == Flexible || path == Firm ==>
        && service == Some(if path == Flexible then FlexibleService else FirmService)
        && (flex.Some? <==> path == Flexible)
        && exportMode == NonExport && marketAccess.None? && marketProgram.None?
    }

    /** V4a: grid revenue exports and trades. */
    predicate GridRevenueShape() {
      path == GridRevenue ==>
        && service.Some?
        && (flex.Some? <==> service == Some(FlexibleService))
        && exportMode != NonExport && marketAccess.Some? && marketProgram.Some? && settlementPoint.Some?
    }

    /** V5a: on the grid, a utility and a market region are known. */
    predicate ResolvedOnGrid() {
      path != OffGrid ==> wiresOwner.Some? && region.Some?
    }

    /** EX: an export limit is set, and positive, iff export is limited. */
    predicate ExportLimitMatches() {
      (exportMode == LimitedExport <==> exportLimitMw.Some?) && (exportLimitMw.Some? ==> exportLimitMw.value > 0.0)
    }

    predicate Valid() {
      && OffGridIsBare() && FlexibleOrFirmShape() && GridRevenueShape() && ResolvedOnGrid() && ExportLimitMatches()
      && (flex.Some? ==> flex.value.Valid())
    }
  }

  /** The service as given, else flexible when the path is. */
  function EffectiveService(path: Option<GridPath>, service: Option<ServiceType>): Option<ServiceType> {
    if service.Some? then service
    else if path == Some(Flexible) then Some(FlexibleService)
    else None
  }

  /** What the sizing paths rest on: an obligation is present exactly when the service in force is flexible. */
  lemma ObligationIffFlexible(g: Grid)
    requires g.Valid()
    ensures g.flex.Some? <==> EffectiveService(Some(g.path), g.service) == Some(FlexibleService)
  {
    match g.path
    case OffGrid => assert g.service.None?;
    case Flexible => assert g.service == Some(FlexibleService);
    case Firm => assert g.service == Some(FirmService);
    case GridRevenue => assert g.service.Some?;
  }
}
