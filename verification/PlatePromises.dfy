/** Interface plates from the 202 to the finished job: what is promised from the profile, and when the BOM lets it be kept. */
module PlatePromises {
  import opened Lists
  import opened Catalog
  import opened ComputeNodes
  import opened BomModel
  import opened BomCoverage
  import opened BomPricing
  import opened BomGenerator
  import opened BomBudget
  import opened Offers
  import opened BomHardware
  import opened BomAgreement
  import opened Sorting
  import opened Artifacts
  import opened Jobs

  // ----- what the 202 promises -----

  function PlateRef(pid: string, format: string, url: string): ArtifactRef {
    ArtifactRef(InterfacePlate, format, url, Some(pid), None)
  }

  /** The step file always, the dxf when the manifest has one. */
  function RefsOfPlate(pid: string, urls: PlateUrls): seq<ArtifactRef> {
    [PlateRef(pid, "step", urls.step)] + if urls.dxf.Some? then [PlateRef(pid, "dxf", urls.dxf.value)] else []
  }

  /** Artifact rows of a profile's plates; None is ManifestService.resolve's KeyError for a plate the manifest lacks. */
  function PlateRefs(cat: PartsCatalog, ids: seq<string>): Option<seq<ArtifactRef>> {
    if ids == [] then Some([])
    else
      var init, pid := PlateRefs(cat, ids[..|ids| - 1]), ids[|ids| - 1];
      if init.None? || pid !in cat.plates then None else Some(init.value + RefsOfPlate(pid, cat.plates[pid]))
  }

  ghost predicate NoPlates(refs: seq<ArtifactRef>) { forall r :: r in refs ==> !CountsPlate(r) }

  /** A row is promised for exactly the profile's plates. */
  lemma {:induction false} PlateRefsAre(cat: PartsCatalog, ids: seq<string>, pid: string)
    requires PlateRefs(cat, ids).Some?
    ensures pid in ids <==> exists r :: r in PlateRefs(cat, ids).value && CountsPlate(r) && r.plateId.value == pid
    ensures forall r :: r in PlateRefs(cat, ids).value ==> CountsPlate(r)
  {
    if ids != [] {
      var init, last := ids[..|ids| - 1], ids[|ids| - 1];
      assert ids == init + [last];
      PlateRefsAre(cat, init, pid);
      var own := RefsOfPlate(last, cat.plates[last]);
      assert own[0] in own && CountsPlate(own[0]) && own[0].plateId.value == last;
    }
  }

  // ----- what the BOM buys -----

  ghost predicate Carries(lines: seq<Line>, number: string) { exists i :: 0 <= i < |lines| && lines[i].partNumber == number }

  lemma CarriesAppend(a: seq<Line>, b: seq<Line>, number: string)
    ensures Carries(a + b, number) <==> Carries(a, number) || Carries(b, number)
  {
    if Carries(b, number) {
      var i :| 0 <= i < |b| && b[i].partNumber == number;
      assert (a + b)[|a| + i] == b[i];
    }
    if Carries(a, number) {
      var i :| 0 <= i < |a| && a[i].partNumber == number;
      assert (a + b)[i] == a[i];
    }
  }

  /** Pricing and numbering keep every part number. */
  lemma FinishedCarries(m: Manifest, cat: PartsCatalog, profile: string, order: Order, field: seq<Line>, number: string)
    requires GenerateBom(m, cat, profile, order, field).Ok?
    ensures OrderLines(m, cat, profile, order, field).Ok?
    ensures Carries(GenerateBom(m, cat, profile, order, field).value.lines, number)
            <==> Carries(OrderLines(m, cat, profile, order, field).value, number)
  {
    var lines := OrderLines(m, cat, profile, order, field).value;
    var priced := BookPrices(lines, cat.book, lines).value;
    PricesChangeNoHardware(lines, cat.book, lines);
    assert forall i :: 0 <= i < |lines| ==> SameLine(lines[i], priced[i]);
    NumberedCarries(priced, number);
  }

  lemma NumberedCarries(lines: seq<Line>, number: string)
    ensures Carries(Numbered(lines), number) <==> Carries(lines, number)
  {
    var ranked := Sort(lines, SectionLe());
    if Carries(lines, number) {
      var i :| 0 <= i < |lines| && lines[i].partNumber == number;
      SortMember(lines, SectionLe(), lines[i]);
      var j :| 0 <= j < |ranked| && ranked[j] == lines[i];
      assert Numbered(lines)[j].partNumber == number;
    }
    if Carries(Numbered(lines), number) {
      var j :| 0 <= j < |ranked| && Numbered(lines)[j].partNumber == number;
      SortMember(lines, SectionLe(), ranked[j]);
    }
  }

  lemma PlateNumberInjective(a: string, b: string, defense: bool)
    requires PlateNumber(a, defense) == PlateNumber(b, defense)
    ensures a == b
  {
    var tail := "-001" + if defense then "-D" else "";
    assert PlateNumber(a, defense) == "ARC-PLT-" + (a + tail) && PlateNumber(b, defense) == "ARC-PLT-" + (b + tail);
    assert ("ARC-PLT-" + (a + tail))[8..] == a + tail && ("ARC-PLT-" + (b + tail))[8..] == b + tail;
    assert |a| == |b|;
    assert (a + tail)[..|a|] == a && (b + tail)[..|b|] == b;
  }

  ghost predicate SpecsApart(cat: PartsCatalog, number: string) { forall e :: e in cat.specs ==> PartNumberOf(cat.specs[e]) != number }

  ghost predicate ShellsApart(m: Manifest, number: string) {
    forall key :: key in m.assemblies ==> m.assemblies[key].bom.shell.partNumber != number
  }

  /** No other line of an order can carry this part number. */
  ghost predicate NumberApart(m: Manifest, cat: PartsCatalog, field: seq<Line>, number: string) {
    SpecsApart(cat, number) && ShellsApart(m, number) && !Carries(field, number)
  }

  lemma {:induction false} PartsDoNotCarry(cat: PartsCatalog, groups: seq<ContainerGroup>, section: Section, ids: seq<string>, number: string)
    requires PartLines(cat, groups, section, ids).Ok? && SpecsApart(cat, number)
    ensures !Carries(PartLines(cat, groups, section, ids).value, number)
  {
    if ids != [] {
      PartsDoNotCarry(cat, groups, section, ids[..|ids| - 1], number);
      PartLinesLast(cat, groups, section, ids);
      CarriesAppend(PartLines(cat, groups, section, ids[..|ids| - 1]).value, [PartLine(cat, groups, section, ids[|ids| - 1]).value], number);
    }
  }

  lemma PlateLinesSnoc(cat: PartsCatalog, groups: seq<ContainerGroup>, section: Section, defense: bool, ids: seq<string>)
    returns (before: seq<Line>, line: Line)
    requires ids != [] && PlateLines(cat, groups, section, defense, ids).Ok?
    ensures PlateLines(cat, groups, section, defense, ids[..|ids| - 1]) == Ok(before)
    ensures PlateLines(cat, groups, section, defense, ids).value == before + [line]
    ensures line.partNumber == PlateNumber(ids[|ids| - 1], defense)
  {
    before := PlateLines(cat, groups, section, defense, ids[..|ids| - 1]).value;
    line := PlateLineOf(cat, groups, section, defense, ids[|ids| - 1]).value;
  }

  /** One line per plate, each under its plate's number. */
  ghost predicate PlatesNumbered(lines: seq<Line>, ids: seq<string>, defense: bool) {
    |lines| == |ids| && forall i :: 0 <= i < |ids| ==> lines[i].partNumber == PlateNumber(ids[i], defense)
  }

  ghost predicate PlatesOk(cat: PartsCatalog, groups: seq<ContainerGroup>, section: Section, defense: bool, ids: seq<string>) {
    var lines := PlateLines(cat, groups, section, defense, ids);
    lines.Ok? && PlatesNumbered(lines.value, ids, defense)
  }

  lemma NumberedNext(lines: seq<Line>, before: seq<Line>, line: Line, ids: seq<string>, defense: bool)
    requires ids != [] && PlatesNumbered(before, ids[..|ids| - 1], defense) && lines == before + [line]
    requires line.partNumber == PlateNumber(ids[|ids| - 1], defense)
    ensures PlatesNumbered(lines, ids, defense)
  {
  }

  lemma {:induction false} PlatesNext(cat: PartsCatalog, groups: seq<ContainerGroup>, section: Section, defense: bool, ids: seq<string>, lines: seq<Line>)
    requires ids != [] && PlateLines(cat, groups, section, defense, ids) == Ok(lines)
    requires PlatesOk(cat, groups, section, defense, ids[..|ids| - 1])
    ensures PlatesNumbered(lines, ids, defense)
  {
    var before, line := PlateLinesSnoc(cat, groups, section, defense, ids);
    NumberedNext(lines, before, line, ids, defense);
    assert PlatesNumbered(lines, ids, defense);
  }

  lemma {:induction false} InitOk(cat: PartsCatalog, groups: seq<ContainerGroup>, section: Section, defense: bool, ids: seq<string>)
    requires ids != [] && PlateLines(cat, groups, section, defense, ids).Ok?
    ensures PlateLines(cat, groups, section, defense, ids[..|ids| - 1]).Ok?
  {
  }

  lemma {:induction false} PlateNumbersAre(cat: PartsCatalog, groups: seq<ContainerGroup>, section: Section, defense: bool, ids: seq<string>)
    requires PlateLines(cat, groups, section, defense, ids).Ok?
    ensures PlatesOk(cat, groups, section, defense, ids)
  {
    if ids != [] {
      InitOk(cat, groups, section, defense, ids);
      PlateNumbersAre(cat, groups, section, defense, ids[..|ids| - 1]);
      PlatesNext(cat, groups, section, defense, ids, PlateLines(cat, groups, section, defense, ids).value);
    }
  }

  lemma NumbersCarryIff(lines: seq<Line>, ids: seq<string>, defense: bool, pid: string)
    requires PlatesNumbered(lines, ids, defense)
    ensures Carries(lines, PlateNumber(pid, defense)) <==> pid in ids
  {
    if Carries(lines, PlateNumber(pid, defense)) {
      var i :| 0 <= i < |lines| && lines[i].partNumber == PlateNumber(pid, defense);
      PlateNumberInjective(ids[i], pid, defense);
    }
    if pid in ids {
      var i :| 0 <= i < |ids| && ids[i] == pid;
      assert lines[i].partNumber == PlateNumber(pid, defense);
    }
  }

  lemma {:induction false} PlatesCarryIff(cat: PartsCatalog, groups: seq<ContainerGroup>, section: Section, defense: bool, ids: seq<string>, pid: string)
    requires PlateLines(cat, groups, section, defense, ids).Ok?
    ensures Carries(PlateLines(cat, groups, section, defense, ids).value, PlateNumber(pid, defense)) <==> pid in ids
  {
    PlateNumbersAre(cat, groups, section, defense, ids);
    NumbersCarryIff(PlateLines(cat, groups, section, defense, ids).value, ids, defense, pid);
  }

  lemma SectionCarriesIff(cat: PartsCatalog, groups: seq<ContainerGroup>, defense: bool, pid: string)
    requires SectionLines(cat, groups, defense).Ok?
    requires SpecsApart(cat, PlateNumber(pid, defense))
    requires groups != [] ==> groups[0].bom.shell.partNumber != PlateNumber(pid, defense)
    ensures Carries(SectionLines(cat, groups, defense).value, PlateNumber(pid, defense)) <==> pid in AllPlateIds(groups)
  {
    if groups != [] {
      var number := PlateNumber(pid, defense);
      var shell, parts, plates := SectionParts(cat, groups, defense);
      PartsDoNotCarry(cat, groups, groups[0].section, FirstSeen(AllPartIds(groups)), number);
      PlatesCarryIff(cat, groups, groups[0].section, defense, FirstSeen(AllPlateIds(groups)), pid);
      FirstSeenMember(AllPlateIds(groups), pid);
      CarriesAppend([shell] + parts, plates, number);
      CarriesAppend([shell], parts, number);
    }
  }

  // ----- bom.yaml of the variants an order is built from -----

  ghost predicate BomLists(bom: BomYaml, pid: string) { exists i :: 0 <= i < |bom.plates| && bom.plates[i].id == pid }

  ghost predicate VariantLists(m: Manifest, asm: AsmType, name: string, pid: string) {
    (asm, name) in m.assemblies && BomLists(m.assemblies[(asm, name)].bom, pid)
  }

  ghost predicate GridLists(m: Manifest, prof: Profile, gridQty: nat, pid: string) {
    && prof.gridContainer.Some?
    && (VariantLists(m, GridContainer, prof.gridContainer.value, pid)
        || (gridQty > 1 && prof.gridFeeder.Some? && VariantLists(m, GridContainer, prof.gridFeeder.value, pid)))
  }

  /** Some container of the order is built from a bom.yaml that lists the plate. */
  ghost predicate OrderLists(m: Manifest, prof: Profile, order: Order, pid: string) {
    || (prof.ComputeVariant(order.gpu).Some? && VariantLists(m, ComputeContainer, prof.ComputeVariant(order.gpu).value, pid))
    || GridLists(m, prof, order.gridQty, pid)
  }

  lemma GroupPlates(groups: seq<ContainerGroup>, pid: string)
    ensures pid in AllPlateIds(groups) <==> exists k :: 0 <= k < |groups| && BomLists(groups[k].bom, pid)
  {
    var ids := Map((g: ContainerGroup) => PlateIds(g), groups);
    ConcatMember(ids, pid);
    forall k | 0 <= k < |groups| ensures pid in ids[k] <==> BomLists(groups[k].bom, pid) {
      if BomLists(groups[k].bom, pid) {
        var i :| 0 <= i < |groups[k].bom.plates| && groups[k].bom.plates[i].id == pid;
        assert PlateIds(groups[k])[i] == pid;
      }
    }
  }

  lemma ComputePlates(order: Order, bom: BomYaml, pid: string)
    ensures pid in AllPlateIds(ComputeGroups(order, bom)) <==> BomLists(bom, pid)
    ensures forall k :: 0 <= k < |ComputeGroups(order, bom)| ==> ComputeGroups(order, bom)[k].bom.shell == bom.shell
  {
    var groups := ComputeGroups(order, bom);
    GroupPlates(groups, pid);
    assert forall k :: 0 <= k < |groups| ==> groups[k].bom.plates == bom.plates;
    assert groups != [] && groups[0].bom.plates == bom.plates;
    if BomLists(bom, pid) {
      assert BomLists(groups[0].bom, pid);
    }
  }

  lemma GridPlates(m: Manifest, prof: Profile, gridQty: nat, grid: seq<ContainerGroup>, pid: string)
    requires GridGroups(m, prof, gridQty) == Ok(grid)
    ensures pid in AllPlateIds(grid) <==> GridLists(m, prof, gridQty, pid)
  {
    GroupPlates(grid, pid);
    if prof.gridContainer.Some? {
      assert BomLists(grid[0].bom, pid) <==> VariantLists(m, GridContainer, prof.gridContainer.value, pid);
      if gridQty > 1 {
        assert |grid| == 2;
        assert BomLists(grid[1].bom, pid) <==> VariantLists(m, GridContainer, prof.gridFeeder.value, pid);
      }
    }
  }

  lemma SiteLinesCarryNoPlate(computeQty: nat, pid: string, defense: bool)
    ensures !Carries(SiteLines(computeQty), PlateNumber(pid, defense))
  {
    var number := PlateNumber(pid, defense);
    assert number[0] == 'A' && number[1] == 'R';
  }

  lemma ComputeCarriesIff(cat: PartsCatalog, order: Order, bom: BomYaml, a: seq<Line>, pid: string)
    requires SectionLines(cat, ComputeGroups(order, bom), order.defense) == Ok(a)
    requires SpecsApart(cat, PlateNumber(pid, order.defense)) && bom.shell.partNumber != PlateNumber(pid, order.defense)
    ensures Carries(a, PlateNumber(pid, order.defense)) <==> BomLists(bom, pid)
  {
    ComputePlates(order, bom, pid);
    SectionCarriesIff(cat, ComputeGroups(order, bom), order.defense, pid);
  }

  lemma GridCarriesIff(m: Manifest, cat: PartsCatalog, prof: Profile, order: Order, grid: seq<ContainerGroup>,
                       b: seq<Line>, pid: string)
    requires GridGroups(m, prof, order.gridQty) == Ok(grid) && SectionLines(cat, grid, order.defense) == Ok(b)
    requires SpecsApart(cat, PlateNumber(pid, order.defense)) && ShellsApart(m, PlateNumber(pid, order.defense))
    ensures Carries(b, PlateNumber(pid, order.defense)) <==> GridLists(m, prof, order.gridQty, pid)
  {
    GridPlates(m, prof, order.gridQty, grid, pid);
    assert grid != [] ==> grid[0].bom.shell.partNumber != PlateNumber(pid, order.defense);
    SectionCarriesIff(cat, grid, order.defense, pid);
  }

  lemma LinesCarryIff(m: Manifest, cat: PartsCatalog, profile: string, order: Order, field: seq<Line>, pid: string)
    requires OrderLines(m, cat, profile, order, field).Ok? && NumberApart(m, cat, field, PlateNumber(pid, order.defense))
    ensures profile in m.profiles
    ensures Carries(OrderLines(m, cat, profile, order, field).value, PlateNumber(pid, order.defense))
            <==> OrderLists(m, m.profiles[profile], order, pid)
  {
    var bom, grid, a, b, pcs := OrderGroups(m, cat, profile, order, field);
    ComputeCarriesIff(cat, order, bom, a, pid);
    GridCarriesIff(m, cat, m.profiles[profile], order, grid, b, pid);
    SiteLinesCarryNoPlate(order.computeQty, pid, order.defense);
    CarriesFive(a, b, SiteLines(order.computeQty), pcs, field, PlateNumber(pid, order.defense));
  }

  /** A plate is bought exactly when some bom.yaml the order is built from lists it. */
  lemma PlateBoughtIff(m: Manifest, cat: PartsCatalog, profile: string, order: Order, field: seq<Line>, pid: string)
    requires GenerateBom(m, cat, profile, order, field).Ok? && NumberApart(m, cat, field, PlateNumber(pid, order.defense))
    ensures profile in m.profiles
    ensures Carries(GenerateBom(m, cat, profile, order, field).value.lines, PlateNumber(pid, order.defense))
            <==> OrderLists(m, m.profiles[profile], order, pid)
  {
    FinishedCarries(m, cat, profile, order, field, PlateNumber(pid, order.defense));
    LinesCarryIff(m, cat, profile, order, field, pid);
  }

  lemma CarriesFive(a: seq<Line>, b: seq<Line>, c: seq<Line>, d: seq<Line>, e: seq<Line>, number: string)
    ensures Carries(a + b + c + d + e, number)
            <==> Carries(a, number) || Carries(b, number) || Carries(c, number) || Carries(d, number) || Carries(e, number)
  {
    CarriesAppend(a, b, number);
    CarriesAppend(a + b, c, number);
    CarriesAppend(a + b + c, d, number);
    CarriesAppend(a + b + c + d, e, number);
  }

  // ----- the job -----

  /** A job's artifact list: plate rows of its profile between rows of other kinds. */
  ghost predicate PromisesPlates(refs: seq<ArtifactRef>, cat: PartsCatalog, prof: Profile) {
    exists before, after ::
      && NoPlates(before) && NoPlates(after) && PlateRefs(cat, prof.interfacePlates).Some?
      && refs == before + PlateRefs(cat, prof.interfacePlates).value + after
  }

  lemma MissingIff(refs: seq<ArtifactRef>, cat: PartsCatalog, prof: Profile, build: Build)
    requires PromisesPlates(refs, cat, prof)
    ensures (exists r :: r in refs && PlateMissing(build, r))
            <==> exists pid :: pid in prof.interfacePlates && !Carries(build.lines, PlateNumber(pid, build.defense))
  {
    var plates := PlateRefs(cat, prof.interfacePlates).value;
    var before, after :| NoPlates(before) && NoPlates(after) && refs == before + plates + after;
    if r :| r in refs && PlateMissing(build, r) {
      PlateRefsAre(cat, prof.interfacePlates, r.plateId.value);
      assert r in plates;
      NumbersAre(build.lines, PlateNumber(r.plateId.value, build.defense));
    }
    if pid :| pid in prof.interfacePlates && !Carries(build.lines, PlateNumber(pid, build.defense)) {
      PlateRefsAre(cat, prof.interfacePlates, pid);
      var r :| r in plates && CountsPlate(r) && r.plateId.value == pid;
      NumbersAre(build.lines, PlateNumber(pid, build.defense));
      assert r in refs && PlateMissing(build, r);
    }
  }

  lemma NumbersAre(lines: seq<Line>, number: string)
    ensures number in Numbers(lines) <==> Carries(lines, number)
  {
    if Carries(lines, number) {
      var i :| 0 <= i < |lines| && lines[i].partNumber == number;
      assert lines[i] in lines;
    }
  }

  /** The same part numbers, in whatever lines. */
  ghost predicate SameNumbers(a: seq<Line>, b: seq<Line>) { forall number :: Carries(a, number) <==> Carries(b, number) }

  lemma OffersKeepNumber(lines: seq<Line>, enriched: map<string, seq<Offer>>, number: string)
    ensures Carries(Attached(lines, enriched), number) <==> Carries(lines, number)
  {
    assert forall i :: 0 <= i < |lines| ==> Attached(lines, enriched)[i].partNumber == lines[i].partNumber;
  }

  /** Live offers change prices, never part numbers. */
  lemma OffersKeepNumbers(lines: seq<Line>, enriched: map<string, seq<Offer>>)
    ensures SameNumbers(Attached(lines, enriched), lines)
  {
    forall number ensures Carries(Attached(lines, enriched), number) <==> Carries(lines, number) {
      OffersKeepNumber(lines, enriched, number);
    }
  }

  /** Whether a job fails can be told from the manifests and the order alone, the pipeline's own exceptions aside: it ends
      FAILED exactly when the pinned profile promises a plate that no bom.yaml the order is built from, in the manifest
      fetched for the BOM, lists. */
  lemma JobFailsIff(r: JobRecord, pinnedCat: PartsCatalog, fetched: Manifest, cat: PartsCatalog, profile: string, order: Order,
                    field: seq<Line>, outcome: Outcome)
    requires GenerateBom(fetched, cat, profile, order, field).Ok? && profile in r.manifest.profiles && profile in fetched.profiles
    requires r.status == Running && PromisesPlates(r.urls, pinnedCat, r.manifest.profiles[profile])
    requires outcome.Built? ==> SameNumbers(outcome.build.lines, GenerateBom(fetched, cat, profile, order, field).value.lines)
    requires outcome.Built? ==> outcome.build.defense == order.defense
    requires forall pid :: pid in r.manifest.profiles[profile].interfacePlates ==> NumberApart(fetched, cat, field, PlateNumber(pid, order.defense))
    ensures Ended(r, outcome).status == Failed
            <==> outcome.Raised? || exists pid :: pid in r.manifest.profiles[profile].interfacePlates
                                                  && !OrderLists(fetched, fetched.profiles[profile], order, pid)
  {
    var prof := r.manifest.profiles[profile];
    if outcome.Built? {
      var build := outcome.build;
      forall pid | pid in prof.interfacePlates
        ensures Carries(build.lines, PlateNumber(pid, build.defense)) <==> OrderLists(fetched, fetched.profiles[profile], order, pid)
      {
        PlateBoughtIff(fetched, cat, profile, order, field, pid);
      }
      MissingIff(r.urls, pinnedCat, prof, build);
    }
  }
}
