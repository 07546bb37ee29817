/** What the shops make for an order: one shell a container, and every container's plates. */
module BomFabrication {
  import opened Lists
  import opened Catalog
  import opened ComputeNodes
  import opened BomModel
  import opened BomCoverage
  import opened BomPricing
  import opened BomBudget
  import opened BomGenerator
  import opened BomTotals
  import opened BomHardware
  import opened BomAgreement
  import opened PlatePromises
  import Artifacts

  /** Ordered quantity of a shell in a section. */
  function ShellQty(section: Section, number: string): Line -> real {
    (l: Line) =>
      if l.section == section && l.path == CustomFabrication && l.vendor == "Container supplier" && l.partNumber == number
      then l.qty as real else 0.0
  }

  /** Ordered quantity of a plate. */
  function PlateQty(number: string): Line -> real {
    (l: Line) =>
      if l.path == CustomFabrication && l.vendor == "CNC shop, to ARCNODE drawing" && l.partNumber == number
      then l.qty as real else 0.0
  }

  /** Plates of one id that a container of this bom.yaml carries. */
  function PlatesPer(bom: BomYaml, pid: string): nat {
    Sum(Map((p: Plate) => if p.id == pid then p.qty else 0, bom.plates))
  }

  function PlatesIn(groups: seq<ContainerGroup>, pid: string): nat {
    Sum(Map((g: ContainerGroup) => PlatesPer(g.bom, pid) * g.Count(), groups))
  }

  // ----- sums -----

  lemma {:induction false} SumSplit(f: Line -> real, a: seq<Line>, b: seq<Line>)
    ensures SumOf(f, a + b) == SumOf(f, a) + SumOf(f, b)
  {
    if b == [] {
      assert a + b == a;
    } else {
      assert (a + b)[..|a + b| - 1] == a + b[..|b| - 1];
      SumSplit(f, a, b[..|b| - 1]);
    }
  }

  lemma {:induction false} SumNothing(f: Line -> real, lines: seq<Line>)
    requires forall i :: 0 <= i < |lines| ==> f(lines[i]) == 0.0
    ensures SumOf(f, lines) == 0.0
  {
    if lines != [] {
      SumNothing(f, lines[..|lines| - 1]);
    }
  }

  lemma {:induction false} HeldQtyAppend(a: seq<Holding>, b: seq<Holding>)
    ensures HeldQty(a + b) == HeldQty(a) + HeldQty(b)
  {
    if b == [] {
      assert a + b == a;
    } else {
      assert (a + b)[..|a + b| - 1] == a + b[..|b| - 1];
      HeldQtyAppend(a, b[..|b| - 1]);
    }
  }

  // ----- plates held -----

  function PlatesHeld(g: ContainerGroup, plates: seq<Plate>, pid: string): seq<Holding> {
    Concat(Map((p: Plate) => PlateHoldingOf(g, p, pid), plates))
  }

  function QtyIfIs(p: Plate, pid: string): nat { if p.id == pid then p.qty else 0 }

  lemma {:induction false} OneHolding(g: ContainerGroup, p: Plate, pid: string)
    ensures HeldQty(PlateHoldingOf(g, p, pid)) == QtyIfIs(p, pid) * g.Count()
  {
    if p.id == pid {
      var h := PlateHoldingOf(g, p, pid);
      assert h[..0] == [] && HeldQty(h) == HeldQty(h[..0]) + h[0].qty * h[0].group.Count();
    }
  }

  lemma Distribute(a: nat, b: nat, c: nat)
    ensures (a + b) * c == a * c + b * c
  {
  }

  function QtyOfEach(plates: seq<Plate>, pid: string): seq<nat> { Map((p: Plate) => QtyIfIs(p, pid), plates) }

  lemma {:induction false} HeldNext(g: ContainerGroup, init: seq<Plate>, p: Plate, pid: string)
    ensures HeldQty(PlatesHeld(g, init + [p], pid)) == HeldQty(PlatesHeld(g, init, pid)) + HeldQty(PlateHoldingOf(g, p, pid))
    ensures Sum(QtyOfEach(init + [p], pid)) == Sum(QtyOfEach(init, pid)) + QtyIfIs(p, pid)
  {
    MapAppend((p: Plate) => PlateHoldingOf(g, p, pid), init, [p]);
    ConcatSnoc(Map((p: Plate) => PlateHoldingOf(g, p, pid), init), PlateHoldingOf(g, p, pid));
    HeldQtyAppend(PlatesHeld(g, init, pid), PlateHoldingOf(g, p, pid));
    MapAppend((p: Plate) => QtyIfIs(p, pid), init, [p]);
    SumMore(QtyOfEach(init, pid), QtyIfIs(p, pid));
  }

  lemma {:induction false} GroupHolds(g: ContainerGroup, plates: seq<Plate>, pid: string)
    ensures HeldQty(PlatesHeld(g, plates, pid)) == Sum(QtyOfEach(plates, pid)) * g.Count()
  {
    if plates != [] {
      var init, p := plates[..|plates| - 1], plates[|plates| - 1];
      assert plates == init + [p];
      GroupHolds(g, init, pid);
      OneHolding(g, p, pid);
      HeldNext(g, init, p, pid);
      Distribute(Sum(QtyOfEach(init, pid)), QtyIfIs(p, pid), g.Count());
    }
  }

  lemma PerIsSum(bom: BomYaml, pid: string)
    ensures PlatesPer(bom, pid) == Sum(QtyOfEach(bom.plates, pid))
  {
    assert Map((p: Plate) => if p.id == pid then p.qty else 0, bom.plates) == QtyOfEach(bom.plates, pid);
  }

  function PlatesOfGroup(pid: string): ContainerGroup -> seq<Holding> { (g: ContainerGroup) => PlatesHeld(g, g.bom.plates, pid) }

  function CountOfGroup(pid: string): ContainerGroup -> nat { (g: ContainerGroup) => PlatesPer(g.bom, pid) * g.Count() }

  lemma {:induction false} GroupsHold(groups: seq<ContainerGroup>, pid: string)
    ensures HeldQty(Concat(Map(PlatesOfGroup(pid), groups))) == Sum(Map(CountOfGroup(pid), groups))
  {
    if groups != [] {
      var init, g := groups[..|groups| - 1], groups[|groups| - 1];
      GroupsHold(init, pid);
      GroupHolds(g, g.bom.plates, pid);
      PerIsSum(g.bom, pid);
      assert groups == init + [g];
      MapAppend(PlatesOfGroup(pid), init, [g]);
      ConcatSnoc(Map(PlatesOfGroup(pid), init), PlatesHeld(g, g.bom.plates, pid));
      HeldQtyAppend(Concat(Map(PlatesOfGroup(pid), init)), PlatesHeld(g, g.bom.plates, pid));
      MapAppend(CountOfGroup(pid), init, [g]);
      SumMore(Map(CountOfGroup(pid), init), PlatesPer(g.bom, pid) * g.Count());
    }
  }

  lemma PlatesHeldAre(groups: seq<ContainerGroup>, pid: string)
    ensures HeldQty(HeldPlates(groups, pid)) == PlatesIn(groups, pid)
  {
    GroupsHold(groups, pid);
    var each := (g: ContainerGroup) => Concat(Map((p: Plate) => PlateHoldingOf(g, p, pid), g.bom.plates));
    assert Map(each, groups) == Map(PlatesOfGroup(pid), groups);
    assert Map((g: ContainerGroup) => PlatesPer(g.bom, pid) * g.Count(), groups) == Map(CountOfGroup(pid), groups);
  }

  lemma {:induction false} SumZeroes(ns: seq<nat>)
    requires forall i :: 0 <= i < |ns| ==> ns[i] == 0
    ensures Sum(ns) == 0
  {
    if ns != [] {
      SumZeroes(ns[..|ns| - 1]);
    }
  }

  lemma NoneListed(groups: seq<ContainerGroup>, pid: string)
    requires pid !in AllPlateIds(groups)
    ensures PlatesIn(groups, pid) == 0
  {
    GroupPlates(groups, pid);
    var counts := Map((g: ContainerGroup) => PlatesPer(g.bom, pid) * g.Count(), groups);
    forall k | 0 <= k < |groups| ensures counts[k] == 0 {
      assert !BomLists(groups[k].bom, pid);
      SumZeroes(Map((p: Plate) => if p.id == pid then p.qty else 0, groups[k].bom.plates));
    }
    SumZeroes(counts);
  }

  // ----- one section -----

  /** Lines of one section, none of them made in a shop. */
  ghost predicate Bought(lines: seq<Line>, section: Section) {
    forall i :: 0 <= i < |lines| ==> lines[i].section == section && lines[i].path != CustomFabrication
  }

  lemma {:induction false} PartsAreBought(cat: PartsCatalog, groups: seq<ContainerGroup>, section: Section, ids: seq<string>)
    requires PartLines(cat, groups, section, ids).Ok?
    ensures Bought(PartLines(cat, groups, section, ids).value, section)
  {
    if ids != [] {
      PartsAreBought(cat, groups, section, ids[..|ids| - 1]);
      PartLinesLast(cat, groups, section, ids);
    }
  }

  ghost predicate IsPlateLine(line: Line, section: Section, number: string, qty: nat) {
    && line.section == section && line.partNumber == number && line.qty == qty
    && line.path == CustomFabrication && line.vendor == "CNC shop, to ARCNODE drawing"
  }

  /** The plate lines of a section: one per id, for what its containers carry. */
  ghost predicate PlatesCounted(lines: seq<Line>, groups: seq<ContainerGroup>, section: Section, defense: bool, ids: seq<string>) {
    |lines| == |ids|
    && forall i :: 0 <= i < |ids| ==> IsPlateLine(lines[i], section, PlateNumber(ids[i], defense), HeldQty(HeldPlates(groups, ids[i])))
  }

  lemma {:induction false} PlatesAreCounted(cat: PartsCatalog, groups: seq<ContainerGroup>, section: Section, defense: bool, ids: seq<string>)
    requires PlateLines(cat, groups, section, defense, ids).Ok?
    ensures PlatesCounted(PlateLines(cat, groups, section, defense, ids).value, groups, section, defense, ids)
  {
    if ids != [] {
      InitOk(cat, groups, section, defense, ids);
      PlatesAreCounted(cat, groups, section, defense, ids[..|ids| - 1]);
      LastPlate(cat, groups, section, defense, ids, PlateLines(cat, groups, section, defense, ids[..|ids| - 1]).value);
    }
  }

  lemma {:induction false} LastPlate(cat: PartsCatalog, groups: seq<ContainerGroup>, section: Section, defense: bool, ids: seq<string>, init: seq<Line>)
    requires ids != [] && PlateLines(cat, groups, section, defense, ids).Ok?
    requires PlateLines(cat, groups, section, defense, ids[..|ids| - 1]) == Ok(init)
    requires PlatesCounted(init, groups, section, defense, ids[..|ids| - 1])
    ensures PlatesCounted(PlateLines(cat, groups, section, defense, ids).value, groups, section, defense, ids)
  {
    var id := ids[|ids| - 1];
    var line := PlateLineOf(cat, groups, section, defense, id).value;
    assert IsPlateLine(line, section, PlateNumber(id, defense), HeldQty(HeldPlates(groups, id)));
    assert PlateLines(cat, groups, section, defense, ids).value == init + [line];
  }

  lemma {:induction false} PlatesSum(lines: seq<Line>, groups: seq<ContainerGroup>, section: Section, defense: bool, ids: seq<string>, pid: string)
    requires PlatesCounted(lines, groups, section, defense, ids) && Distinct(ids)
    ensures SumOf(PlateQty(PlateNumber(pid, defense)), lines)
         == if pid in ids then HeldQty(HeldPlates(groups, pid)) as real else 0.0
  {
    if ids != [] {
      var last := |ids| - 1;
      PlatesSum(lines[..last], groups, section, defense, ids[..last], pid);
      MemberOfSnoc(ids, pid);
      assert IsPlateLine(lines[last], section, PlateNumber(ids[last], defense), HeldQty(HeldPlates(groups, ids[last])));
      if PlateNumber(ids[last], defense) == PlateNumber(pid, defense) {
        PlateNumberInjective(ids[last], pid, defense);
      }
    }
  }

  lemma SectionPlates(cat: PartsCatalog, groups: seq<ContainerGroup>, defense: bool, pid: string)
    requires SectionLines(cat, groups, defense).Ok?
    ensures SumOf(PlateQty(PlateNumber(pid, defense)), SectionLines(cat, groups, defense).value) == PlatesIn(groups, pid) as real
  {
    if groups != [] {
      var f, ids := PlateQty(PlateNumber(pid, defense)), FirstSeen(AllPlateIds(groups));
      var shell, parts, plates := SectionParts(cat, groups, defense);
      PartsAreBought(cat, groups, groups[0].section, FirstSeen(AllPartIds(groups)));
      PlatesAreCounted(cat, groups, groups[0].section, defense, ids);
      FirstSeenDistinct(AllPlateIds(groups));
      FirstSeenMember(AllPlateIds(groups), pid);
      PlatesSum(plates, groups, groups[0].section, defense, ids, pid);
      PlatesHeldAre(groups, pid);
      if pid !in ids {
        NoneListed(groups, pid);
      }
      ThreeParts(f, shell, parts, plates);
    }
  }

  lemma {:induction false} ThreeParts(f: Line -> real, shell: Line, parts: seq<Line>, plates: seq<Line>)
    requires forall i :: 0 <= i < |parts| ==> f(parts[i]) == 0.0
    ensures SumOf(f, [shell] + parts + plates) == f(shell) + SumOf(f, plates)
  {
    SumSplit(f, [shell] + parts, plates);
    SumSplit(f, [shell], parts);
    SumNothing(f, parts);
    assert [shell][..0] == [];
  }

  lemma SectionShells(cat: PartsCatalog, groups: seq<ContainerGroup>, defense: bool, section: Section, number: string)
    requires SectionLines(cat, groups, defense).Ok?
    ensures SumOf(ShellQty(section, number), SectionLines(cat, groups, defense).value)
         == if groups != [] && groups[0].section == section && groups[0].bom.shell.partNumber == number
            then TotalContainers(groups) as real else 0.0
  {
    if groups != [] {
      var f, own := ShellQty(section, number), groups[0].section;
      var shell, parts, plates := SectionParts(cat, groups, defense);
      PartsAreBought(cat, groups, own, FirstSeen(AllPartIds(groups)));
      PlatesAreCounted(cat, groups, own, defense, FirstSeen(AllPlateIds(groups)));
      forall i | 0 <= i < |plates| ensures f(plates[i]) == 0.0 {
        var id := FirstSeen(AllPlateIds(groups))[i];
        assert IsPlateLine(plates[i], own, PlateNumber(id, defense), HeldQty(HeldPlates(groups, id)));
      }
      SumNothing(f, plates);
      ThreeParts(f, shell, parts, plates);
    }
  }

  // ----- the containers of an order -----

  lemma {:induction false} SumOne(n: nat)
    ensures Sum([n]) == n
  {
    SumMore([], n);
    assert [] + [n] == [n];
  }

  lemma {:induction false} SumTwo(a: nat, b: nat)
    ensures Sum([a, b]) == a + b
  {
    SumOne(a);
    SumMore([a], b);
    assert [a] + [b] == [a, b];
  }

  lemma {:induction false} OverOne(g: ContainerGroup, pid: string)
    ensures TotalContainers([g]) == g.Count() && PlatesIn([g], pid) == PlatesPer(g.bom, pid) * g.Count()
  {
    SumOne(g.Count());
    SumOne(PlatesPer(g.bom, pid) * g.Count());
    assert Map((g: ContainerGroup) => g.Count(), [g]) == [g.Count()];
    assert Map((g: ContainerGroup) => PlatesPer(g.bom, pid) * g.Count(), [g]) == [PlatesPer(g.bom, pid) * g.Count()];
  }

  lemma {:induction false} OverTwo(g: ContainerGroup, h: ContainerGroup, pid: string)
    ensures TotalContainers([g, h]) == g.Count() + h.Count()
    ensures PlatesIn([g, h], pid) == PlatesPer(g.bom, pid) * g.Count() + PlatesPer(h.bom, pid) * h.Count()
  {
    SumTwo(g.Count(), h.Count());
    SumTwo(PlatesPer(g.bom, pid) * g.Count(), PlatesPer(h.bom, pid) * h.Count());
    assert Map((g: ContainerGroup) => g.Count(), [g, h]) == [g.Count(), h.Count()];
    assert Map((g: ContainerGroup) => PlatesPer(g.bom, pid) * g.Count(), [g, h])
        == [PlatesPer(g.bom, pid) * g.Count(), PlatesPer(h.bom, pid) * h.Count()];
  }

  /** Full and partial containers together are the containers ordered, and carry the same plates. */
  lemma {:induction false} ComputeContainers(order: Order, bom: BomYaml, pid: string)
    ensures var groups := ComputeGroups(order, bom);
            && groups != [] && groups[0].section == ComputeSection && groups[0].bom.shell == bom.shell
            && TotalContainers(groups) == order.computeQty
            && PlatesIn(groups, pid) == PlatesPer(bom, pid) * order.computeQty
  {
    var full, groups := FullContainers(order), ComputeGroups(order, bom);
    if full == order.computeQty || full == 0 {
      assert groups == [groups[0]];
      OverOne(groups[0], pid);
    } else {
      assert groups == [groups[0], groups[1]];
      OverTwo(groups[0], groups[1], pid);
      Distribute(full, 1, PlatesPer(bom, pid));
    }
  }

  /** Plates of one id on an order's grid containers: the primary's once, the feeder's on every other. */
  ghost function PlatesOnGrid(m: Manifest, prof: Profile, gridQty: nat, pid: string): nat {
    if prof.gridContainer.None? || BomOf(m, GridContainer, prof.gridContainer.value).Err? then 0
    else
      PlatesPer(BomOf(m, GridContainer, prof.gridContainer.value).value, pid)
      + if gridQty <= 1 || prof.gridFeeder.None? || BomOf(m, GridContainer, prof.gridFeeder.value).Err? then 0
        else PlatesPer(BomOf(m, GridContainer, prof.gridFeeder.value).value, pid) * (gridQty - 1)
  }

  lemma {:induction false} GridContainers(m: Manifest, prof: Profile, gridQty: Pos, grid: seq<ContainerGroup>, pid: string)
    requires GridGroups(m, prof, gridQty) == Ok(grid)
    ensures PlatesIn(grid, pid) == PlatesOnGrid(m, prof, gridQty, pid)
    ensures grid == [] <==> prof.gridContainer.None?
    ensures grid != [] ==>
              && grid[0].section == GridSection && BomOf(m, GridContainer, prof.gridContainer.value) == Ok(grid[0].bom)
              && TotalContainers(grid) == gridQty
  {
    if prof.gridContainer.Some? {
      if gridQty <= 1 {
        assert grid == [grid[0]];
        OverOne(grid[0], pid);
      } else {
        assert grid == [grid[0], grid[1]];
        OverTwo(grid[0], grid[1], pid);
      }
    }
  }

  /** Nothing outside the containers comes from a shop. */
  ghost predicate NotMade(lines: seq<Line>) { forall i :: 0 <= i < |lines| ==> lines[i].path != CustomFabrication }

  /** Sums of this kind see only goods made in a shop, and nothing of their item number or price. */
  ghost predicate OnlyMade(f: Line -> real) {
    && (forall l: Line :: l.path != CustomFabrication ==> f(l) == 0.0)
    && (forall x, y :: SameGoods(x, y) ==> f(x) == f(y))
  }

  lemma {:induction false} FiveParts(f: Line -> real, a: seq<Line>, b: seq<Line>, c: seq<Line>, d: seq<Line>, e: seq<Line>)
    requires NotMade(c) && NotMade(d) && NotMade(e) && OnlyMade(f)
    ensures SumOf(f, a + b + c + d + e) == SumOf(f, a) + SumOf(f, b)
  {
    SumSplit(f, a + b + c + d, e);
    SumSplit(f, a + b + c, d);
    SumSplit(f, a + b, c);
    SumSplit(f, a, b);
    SumNothing(f, c);
    SumNothing(f, d);
    SumNothing(f, e);
  }

  /** The bom.yaml and groups of an order's containers, and its lines section by section. */
  ghost predicate BuiltFrom(m: Manifest, cat: PartsCatalog, profile: string, order: Order, field: seq<Line>, bom: BomYaml,
                            grid: seq<ContainerGroup>, a: seq<Line>, b: seq<Line>, pcs: seq<Line>)
  {
    && profile in m.profiles && m.profiles[profile].ComputeVariant(order.gpu).Some?
    && BomOf(m, ComputeContainer, m.profiles[profile].ComputeVariant(order.gpu).value) == Ok(bom)
    && GridGroups(m, m.profiles[profile], order.gridQty) == Ok(grid)
    && SectionLines(cat, ComputeGroups(order, bom), order.defense) == Ok(a) && SectionLines(cat, grid, order.defense) == Ok(b)
    && PcsLines(cat, order) == Ok(pcs)
    && OrderLines(m, cat, profile, order, field) == Ok(a + b + SiteLines(order.computeQty) + pcs + field)
  }

  lemma SiteNotMade(computeQty: nat)
    ensures NotMade(SiteLines(computeQty))
  {
  }

  lemma PcsNotMade(cat: PartsCatalog, order: Order, pcs: seq<Line>)
    requires PcsLines(cat, order) == Ok(pcs)
    ensures NotMade(pcs)
  {
  }

  /** Of what is summed over goods made in a shop, all lies in the two container sections. */
  lemma {:induction false} MadeInSections(m: Manifest, cat: PartsCatalog, profile: string, order: Order, field: seq<Line>, f: Line -> real,
                                          bom: BomYaml, grid: seq<ContainerGroup>, a: seq<Line>, b: seq<Line>, pcs: seq<Line>)
    requires GenerateBom(m, cat, profile, order, field).Ok? && NotMade(field) && BuiltFrom(m, cat, profile, order, field, bom, grid, a, b, pcs)
    requires OnlyMade(f)
    ensures SumOf(f, GenerateBom(m, cat, profile, order, field).value.lines) == SumOf(f, a) + SumOf(f, b)
  {
    var lines := OrderLines(m, cat, profile, order, field).value;
    SiteNotMade(order.computeQty);
    PcsNotMade(cat, order, pcs);
    GoodsKept(f, lines, cat.book);
    FiveParts(f, a, b, SiteLines(order.computeQty), pcs, field);
  }

  /** Every compute container and every grid container gets one shell, of its variant's part number. */
  lemma {:induction false} EveryContainerHasAShell(m: Manifest, cat: PartsCatalog, profile: string, order: Order, field: seq<Line>)
    requires GenerateBom(m, cat, profile, order, field).Ok? && NotMade(field)
    ensures profile in m.profiles && m.profiles[profile].ComputeVariant(order.gpu).Some?
    ensures var built := BomOf(m, ComputeContainer, m.profiles[profile].ComputeVariant(order.gpu).value);
            && built.Ok?
            && SumOf(ShellQty(ComputeSection, built.value.shell.partNumber), GenerateBom(m, cat, profile, order, field).value.lines)
               == order.computeQty as real
    ensures m.profiles[profile].gridContainer.Some? ==>
              var built := BomOf(m, GridContainer, m.profiles[profile].gridContainer.value);
              && built.Ok?
              && SumOf(ShellQty(GridSection, built.value.shell.partNumber), GenerateBom(m, cat, profile, order, field).value.lines)
                 == order.gridQty as real
  {
    var bom, grid, a, b, pcs := OrderGroups(m, cat, profile, order, field);
    ComputeContainers(order, bom, "");
    GridContainers(m, m.profiles[profile], order.gridQty, grid, "");
    ShellsIn(m, cat, profile, order, field, ComputeSection, bom.shell.partNumber, bom, grid, a, b, pcs);
    if grid != [] {
      ShellsIn(m, cat, profile, order, field, GridSection, grid[0].bom.shell.partNumber, bom, grid, a, b, pcs);
    }
  }

  lemma {:induction false} ShellsIn(m: Manifest, cat: PartsCatalog, profile: string, order: Order, field: seq<Line>, section: Section, number: string,
                                    bom: BomYaml, grid: seq<ContainerGroup>, a: seq<Line>, b: seq<Line>, pcs: seq<Line>)
    requires GenerateBom(m, cat, profile, order, field).Ok? && NotMade(field) && BuiltFrom(m, cat, profile, order, field, bom, grid, a, b, pcs)
    ensures SumOf(ShellQty(section, number), GenerateBom(m, cat, profile, order, field).value.lines)
         == SumOf(ShellQty(section, number), a) + SumOf(ShellQty(section, number), b)
    ensures SumOf(ShellQty(section, number), a)
         == if section == ComputeSection && number == bom.shell.partNumber then order.computeQty as real else 0.0
    ensures SumOf(ShellQty(section, number), b)
         == if grid != [] && section == GridSection && number == grid[0].bom.shell.partNumber then order.gridQty as real else 0.0
  {
    assert OnlyMade(ShellQty(section, number));
    MadeInSections(m, cat, profile, order, field, ShellQty(section, number), bom, grid, a, b, pcs);
    ComputeContainers(order, bom, "");
    GridContainers(m, m.profiles[profile], order.gridQty, grid, "");
    SectionShells(cat, ComputeGroups(order, bom), order.defense, section, number);
    SectionShells(cat, grid, order.defense, section, number);
  }

  lemma {:induction false} PlatesBought(m: Manifest, cat: PartsCatalog, profile: string, order: Order, field: seq<Line>, pid: string)
    requires GenerateBom(m, cat, profile, order, field).Ok? && NotMade(field)
    ensures profile in m.profiles && m.profiles[profile].ComputeVariant(order.gpu).Some?
    ensures var built := BomOf(m, ComputeContainer, m.profiles[profile].ComputeVariant(order.gpu).value);
            && built.Ok?
            && SumOf(PlateQty(PlateNumber(pid, order.defense)), GenerateBom(m, cat, profile, order, field).value.lines)
               == (PlatesPer(built.value, pid) * order.computeQty + PlatesOnGrid(m, m.profiles[profile], order.gridQty, pid)) as real
  {
    var bom, grid, a, b, pcs := OrderGroups(m, cat, profile, order, field);
    var number := PlateNumber(pid, order.defense);
    assert OnlyMade(PlateQty(number));
    MadeInSections(m, cat, profile, order, field, PlateQty(number), bom, grid, a, b, pcs);
    BothSectionsPlates(m, cat, m.profiles[profile], order, bom, grid, a, b, pid);
  }

  /** Of every plate the order buys what its containers carry: the compute variant's times the compute containers, the
      primary grid variant's once and the feeder variant's for every other grid container. */
  lemma {:induction false} EveryContainerHasItsPlates(m: Manifest, cat: PartsCatalog, profile: string, order: Order, field: seq<Line>, pid: string)
    requires GenerateBom(m, cat, profile, order, field).Ok? && NotMade(field)
    ensures profile in m.profiles && m.profiles[profile].ComputeVariant(order.gpu).Some?
    ensures var built := BomOf(m, ComputeContainer, m.profiles[profile].ComputeVariant(order.gpu).value);
            && built.Ok?
            && SumOf(PlateQty("ARC-PLT-" + pid + "-001" + if order.defense then "-D" else ""),
                     GenerateBom(m, cat, profile, order, field).value.lines)
               == (PlatesPer(built.value, pid) * order.computeQty + PlatesOnGrid(m, m.profiles[profile], order.gridQty, pid)) as real
  {
    PlatesBought(m, cat, profile, order, field, pid);
    NumberSpelled(pid, order.defense);
  }

  lemma NumberSpelled(pid: string, defense: bool)
    ensures PlateNumber(pid, defense) == "ARC-PLT-" + pid + "-001" + if defense then "-D" else ""
  {
  }

  lemma {:induction false} BothSectionsPlates(m: Manifest, cat: PartsCatalog, prof: Profile, order: Order, bom: BomYaml, grid: seq<ContainerGroup>,
                                              a: seq<Line>, b: seq<Line>, pid: string)
    requires GridGroups(m, prof, order.gridQty) == Ok(grid)
    requires SectionLines(cat, ComputeGroups(order, bom), order.defense) == Ok(a) && SectionLines(cat, grid, order.defense) == Ok(b)
    ensures SumOf(PlateQty(PlateNumber(pid, order.defense)), a) + SumOf(PlateQty(PlateNumber(pid, order.defense)), b)
         == (PlatesPer(bom, pid) * order.computeQty + PlatesOnGrid(m, prof, order.gridQty, pid)) as real
  {
    ComputeContainers(order, bom, pid);
    GridContainers(m, prof, order.gridQty, grid, pid);
    SectionPlates(cat, ComputeGroups(order, bom), order.defense, pid);
    SectionPlates(cat, grid, order.defense, pid);
  }

  // ----- what a plate's artifact counts -----

  /** Ordered quantity of a part number, whatever kind of line carries it. */
  function NumberQty(number: string): Line -> real { (l: Line) => if l.partNumber == number then l.qty as real else 0.0 }

  lemma {:induction false} CountedQty(lines: seq<Line>, number: string)
    ensures Artifacts.PlateQty(lines, number) as real == SumOf(NumberQty(number), lines)
  {
    if lines != [] {
      CountedQty(lines[..|lines| - 1], number);
    }
  }

  lemma {:induction false} NotCarried(lines: seq<Line>, number: string)
    requires !Carries(lines, number)
    ensures SumOf(NumberQty(number), lines) == 0.0
  {
    SumNothing(NumberQty(number), lines);
  }

  lemma {:induction false} PlateLinesAlike(lines: seq<Line>, groups: seq<ContainerGroup>, section: Section, defense: bool, ids: seq<string>, number: string)
    requires PlatesCounted(lines, groups, section, defense, ids)
    ensures SumOf(NumberQty(number), lines) == SumOf(PlateQty(number), lines)
  {
    forall i | 0 <= i < |lines| ensures NumberQty(number)(lines[i]) == PlateQty(number)(lines[i]) {
      assert IsPlateLine(lines[i], section, PlateNumber(ids[i], defense), HeldQty(HeldPlates(groups, ids[i])));
    }
    SumAgrees(NumberQty(number), PlateQty(number), lines);
  }

  lemma SectionNumber(cat: PartsCatalog, groups: seq<ContainerGroup>, defense: bool, pid: string)
    requires SectionLines(cat, groups, defense).Ok? && SpecsApart(cat, PlateNumber(pid, defense))
    requires groups != [] ==> groups[0].bom.shell.partNumber != PlateNumber(pid, defense)
    ensures SumOf(NumberQty(PlateNumber(pid, defense)), SectionLines(cat, groups, defense).value) == PlatesIn(groups, pid) as real
  {
    if groups != [] {
      var number, own, ids := PlateNumber(pid, defense), groups[0].section, FirstSeen(AllPlateIds(groups));
      var shell, parts, plates := SectionParts(cat, groups, defense);
      PartsDoNotCarry(cat, groups, own, FirstSeen(AllPartIds(groups)), number);
      PlatesAreCounted(cat, groups, own, defense, ids);
      PlateLinesAlike(plates, groups, own, defense, ids, number);
      NotCarriedAt(parts, number);
      ThreeParts(NumberQty(number), shell, parts, plates);
      PartsAreBought(cat, groups, own, FirstSeen(AllPartIds(groups)));
      ThreeParts(PlateQty(number), shell, parts, plates);
      SectionPlates(cat, groups, defense, pid);
    }
  }

  lemma NotCarriedAt(lines: seq<Line>, number: string)
    requires !Carries(lines, number)
    ensures forall i :: 0 <= i < |lines| ==> NumberQty(number)(lines[i]) == 0.0
  {
  }

  lemma {:induction false} FiveSums(f: Line -> real, a: seq<Line>, b: seq<Line>, c: seq<Line>, d: seq<Line>, e: seq<Line>)
    ensures SumOf(f, a + b + c + d + e) == SumOf(f, a) + SumOf(f, b) + SumOf(f, c) + SumOf(f, d) + SumOf(f, e)
  {
    SumSplit(f, a + b + c + d, e);
    SumSplit(f, a + b + c, d);
    SumSplit(f, a + b, c);
    SumSplit(f, a, b);
  }

  lemma PcsDoNotCarry(cat: PartsCatalog, order: Order, pcs: seq<Line>, number: string)
    requires PcsLines(cat, order) == Ok(pcs) && SpecsApart(cat, number)
    ensures !Carries(pcs, number)
  {
  }

  /** No shell of the order has this part number. */
  lemma {:induction false} ShellsDiffer(m: Manifest, prof: Profile, order: Order, bom: BomYaml, grid: seq<ContainerGroup>, variant: string, number: string)
    requires ShellsApart(m, number) && BomOf(m, ComputeContainer, variant) == Ok(bom) && GridGroups(m, prof, order.gridQty) == Ok(grid)
    ensures ComputeGroups(order, bom) != [] && ComputeGroups(order, bom)[0].bom.shell.partNumber != number
    ensures grid != [] ==> grid[0].bom.shell.partNumber != number
  {
    ComputeContainers(order, bom, "");
    GridContainers(m, prof, order.gridQty, grid, "");
  }

  /** A plate's artifact counts the plates the site's containers carry, when no other line can carry its number. */
  lemma {:induction false} PlateArtifactCounts(m: Manifest, cat: PartsCatalog, profile: string, order: Order, field: seq<Line>, pid: string)
    requires GenerateBom(m, cat, profile, order, field).Ok? && NumberApart(m, cat, field, PlateNumber(pid, order.defense))
    ensures profile in m.profiles && m.profiles[profile].ComputeVariant(order.gpu).Some?
    ensures var built := BomOf(m, ComputeContainer, m.profiles[profile].ComputeVariant(order.gpu).value);
            && built.Ok?
            && Artifacts.PlateQty(GenerateBom(m, cat, profile, order, field).value.lines, PlateNumber(pid, order.defense))
               == PlatesPer(built.value, pid) * order.computeQty + PlatesOnGrid(m, m.profiles[profile], order.gridQty, pid)
  {
    var bom, grid, a, b, pcs := OrderGroups(m, cat, profile, order, field);
    var prof, number := m.profiles[profile], PlateNumber(pid, order.defense);
    CountedQty(GenerateBom(m, cat, profile, order, field).value.lines, number);
    SiteLinesCarryNoPlate(order.computeQty, pid, order.defense);
    PcsDoNotCarry(cat, order, pcs, number);
    NumbersInSections(m, cat, profile, order, field, number, bom, grid, a, b, pcs);
    ShellsDiffer(m, prof, order, bom, grid, prof.ComputeVariant(order.gpu).value, number);
    BothSectionsNumber(m, cat, prof, order, bom, grid, a, b, pid);
  }

  lemma {:induction false} BothSectionsNumber(m: Manifest, cat: PartsCatalog, prof: Profile, order: Order, bom: BomYaml, grid: seq<ContainerGroup>,
                                              a: seq<Line>, b: seq<Line>, pid: string)
    requires SpecsApart(cat, PlateNumber(pid, order.defense)) && GridGroups(m, prof, order.gridQty) == Ok(grid)
    requires SectionLines(cat, ComputeGroups(order, bom), order.defense) == Ok(a) && SectionLines(cat, grid, order.defense) == Ok(b)
    requires ComputeGroups(order, bom) != [] && ComputeGroups(order, bom)[0].bom.shell.partNumber != PlateNumber(pid, order.defense)
    requires grid != [] ==> grid[0].bom.shell.partNumber != PlateNumber(pid, order.defense)
    ensures SumOf(NumberQty(PlateNumber(pid, order.defense)), a) + SumOf(NumberQty(PlateNumber(pid, order.defense)), b)
         == (PlatesPer(bom, pid) * order.computeQty + PlatesOnGrid(m, prof, order.gridQty, pid)) as real
  {
    ComputeContainers(order, bom, pid);
    GridContainers(m, prof, order.gridQty, grid, pid);
    SectionNumber(cat, ComputeGroups(order, bom), order.defense, pid);
    SectionNumber(cat, grid, order.defense, pid);
  }

  lemma {:induction false} NumbersInSections(m: Manifest, cat: PartsCatalog, profile: string, order: Order, field: seq<Line>, number: string,
                                             bom: BomYaml, grid: seq<ContainerGroup>, a: seq<Line>, b: seq<Line>, pcs: seq<Line>)
    requires GenerateBom(m, cat, profile, order, field).Ok? && BuiltFrom(m, cat, profile, order, field, bom, grid, a, b, pcs)
    requires !Carries(SiteLines(order.computeQty), number) && !Carries(pcs, number) && !Carries(field, number)
    ensures SumOf(NumberQty(number), GenerateBom(m, cat, profile, order, field).value.lines)
         == SumOf(NumberQty(number), a) + SumOf(NumberQty(number), b)
  {
    var lines := OrderLines(m, cat, profile, order, field).value;
    GoodsKept(NumberQty(number), lines, cat.book);
    FiveSums(NumberQty(number), a, b, SiteLines(order.computeQty), pcs, field);
    NotCarried(SiteLines(order.computeQty), number);
    NotCarried(pcs, number);
    NotCarried(field, number);
  }
}
