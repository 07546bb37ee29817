/** The order's BOM: container sections, site lines, PCS, field material; priced, numbered, budgeted. */
module BomGenerator {
  import opened Lists
  import opened Text
  import opened Catalog
  import opened ComputeNodes
  import opened RefDes
  import opened ContainerLabels
  import opened BomModel
  import opened BomCoverage
  import opened BomPricing
  import opened Sorting

  datatype Bom = Bom(lines: seq<Line>, budget: Budget)

  const PCS_ID := "GRD-PCS-001"

  function SiteLine(ref: string, part: string, vendor: string, qty: nat, path: Path): Line {
    Line(0, SiteSection, ref, part, vendor, qty, path, None, None, None, [])
  }

  /** Gear outside the containers: the customer's battery and what others supply. */
  function SiteLines(computeQty: nat): seq<Line> {
    [
      SiteLine("BESS-1", "Customer-selected", "Customer", 1, CustomerSupplied),
      SiteLine("SITE-MV", "Site MV distribution", "By others", 1, ByOthers),
      SiteLine("POI-CT/PT", "Revenue-class CTs and PTs", "By others", 1, ByOthers),
      SiteLine("EMS-GW", "platform-ems-iso host", "By others", 1, ByOthers),
      SiteLine(RangeLabel("C", 1, computeQty) + ": PUMP-1", "Facility coolant pump", "By others", computeQty, ByOthers),
      SiteLine(RangeLabel("C", 1, computeQty) + ": TANK-1", "Buffer tank", "By others", computeQty, ByOthers),
      SiteLine("T-BESS", "BESS step-up transformer", "By others", 1, ByOthers),
      SiteLine("Q-BESS", "MV disconnect", "By others", 1, ByOthers)
    ]
  }

  function PcsTags(n: nat): (r: seq<string>)
    ensures |r| == n
  {
    seq(n, i requires 0 <= i < n => "PCS-" + Dec(i + 1))
  }

  /** PCS on the battery pad, sized to the battery's job. */
  function PcsLines(cat: PartsCatalog, order: Order): Result<seq<Line>, BomError> {
    if order.coupling != DcExternalPcs then Ok([])
    else if PCS_ID !in cat.specs then Err(MissingSpec(PCS_ID))
    else Ok([SpecLine(cat.specs[PCS_ID], order.pcsQty, SiteSection, Compressed(PcsTags(order.pcsQty)))])
  }

  function InSection(s: Section): ContainerGroup -> bool { (g: ContainerGroup) => g.section == s }

  /** Lines before pricing: compute → grid → site → PCS → field. */
  function OrderLines(m: Manifest, cat: PartsCatalog, profile: string, order: Order, field: seq<Line>): Result<seq<Line>, BomError> {
    if profile !in m.profiles then Err(UnknownProfile)
    else
      var groups :- ContainerGroups(m, m.profiles[profile], order);
      var compute :- SectionLines(cat, Filter(InSection(ComputeSection), groups), order.defense);
      var grid :- SectionLines(cat, Filter(InSection(GridSection), groups), order.defense);
      var pcs :- PcsLines(cat, order);
      Ok(compute + grid + SiteLines(order.computeQty) + pcs + field)
  }

  /** Quantity of one price key over the whole order. */
  function OrderQty(lines: seq<Line>, key: string): nat {
    if lines == [] then 0
    else OrderQty(lines[..|lines| - 1], key) + if PriceKey(lines[|lines| - 1]) == key then lines[|lines| - 1].qty else 0
  }

  /** Each line at the quantity break the whole order reaches. */
  function BookPrices(lines: seq<Line>, book: PriceBook, order: seq<Line>): Result<seq<Line>, BomError> {
    if lines == [] then Ok([])
    else
      var l := lines[|lines| - 1];
      var init :- BookPrices(lines[..|lines| - 1], book, order);
      var priced :- BookPrice(l, book, OrderQty(order, PriceKey(l)));
      Ok(init + [priced])
  }

  function SectionRank(s: Section): nat {
    match s case ComputeSection => 0 case GridSection => 1 case SiteSection => 2 case FieldSection => 3
  }

  function SectionLe(): (Line, Line) -> bool { (a: Line, b: Line) => SectionRank(a.section) <= SectionRank(b.section) }

  /** Item numbers 1..n in section order. */
  function NumberedFrom(ranked: seq<Line>): (r: seq<Line>)
    ensures |r| == |ranked|
  {
    seq(|ranked|, i requires 0 <= i < |ranked| => ranked[i].(item := i + 1))
  }

  function Numbered(lines: seq<Line>): seq<Line> { NumberedFrom(Sort(lines, SectionLe())) }

  function GenerateBom(m: Manifest, cat: PartsCatalog, profile: string, order: Order, field: seq<Line>): Result<Bom, BomError> {
    var lines :- OrderLines(m, cat, profile, order, field);
    var priced :- BookPrices(lines, cat.book, lines);
    Ok(Bom(Numbered(priced), OrderBudget(priced)))
  }

  // ----- the loops -----

  ghost predicate Quantities(orderQty: map<string, nat>, lines: seq<Line>) {
    && (forall k :: k in orderQty ==> orderQty[k] == OrderQty(lines, k))
    && (forall i :: 0 <= i < |lines| ==> PriceKey(lines[i]) in orderQty)
    && (forall k :: k !in orderQty ==> OrderQty(lines, k) == 0)
  }

  lemma QuantitiesNext(orderQty: map<string, nat>, lines: seq<Line>, l: Line)
    requires Quantities(orderQty, lines)
    ensures var k := PriceKey(l);
            Quantities(orderQty[k := (if k in orderQty then orderQty[k] else 0) + l.qty], lines + [l])
  {
    assert (lines + [l])[..|lines|] == lines;
    assert forall k :: OrderQty(lines + [l], k) == OrderQty(lines, k) + if PriceKey(l) == k then l.qty else 0;
  }

  method CollectQuantities(lines: seq<Line>) returns (orderQty: map<string, nat>)
    ensures Quantities(orderQty, lines)
  {
    orderQty := map[];
    for i := 0 to |lines|
      invariant Quantities(orderQty, lines[..i])
    {
      QuantitiesNext(orderQty, lines[..i], lines[i]);
      assert lines[..i + 1] == lines[..i] + [lines[i]];
      var k := PriceKey(lines[i]);
      orderQty := orderQty[k := (if k in orderQty then orderQty[k] else 0) + lines[i].qty];
    }
    assert lines[..|lines|] == lines;
  }

  lemma {:induction false} BookPricesFail(lines: seq<Line>, book: PriceBook, order: seq<Line>, k: nat, e: BomError)
    requires k <= |lines| && BookPrices(lines[..k], book, order) == Err(e)
    ensures BookPrices(lines, book, order) == Err(e)
    decreases |lines| - k
  {
    if k == |lines| {
      assert lines[..k] == lines;
    } else {
      assert lines[..k + 1][..k] == lines[..k];
      BookPricesFail(lines, book, order, k + 1, e);
    }
  }

  lemma {:induction false} PricesNext(lines: seq<Line>, book: PriceBook, order: seq<Line>, i: nat, rows: seq<Line>)
    requires i < |lines| && BookPrices(lines[..i], book, order) == Ok(rows)
    ensures var line := BookPrice(lines[i], book, OrderQty(order, PriceKey(lines[i])));
            BookPrices(lines[..i + 1], book, order) == if line.Ok? then Ok(rows + [line.value]) else Err(line.error)
  {
    assert lines[..i + 1][..i] == lines[..i];
  }

  method PriceLines(lines: seq<Line>, book: PriceBook) returns (priced: Result<seq<Line>, BomError>)
    ensures priced == BookPrices(lines, book, lines)
  {
    var orderQty := CollectQuantities(lines);
    var rows: seq<Line> := [];
    for i := 0 to |lines|
      invariant BookPrices(lines[..i], book, lines) == Ok(rows)
    {
      PricesNext(lines, book, lines, i, rows);
      var line := BookPrice(lines[i], book, orderQty[PriceKey(lines[i])]);
      if line.Err? {
        BookPricesFail(lines, book, lines, i + 1, line.error);
        return Err(line.error);
      }
      rows := rows + [line.value];
    }
    assert lines[..|lines|] == lines;
    priced := Ok(rows);
  }

  method NumberLines(lines: seq<Line>) returns (numbered: seq<Line>)
    ensures numbered == Numbered(lines)
  {
    var ranked := Sort(lines, SectionLe());
    numbered := [];
    for i := 0 to |ranked|
      invariant numbered == NumberedFrom(ranked[..i])
    {
      numbered := numbered + [ranked[i].(item := i + 1)];
    }
    assert ranked[..|ranked|] == ranked;
  }

  method BuildOrderLines(m: Manifest, cat: PartsCatalog, profile: string, order: Order, field: seq<Line>)
    returns (lines: Result<seq<Line>, BomError>)
    ensures lines == OrderLines(m, cat, profile, order, field)
  {
    if profile !in m.profiles {
      return Err(UnknownProfile);
    }
    var groups :- BuildGroups(m, m.profiles[profile], order);
    var rows :- BuildSection(cat, Filter(InSection(ComputeSection), groups), order.defense);
    var grid :- BuildSection(cat, Filter(InSection(GridSection), groups), order.defense);
    rows := rows + grid;
    var pcs :- PcsLines(cat, order);
    rows := rows + SiteLines(order.computeQty);
    rows := rows + pcs;
    rows := rows + field;
    lines := Ok(rows);
  }

  /** BomGeneratorService.generate */
  method BuildBom(m: Manifest, cat: PartsCatalog, profile: string, order: Order, field: seq<Line>) returns (bom: Result<Bom, BomError>)
    ensures bom == GenerateBom(m, cat, profile, order, field)
  {
    var lines :- BuildOrderLines(m, cat, profile, order, field);
    var priced :- PriceLines(lines, cat.book);
    var numbered := NumberLines(priced);
    bom := Ok(Bom(numbered, OrderBudget(priced)));
  }
}
