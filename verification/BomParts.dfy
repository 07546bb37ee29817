/** Hardware lines of an order as their spec.yaml has them. */
module BomParts {
  import opened Lists
  import opened Catalog
  import opened ComputeNodes
  import opened BomModel
  import opened BomCoverage
  import opened BomPricing
  import opened BomBudget
  import opened BomGenerator
  import opened BomHardware
  import opened BomAgreement
  import opened BomTotals

  /** A line of hardware as its spec.yaml has it: a vendor still to be determined is bought by RFQ to the spec's own id, a listed
      or engineered part from its vendor under its model number. */
  ghost predicate AsSpecified(line: Line, cat: PartsCatalog) {
    line.equipmentId.Some? ==>
      && line.equipmentId.value in cat.specs
      && var spec := cat.specs[line.equipmentId.value];
         if spec.vendor == "TBD"
         then line.vendor == "RFQ" && line.partNumber == "To spec " + spec.equipmentId && line.path == EngineeredToOrder
         else line.vendor == spec.vendor && line.partNumber == spec.modelNumber
              && line.path == if spec.engineered then EngineeredToOrder else CatalogPart
  }

  ghost predicate AllSpecified(lines: seq<Line>, cat: PartsCatalog) { forall i :: 0 <= i < |lines| ==> AsSpecified(lines[i], cat) }

  lemma {:induction false} PartsSpecified(cat: PartsCatalog, groups: seq<ContainerGroup>, section: Section, ids: seq<string>)
    requires PartLines(cat, groups, section, ids).Ok? && SpecsNamed(cat)
    ensures AllSpecified(PartLines(cat, groups, section, ids).value, cat)
  {
    if ids != [] {
      PartsSpecified(cat, groups, section, ids[..|ids| - 1]);
      PartLinesLast(cat, groups, section, ids);
      PartSpecified(cat, groups, section, ids[|ids| - 1]);
      JoinSpecified(PartLines(cat, groups, section, ids[..|ids| - 1]).value, [PartLine(cat, groups, section, ids[|ids| - 1]).value], cat);
    }
  }

  lemma PartSpecified(cat: PartsCatalog, groups: seq<ContainerGroup>, section: Section, id: string)
    requires PartLine(cat, groups, section, id).Ok? && SpecsNamed(cat)
    ensures AsSpecified(PartLine(cat, groups, section, id).value, cat)
  {
  }

  lemma {:induction false} PlatesSpecified(cat: PartsCatalog, groups: seq<ContainerGroup>, section: Section, defense: bool, ids: seq<string>)
    requires PlateLines(cat, groups, section, defense, ids).Ok?
    ensures AllSpecified(PlateLines(cat, groups, section, defense, ids).value, cat)
  {
    if ids != [] {
      PlatesSpecified(cat, groups, section, defense, ids[..|ids| - 1]);
    }
  }

  lemma SectionSpecified(cat: PartsCatalog, groups: seq<ContainerGroup>, defense: bool)
    requires SectionLines(cat, groups, defense).Ok? && SpecsNamed(cat)
    ensures AllSpecified(SectionLines(cat, groups, defense).value, cat)
  {
    if groups != [] {
      var shell, parts, plates := SectionParts(cat, groups, defense);
      PartsSpecified(cat, groups, groups[0].section, FirstSeen(AllPartIds(groups)));
      PlatesSpecified(cat, groups, groups[0].section, defense, FirstSeen(AllPlateIds(groups)));
    }
  }

  lemma PcsSpecified(cat: PartsCatalog, order: Order, pcs: seq<Line>)
    requires PcsLines(cat, order) == Ok(pcs) && SpecsNamed(cat)
    ensures AllSpecified(pcs, cat)
  {
  }

  lemma SiteSpecified(computeQty: nat, cat: PartsCatalog)
    ensures AllSpecified(SiteLines(computeQty), cat)
  {
  }

  lemma JoinSpecified(a: seq<Line>, b: seq<Line>, cat: PartsCatalog)
    requires AllSpecified(a, cat) && AllSpecified(b, cat)
    ensures AllSpecified(a + b, cat)
  {
  }

  lemma {:induction false} OrderSpecified(m: Manifest, cat: PartsCatalog, profile: string, order: Order, field: seq<Line>)
    requires OrderLines(m, cat, profile, order, field).Ok? && SpecsNamed(cat) && AllSpecified(field, cat)
    ensures AllSpecified(OrderLines(m, cat, profile, order, field).value, cat)
  {
    var bom, grid, a, b, pcs := OrderGroups(m, cat, profile, order, field);
    SectionSpecified(cat, ComputeGroups(order, bom), order.defense);
    SectionSpecified(cat, grid, order.defense);
    SiteSpecified(order.computeQty, cat);
    PcsSpecified(cat, order, pcs);
    JoinSpecified(a, b, cat);
    JoinSpecified(a + b, SiteLines(order.computeQty), cat);
    JoinSpecified(a + b + SiteLines(order.computeQty), pcs, cat);
    JoinSpecified(a + b + SiteLines(order.computeQty) + pcs, field, cat);
  }

  lemma SameAsSpecified(line: Line, was: Line, cat: PartsCatalog)
    requires SameGoods(line, was) && AsSpecified(was, cat)
    ensures AsSpecified(line, cat)
  {
  }

  lemma {:induction false} NumberedSpecified(lines: seq<Line>, book: PriceBook, cat: PartsCatalog)
    requires BookPrices(lines, book, lines).Ok? && AllSpecified(lines, cat)
    ensures AllSpecified(Numbered(BookPrices(lines, book, lines).value), cat)
  {
    var priced := BookPrices(lines, book, lines).value;
    BookPricesLength(lines, book, lines);
    forall i | 0 <= i < |Numbered(priced)| ensures AsSpecified(Numbered(priced)[i], cat) {
      var k := NumberedFromLines(priced, i);
      BookPriceAt(lines, book, lines, k);
      SameAsSpecified(Numbered(priced)[i], lines[k], cat);
    }
  }

  /** Every hardware line of every generated BOM, PCS included, is bought as its spec says. */
  lemma {:induction false} EveryPartAsSpecified(m: Manifest, cat: PartsCatalog, profile: string, order: Order, field: seq<Line>)
    requires GenerateBom(m, cat, profile, order, field).Ok? && SpecsNamed(cat) && AllSpecified(field, cat)
    ensures AllSpecified(GenerateBom(m, cat, profile, order, field).value.lines, cat)
  {
    OrderSpecified(m, cat, profile, order, field);
    NumberedSpecified(OrderLines(m, cat, profile, order, field).value, cat.book, cat);
  }
}
