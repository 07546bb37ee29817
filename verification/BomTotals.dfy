/** Budget conservation on generated BOMs, at book prices and after live offers. */
module BomTotals {
  import opened Lists
  import opened Catalog
  import opened Offers
  import opened BomModel
  import opened BomPricing
  import opened BomGenerator
  import opened BomBudget
  import opened BomCoverage
  import opened Sorting

  // ----- every line of an order starts unpriced -----

  lemma {:induction false} PartLinesFresh(cat: PartsCatalog, groups: seq<ContainerGroup>, section: Section, ids: seq<string>)
    requires PartLines(cat, groups, section, ids).Ok?
    ensures AllFresh(PartLines(cat, groups, section, ids).value)
  {
    if ids != [] {
      PartLinesFresh(cat, groups, section, ids[..|ids| - 1]);
      PartLinesLast(cat, groups, section, ids);
    }
  }

  lemma {:induction false} PlateLinesFresh(cat: PartsCatalog, groups: seq<ContainerGroup>, section: Section, defense: bool, ids: seq<string>)
    requires PlateLines(cat, groups, section, defense, ids).Ok?
    ensures AllFresh(PlateLines(cat, groups, section, defense, ids).value)
  {
    if ids != [] {
      PlateLinesFresh(cat, groups, section, defense, ids[..|ids| - 1]);
    }
  }

  lemma SectionFresh(cat: PartsCatalog, groups: seq<ContainerGroup>, defense: bool)
    requires SectionLines(cat, groups, defense).Ok?
    ensures AllFresh(SectionLines(cat, groups, defense).value)
  {
    if groups != [] {
      PartLinesFresh(cat, groups, groups[0].section, FirstSeen(AllPartIds(groups)));
      PlateLinesFresh(cat, groups, groups[0].section, defense, FirstSeen(AllPlateIds(groups)));
    }
  }

  lemma SiteLinesFresh(computeQty: nat)
    ensures AllFresh(SiteLines(computeQty))
  {
  }

  lemma OrderLinesFresh(m: Manifest, cat: PartsCatalog, profile: string, order: Order, field: seq<Line>)
    requires OrderLines(m, cat, profile, order, field).Ok? && AllFresh(field)
    ensures AllFresh(OrderLines(m, cat, profile, order, field).value)
  {
    var groups := ContainerGroups(m, m.profiles[profile], order).value;
    var compute, grid := Filter(InSection(ComputeSection), groups), Filter(InSection(GridSection), groups);
    SectionFresh(cat, compute, order.defense);
    SectionFresh(cat, grid, order.defense);
    SiteLinesFresh(order.computeQty);
    PartsFresh(SectionLines(cat, compute, order.defense).value, SectionLines(cat, grid, order.defense).value,
               SiteLines(order.computeQty), PcsLines(cat, order).value, field);
  }

  lemma PartsFresh(a: seq<Line>, b: seq<Line>, c: seq<Line>, d: seq<Line>, e: seq<Line>)
    requires AllFresh(a) && AllFresh(b) && AllFresh(c) && AllFresh(d) && AllFresh(e)
    ensures AllFresh(a + b + c + d + e)
  {
  }

  // ----- no price below zero -----

  /** The price list's own rule: every break costs something. */
  ghost predicate PositiveBook(book: PriceBook) {
    && (forall k, i :: k in book.prices && 0 <= i < |book.prices[k]| ==> book.prices[k][i].unitUsd > 0.0)
    && (forall k, i :: k in book.field && 0 <= i < |book.field[k]| ==> book.field[k][i].unitUsd > 0.0)
  }

  ghost predicate NoNegativePrice(lines: seq<Line>) {
    forall i :: 0 <= i < |lines| && lines[i].unitUsd.Some? ==> lines[i].unitUsd.value >= 0.0
  }

  lemma BookPriceNonneg(l: Line, book: PriceBook, qty: nat)
    requires BookPrice(l, book, qty).Ok? && l.unitUsd.None? && PositiveBook(book)
    ensures BookPrice(l, book, qty).value.unitUsd.Some? ==> BookPrice(l, book, qty).value.unitUsd.value >= 0.0
  {
    var breaks := BreaksFor(l, book);
    var reached := Reached(breaks, qty);
    if Purchased(l) && breaks != [] {
      FilterMember((b: Break) => b.minQty <= qty, breaks, reached[|reached| - 1]);
    }
  }

  lemma {:induction false} BookPricesNonneg(lines: seq<Line>, book: PriceBook, order: seq<Line>)
    requires BookPrices(lines, book, order).Ok? && AllFresh(lines) && PositiveBook(book)
    ensures NoNegativePrice(BookPrices(lines, book, order).value)
  {
    var priced := BookPrices(lines, book, order).value;
    BookPricesLength(lines, book, order);
    forall i | 0 <= i < |priced| && priced[i].unitUsd.Some? ensures priced[i].unitUsd.value >= 0.0 {
      BookPriceAt(lines, book, order, i);
      BookPriceNonneg(lines[i], book, OrderQty(order, PriceKey(lines[i])));
    }
  }

  /** No distributor answers with a price below zero. */
  ghost predicate NoNegativeOffer(enriched: map<string, seq<Offer>>) {
    forall k, o :: k in enriched && o in enriched[k] && Priced(o) ==> Price(o) >= 0.0
  }

  lemma LivePricesNonneg(lines: seq<Line>, enriched: map<string, seq<Offer>>)
    requires NoNegativePrice(lines) && NoNegativeOffer(enriched) && forall i :: 0 <= i < |lines| ==> lines[i].offers == []
    ensures NoNegativePrice(Attached(lines, enriched))
  {
    var live := Attached(lines, enriched);
    forall i | 0 <= i < |live| && live[i].unitUsd.Some? ensures live[i].unitUsd.value >= 0.0 {
      var l := WithOffers(lines[i], enriched);
      var offers := PricedOffers(l);
      if offers != [] {
        FilterMember((o: Offer) => Priced(o), l.offers, Cheapest(offers));
      }
    }
  }

  lemma RangeFrom(lines: seq<Line>)
    requires NoNegativePrice(lines)
    ensures OrderBudget(lines).lowUsd <= OrderBudget(lines).totalUsd <= OrderBudget(lines).highUsd
  {
    RangeBracketsTotal(lines);
  }

  // ----- numbering moves no money -----

  lemma {:induction false} InsertSum(f: Line -> real, lines: seq<Line>, l: Line)
    ensures SumOf(f, Insert(lines, l, SectionLe())) == SumOf(f, lines) + f(l)
  {
    if lines == [] || SectionLe()(lines[|lines| - 1], l) {
      SumSnoc(f, lines, l);
    } else {
      InsertSum(f, lines[..|lines| - 1], l);
      SumSnoc(f, Insert(lines[..|lines| - 1], l, SectionLe()), lines[|lines| - 1]);
    }
  }

  lemma {:induction false} SortSum(f: Line -> real, lines: seq<Line>)
    ensures SumOf(f, Sort(lines, SectionLe())) == SumOf(f, lines)
  {
    if lines != [] {
      SortSum(f, lines[..|lines| - 1]);
      InsertSum(f, Sort(lines[..|lines| - 1], SectionLe()), lines[|lines| - 1]);
    }
  }

  lemma {:induction false} NumberedSum(ranked: seq<Line>)
    ensures SumOf((l: Line) => BoughtExt(l), NumberedFrom(ranked)) == SumOf((l: Line) => BoughtExt(l), ranked)
  {
    if ranked != [] {
      NumberedSum(ranked[..|ranked| - 1]);
      assert NumberedFrom(ranked)[..|ranked| - 1] == NumberedFrom(ranked[..|ranked| - 1]);
    }
  }

  lemma NumberingKeepsTotal(lines: seq<Line>)
    ensures Total(Numbered(lines)) == Total(lines)
  {
    TotalIsBought(Numbered(lines));
    NumberedSum(Sort(lines, SectionLe()));
    SortSum((l: Line) => BoughtExt(l), lines);
    TotalIsBought(lines);
  }

  lemma NumberedFromLines(lines: seq<Line>, i: nat) returns (k: nat)
    requires i < |Numbered(lines)|
    ensures k < |lines| && Numbered(lines)[i] == lines[k].(item := i + 1)
  {
    var ranked := Sort(lines, SectionLe());
    SortMember(lines, SectionLe(), ranked[i]);
    k :| 0 <= k < |lines| && lines[k] == ranked[i];
  }

  lemma NumberingKeepsOnePrice(lines: seq<Line>)
    requires OnePrice(lines)
    ensures OnePrice(Numbered(lines))
  {
    var numbered := Numbered(lines);
    forall i, j | 0 <= i < |numbered| && 0 <= j < |numbered| && SamePart(numbered[i], numbered[j])
      ensures numbered[i].unitUsd == numbered[j].unitUsd
    {
      var a := NumberedFromLines(lines, i);
      var b := NumberedFromLines(lines, j);
      assert SamePart(lines[a], lines[b]);
    }
  }

  ghost predicate NoOffers(lines: seq<Line>) {
    forall i :: 0 <= i < |lines| ==> lines[i].offers == []
  }

  lemma {:induction false} PricedHaveNoOffers(lines: seq<Line>, book: PriceBook, order: seq<Line>)
    requires BookPrices(lines, book, order).Ok? && AllFresh(lines)
    ensures NoOffers(BookPrices(lines, book, order).value)
  {
    var priced := BookPrices(lines, book, order).value;
    BookPricesLength(lines, book, order);
    forall i | 0 <= i < |priced| ensures priced[i].offers == [] {
      BookPriceAt(lines, book, order, i);
    }
  }

  lemma NumberedHaveNoOffers(lines: seq<Line>)
    requires NoOffers(lines)
    ensures SameOffers(Numbered(lines))
  {
    forall i | 0 <= i < |Numbered(lines)| ensures Numbered(lines)[i].offers == [] {
      var k := NumberedFromLines(lines, i);
    }
  }

  /** Of every generated BOM: one part has one price, and the purchase roll-up sums to the budget; both still hold
      after live offers, whatever the distributors answer. */
  lemma GeneratedBomRollsUp(m: Manifest, cat: PartsCatalog, profile: string, order: Order, field: seq<Line>,
                            enriched: map<string, seq<Offer>>)
    requires GenerateBom(m, cat, profile, order, field).Ok? && AllFresh(field)
    ensures var bom := GenerateBom(m, cat, profile, order, field).value;
            var live := Attached(bom.lines, enriched);
            && OnePrice(bom.lines) && RowsTotal(Rollup(bom.lines)) == bom.budget.totalUsd
            && OnePrice(live) && RowsTotal(Rollup(live)) == OrderBudget(live).totalUsd
  {
    var lines := OrderLines(m, cat, profile, order, field).value;
    var priced := BookPrices(lines, cat.book, lines).value;
    OrderLinesFresh(m, cat, profile, order, field);
    BookPricesAreOne(lines, cat.book, lines);
    NumberingKeepsOnePrice(priced);
    NumberingKeepsTotal(priced);
    RollupSumsToBudget(Numbered(priced));
    PricedHaveNoOffers(lines, cat.book, lines);
    NumberedHaveNoOffers(priced);
    LivePricesAreOne(Numbered(priced), enriched);
    RollupSumsToBudget(Attached(Numbered(priced), enriched));
  }

  // ----- where the money comes from -----

  /** What the bought lines with one kind of price cost. */
  function SpentAt(lines: seq<Line>, s: PriceSource): real {
    SumOf((l: Line) => if SourceOf(l) == s then BoughtExt(l) else 0.0, lines)
  }

  lemma {:induction false} SplitsBySource(lines: seq<Line>)
    ensures var q, d, e := SpentAt(lines, Quote), SpentAt(lines, DistributorListing), SpentAt(lines, Estimate);
            var priced := PricedLines(lines);
            && Total(lines) == q + d + e
            && SumOf((l: Line) => QuotedExt(l), priced) == q
            && SumOf((l: Line) => LowExt(l), priced) == 0.90 * q + 0.85 * d + 0.60 * e
            && SumOf((l: Line) => HighExt(l), priced) == 1.10 * q + 1.15 * d + 1.40 * e
  {
    if lines != [] {
      var init, l := lines[..|lines| - 1], lines[|lines| - 1];
      SplitsBySource(init);
      if BoughtPriced(l) {
        assert PricedLines(lines) == PricedLines(init) + [l];
        SumSnoc((l: Line) => Ext(l), PricedLines(init), l);
        SumSnoc((l: Line) => QuotedExt(l), PricedLines(init), l);
        SumSnoc((l: Line) => LowExt(l), PricedLines(init), l);
        SumSnoc((l: Line) => HighExt(l), PricedLines(init), l);
      } else {
        assert PricedLines(lines) == PricedLines(init);
      }
    }
  }

  /** The budget by kind of price: the parts add up to the total, the range runs 10, 15 and 40 percent either way of each,
      and the quoted share is the first part's. */
  lemma {:induction false} BudgetSplitsBySource(lines: seq<Line>)
    ensures var b, q, d, e := OrderBudget(lines), SpentAt(lines, Quote), SpentAt(lines, DistributorListing), SpentAt(lines, Estimate);
            && q + d + e == b.totalUsd
            && b.highUsd - b.totalUsd == b.totalUsd - b.lowUsd == 0.10 * q + 0.15 * d + 0.40 * e
            && (b.totalUsd != 0.0 ==> b.quotedPct * b.totalUsd == 100.0 * q)
            && b.unpriced == |Filter((l: Line) => Purchased(l) && l.unitUsd.None?, lines)|
  {
    SplitsBySource(lines);
    FilterAgree((l: Line) => BoughtUnpriced(l), (l: Line) => Purchased(l) && l.unitUsd.None?, lines);
  }

  // ----- what every line of an order pays -----

  /** What a line adds to the quantity bought under a key. */
  function QtyUnder(key: string): Line -> real { (l: Line) => if PriceKey(l) == key then l.qty as real else 0.0 }

  lemma {:induction false} OrderQtyIsSum(lines: seq<Line>, key: string)
    ensures OrderQty(lines, key) as real == SumOf(QtyUnder(key), lines)
  {
    if lines != [] {
      OrderQtyIsSum(lines[..|lines| - 1], key);
    }
  }

  lemma {:induction false} SumPointwise(f: Line -> real, a: seq<Line>, b: seq<Line>)
    requires |a| == |b| && forall i :: 0 <= i < |a| ==> f(a[i]) == f(b[i])
    ensures SumOf(f, a) == SumOf(f, b)
  {
    if a != [] {
      SumPointwise(f, a[..|a| - 1], b[..|b| - 1]);
    }
  }

  /** The same goods, whatever the item number and the price. */
  ghost predicate SameGoods(a: Line, b: Line) { a == b.(item := a.item, unitUsd := a.unitUsd, source := a.source) }

  /** Pricing and numbering change no goods, so whatever is summed over an order's goods stays. */
  lemma {:induction false} GoodsKept(f: Line -> real, lines: seq<Line>, book: PriceBook)
    requires BookPrices(lines, book, lines).Ok? && forall a, b :: SameGoods(a, b) ==> f(a) == f(b)
    ensures SumOf(f, Numbered(BookPrices(lines, book, lines).value)) == SumOf(f, lines)
  {
    var priced := BookPrices(lines, book, lines).value;
    BookPricesLength(lines, book, lines);
    forall i | 0 <= i < |lines| ensures f(priced[i]) == f(lines[i]) {
      BookPriceAt(lines, book, lines, i);
      assert SameGoods(priced[i], lines[i]);
    }
    SumPointwise(f, priced, lines);
    var ranked := Sort(priced, SectionLe());
    forall i | 0 <= i < |ranked| ensures f(Numbered(priced)[i]) == f(ranked[i]) {
      assert SameGoods(Numbered(priced)[i], ranked[i]);
    }
    SumPointwise(f, Numbered(priced), ranked);
    SortSum(f, priced);
  }

  /** A line at its book price: bought and listed, it pays the break with the largest minimum the quantity reaches;
      otherwise it is not priced. */
  ghost predicate PaysFor(line: Line, book: PriceBook, key: string, qty: real) {
    var list := if line.path == FieldSupplied then book.field else book.prices;
    if line.path in {CatalogPart, EngineeredToOrder, CustomFabrication, FieldSupplied} && key in list && list[key] != []
    then exists pick ::
           && pick in list[key] && pick.minQty as real <= qty
           && (forall b :: b in list[key] && b.minQty as real <= qty ==> b.minQty <= pick.minQty)
           && line.unitUsd == Some(pick.unitUsd) && line.source == Some(pick.source)
    else line.unitUsd.None? && line.source.None?
  }

  ghost predicate AscendingBook(book: PriceBook) {
    && (forall k :: k in book.prices ==> Ascending(book.prices[k]))
    && (forall k :: k in book.field ==> Ascending(book.field[k]))
  }

  lemma BookPricePays(line: Line, book: PriceBook, orderQty: nat)
    requires BookPrice(line, book, orderQty).Ok? && AscendingBook(book) && FreshLine(line)
    ensures PaysFor(BookPrice(line, book, orderQty).value, book, PriceKey(line), orderQty as real)
  {
    if Purchased(line) && BreaksFor(line, book) != [] {
      PaysTheBestBreak(line, book, orderQty);
    }
  }

  /** Every line of every generated BOM pays for the quantity the whole BOM buys under its key: its equipment id, or its part
      number when it has none. */
  lemma {:induction false} EveryLinePaysForTheOrder(m: Manifest, cat: PartsCatalog, profile: string, order: Order, field: seq<Line>, i: nat)
    requires GenerateBom(m, cat, profile, order, field).Ok? && AllFresh(field) && AscendingBook(cat.book)
    requires i < |GenerateBom(m, cat, profile, order, field).value.lines|
    ensures var lines := GenerateBom(m, cat, profile, order, field).value.lines;
            var key := if lines[i].equipmentId.Some? && lines[i].equipmentId.value != "" then lines[i].equipmentId.value
                       else lines[i].partNumber;
            PaysFor(lines[i], cat.book, key, SumOf((l: Line) => if PriceKey(l) == key then l.qty as real else 0.0, lines))
  {
    var lines := OrderLines(m, cat, profile, order, field).value;
    OrderLinesFresh(m, cat, profile, order, field);
    NumberedLinePays(lines, cat.book, i);
  }

  lemma {:induction false} NumberedLinePays(lines: seq<Line>, book: PriceBook, i: nat)
    requires BookPrices(lines, book, lines).Ok? && AllFresh(lines) && AscendingBook(book)
    requires i < |Numbered(BookPrices(lines, book, lines).value)|
    ensures var bom := Numbered(BookPrices(lines, book, lines).value);
            PaysFor(bom[i], book, PriceKey(bom[i]), SumOf(QtyUnder(PriceKey(bom[i])), bom))
  {
    var priced := BookPrices(lines, book, lines).value;
    var k := NumberedFromLines(priced, i);
    BookPriceAt(lines, book, lines, 0);
    BookPriceAt(lines, book, lines, k);
    var key := PriceKey(lines[k]);
    BookPricePays(lines[k], book, OrderQty(lines, key));
    OrderQtyIsSum(lines, key);
    GoodsKept(QtyUnder(key), lines, book);
  }

  /** The budget range of every generated BOM brackets its total, at book prices always and after live offers whenever
      no distributor answers below zero. */
  lemma GeneratedRangeBrackets(m: Manifest, cat: PartsCatalog, profile: string, order: Order, field: seq<Line>,
                               enriched: map<string, seq<Offer>>)
    requires GenerateBom(m, cat, profile, order, field).Ok? && AllFresh(field) && PositiveBook(cat.book) && NoNegativeOffer(enriched)
    ensures var bom := GenerateBom(m, cat, profile, order, field).value;
            var live := OrderBudget(Attached(bom.lines, enriched));
            && bom.budget.lowUsd <= bom.budget.totalUsd <= bom.budget.highUsd
            && live.lowUsd <= live.totalUsd <= live.highUsd
  {
    var lines := OrderLines(m, cat, profile, order, field).value;
    var priced := BookPrices(lines, cat.book, lines).value;
    OrderLinesFresh(m, cat, profile, order, field);
    BookPricesNonneg(lines, cat.book, lines);
    PricedHaveNoOffers(lines, cat.book, lines);
    RangeFrom(priced);
    forall i | 0 <= i < |Numbered(priced)|
      ensures Numbered(priced)[i].offers == []
      ensures Numbered(priced)[i].unitUsd.Some? ==> Numbered(priced)[i].unitUsd.value >= 0.0
    {
      var k := NumberedFromLines(priced, i);
    }
    LivePricesNonneg(Numbered(priced), enriched);
    RangeFrom(Attached(Numbered(priced), enriched));
  }
}
