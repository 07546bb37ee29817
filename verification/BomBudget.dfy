/** Prices and totals of an order: when pricing works, what a part costs, and what the sums add up to. */
module BomBudget {
  import opened Lists
  import opened Catalog
  import opened Offers
  import opened BomModel
  import opened BomPricing
  import opened BomGenerator

  // ----- quantity breaks -----

  /** The guard of the failing branch: a listed, purchased part whose first break the order does not reach. */
  predicate BelowFirstBreak(line: Line, book: PriceBook, orderQty: nat) {
    Purchased(line) && BreaksFor(line, book) != [] && Reached(BreaksFor(line, book), orderQty) == []
  }

  predicate Ascending(breaks: seq<Break>) {
    forall i, j :: 0 <= i < j < |breaks| ==> breaks[i].minQty < breaks[j].minQty
  }

  /** With breaks lowest first, pricing crashes exactly when the order buys less than the lowest break. */
  lemma BelowFirstIff(line: Line, book: PriceBook, orderQty: nat)
    requires Ascending(BreaksFor(line, book))
    ensures BelowFirstBreak(line, book, orderQty) <==>
              Purchased(line) && BreaksFor(line, book) != [] && orderQty < BreaksFor(line, book)[0].minQty
  {
    var breaks := BreaksFor(line, book);
    var hit := (b: Break) => b.minQty <= orderQty;
    if breaks != [] {
      FilterMember(hit, breaks, breaks[0]);
      if orderQty < breaks[0].minQty {
        FilterNone(hit, breaks);
      }
    }
  }

  lemma {:induction false} LastReached(breaks: seq<Break>, qty: nat)
    requires Reached(breaks, qty) != []
    ensures exists i :: 0 <= i < |breaks| && Reached(breaks, qty)[|Reached(breaks, qty)| - 1] == breaks[i] && breaks[i].minQty <= qty
                        && forall j :: i < j < |breaks| ==> breaks[j].minQty > qty
  {
    var init, b := breaks[..|breaks| - 1], breaks[|breaks| - 1];
    if b.minQty <= qty {
      assert Reached(breaks, qty)[|Reached(breaks, qty)| - 1] == breaks[|breaks| - 1];
    } else {
      assert Reached(breaks, qty) == Reached(init, qty);
      LastReached(init, qty);
      var i :| 0 <= i < |init| && Reached(init, qty)[|Reached(init, qty)| - 1] == init[i] && init[i].minQty <= qty
               && forall j :: i < j < |init| ==> init[j].minQty > qty;
      assert breaks[i] == init[i];
      forall j | i < j < |breaks| ensures breaks[j].minQty > qty {
        if j < |init| {
          assert breaks[j] == init[j];
        }
      }
    }
  }

  /** A listed part pays the break with the largest minimum the order reaches, and nothing else of the line changes. */
  lemma PaysTheBestBreak(line: Line, book: PriceBook, orderQty: nat)
    requires BookPrice(line, book, orderQty).Ok? && Purchased(line)
    requires BreaksFor(line, book) != [] && Ascending(BreaksFor(line, book))
    ensures exists pick ::
              && pick in BreaksFor(line, book) && pick.minQty <= orderQty
              && (forall b :: b in BreaksFor(line, book) && b.minQty <= orderQty ==> b.minQty <= pick.minQty)
              && BookPrice(line, book, orderQty).value == line.(unitUsd := Some(pick.unitUsd), source := Some(pick.source))
  {
    var breaks := BreaksFor(line, book);
    LastReached(breaks, orderQty);
    var i :| 0 <= i < |breaks| && Reached(breaks, orderQty)[|Reached(breaks, orderQty)| - 1] == breaks[i] && breaks[i].minQty <= orderQty
             && forall j :: i < j < |breaks| ==> breaks[j].minQty > orderQty;
    forall b | b in breaks && b.minQty <= orderQty ensures b.minQty <= breaks[i].minQty {
      var k :| 0 <= k < |breaks| && breaks[k] == b;
    }
    assert breaks[i] in breaks;
  }

  /** Pricing an order works exactly when no listed part is bought below its first break. */
  lemma {:induction false} PricingWorksIff(lines: seq<Line>, book: PriceBook, order: seq<Line>)
    ensures BookPrices(lines, book, order).Ok?
            <==> forall i :: 0 <= i < |lines| ==> !BelowFirstBreak(lines[i], book, OrderQty(order, PriceKey(lines[i])))
  {
    if lines != [] {
      var last := |lines| - 1;
      PricingWorksIff(lines[..last], book, order);
      assert forall i :: 0 <= i < last ==> lines[..last][i] == lines[i];
    }
  }

  /** A part needed three times whose list starts at ten cannot be priced: the whole order fails. */
  lemma PricingCanFail()
    ensures var line := Line(0, ComputeSection, "C1: X-1", "PN", "V", 3, CatalogPart, Some("E"), None, None, []);
            var book := PriceBook(map["E" := [Break(10, 5.0, Quote)]], map[]);
            BookPrice(line, book, 3) == Err(NoPriceBreak("E"))
  {
    var breaks := [Break(10, 5.0, Quote)];
    FilterNone((b: Break) => b.minQty <= 3, breaks);
  }

  // ----- one part, one price -----

  /** All bought lines under one roll-up key carry the same price. */
  ghost predicate OnePrice(lines: seq<Line>) {
    forall i, j :: 0 <= i < |lines| && 0 <= j < |lines| && SamePart(lines[i], lines[j]) ==> lines[i].unitUsd == lines[j].unitUsd
  }

  predicate SamePart(a: Line, b: Line) { Purchased(a) && Purchased(b) && RollKey(a) == RollKey(b) }

  /** Not yet priced; field material is the installer's and carries no equipment id, other material without an id is not. */
  predicate FreshLine(l: Line) {
    && l.unitUsd.None? && l.source.None? && l.offers == []
    && (l.path == FieldSupplied ==> l.equipmentId.None? && l.vendor == "Installer")
    && (l.path != FieldSupplied && l.equipmentId.None? ==> l.vendor != "Installer")
  }

  ghost predicate AllFresh(lines: seq<Line>) {
    forall i :: 0 <= i < |lines| ==> FreshLine(lines[i])
  }

  lemma {:induction false} BookPriceAt(lines: seq<Line>, book: PriceBook, order: seq<Line>, i: nat)
    requires BookPrices(lines, book, order).Ok? && i < |lines|
    ensures |BookPrices(lines, book, order).value| == |lines|
    ensures BookPrice(lines[i], book, OrderQty(order, PriceKey(lines[i]))) == Ok(BookPrices(lines, book, order).value[i])
  {
    var last := |lines| - 1;
    BookPricesLength(lines[..last], book, order);
    if i < last {
      BookPriceAt(lines[..last], book, order, i);
    }
  }

  lemma {:induction false} BookPricesLength(lines: seq<Line>, book: PriceBook, order: seq<Line>)
    requires BookPrices(lines, book, order).Ok?
    ensures |BookPrices(lines, book, order).value| == |lines|
  {
    if lines != [] {
      BookPricesLength(lines[..|lines| - 1], book, order);
    }
  }

  /** Book prices: quantities are taken over the whole order, so one part never gets two breaks. */
  lemma {:induction false} BookPricesAreOne(lines: seq<Line>, book: PriceBook, order: seq<Line>)
    requires BookPrices(lines, book, order).Ok? && AllFresh(lines)
    ensures OnePrice(BookPrices(lines, book, order).value)
  {
    var priced := BookPrices(lines, book, order).value;
    BookPricesLength(lines, book, order);
    forall i, j | 0 <= i < |priced| && 0 <= j < |priced| && SamePart(priced[i], priced[j])
      ensures priced[i].unitUsd == priced[j].unitUsd
    {
      BookPriceAt(lines, book, order, i);
      BookPriceAt(lines, book, order, j);
      assert BreaksFor(lines[i], book) == BreaksFor(lines[j], book);
    }
  }

  // ----- live offers -----

  function WithOffers(l: Line, enriched: map<string, seq<Offer>>): Line {
    if l.partNumber in enriched then l.(offers := enriched[l.partNumber]) else l
  }

  function LivePrices(lines: seq<Line>): seq<Line> { Map((l: Line) => LivePrice(l), lines) }

  function Attached(lines: seq<Line>, enriched: map<string, seq<Offer>>): seq<Line> {
    Map((l: Line) => LivePrice(WithOffers(l, enriched)), lines)
  }

  ghost predicate SameOffers(lines: seq<Line>) {
    forall i, j :: 0 <= i < |lines| && 0 <= j < |lines| && lines[i].partNumber == lines[j].partNumber ==> lines[i].offers == lines[j].offers
  }

  lemma LiveOfPart(a: Line, b: Line, enriched: map<string, seq<Offer>>)
    requires SamePart(LivePrice(WithOffers(a, enriched)), LivePrice(WithOffers(b, enriched)))
    requires SamePart(a, b) ==> a.unitUsd == b.unitUsd
    requires a.partNumber == b.partNumber ==> a.offers == b.offers
    ensures LivePrice(WithOffers(a, enriched)).unitUsd == LivePrice(WithOffers(b, enriched)).unitUsd
  {
    assert SamePart(a, b);
    assert WithOffers(a, enriched).offers == WithOffers(b, enriched).offers;
  }

  /** A live price is a part number's, so one part still has one price after offers are merged in. */
  lemma LivePricesAreOne(lines: seq<Line>, enriched: map<string, seq<Offer>>)
    requires OnePrice(lines) && SameOffers(lines)
    ensures OnePrice(Attached(lines, enriched))
  {
    var live := Attached(lines, enriched);
    forall i, j | 0 <= i < |live| && 0 <= j < |live| && SamePart(live[i], live[j]) ensures live[i].unitUsd == live[j].unitUsd {
      LiveOfPart(lines[i], lines[j], enriched);
    }
  }

  /** A distributor's answer a line can be priced at: no error, and a price that is not zero. */
  ghost predicate Asks(line: Line, o: Offer) { o in line.offers && o.error.None? && o.unitUsd.Some? && o.unitUsd.value != 0.0 }

  /** A line after live offers came in: it carries its part number's offers and costs the least any of them asks; unpriced
      offers, or none, leave price and source alone. */
  ghost predicate PaidLive(was: Line, enriched: map<string, seq<Offer>>, line: Line) {
    && line.offers == (if was.partNumber in enriched then enriched[was.partNumber] else was.offers)
    && line == was.(offers := line.offers, unitUsd := line.unitUsd, source := line.source)
    && ((forall o :: !Asks(line, o)) ==> line.unitUsd == was.unitUsd && line.source == was.source)
    && (forall o :: Asks(line, o) ==>
          line.source == Some(DistributorListing) && line.unitUsd.Some? && line.unitUsd.value <= o.unitUsd.value)
    && ((exists o :: Asks(line, o)) ==> exists o :: Asks(line, o) && line.unitUsd == o.unitUsd)
  }

  lemma {:induction false} PricedMember(line: Line, o: Offer)
    ensures Asks(line, o) <==> o in PricedOffers(line)
  {
    FilterMember((o: Offer) => Priced(o), line.offers, o);
  }

  lemma {:induction false} LivePriceIsCheapest(was: Line, enriched: map<string, seq<Offer>>)
    ensures PaidLive(was, enriched, LivePrice(WithOffers(was, enriched)))
  {
    var before := WithOffers(was, enriched);
    var line, offers := LivePrice(before), PricedOffers(before);
    forall o ensures Asks(line, o) <==> o in offers {
      PricedMember(before, o);
    }
    if offers == [] {
      assert forall o :: !Asks(line, o);
    } else {
      assert Asks(line, Cheapest(offers));
      forall o | Asks(line, o) ensures line.unitUsd.Some? && line.unitUsd.value <= o.unitUsd.value {
        assert Price(Cheapest(offers)) <= Price(o);
      }
    }
  }

  /** bom.json as attach_offers updates it in place: offers on every line, then prices, then the budget. */
  class BomDocument {
    var lines: seq<Line>
    var budget: Budget

    constructor (bom: Bom)
      ensures lines == bom.lines && budget == bom.budget
    {
      lines, budget := bom.lines, bom.budget;
    }

    /** attach_offers: nothing to look up without a catalog part. */
    method AttachOffers(enriched: map<string, seq<Offer>>)
      modifies this
      ensures HasCatalogPart(old(lines)) ==> lines == Attached(old(lines), enriched) && budget == OrderBudget(lines)
      ensures HasCatalogPart(old(lines)) ==>
                |lines| == |old(lines)| && forall i :: 0 <= i < |lines| ==> PaidLive(old(lines)[i], enriched, lines[i])
      ensures !HasCatalogPart(old(lines)) ==> lines == old(lines) && budget == old(budget)
    {
      if !HasCatalogPart(lines) {
        return;
      }
      ghost var before := lines;
      for i := 0 to |lines|
        invariant HalfOffered(before, enriched, i, lines)
      {
        OfferedStep(before, enriched, i, lines);
        lines := lines[i := WithOffers(lines[i], enriched)];
      }
      AllOffered(before, enriched, lines);
      lines := LivePrices(lines);
      assert lines == Attached(before, enriched);
      forall i | 0 <= i < |lines| ensures PaidLive(before[i], enriched, lines[i]) {
        LivePriceIsCheapest(before[i], enriched);
      }
      budget := OrderBudget(lines);
    }
  }

  predicate HasCatalogPart(lines: seq<Line>) { exists i :: 0 <= i < |lines| && lines[i].path == CatalogPart }

  /** The first i lines carry their offers already. */
  ghost predicate HalfOffered(before: seq<Line>, enriched: map<string, seq<Offer>>, i: nat, lines: seq<Line>) {
    && |lines| == |before| && i <= |before|
    && forall k :: 0 <= k < |lines| ==> lines[k] == if k < i then WithOffers(before[k], enriched) else before[k]
  }

  lemma OfferedStep(before: seq<Line>, enriched: map<string, seq<Offer>>, i: nat, lines: seq<Line>)
    requires HalfOffered(before, enriched, i, lines) && i < |lines|
    ensures HalfOffered(before, enriched, i + 1, lines[i := WithOffers(lines[i], enriched)])
  {
  }

  lemma AllOffered(before: seq<Line>, enriched: map<string, seq<Offer>>, lines: seq<Line>)
    requires HalfOffered(before, enriched, |before|, lines)
    ensures LivePrices(lines) == Attached(before, enriched)
  {
  }

  // ----- the roll-up adds up to the budget -----

  function BoughtExt(l: Line): real { if Purchased(l) then Ext(l) else 0.0 }

  function ExtIn(ks: seq<PartKey>): Line -> real { (l: Line) => if RollKey(l) in ks then BoughtExt(l) else 0.0 }

  function ExtOf(k: PartKey): Line -> real { (l: Line) => if RollKey(l) == k then BoughtExt(l) else 0.0 }

  lemma {:induction false} TotalIsBought(lines: seq<Line>)
    ensures Total(lines) == SumOf((l: Line) => BoughtExt(l), lines)
  {
    if lines != [] {
      var init, l := lines[..|lines| - 1], lines[|lines| - 1];
      TotalIsBought(init);
      SumSnoc((l: Line) => Ext(l), PricedLines(init), l);
      if !BoughtPriced(l) {
        assert PricedLines(lines) == PricedLines(init);
      }
    }
  }

  lemma {:induction false} SumSnoc(f: Line -> real, lines: seq<Line>, l: Line)
    ensures SumOf(f, lines + [l]) == SumOf(f, lines) + f(l)
  {
    assert (lines + [l])[..|lines|] == lines;
  }

  lemma {:induction false} SumOfPart(lines: seq<Line>, k: PartKey)
    ensures SumOf(ExtOf(k), lines) == SumOf((l: Line) => Ext(l), LinesOf(lines, k))
  {
    if lines != [] {
      var init, l := lines[..|lines| - 1], lines[|lines| - 1];
      SumOfPart(init, k);
      SumSnoc((l: Line) => Ext(l), LinesOf(init, k), l);
      if !OfPart(k)(l) {
        assert LinesOf(lines, k) == LinesOf(init, k);
      }
    }
  }

  lemma {:induction false} SumAtOnePrice(lines: seq<Line>, unit: Option<real>)
    requires forall i :: 0 <= i < |lines| ==> lines[i].unitUsd == unit
    ensures SumOf((l: Line) => Ext(l), lines) == if unit.Some? then unit.value * TotalQty(lines) as real else 0.0
  {
    if lines != [] {
      SumAtOnePrice(lines[..|lines| - 1], unit);
    }
  }

  lemma PartAtOnePrice(lines: seq<Line>, k: PartKey, i: nat)
    requires OnePrice(lines) && i < |LinesOf(lines, k)|
    ensures LinesOf(lines, k)[i].unitUsd == LinesOf(lines, k)[0].unitUsd
  {
    var own := LinesOf(lines, k);
    FilterMember(OfPart(k), lines, own[i]);
    FilterMember(OfPart(k), lines, own[0]);
    var a :| 0 <= a < |lines| && lines[a] == own[i];
    var b :| 0 <= b < |lines| && lines[b] == own[0];
    assert SamePart(lines[a], lines[b]);
  }

  lemma RowAtOnePrice(lines: seq<Line>, k: PartKey)
    requires OnePrice(lines)
    ensures RowOf(lines, k).ExtUsd() == SumOf((l: Line) => Ext(l), LinesOf(lines, k))
  {
    var own := LinesOf(lines, k);
    if own != [] {
      forall i | 0 <= i < |own| ensures own[i].unitUsd == own[0].unitUsd {
        PartAtOnePrice(lines, k, i);
      }
      SumAtOnePrice(own, own[0].unitUsd);
    }
  }

  /** A row's extended cost is what its lines cost. */
  lemma {:induction false} RowIsItsLines(lines: seq<Line>, k: PartKey)
    requires OnePrice(lines)
    ensures RowOf(lines, k).ExtUsd() == SumOf(ExtOf(k), lines)
  {
    SumOfPart(lines, k);
    RowAtOnePrice(lines, k);
  }

  lemma {:induction false} AddKey(ks: seq<PartKey>, k: PartKey, lines: seq<Line>)
    requires k !in ks
    ensures SumOf(ExtIn(ks + [k]), lines) == SumOf(ExtIn(ks), lines) + SumOf(ExtOf(k), lines)
  {
    if lines != [] {
      AddKey(ks, k, lines[..|lines| - 1]);
    }
  }

  lemma {:induction false} NoKeys(lines: seq<Line>)
    ensures SumOf(ExtIn([]), lines) == 0.0
  {
    if lines != [] {
      NoKeys(lines[..|lines| - 1]);
    }
  }

  lemma {:induction false} RowsAreTheirLines(lines: seq<Line>, ks: seq<PartKey>)
    requires OnePrice(lines) && Distinct(ks)
    ensures RowsTotal(Map((k: PartKey) => RowOf(lines, k), ks)) == SumOf(ExtIn(ks), lines)
  {
    if ks == [] {
      NoKeys(lines);
    } else {
      var init, k := ks[..|ks| - 1], ks[|ks| - 1];
      assert ks == init + [k];
      RowsAreTheirLines(lines, init);
      RowIsItsLines(lines, k);
      AddKey(init, k, lines);
      assert Map((k: PartKey) => RowOf(lines, k), ks)[..|init|] == Map((k: PartKey) => RowOf(lines, k), init);
    }
  }

  lemma {:induction false} PartKeysDistinct(lines: seq<Line>)
    ensures Distinct(PartKeys(lines))
  {
    if lines != [] {
      PartKeysDistinct(lines[..|lines| - 1]);
    }
  }

  lemma {:induction false} SumAgrees(f: Line -> real, g: Line -> real, lines: seq<Line>)
    requires forall i :: 0 <= i < |lines| ==> f(lines[i]) == g(lines[i])
    ensures SumOf(f, lines) == SumOf(g, lines)
  {
    if lines != [] {
      SumAgrees(f, g, lines[..|lines| - 1]);
    }
  }

  lemma {:induction false} BoughtIsListed(lines: seq<Line>, i: nat)
    requires i < |lines| && Purchased(lines[i])
    ensures RollKey(lines[i]) in PartKeys(lines)
  {
    PartKeysMember(lines, RollKey(lines[i]));
    FilterMember(OfPart(RollKey(lines[i])), lines, lines[i]);
  }

  /** Budget conservation: the purchase roll-up's extended costs sum to the order's budgetary total. */
  lemma RollupSumsToBudget(lines: seq<Line>)
    requires OnePrice(lines)
    ensures RowsTotal(Rollup(lines)) == OrderBudget(lines).totalUsd
  {
    PartKeysDistinct(lines);
    RowsAreTheirLines(lines, PartKeys(lines));
    TotalIsBought(lines);
    forall i | 0 <= i < |lines| ensures ExtIn(PartKeys(lines))(lines[i]) == BoughtExt(lines[i]) {
      if Purchased(lines[i]) {
        BoughtIsListed(lines, i);
      }
    }
    SumAgrees(ExtIn(PartKeys(lines)), (l: Line) => BoughtExt(l), lines);
  }

  // ----- sums over sections -----

  function InPart(s: Section): Line -> bool { (l: Line) => l.section == s }

  function Of(s: Section, lines: seq<Line>): seq<Line> { Filter(InPart(s), lines) }

  lemma SumOfSection(f: Line -> real, lines: seq<Line>, l: Line, s: Section)
    ensures SumOf(f, Of(s, lines + [l])) == SumOf(f, Of(s, lines)) + if l.section == s then f(l) else 0.0
  {
    assert (lines + [l])[..|lines|] == lines;
    if l.section == s {
      SumSnoc(f, Of(s, lines), l);
    } else {
      assert Of(s, lines + [l]) == Of(s, lines);
    }
  }

  lemma {:induction false} SumBySection(f: Line -> real, lines: seq<Line>)
    ensures SumOf(f, lines) == SumOf(f, Of(ComputeSection, lines)) + SumOf(f, Of(GridSection, lines))
                               + SumOf(f, Of(SiteSection, lines)) + SumOf(f, Of(FieldSection, lines))
  {
    if lines != [] {
      var init, l := lines[..|lines| - 1], lines[|lines| - 1];
      assert lines == init + [l];
      SumBySection(f, init);
      SumOfSection(f, init, l, ComputeSection);
      SumOfSection(f, init, l, GridSection);
      SumOfSection(f, init, l, SiteSection);
      SumOfSection(f, init, l, FieldSection);
    }
  }

  lemma {:induction false} FiltersCommute(p: Line -> bool, q: Line -> bool, lines: seq<Line>)
    ensures Filter(p, Filter(q, lines)) == Filter(q, Filter(p, lines))
  {
    if lines != [] {
      var init, l := lines[..|lines| - 1], lines[|lines| - 1];
      FiltersCommute(p, q, init);
      FilterAppend(p, Filter(q, init), if q(l) then [l] else []);
      FilterAppend(q, Filter(p, init), if p(l) then [l] else []);
      FilterOne(p, l);
      FilterOne(q, l);
    }
  }

  lemma FilterOne(p: Line -> bool, l: Line)
    ensures Filter(p, [l]) == if p(l) then [l] else []
    ensures Filter(p, []) == []
  {
    assert [l][..0] == [];
  }

  lemma {:induction false} CountBySection(p: Line -> bool, lines: seq<Line>)
    ensures |Filter(p, lines)| == |Filter(p, Of(ComputeSection, lines))| + |Filter(p, Of(GridSection, lines))|
                                  + |Filter(p, Of(SiteSection, lines))| + |Filter(p, Of(FieldSection, lines))|
  {
    if lines != [] {
      var init, l := lines[..|lines| - 1], lines[|lines| - 1];
      CountBySection(p, init);
      CountOfSection(p, init, l, ComputeSection);
      CountOfSection(p, init, l, GridSection);
      CountOfSection(p, init, l, SiteSection);
      CountOfSection(p, init, l, FieldSection);
      assert lines == init + [l];
    }
  }

  lemma CountOfSection(p: Line -> bool, lines: seq<Line>, l: Line, s: Section)
    ensures |Filter(p, Of(s, lines + [l]))| == |Filter(p, Of(s, lines))| + if l.section == s && p(l) then 1 else 0
  {
    assert (lines + [l])[..|lines|] == lines;
    if l.section == s {
      FilterAppend(p, Of(s, lines), [l]);
      FilterOne(p, l);
    } else {
      assert Of(s, lines + [l]) == Of(s, lines);
    }
  }

  function SectionBudget(s: Section, lines: seq<Line>): Budget { OrderBudget(Of(s, lines)) }

  /** Section budgets add up to the order's: total, range and unpriced lines. */
  lemma SectionsSumToOrder(lines: seq<Line>)
    ensures var c, g, s, f := SectionBudget(ComputeSection, lines), SectionBudget(GridSection, lines),
                              SectionBudget(SiteSection, lines), SectionBudget(FieldSection, lines);
            var all := OrderBudget(lines);
            && all.totalUsd == c.totalUsd + g.totalUsd + s.totalUsd + f.totalUsd
            && all.lowUsd == c.lowUsd + g.lowUsd + s.lowUsd + f.lowUsd
            && all.highUsd == c.highUsd + g.highUsd + s.highUsd + f.highUsd
            && all.unpriced == c.unpriced + g.unpriced + s.unpriced + f.unpriced
  {
    var priced := PricedLines(lines);
    var bought := (l: Line) => BoughtPriced(l);
    SumBySection((l: Line) => Ext(l), priced);
    SumBySection((l: Line) => LowExt(l), priced);
    SumBySection((l: Line) => HighExt(l), priced);
    FiltersCommute(bought, InPart(ComputeSection), lines);
    FiltersCommute(bought, InPart(GridSection), lines);
    FiltersCommute(bought, InPart(SiteSection), lines);
    FiltersCommute(bought, InPart(FieldSection), lines);
    CountBySection((l: Line) => BoughtUnpriced(l), lines);
  }

  // ----- the range -----

  lemma {:induction false} SumOrdered(f: Line -> real, g: Line -> real, lines: seq<Line>)
    requires forall i :: 0 <= i < |lines| ==> f(lines[i]) <= g(lines[i])
    ensures SumOf(f, lines) <= SumOf(g, lines)
  {
    if lines != [] {
      SumOrdered(f, g, lines[..|lines| - 1]);
    }
  }

  /** A line's range brackets its price exactly when the price is not negative (or the quantity is zero). */
  lemma LineRangeIff(l: Line)
    ensures LowExt(l) <= Ext(l) <= HighExt(l) <==> Ext(l) >= 0.0
  {
    var x, b := Ext(l), Band(SourceOf(l));
    assert x * (1.0 - b) == x - x * b && x * (1.0 + b) == x + x * b;
    if x >= 0.0 {
      assert x * b >= 0.0;
    } else {
      assert x * b < 0.0;
    }
  }

  /** low ≤ total ≤ high on any order without negative prices. */
  lemma RangeBracketsTotal(lines: seq<Line>)
    requires forall i :: 0 <= i < |lines| && BoughtPriced(lines[i]) ==> Ext(lines[i]) >= 0.0
    ensures OrderBudget(lines).lowUsd <= OrderBudget(lines).totalUsd <= OrderBudget(lines).highUsd
  {
    var priced := PricedLines(lines);
    forall i | 0 <= i < |priced| ensures LowExt(priced[i]) <= Ext(priced[i]) <= HighExt(priced[i]) {
      FilterMember((l: Line) => BoughtPriced(l), lines, priced[i]);
      LineRangeIff(priced[i]);
    }
    SumOrdered((l: Line) => LowExt(l), (l: Line) => Ext(l), priced);
    SumOrdered((l: Line) => Ext(l), (l: Line) => HighExt(l), priced);
  }

  /** Nothing bounds an offer's price below: a portal reporting -1 USD turns the range inside out. */
  lemma NegativeOfferInvertsRange()
    ensures var line := Line(1, ComputeSection, "C1: X-1", "PN", "V", 1, CatalogPart, None, None, None, [Offer("PN", "mouser", Some(-1.0), None, 0)]);
            OrderBudget([LivePrice(line)]).lowUsd > OrderBudget([LivePrice(line)]).totalUsd
  {
    var offer := Offer("PN", "mouser", Some(-1.0), None, 0);
    var line := Line(1, ComputeSection, "C1: X-1", "PN", "V", 1, CatalogPart, None, None, None, [offer]);
    FilterAll((o: Offer) => Priced(o), [offer]);
    OneLineBudget(LivePrice(line));
  }

  lemma OneLineBudget(l: Line)
    requires BoughtPriced(l)
    ensures OrderBudget([l]).totalUsd == Ext(l) && OrderBudget([l]).lowUsd == LowExt(l) && OrderBudget([l]).highUsd == HighExt(l)
  {
    FilterAll((l: Line) => BoughtPriced(l), [l]);
    assert [] + [l] == [l];
    SumSnoc((l: Line) => Ext(l), [], l);
    SumSnoc((l: Line) => LowExt(l), [], l);
    SumSnoc((l: Line) => HighExt(l), [], l);
  }
}
