/** Prices on BOM lines, the order's budget and the purchase roll-up. */
module BomPricing {
  import opened Lists
  import opened Offers
  import opened BomModel

  /** Lines the customer has to buy; the rest they own or others supply. */
  predicate Purchased(line: Line) {
    line.path in {CatalogPart, EngineeredToOrder, CustomFabrication, FieldSupplied}
  }

  /** How far each kind of price is trusted, as a fraction either way. */
  function Band(s: PriceSource): real {
    match s case Quote => 0.10 case DistributorListing => 0.15 case Estimate => 0.40
  }

  function PriceKey(line: Line): string {
    if line.equipmentId.Some? && line.equipmentId.value != "" then line.equipmentId.value else line.partNumber
  }

  /** Installer material is keyed apart from parts. */
  function BreaksFor(line: Line, book: PriceBook): seq<Break> {
    var prices := if line.path == FieldSupplied then book.field else book.prices;
    if PriceKey(line) in prices then prices[PriceKey(line)] else []
  }

  function Reached(breaks: seq<Break>, qty: nat): seq<Break> { Filter((b: Break) => b.minQty <= qty, breaks) }

  /** book_price: the last break reached by the whole order's quantity; an IndexError, from [-1] of an empty list,
      when none is. */
  function BookPrice(line: Line, book: PriceBook, orderQty: nat): Result<Line, BomError> {
    var breaks := BreaksFor(line, book);
    if !Purchased(line) || breaks == [] then Ok(line)
    else
      var reached := Reached(breaks, orderQty);
      if reached == [] then Err(NoPriceBreak(PriceKey(line)))
      else
        var pick := reached[|reached| - 1];
        Ok(line.(unitUsd := Some(pick.unitUsd), source := Some(pick.source)))
  }

  /** The first of the cheapest offers: Python's min. */
  function Cheapest(offers: seq<Offer>): (o: Offer)
    requires offers != []
    ensures o in offers && forall p :: p in offers ==> Price(o) <= Price(p)
  {
    if |offers| == 1 then offers[0]
    else
      var best, last := Cheapest(offers[..|offers| - 1]), offers[|offers| - 1];
      if Price(last) < Price(best) then last else best
  }

  function PricedOffers(line: Line): seq<Offer> { Filter((o: Offer) => Priced(o), line.offers) }

  /** live_price */
  function LivePrice(line: Line): Line {
    var offers := PricedOffers(line);
    if offers == [] then line
    else line.(unitUsd := Cheapest(offers).unitUsd, source := Some(DistributorListing))
  }

  // ----- the order's budget -----

  datatype Budget = Budget(totalUsd: real, lowUsd: real, highUsd: real, quotedPct: real, unpriced: nat)

  function SumOf(f: Line -> real, lines: seq<Line>): real {
    if lines == [] then 0.0 else SumOf(f, lines[..|lines| - 1]) + f(lines[|lines| - 1])
  }

  predicate BoughtPriced(line: Line) { Purchased(line) && line.unitUsd.Some? }

  predicate BoughtUnpriced(line: Line) { Purchased(line) && line.unitUsd.None? }

  function Ext(line: Line): real { if line.unitUsd.Some? then line.unitUsd.value * line.qty as real else 0.0 }

  function SourceOf(line: Line): PriceSource { if line.source.Some? then line.source.value else Estimate }

  function LowExt(line: Line): real { Ext(line) * (1.0 - Band(SourceOf(line))) }

  function HighExt(line: Line): real { Ext(line) * (1.0 + Band(SourceOf(line))) }

  function QuotedExt(line: Line): real { if SourceOf(line) == Quote then Ext(line) else 0.0 }

  function PricedLines(lines: seq<Line>): seq<Line> { Filter((l: Line) => BoughtPriced(l), lines) }

  function UnpricedLines(lines: seq<Line>): seq<Line> { Filter((l: Line) => BoughtUnpriced(l), lines) }

  function Total(lines: seq<Line>): real { SumOf((l: Line) => Ext(l), PricedLines(lines)) }

  /** order_budget */
  function OrderBudget(lines: seq<Line>): Budget {
    var priced := PricedLines(lines);
    var total, quoted := Total(lines), SumOf((l: Line) => QuotedExt(l), priced);
    Budget(total,
           SumOf((l: Line) => LowExt(l), priced),
           SumOf((l: Line) => HighExt(l), priced),
           if total != 0.0 then 100.0 * quoted / total else 0.0,
           |UnpricedLines(lines)|)
  }

  // ----- the purchase roll-up -----

  datatype PartKey = PartKey(vendor: string, partNumber: string, equipmentId: Option<string>)

  function RollKey(line: Line): PartKey { PartKey(line.vendor, line.partNumber, line.equipmentId) }

  /** One row per part: quantities summed, unit price of the first line. */
  datatype Row = Row(key: PartKey, qty: nat, unitUsd: Option<real>) {
    function ExtUsd(): real { if unitUsd.Some? then unitUsd.value * qty as real else 0.0 }
  }

  function OfPart(k: PartKey): Line -> bool { (l: Line) => Purchased(l) && RollKey(l) == k }

  function LinesOf(lines: seq<Line>, k: PartKey): seq<Line> { Filter(OfPart(k), lines) }

  function Seen(keys: seq<PartKey>, k: PartKey): seq<PartKey> { if k in keys then keys else keys + [k] }

  /** Parts in the order their first line appears. */
  function PartKeys(lines: seq<Line>): seq<PartKey> {
    if lines == [] then []
    else
      var l := lines[|lines| - 1];
      if Purchased(l) then Seen(PartKeys(lines[..|lines| - 1]), RollKey(l)) else PartKeys(lines[..|lines| - 1])
  }

  function TotalQty(lines: seq<Line>): nat {
    if lines == [] then 0 else TotalQty(lines[..|lines| - 1]) + lines[|lines| - 1].qty
  }

  function RowOf(lines: seq<Line>, k: PartKey): Row {
    Row(k, TotalQty(LinesOf(lines, k)), if LinesOf(lines, k) == [] then None else LinesOf(lines, k)[0].unitUsd)
  }

  function Rollup(lines: seq<Line>): (rows: seq<Row>) {
    Map((k: PartKey) => RowOf(lines, k), PartKeys(lines))
  }

  function RowsTotal(rows: seq<Row>): real {
    if rows == [] then 0.0 else RowsTotal(rows[..|rows| - 1]) + rows[|rows| - 1].ExtUsd()
  }

  // ----- the roll-up loop: a dict of lists, then one row each -----

  ghost predicate Grouped(keys: seq<PartKey>, parts: map<PartKey, seq<Line>>, lines: seq<Line>) {
    && keys == PartKeys(lines)
    && (forall k :: k in keys <==> k in parts)
    && (forall k :: k in parts ==> parts[k] == LinesOf(lines, k))
  }

  lemma {:induction false} PartKeysMember(lines: seq<Line>, k: PartKey)
    ensures k in PartKeys(lines) <==> LinesOf(lines, k) != []
  {
    if lines != [] {
      PartKeysMember(lines[..|lines| - 1], k);
    }
  }

  lemma GroupNext(keys: seq<PartKey>, parts: map<PartKey, seq<Line>>, lines: seq<Line>, l: Line)
    requires Grouped(keys, parts, lines) && Purchased(l)
    ensures var k := RollKey(l);
            Grouped(Seen(keys, k), parts[k := (if k in parts then parts[k] else []) + [l]], lines + [l])
  {
    var k := RollKey(l);
    var more := parts[k := (if k in parts then parts[k] else []) + [l]];
    assert (lines + [l])[..|lines|] == lines;
    forall j | j in more ensures more[j] == LinesOf(lines + [l], j) {
      assert LinesOf(lines + [l], j) == LinesOf(lines, j) + if RollKey(l) == j then [l] else [];
      PartKeysMember(lines, j);
      if j != k {
        assert LinesOf(lines, j) + [] == LinesOf(lines, j);
      }
    }
  }

  lemma GroupSkip(keys: seq<PartKey>, parts: map<PartKey, seq<Line>>, lines: seq<Line>, l: Line)
    requires Grouped(keys, parts, lines) && !Purchased(l)
    ensures Grouped(keys, parts, lines + [l])
  {
    assert (lines + [l])[..|lines|] == lines;
    forall j | j in parts ensures parts[j] == LinesOf(lines + [l], j) {
      assert LinesOf(lines, j) + [] == LinesOf(lines, j);
    }
  }

  /** rollup_sheet's grouping and summing */
  method BuildRollup(lines: seq<Line>) returns (rows: seq<Row>)
    ensures rows == Rollup(lines)
  {
    var keys: seq<PartKey> := [];
    var parts: map<PartKey, seq<Line>> := map[];
    for i := 0 to |lines|
      invariant Grouped(keys, parts, lines[..i])
    {
      var l := lines[i];
      assert lines[..i + 1] == lines[..i] + [l];
      if Purchased(l) {
        GroupNext(keys, parts, lines[..i], l);
        var k := RollKey(l);
        parts := parts[k := (if k in parts then parts[k] else []) + [l]];
        keys := Seen(keys, k);
      } else {
        GroupSkip(keys, parts, lines[..i], l);
      }
    }
    assert lines[..|lines|] == lines;
    rows := [];
    for i := 0 to |keys|
      invariant rows == Map((k: PartKey) => RowOf(lines, k), keys[..i])
    {
      PartKeysMember(lines, keys[i]);
      var own := parts[keys[i]];
      var qty := SumQty(own);
      rows := rows + [Row(keys[i], qty, own[0].unitUsd)];
      assert keys[..i + 1] == keys[..i] + [keys[i]];
    }
    assert keys[..|keys|] == keys;
  }

  method SumQty(lines: seq<Line>) returns (qty: nat)
    ensures qty == TotalQty(lines)
  {
    qty := 0;
    for i := 0 to |lines|
      invariant qty == TotalQty(lines[..i])
    {
      assert lines[..i + 1][..i] == lines[..i];
      qty := qty + lines[i].qty;
    }
    assert lines[..|lines|] == lines;
  }
}
