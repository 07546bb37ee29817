/** The artifact list of a job and the counts attached to it once the pipeline ran. */
module Artifacts {
  import opened Lists
  import opened BomModel

  datatype Kind =
    | BomList | ComputeContainer3d | GridContainer3d | InterfacePlate | Sld | SldHmiSvg | PidCooling | CommsDiagram
    | CableHoseSchedule | InstallSequence | DeviceTopology

  datatype Summary =
    | BomSummary(lineItems: nat, vendors: nat)
    | CableSummary(runs: nat, mediaKinds: nat)
    | TopologySummary(devices: nat, buses: nat)
    | PlateSummary(plates: nat)

  datatype ArtifactRef = ArtifactRef(kind: Kind, format: string, url: string, plateId: Option<string>, summary: Option<Summary>)

  /** What the 202 promised of one artifact. */
  type Promise = (Kind, string, string, Option<string>)

  function PromiseOf(r: ArtifactRef): Promise { (r.kind, r.format, r.url, r.plateId) }

  function Promised(refs: seq<ArtifactRef>): seq<Promise> { Map((r: ArtifactRef) => PromiseOf(r), refs) }

  /** What a finished build counts. */
  datatype Build = Build(lines: seq<Line>, devices: nat, buses: nat, cableTypes: seq<string>, defense: bool)

  predicate FromManufacturer(l: Line) { l.path == CatalogPart || l.path == CustomFabrication }

  function Vendors(lines: seq<Line>): set<string> { set l | l in lines && FromManufacturer(l) :: l.vendor }

  function PlateQty(lines: seq<Line>, number: string): nat {
    if lines == [] then 0
    else PlateQty(lines[..|lines| - 1], number) + if lines[|lines| - 1].partNumber == number then lines[|lines| - 1].qty else 0
  }

  /** Part numbers the BOM carries: the keys of the quantity dict. */
  function Numbers(lines: seq<Line>): set<string> { set l | l in lines :: l.partNumber }

  predicate CountsPlate(r: ArtifactRef) { r.kind == InterfacePlate && r.plateId.Some? }

  /** A plate the manifest promises but the BOM never bought: with_summaries' KeyError on plate_qty. */
  predicate PlateMissing(build: Build, r: ArtifactRef) {
    CountsPlate(r) && PlateNumber(r.plateId.value, build.defense) !in Numbers(build.lines)
  }

  function SummaryOf(build: Build, r: ArtifactRef): Option<Summary> {
    if r.kind == BomList then Some(BomSummary(|build.lines|, |Vendors(build.lines)|))
    else if r.kind == CableHoseSchedule
    then Some(CableSummary(|build.cableTypes|, |set t | t in build.cableTypes|))
    else if r.kind == DeviceTopology then Some(TopologySummary(build.devices, build.buses))
    else if CountsPlate(r) then Some(PlateSummary(PlateQty(build.lines, PlateNumber(r.plateId.value, build.defense))))
    else None
  }

  /** with_summaries; None when a promised plate has no BOM line. */
  function WithSummaries(refs: seq<ArtifactRef>, build: Build): Option<seq<ArtifactRef>> {
    if exists r :: r in refs && PlateMissing(build, r) then None
    else Some(Map((r: ArtifactRef) => r.(summary := SummaryOf(build, r)), refs))
  }

  ghost predicate Quantities(qty: map<string, nat>, lines: seq<Line>) {
    && qty.Keys == Numbers(lines)
    && forall n :: n in qty ==> qty[n] == PlateQty(lines, n)
  }

  lemma {:induction false} NotBought(lines: seq<Line>, number: string)
    requires number !in Numbers(lines)
    ensures PlateQty(lines, number) == 0
  {
    if lines != [] {
      var init, l := lines[..|lines| - 1], lines[|lines| - 1];
      assert lines == init + [l];
      NotBought(init, number);
    }
  }

  lemma QuantitiesNext(qty: map<string, nat>, lines: seq<Line>, l: Line)
    requires Quantities(qty, lines)
    ensures Quantities(qty[l.partNumber := (if l.partNumber in qty then qty[l.partNumber] else 0) + l.qty], lines + [l])
  {
    var more := qty[l.partNumber := (if l.partNumber in qty then qty[l.partNumber] else 0) + l.qty];
    assert (lines + [l])[..|lines|] == lines;
    assert Numbers(lines + [l]) == Numbers(lines) + {l.partNumber};
    forall n | n in more ensures more[n] == PlateQty(lines + [l], n) {
      if n !in qty {
        NotBought(lines, n);
      }
    }
  }

  method CollectQuantities(lines: seq<Line>) returns (qty: map<string, nat>)
    ensures Quantities(qty, lines)
  {
    qty := map[];
    for i := 0 to |lines|
      invariant Quantities(qty, lines[..i])
    {
      QuantitiesNext(qty, lines[..i], lines[i]);
      assert lines[..i + 1] == lines[..i] + [lines[i]];
      var n := lines[i].partNumber;
      qty := qty[n := (if n in qty then qty[n] else 0) + lines[i].qty];
    }
    assert lines[..|lines|] == lines;
  }

  /** What a finished artifact tells: line items and the manufacturers bought from, runs and kinds of media, devices and buses,
      or a plate's quantity over all lines with its number; other kinds tell nothing. */
  ghost predicate Tells(build: Build, was: ArtifactRef, r: ArtifactRef) {
    && r == was.(summary := r.summary)
    && match was.kind
       case BomList =>
         var makers := set l | l in build.lines && l.path in {CatalogPart, CustomFabrication} :: l.vendor;
         r.summary == Some(BomSummary(|build.lines|, |makers|))
       case CableHoseSchedule => r.summary == Some(CableSummary(|build.cableTypes|, |set t | t in build.cableTypes|))
       case DeviceTopology => r.summary == Some(TopologySummary(build.devices, build.buses))
       case InterfacePlate =>
         if was.plateId.None? then r.summary.None?
         else
           var number := "ARC-PLT-" + was.plateId.value + "-001" + if build.defense then "-D" else "";
           r.summary == Some(PlateSummary(Sum(Map((l: Line) => if l.partNumber == number then l.qty else 0, build.lines))))
       case _ => r.summary.None?
  }

  lemma {:induction false} PlateQtyIsSum(lines: seq<Line>, number: string)
    ensures PlateQty(lines, number) == Sum(Map((l: Line) => if l.partNumber == number then l.qty else 0, lines))
  {
    if lines != [] {
      var init, l := lines[..|lines| - 1], lines[|lines| - 1];
      PlateQtyIsSum(init, number);
      var f := (l: Line) => if l.partNumber == number then l.qty else 0;
      assert Map(f, lines) == Map(f, init) + [f(l)];
      SumMore(Map(f, init), f(l));
    }
  }

  lemma {:induction false} SummaryTells(build: Build, was: ArtifactRef)
    ensures Tells(build, was, was.(summary := SummaryOf(build, was)))
  {
    if was.kind == BomList {
      assert Vendors(build.lines) == set l | l in build.lines && l.path in {CatalogPart, CustomFabrication} :: l.vendor;
    } else if CountsPlate(was) {
      PlateQtyIsSum(build.lines, PlateNumber(was.plateId.value, build.defense));
    }
  }

  /** with_summaries, as the loops run */
  method Summarize(refs: seq<ArtifactRef>, build: Build) returns (r: Option<seq<ArtifactRef>>)
    ensures r == WithSummaries(refs, build)
    ensures r.Some? ==> Promised(r.value) == Promised(refs)
    ensures r.Some? ==> |r.value| == |refs| && forall i :: 0 <= i < |refs| ==> Tells(build, refs[i], r.value[i])
    ensures r.None? <==> exists ref :: ref in refs && PlateMissing(build, ref)
  {
    var qty := CollectQuantities(build.lines);
    var out: seq<ArtifactRef> := [];
    for i := 0 to |refs|
      invariant |out| == i && forall j :: 0 <= j < i ==> !PlateMissing(build, refs[j]) && out[j] == refs[j].(summary := SummaryOf(build, refs[j]))
    {
      var ref := refs[i];
      if CountsPlate(ref) {
        var number := PlateNumber(ref.plateId.value, build.defense);
        if number !in qty {
          assert PlateMissing(build, refs[i]) && refs[i] in refs;
          return None;
        }
        out := out + [ref.(summary := Some(PlateSummary(qty[number])))];
      } else {
        out := out + [ref.(summary := SummaryOf(build, ref))];
      }
    }
    assert out == Map((r: ArtifactRef) => r.(summary := SummaryOf(build, r)), refs);
    forall i | 0 <= i < |refs| ensures Tells(build, refs[i], out[i]) {
      SummaryTells(build, refs[i]);
    }
    r := Some(out);
  }
}
