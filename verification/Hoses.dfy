/** Hose runs: the P&ID, loop by loop. */
module Hoses {
  import opened Lists
  import opened Dtm
  import opened SiteIndex
  import opened PowerCables

  const PRIMARY_HOSE := "EPDM 1in PG/W rated"
  const SECONDARY_HOSE := "EPDM 0.5in DEI water rated"

  datatype Hose = Hose(tag: string, service: string, fromTag: string, fromPort: string, toTag: string, toPort: string, kind: string)

  function Length(service: string, src: Device, srcPort: string, dst: Device, dstPort: string, kind: string): Hose {
    Hose("", service, Tag(src), srcPort, Tag(dst), dstPort, kind)
  }

  /** Facility loop: dry cooler to CDU and back. */
  function PrimaryLoop(cooler: Device, cdu: Device): seq<Hose> {
    [Length("primary supply", cooler, "FLUID_OUT", cdu, "PRI_SUPPLY", PRIMARY_HOSE),
     Length("primary return", cdu, "PRI_RETURN", cooler, "FLUID_IN", PRIMARY_HOSE)]
  }

  /** Rack loop of one server: CDU to its DLC plate and back. */
  function NodeLoop(cdu: Device, node: Device): seq<Hose> {
    [Length("secondary supply", cdu, "SEC_SUPPLY", node, "GPU_LIQ_SUPPLY", SECONDARY_HOSE),
     Length("secondary return", node, "GPU_LIQ_RETURN", cdu, "SEC_RETURN", SECONDARY_HOSE)]
  }

  function NodeLoops(cdu: Device, nodes: seq<Device>): seq<Hose> {
    if nodes == [] then [] else NodeLoops(cdu, nodes[..|nodes| - 1]) + NodeLoop(cdu, nodes[|nodes| - 1])
  }

  function HosesOf(c: Container): seq<Hose> {
    if c.One({"cdu"}).None? then []
    else
      var cdu := c.One({"cdu"}).value;
      (if c.One(DRY_COOLERS).Some? then PrimaryLoop(c.One(DRY_COOLERS).value, cdu) else []) + NodeLoops(cdu, c.Of(GPU_NODES))
  }

  function AllHoses(sites: seq<Container>): seq<Hose> {
    if sites == [] then [] else AllHoses(sites[..|sites| - 1]) + HosesOf(sites[|sites| - 1])
  }

  /** hoses */
  method BuildHoses(sites: seq<Container>) returns (found: seq<Hose>)
    ensures found == AllHoses(sites)
  {
    found := [];
    for i := 0 to |sites|
      invariant found == AllHoses(sites[..i])
    {
      var c := sites[i];
      assert sites[..i + 1][..i] == sites[..i];
      var cdu := c.One({"cdu"});
      if cdu.Some? {
        var own: seq<Hose> := [];
        var cooler := c.One(DRY_COOLERS);
        if cooler.Some? {
          own := PrimaryLoop(cooler.value, cdu.value);
        }
        var loops := BuildNodeLoops(cdu.value, c.Of(GPU_NODES));
        own := own + loops;
        found := found + own;
      }
    }
    assert sites[..|sites|] == sites;
  }

  method BuildNodeLoops(cdu: Device, nodes: seq<Device>) returns (loops: seq<Hose>)
    ensures loops == NodeLoops(cdu, nodes)
  {
    loops := [];
    for i := 0 to |nodes|
      invariant loops == NodeLoops(cdu, nodes[..i])
    {
      assert nodes[..i + 1][..i] == nodes[..i];
      loops := loops + NodeLoop(cdu, nodes[i]);
    }
    assert nodes[..|nodes|] == nodes;
  }

  // ----- closed loops -----

  function HosesFrom(hoses: seq<Hose>): seq<string> { Map((h: Hose) => h.fromTag, hoses) }

  function HosesTo(hoses: seq<Hose>): seq<string> { Map((h: Hose) => h.toTag, hoses) }

  ghost predicate Closed(hoses: seq<Hose>) { multiset(HosesFrom(hoses)) == multiset(HosesTo(hoses)) }

  lemma ClosedAppend(a: seq<Hose>, b: seq<Hose>)
    requires Closed(a) && Closed(b)
    ensures Closed(a + b)
  {
    MapAppend((h: Hose) => h.fromTag, a, b);
    MapAppend((h: Hose) => h.toTag, a, b);
  }

  lemma {:induction false} NodeLoopsClosed(cdu: Device, nodes: seq<Device>)
    ensures Closed(NodeLoops(cdu, nodes)) && |NodeLoops(cdu, nodes)| == 2 * |nodes|
  {
    if nodes != [] {
      var init, node := nodes[..|nodes| - 1], nodes[|nodes| - 1];
      NodeLoopsClosed(cdu, init);
      assert HosesFrom(NodeLoop(cdu, node)) == [Tag(cdu), Tag(node)] && HosesTo(NodeLoop(cdu, node)) == [Tag(node), Tag(cdu)];
      ClosedAppend(NodeLoops(cdu, init), NodeLoop(cdu, node));
    }
  }

  lemma PrimaryClosed(cooler: Device, cdu: Device)
    ensures Closed(PrimaryLoop(cooler, cdu))
  {
    var loop := PrimaryLoop(cooler, cdu);
    assert HosesFrom(loop) == [Tag(cooler), Tag(cdu)] && HosesTo(loop) == [Tag(cdu), Tag(cooler)];
  }

  lemma ContainerClosed(c: Container)
    ensures Closed(HosesOf(c))
  {
    if c.One({"cdu"}).Some? {
      var cdu := c.One({"cdu"}).value;
      NodeLoopsClosed(cdu, c.Of(GPU_NODES));
      if c.One(DRY_COOLERS).Some? {
        PrimaryClosed(c.One(DRY_COOLERS).value, cdu);
        ClosedAppend(PrimaryLoop(c.One(DRY_COOLERS).value, cdu), NodeLoops(cdu, c.Of(GPU_NODES)));
      } else {
        assert [] + NodeLoops(cdu, c.Of(GPU_NODES)) == NodeLoops(cdu, c.Of(GPU_NODES));
      }
    }
  }

  /** Coolant comes back: over the whole schedule, every device has as many hoses in as out. */
  lemma {:induction false} LoopsAreClosed(sites: seq<Container>)
    ensures Closed(AllHoses(sites))
  {
    if sites != [] {
      LoopsAreClosed(sites[..|sites| - 1]);
      ContainerClosed(sites[|sites| - 1]);
      ClosedAppend(AllHoses(sites[..|sites| - 1]), HosesOf(sites[|sites| - 1]));
    }
  }
}
