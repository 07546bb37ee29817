/** The coolant schedule of a site read backwards: which hoses meet each device. */
module HoseLoops {
  import opened Lists
  import opened Text
  import opened Catalog
  import opened Dtm
  import opened DtmSpec
  import opened SiteIndex
  import opened PowerCables
  import opened ManagementNetwork
  import opened Coherence
  import opened SiteNetwork
  import opened RunEnds
  import opened PowerPaths
  import opened Hoses

  /** Hoses that carry coolant to a tag, or away from it. */
  function Meets(t: string, supply: bool): Hose -> bool { (h: Hose) => (if supply then h.toTag else h.fromTag) == t }

  ghost predicate Touches(hoses: seq<Hose>, devices: seq<Device>) {
    forall i :: 0 <= i < |hoses| ==> hoses[i].fromTag in TagsOf(devices) && hoses[i].toTag in TagsOf(devices)
  }

  lemma {:induction false} NoneMeet(hoses: seq<Hose>, devices: seq<Device>, t: string, supply: bool)
    requires Touches(hoses, devices) && t !in TagsOf(devices)
    ensures Filter(Meets(t, supply), hoses) == []
  {
    FilterNone(Meets(t, supply), hoses);
  }

  lemma PairTouches(a: Hose, b: Hose, d: Device, e: Device, devices: seq<Device>)
    requires d in devices && e in devices
    requires a.fromTag == b.toTag == Tag(d) && a.toTag == b.fromTag == Tag(e)
    ensures Touches([a, b], devices)
  {
    TagOfMember(devices, d);
    TagOfMember(devices, e);
  }

  lemma {:induction false} NodeLoopsTouch(cdu: Device, nodes: seq<Device>, devices: seq<Device>)
    requires cdu in devices && forall d :: d in nodes ==> d in devices
    ensures Touches(NodeLoops(cdu, nodes), devices)
  {
    if nodes != [] {
      var init, node := nodes[..|nodes| - 1], nodes[|nodes| - 1];
      NodeLoopsTouch(cdu, init, devices);
      var loop := NodeLoop(cdu, node);
      PairTouches(loop[0], loop[1], cdu, node, devices);
    }
  }

  lemma OneIsChild(c: Container, templates: set<string>)
    requires c.One(templates).Some?
    ensures c.One(templates).value in c.devices && c.One(templates).value.template in templates
  {
    OfAreChildren(c, templates);
    assert c.One(templates).value in c.Of(templates);
  }

  function PrimaryOf(c: Container, cdu: Device): seq<Hose> {
    if c.One(DRY_COOLERS).Some? then PrimaryLoop(c.One(DRY_COOLERS).value, cdu) else []
  }

  lemma PrimaryTouches(c: Container, cdu: Device)
    requires cdu in c.devices
    ensures Touches(PrimaryOf(c, cdu), c.devices)
  {
    if c.One(DRY_COOLERS).Some? {
      OneIsChild(c, DRY_COOLERS);
      var loop := PrimaryLoop(c.One(DRY_COOLERS).value, cdu);
      PairTouches(loop[0], loop[1], c.One(DRY_COOLERS).value, cdu, c.devices);
    }
  }

  /** A container's hoses stay inside it. */
  lemma HosesStay(c: Container)
    ensures Touches(HosesOf(c), c.devices)
  {
    if c.One({"cdu"}).Some? {
      var cdu := c.One({"cdu"}).value;
      OneIsChild(c, {"cdu"});
      OfAreChildren(c, GPU_NODES);
      NodeLoopsTouch(cdu, c.Of(GPU_NODES), c.devices);
      PrimaryTouches(c, cdu);
    }
  }

  lemma {:induction false} AllHosesGrouped(sites: seq<Container>)
    ensures AllHoses(sites) == Concat(Map((c: Container) => HosesOf(c), sites))
  {
    if sites != [] {
      var init := sites[..|sites| - 1];
      AllHosesGrouped(init);
      var f := (c: Container) => HosesOf(c);
      assert Map(f, sites)[..|init|] == Map(f, init);
    }
  }

  /** Only its own container's hoses meet a device. */
  lemma {:induction false} OwnHoses(sites: seq<Container>, k: nat, d: Device, supply: bool)
    requires k < |sites| && OwnsTag(sites, k, d)
    ensures Filter(Meets(Tag(d), supply), AllHoses(sites)) == Filter(Meets(Tag(d), supply), HosesOf(sites[k]))
  {
    forall j | 0 <= j < |sites| && j != k ensures Filter(Meets(Tag(d), supply), HosesOf(sites[j])) == [] {
      HosesStay(sites[j]);
      NoneMeet(HosesOf(sites[j]), sites[j].devices, Tag(d), supply);
    }
    OneGroupMeets(sites, k, Tag(d), supply);
  }

  lemma {:induction false} OneGroupMeets(sites: seq<Container>, k: nat, t: string, supply: bool)
    requires k < |sites| && forall j :: 0 <= j < |sites| && j != k ==> Filter(Meets(t, supply), HosesOf(sites[j])) == []
    ensures Filter(Meets(t, supply), AllHoses(sites)) == Filter(Meets(t, supply), HosesOf(sites[k]))
  {
    var groups := Map((c: Container) => HosesOf(c), sites);
    AllHosesGrouped(sites);
    assert forall j :: 0 <= j < |groups| ==> Filter(Meets(t, supply), groups[j]) == if j == k then Filter(Meets(t, supply), HosesOf(sites[k])) else [];
    OnlyGroup(Meets(t, supply), groups, k, Filter(Meets(t, supply), HosesOf(sites[k])));
  }

  // ----- one loop -----

  function SupplyTo(cdu: Device, node: Device): Hose {
    Hose("", "secondary supply", Tag(cdu), "SEC_SUPPLY", Tag(node), "GPU_LIQ_SUPPLY", "EPDM 0.5in DEI water rated")
  }

  function ReturnFrom(cdu: Device, node: Device): Hose {
    Hose("", "secondary return", Tag(node), "GPU_LIQ_RETURN", Tag(cdu), "SEC_RETURN", "EPDM 0.5in DEI water rated")
  }

  /** One hose brings a server its coolant and one takes it back. */
  ghost predicate ServerLooped(hoses: seq<Hose>, cdu: Device, node: Device) {
    && Filter(Meets(Tag(node), true), hoses) == [SupplyTo(cdu, node)]
    && Filter(Meets(Tag(node), false), hoses) == [ReturnFrom(cdu, node)]
  }

  lemma {:induction false} MeetsTwo(before: seq<Hose>, x: Hose, y: Hose, t: string, supply: bool)
    ensures Filter(Meets(t, supply), before + [x, y])
         == Filter(Meets(t, supply), before) + (if Meets(t, supply)(x) then [x] else []) + if Meets(t, supply)(y) then [y] else []
  {
    var all := before + [x, y];
    assert all[..|all| - 1] == before + [x];
    assert (before + [x])[..|before|] == before;
  }

  lemma {:induction false} NodeLoopsMeet(cdu: Device, nodes: seq<Device>, i: nat)
    requires i < |nodes| && Distinct(TagsOf(nodes)) && Tag(cdu) !in TagsOf(nodes)
    ensures ServerLooped(NodeLoops(cdu, nodes), cdu, nodes[i])
  {
    var last := |nodes| - 1;
    var init, before := nodes[..last], NodeLoops(cdu, nodes[..last]);
    var t, x, y := Tag(nodes[i]), SupplyTo(cdu, nodes[last]), ReturnFrom(cdu, nodes[last]);
    assert NodeLoops(cdu, nodes) == before + [x, y];
    assert TagsOf(nodes) == TagsOf(init) + [Tag(nodes[last])];
    DistinctPrefix(TagsOf(init), [Tag(nodes[last])]);
    assert t == TagsOf(nodes)[i] && Tag(cdu) != t;
    MeetsTwo(before, x, y, t, true);
    MeetsTwo(before, x, y, t, false);
    if i < last {
      NodeLoopsMeet(cdu, init, i);
      assert TagsOf(nodes)[i] != TagsOf(nodes)[last];
    } else {
      NodeLoopsTouch(cdu, init, [cdu] + init);
      assert TagsOf([cdu] + init) == [Tag(cdu)] + TagsOf(init);
      NoneMeet(before, [cdu] + init, t, true);
      NoneMeet(before, [cdu] + init, t, false);
    }
  }

  lemma {:induction false} PrimaryThenNodes(primary: seq<Hose>, loops: seq<Hose>, t: string, supply: bool)
    ensures Filter(Meets(t, supply), primary + loops) == Filter(Meets(t, supply), primary) + Filter(Meets(t, supply), loops)
  {
    FilterAppend(Meets(t, supply), primary, loops);
  }

  lemma PrimaryMisses(c: Container, cdu: Device, node: Device, supply: bool)
    requires Distinct(TagsOf(c.devices)) && c.One({"cdu"}) == Some(cdu) && node in c.Of(GPU_NODES)
    ensures Filter(Meets(Tag(node), supply), PrimaryOf(c, cdu)) == []
  {
    OfAreChildren(c, GPU_NODES);
    OneIsChild(c, {"cdu"});
    DifferentTemplates(c, node, cdu);
    if c.One(DRY_COOLERS).Some? {
      OneIsChild(c, DRY_COOLERS);
      DifferentTemplates(c, node, c.One(DRY_COOLERS).value);
    }
    FilterNone(Meets(Tag(node), supply), PrimaryOf(c, cdu));
  }

  /** A server's hoses, inside its container. */
  lemma ServerLoop(c: Container, cdu: Device, i: nat)
    requires Distinct(TagsOf(c.devices)) && c.One({"cdu"}) == Some(cdu) && i < |c.Of(GPU_NODES)|
    ensures ServerLooped(HosesOf(c), cdu, c.Of(GPU_NODES)[i])
  {
    var nodes := c.Of(GPU_NODES);
    assert nodes[i] in nodes;
    PrimaryMisses(c, cdu, nodes[i], true);
    PrimaryMisses(c, cdu, nodes[i], false);
    FilterTagsDistinct(UsesOneOf(GPU_NODES), c.devices);
    CduIsNoServer(c, cdu);
    NodeLoopsMeet(cdu, nodes, i);
    PrimaryThenNodes(PrimaryOf(c, cdu), NodeLoops(cdu, nodes), Tag(nodes[i]), true);
    PrimaryThenNodes(PrimaryOf(c, cdu), NodeLoops(cdu, nodes), Tag(nodes[i]), false);
  }

  lemma CduIsNoServer(c: Container, cdu: Device)
    requires Distinct(TagsOf(c.devices)) && c.One({"cdu"}) == Some(cdu)
    ensures Tag(cdu) !in TagsOf(c.Of(GPU_NODES))
  {
    OneIsChild(c, {"cdu"});
    OfAreChildren(c, GPU_NODES);
    TagNotAmong(c.devices, cdu, c.Of(GPU_NODES));
  }

  /** The dry cooler sends coolant to the CDU by one hose and gets it back by one. */
  ghost predicate CoolerLooped(hoses: seq<Hose>, cooler: Device, cdu: Device) {
    && Filter(Meets(Tag(cooler), false), hoses)
       == [Hose("", "primary supply", Tag(cooler), "FLUID_OUT", Tag(cdu), "PRI_SUPPLY", "EPDM 1in PG/W rated")]
    && Filter(Meets(Tag(cooler), true), hoses)
       == [Hose("", "primary return", Tag(cdu), "PRI_RETURN", Tag(cooler), "FLUID_IN", "EPDM 1in PG/W rated")]
  }

  lemma LoopMeets(cooler: Device, cdu: Device)
    requires Tag(cooler) != Tag(cdu)
    ensures CoolerLooped(PrimaryLoop(cooler, cdu), cooler, cdu)
  {
    var loop := PrimaryLoop(cooler, cdu);
    assert [] + [loop[0], loop[1]] == loop;
    MeetsTwo([], loop[0], loop[1], Tag(cooler), true);
    MeetsTwo([], loop[0], loop[1], Tag(cooler), false);
  }

  lemma {:induction false} NodeLoopsMiss(c: Container, cdu: Device, cooler: Device, supply: bool)
    requires Distinct(TagsOf(c.devices)) && c.One({"cdu"}) == Some(cdu) && c.One(DRY_COOLERS) == Some(cooler)
    ensures Filter(Meets(Tag(cooler), supply), NodeLoops(cdu, c.Of(GPU_NODES))) == []
  {
    var others := [cdu] + c.Of(GPU_NODES);
    OneIsChild(c, {"cdu"});
    OneIsChild(c, DRY_COOLERS);
    OfAreChildren(c, GPU_NODES);
    NodeLoopsTouch(cdu, c.Of(GPU_NODES), others);
    TagNotAmong(c.devices, cooler, others);
    NoneMeet(NodeLoops(cdu, c.Of(GPU_NODES)), others, Tag(cooler), supply);
  }

  lemma CoolerIsNoCdu(c: Container, cdu: Device, cooler: Device)
    requires Distinct(TagsOf(c.devices)) && c.One({"cdu"}) == Some(cdu) && c.One(DRY_COOLERS) == Some(cooler)
    ensures Tag(cooler) != Tag(cdu)
  {
    OneIsChild(c, {"cdu"});
    OneIsChild(c, DRY_COOLERS);
    DifferentTemplates(c, cooler, cdu);
  }

  /** The dry cooler's hoses, inside its container. */
  lemma CoolerLoop(c: Container, cdu: Device, cooler: Device)
    requires Distinct(TagsOf(c.devices)) && c.One({"cdu"}) == Some(cdu) && c.One(DRY_COOLERS) == Some(cooler)
    ensures CoolerLooped(HosesOf(c), cooler, cdu)
  {
    CoolerIsNoCdu(c, cdu, cooler);
    LoopMeets(cooler, cdu);
    NodeLoopsMiss(c, cdu, cooler, true);
    NodeLoopsMiss(c, cdu, cooler, false);
    PrimaryThenNodes(PrimaryLoop(cooler, cdu), NodeLoops(cdu, c.Of(GPU_NODES)), Tag(cooler), true);
    PrimaryThenNodes(PrimaryLoop(cooler, cdu), NodeLoops(cdu, c.Of(GPU_NODES)), Tag(cooler), false);
  }

  // ----- every generated site -----

  /** Coolant in one container, over the whole schedule: each server and the dry cooler have their two hoses and no others,
      and a container without a CDU has none. */
  ghost predicate CoolantStands(sites: seq<Container>, k: nat)
    requires k < |sites|
  {
    var hoses, c := AllHoses(sites), sites[k];
    && (c.One({"cdu"}).None? ==> forall d, supply :: d in c.devices ==> Filter(Meets(Tag(d), supply), hoses) == [])
    && (c.One({"cdu"}).Some? ==>
          && (forall i :: 0 <= i < |c.Of(GPU_NODES)| ==> ServerLooped(hoses, c.One({"cdu"}).value, c.Of(GPU_NODES)[i]))
          && (c.One(DRY_COOLERS).Some? ==> CoolerLooped(hoses, c.One(DRY_COOLERS).value, c.One({"cdu"}).value)))
  }

  lemma {:induction false} ServerLoopOnSite(sites: seq<Container>, k: nat, cdu: Device, i: nat)
    requires OneTagEach(sites) && k < |sites| && sites[k].One({"cdu"}) == Some(cdu) && i < |sites[k].Of(GPU_NODES)|
    ensures ServerLooped(AllHoses(sites), cdu, sites[k].Of(GPU_NODES)[i])
  {
    var node := sites[k].Of(GPU_NODES)[i];
    OfAreChildren(sites[k], GPU_NODES);
    assert node in sites[k].Of(GPU_NODES);
    TagIsOwn(sites, k, node);
    OwnHoses(sites, k, node, true);
    OwnHoses(sites, k, node, false);
    OwnTagsDistinct(sites, k);
    ServerLoop(sites[k], cdu, i);
  }

  lemma {:induction false} CoolerLoopOnSite(sites: seq<Container>, k: nat, cdu: Device, cooler: Device)
    requires OneTagEach(sites) && k < |sites| && sites[k].One({"cdu"}) == Some(cdu) && sites[k].One(DRY_COOLERS) == Some(cooler)
    ensures CoolerLooped(AllHoses(sites), cooler, cdu)
  {
    OneIsChild(sites[k], DRY_COOLERS);
    TagIsOwn(sites, k, cooler);
    OwnHoses(sites, k, cooler, true);
    OwnHoses(sites, k, cooler, false);
    OwnTagsDistinct(sites, k);
    CoolerLoop(sites[k], cdu, cooler);
  }

  lemma {:induction false} DryContainer(sites: seq<Container>, k: nat, d: Device, supply: bool)
    requires OneTagEach(sites) && k < |sites| && sites[k].One({"cdu"}).None? && d in sites[k].devices
    ensures Filter(Meets(Tag(d), supply), AllHoses(sites)) == []
  {
    TagIsOwn(sites, k, d);
    OwnHoses(sites, k, d, supply);
  }

  lemma {:induction false} TaggedCoolant(sites: seq<Container>, k: nat)
    requires OneTagEach(sites) && k < |sites|
    ensures CoolantStands(sites, k)
  {
    var c := sites[k];
    if c.One({"cdu"}).None? {
      forall d, supply | d in c.devices ensures Filter(Meets(Tag(d), supply), AllHoses(sites)) == [] {
        DryContainer(sites, k, d, supply);
      }
    } else {
      forall i | 0 <= i < |c.Of(GPU_NODES)| ensures ServerLooped(AllHoses(sites), c.One({"cdu"}).value, c.Of(GPU_NODES)[i]) {
        ServerLoopOnSite(sites, k, c.One({"cdu"}).value, i);
      }
      if c.One(DRY_COOLERS).Some? {
        CoolerLoopOnSite(sites, k, c.One({"cdu"}).value, c.One(DRY_COOLERS).value);
      }
    }
  }

  /** Coolant reaches every server of every generated site, and comes back. */
  lemma {:induction false} SiteCooled(profile: string, r: Resolution, m: Manifest, templates: Templates, k: nat)
    requires Generate(profile, r, m, templates).Ok? && profile in m.profiles && Readable(m, m.profiles[profile])
    requires k < |Containers(Generate(profile, r, m, templates).value.devices)|
    ensures CoolantStands(Containers(Generate(profile, r, m, templates).value.devices), k)
  {
    SiteTagsApart(profile, r, m, templates);
    TaggedCoolant(Containers(Generate(profile, r, m, templates).value.devices), k);
  }
}
