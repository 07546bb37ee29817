/** The power sheet of a generated site, told by site tags. */
module SitePower {
  import opened Lists
  import opened Text
  import opened Numbering
  import opened Catalog
  import opened ComputeNodes
  import opened ComputeFeeds
  import opened Dtm
  import opened SitePlan
  import opened DtmSpec
  import opened DtmSoundness
  import opened SiteNames
  import opened SiteShape
  import opened SiteIndex
  import opened Sorting
  import opened Cabling
  import opened PowerCables
  import opened ManagementNetwork
  import opened ContainerGear
  import opened DualPath
  import opened FeedMap
  import opened Coherence
  import opened SiteNetwork
  import opened RunEnds
  import opened PowerPaths

  function ServerTag(container: string, j: nat): string { container + "-" + ("NODE-" + Dec(j)) }

  function PduTag(container: string, side: string, i: nat): string { container + "-" + ("PDU-" + side + Dec(i)) }

  /** A cordset from a PDU to a server, by their tags. */
  function Cord(container: string, side: string, i: nat, j: nat): Cable {
    Cable("", PsuFeed, PduTag(container, side, i), "OUT", ServerTag(container, j), "PWR",
          "C19-C20 cordset, 16 A, x4 (4 of 8 PSU inlets per path)")
  }

  /** PDUs on each path of a container with k servers: three servers a PDU. */
  function PathWidth(k: nat): nat { (k + 2) / 3 }

  /** The container's servers are NODE-1…k, and its PDUs PDU-A1… and PDU-B1…, one of each for every three servers. */
  ghost predicate ServersAndPdus(c: Container, k: nat) {
    && TagsOf(c.Of(GPU_NODES)) == FullTags(c.tag, "NODE-", k)
    && TagsOf(Pdus(c, 'A')) == FullTags(c.tag, "PDU-A", PathWidth(k))
    && TagsOf(Pdus(c, 'B')) == FullTags(c.tag, "PDU-B", PathWidth(k))
  }

  /** Server j takes its two cordsets, and nothing else, from PDU-A and PDU-B of number (j - 1) mod n + 1. */
  ghost predicate ServersFed(sheet: seq<Cable>, container: string, k: nat) {
    forall j: nat :: 1 <= j <= k ==> ServerFed(sheet, container, PathWidth(k), j)
  }

  ghost predicate ServerFed(sheet: seq<Cable>, container: string, p: nat, j: nat) {
    && p > 0 && j > 0
    && Filter(Into(ServerTag(container, j)), sheet)
       == [Cord(container, "A", (j - 1) % p + 1, j), Cord(container, "B", (j - 1) % p + 1, j)]
  }

  lemma {:induction false} WidthIsCeil(k: nat)
    ensures PathWidth(k) == PdusPerSide(k)
  {
  }

  /** Read in natural order, servers and PDUs stand by number. */
  lemma PathsInOrder(c: Container, k: nat)
    requires PowerReady(c, k) && Sorted(c.devices, ChildLe())
    ensures ServersAndPdus(c, k)
  {
    WidthIsCeil(k);
    PathTags(c, k);
    FilterSorted(UsesOneOf(GPU_NODES), c.devices);
    FamilyInOrder(c.Of(GPU_NODES), c.tag, "NODE-", k);
    FilterSorted(UsesOneOf({"pdu"}), c.devices);
    FilterSorted((d: Device) => OnSide('A', d), c.Of({"pdu"}));
    FilterSorted((d: Device) => OnSide('B', d), c.Of({"pdu"}));
    FamilyInOrder(Pdus(c, 'A'), c.tag, "PDU-A", PathWidth(k));
    FamilyInOrder(Pdus(c, 'B'), c.tag, "PDU-B", PathWidth(k));
  }

  lemma {:induction false} TagAt(devices: seq<Device>, container: string, stem: string, n: nat, i: nat)
    requires TagsOf(devices) == FullTags(container, stem, n) && i < n
    ensures |devices| == n && Tag(devices[i]) == container + "-" + (stem + Dec(i + 1))
  {
    assert |TagsOf(devices)| == n && TagsOf(devices)[i] == FullTags(container, stem, n)[i];
  }

  lemma WidthOf(k: nat)
    ensures k >= 1 ==> PathWidth(k) >= 1
  {
  }

  lemma Wraps(x: nat, p: nat)
    requires p > 0
    ensures x % p < p
  {
  }

  lemma Widths(c: Container, k: nat)
    requires ServersAndPdus(c, k)
    ensures |c.Of(GPU_NODES)| == k && |Pdus(c, 'A')| == |Pdus(c, 'B')| == PathWidth(k)
    ensures k >= 1 ==> PathWidth(k) > 0
  {
    assert |TagsOf(c.Of(GPU_NODES))| == k && |TagsOf(Pdus(c, 'A'))| == |TagsOf(Pdus(c, 'B'))| == PathWidth(k);
  }

  lemma CordIs(c: Container, k: nat, j: nat)
    requires ServersAndPdus(c, k) && 1 <= j <= k
    ensures |c.Of(GPU_NODES)| == k && |Pdus(c, 'A')| == |Pdus(c, 'B')| == PathWidth(k) > 0
    ensures Tag(c.Of(GPU_NODES)[j - 1]) == ServerTag(c.tag, j)
    ensures var at, node := (j - 1) % PathWidth(k), c.Of(GPU_NODES)[j - 1];
            && Run(Pdus(c, 'A')[at], node, PsuFeed, NODE_CORD) == Cord(c.tag, "A", at + 1, j)
            && Run(Pdus(c, 'B')[at], node, PsuFeed, NODE_CORD) == Cord(c.tag, "B", at + 1, j)
  {
    var at := (j - 1) % PathWidth(k);
    WidthOf(k);
    Wraps(j - 1, PathWidth(k));
    TagAt(c.Of(GPU_NODES), c.tag, "NODE-", k, j - 1);
    TagAt(Pdus(c, 'A'), c.tag, "PDU-A", PathWidth(k), at);
    TagAt(Pdus(c, 'B'), c.tag, "PDU-B", PathWidth(k), at);
    assert "PDU-" + "A" == "PDU-A" && "PDU-" + "B" == "PDU-B";
  }

  /** What is known of a compute container before looking at the sheet. */
  ghost predicate Standing(sites: seq<Container>, first: nat, at: nat, k: nat) {
    && InParts(sites, first) && at < first && ServersAndPdus(sites[at], k) && k >= 1
    && Distinct(TagsOf(sites[at].devices))
    && forall d :: d in sites[at].devices ==> OwnsTag(sites, at, d)
  }

  lemma {:induction false} ServerFedAt(sites: seq<Container>, first: nat, at: nat, k: nat, j: nat)
    requires Standing(sites, first, at, k) && 1 <= j <= k
    ensures ServerFed(PowerSheet(sites).value, sites[at].tag, PathWidth(k), j)
  {
    Widths(sites[at], k);
    NodeFed(sites, first, at, k, j - 1);
    RunsAreCords(PowerSheet(sites).value, sites[at], k, j);
  }

  lemma {:induction false} RunsAreCords(sheet: seq<Cable>, c: Container, k: nat, j: nat)
    requires ServersAndPdus(c, k) && 1 <= j <= k == |c.Of(GPU_NODES)| && |Pdus(c, 'A')| == |Pdus(c, 'B')| == PathWidth(k) > 0
    requires var a, b, i := Pdus(c, 'A'), Pdus(c, 'B'), j - 1;
             Filter(Into(Tag(c.Of(GPU_NODES)[i])), sheet)
             == [Run(a[i % |a|], c.Of(GPU_NODES)[i], PsuFeed, NODE_CORD), Run(b[i % |b|], c.Of(GPU_NODES)[i], PsuFeed, NODE_CORD)]
    ensures ServerFed(sheet, c.tag, PathWidth(k), j)
  {
    CordIs(c, k, j);
  }

  lemma {:induction false} NodeFed(sites: seq<Container>, first: nat, at: nat, k: nat, i: nat)
    requires Standing(sites, first, at, k) && i < |sites[at].Of(GPU_NODES)|
    requires Pdus(sites[at], 'A') != [] && Pdus(sites[at], 'B') != []
    ensures var a, b, node := Pdus(sites[at], 'A'), Pdus(sites[at], 'B'), sites[at].Of(GPU_NODES)[i];
            Filter(Into(Tag(node)), PowerSheet(sites).value)
            == [Run(a[i % |a|], node, PsuFeed, NODE_CORD), Run(b[i % |b|], node, PsuFeed, NODE_CORD)]
  {
    ServerChild(sites[at], i);
    FedFromInside(sites, first, at, sites[at].Of(GPU_NODES)[i]);
    ServerInside(sites[at], i);
  }

  lemma ServerChild(c: Container, i: nat)
    requires i < |c.Of(GPU_NODES)|
    ensures c.Of(GPU_NODES)[i] in c.devices && c.Of(GPU_NODES)[i].template != "panelboard"
  {
    OfAreChildren(c, GPU_NODES);
    assert c.Of(GPU_NODES)[i] in c.Of(GPU_NODES);
  }

  // ----- PDUs, cooling, switches -----

  /** Each PDU hangs on the panelboard by one branch. */
  ghost predicate PdusFed(sheet: seq<Cable>, container: string, k: nat, panel: string) {
    forall i: nat :: 1 <= i <= PathWidth(k) ==> PduFed(sheet, container, "A", i, panel) && PduFed(sheet, container, "B", i, panel)
  }

  ghost predicate PduFed(sheet: seq<Cable>, container: string, side: string, i: nat, panel: string) {
    Filter(Into(PduTag(container, side, i)), sheet)
    == [Cable("", PduBranch, panel, "OUT", PduTag(container, side, i), "PWR", "60 A 4P5W cord, IEC 60309 3P+N+PE plug")]
  }

  lemma {:induction false} SidePduFed(sites: seq<Container>, first: nat, at: nat, k: nat, i: nat)
    requires Standing(sites, first, at, k) && Panelboard(sites[at]).Some? && i < |SidePdus(sites[at])|
    ensures Filter(Into(Tag(SidePdus(sites[at])[i])), PowerSheet(sites).value)
         == [Run(Panelboard(sites[at]).value, SidePdus(sites[at])[i], PduBranch, PDU_CORD)]
  {
    var c := sites[at];
    PduChild(c, i);
    FedFromInside(sites, first, at, SidePdus(c)[i]);
    PduInside(c, i);
  }

  lemma PduChild(c: Container, i: nat)
    requires i < |SidePdus(c)|
    ensures SidePdus(c)[i] in c.devices && SidePdus(c)[i].template != "panelboard"
  {
    SidePdusAre(c);
    assert SidePdus(c)[i] in SidePdus(c);
  }

  lemma PduIndex(c: Container, k: nat, side: string, i: nat) returns (x: nat)
    requires ServersAndPdus(c, k) && 1 <= i <= PathWidth(k) && side in {"A", "B"}
    ensures x < |SidePdus(c)| && Tag(SidePdus(c)[x]) == PduTag(c.tag, side, i)
  {
    TagAt(Pdus(c, 'A'), c.tag, "PDU-A", PathWidth(k), i - 1);
    TagAt(Pdus(c, 'B'), c.tag, "PDU-B", PathWidth(k), i - 1);
    assert "PDU-" + "A" == "PDU-A" && "PDU-" + "B" == "PDU-B";
    x := if side == "A" then i - 1 else PathWidth(k) + i - 1;
  }

  lemma {:induction false} OnePduFed(sites: seq<Container>, first: nat, at: nat, k: nat, x: nat, side: string, i: nat)
    requires Standing(sites, first, at, k) && Panelboard(sites[at]).Some? && x < |SidePdus(sites[at])|
    requires Tag(SidePdus(sites[at])[x]) == PduTag(sites[at].tag, side, i)
    ensures PduFed(PowerSheet(sites).value, sites[at].tag, side, i, Tag(Panelboard(sites[at]).value))
  {
    SidePduFed(sites, first, at, k, x);
  }

  lemma {:induction false} PduFedAt(sites: seq<Container>, first: nat, at: nat, k: nat, side: string, i: nat)
    requires Standing(sites, first, at, k) && Panelboard(sites[at]).Some? && 1 <= i <= PathWidth(k) && side in {"A", "B"}
    ensures PduFed(PowerSheet(sites).value, sites[at].tag, side, i, Tag(Panelboard(sites[at]).value))
  {
    var x := PduIndex(sites[at], k, side, i);
    OnePduFed(sites, first, at, k, x, side, i);
  }

  /** CDU and dry coolers hang on the panelboard by one field-wired branch each. */
  ghost predicate CoolingFed(sheet: seq<Cable>, c: Container, panel: Device) {
    forall i :: 0 <= i < |Cooling(c)| ==>
      Filter(Into(Tag(Cooling(c)[i])), sheet) == [Run(panel, Cooling(c)[i], LoadBranch, "3ph 4-wire + ground, field-wired")]
  }

  lemma {:induction false} CoolingFedAt(sites: seq<Container>, first: nat, at: nat, k: nat, i: nat)
    requires Standing(sites, first, at, k) && Panelboard(sites[at]).Some? && i < |Cooling(sites[at])|
    ensures Filter(Into(Tag(Cooling(sites[at])[i])), PowerSheet(sites).value)
         == [Run(Panelboard(sites[at]).value, Cooling(sites[at])[i], LoadBranch, FIELD_WIRED)]
  {
    var c := sites[at];
    CoolingChild(c, i);
    FedFromInside(sites, first, at, Cooling(c)[i]);
    CoolingInside(c, i);
  }

  lemma CoolingChild(c: Container, i: nat)
    requires i < |Cooling(c)|
    ensures Cooling(c)[i] in c.devices && Cooling(c)[i].template != "panelboard"
  {
    CoolingAre(c);
    assert Cooling(c)[i] in Cooling(c);
  }

  /** A switch takes the first PDU of each path. */
  ghost predicate SwitchesFed(sheet: seq<Cable>, c: Container) {
    forall i :: 0 <= i < |c.Of(SWITCHES)| ==>
      Filter(Into(Tag(c.Of(SWITCHES)[i])), sheet) == [SwitchCord(c.tag, "A", Tag(c.Of(SWITCHES)[i])), SwitchCord(c.tag, "B", Tag(c.Of(SWITCHES)[i]))]
  }

  function SwitchCord(container: string, side: string, switch: string): Cable {
    Cable("", PsuFeed, PduTag(container, side, 1), "OUT", switch, "PWR", "C13-C14 cordset")
  }

  lemma {:induction false} SwitchFedAt(sites: seq<Container>, first: nat, at: nat, k: nat, i: nat)
    requires Standing(sites, first, at, k) && i < |sites[at].Of(SWITCHES)|
    requires Pdus(sites[at], 'A') != [] && Pdus(sites[at], 'B') != []
    ensures Filter(Into(Tag(sites[at].Of(SWITCHES)[i])), PowerSheet(sites).value)
         == [Run(Pdus(sites[at], 'A')[0], sites[at].Of(SWITCHES)[i], PsuFeed, SWITCH_CORD),
             Run(Pdus(sites[at], 'B')[0], sites[at].Of(SWITCHES)[i], PsuFeed, SWITCH_CORD)]
  {
    SwitchChild(sites[at], i);
    FedFromInside(sites, first, at, sites[at].Of(SWITCHES)[i]);
    SwitchInside(sites[at], i);
  }

  lemma FirstPdus(c: Container, k: nat)
    requires ServersAndPdus(c, k) && k >= 1
    ensures Pdus(c, 'A') != [] && Pdus(c, 'B') != []
    ensures Tag(Pdus(c, 'A')[0]) == PduTag(c.tag, "A", 1) && Tag(Pdus(c, 'B')[0]) == PduTag(c.tag, "B", 1)
  {
    WidthOf(k);
    TagAt(Pdus(c, 'A'), c.tag, "PDU-A", PathWidth(k), 0);
    TagAt(Pdus(c, 'B'), c.tag, "PDU-B", PathWidth(k), 0);
    assert "PDU-" + "A" == "PDU-A" && "PDU-" + "B" == "PDU-B";
  }

  lemma SwitchChild(c: Container, i: nat)
    requires i < |c.Of(SWITCHES)|
    ensures c.Of(SWITCHES)[i] in c.devices && c.Of(SWITCHES)[i].template != "panelboard"
  {
    OfAreChildren(c, SWITCHES);
    assert c.Of(SWITCHES)[i] in c.Of(SWITCHES);
  }

  // ----- PDU loads -----

  function From(t: string): Cable -> bool { (c: Cable) => c.fromTag == t }

  /** Runs from one tag into any of these tags. */
  function FromInto(t: string, tags: seq<string>): Cable -> bool { (c: Cable) => c.fromTag == t && c.toTag in tags }

  /** Runs from one tag, counted tag by tag where they end. */
  function LoadInto(sheet: seq<Cable>, from: string, tags: seq<string>): nat { Sum(Map(RunsBetween(sheet, from), tags)) }

  function RunsBetween(sheet: seq<Cable>, from: string): string -> nat {
    (t: string) => |Filter(From(from), Filter(Into(t), sheet))|
  }

  lemma {:induction false} FilterBoth(sheet: seq<Cable>, from: string, t: string)
    ensures Filter(From(from), Filter(Into(t), sheet)) == Filter(FromInto(from, [t]), sheet)
  {
    if sheet != [] {
      var init, x := sheet[..|sheet| - 1], sheet[|sheet| - 1];
      FilterBoth(init, from, t);
      if x.toTag == t {
        var kept := Filter(Into(t), init);
        assert (kept + [x])[..|kept|] == kept;
      } else {
        assert Filter(Into(t), init) + [] == Filter(Into(t), init);
      }
    }
  }

  lemma {:induction false} FromIntoSplit(sheet: seq<Cable>, from: string, tags: seq<string>, t: string)
    ensures |Filter(FromInto(from, tags + [t]), sheet)| <= |Filter(FromInto(from, tags), sheet)| + |Filter(FromInto(from, [t]), sheet)|
  {
    if sheet != [] {
      FromIntoSplit(sheet[..|sheet| - 1], from, tags, t);
    }
  }

  lemma {:induction false} LoadBound(sheet: seq<Cable>, from: string, tags: seq<string>)
    ensures |Filter(FromInto(from, tags), sheet)| <= LoadInto(sheet, from, tags)
  {
    if tags == [] {
      FilterNone(FromInto(from, tags), sheet);
    } else {
      var init, t := tags[..|tags| - 1], tags[|tags| - 1];
      assert tags == init + [t];
      LoadBound(sheet, from, init);
      FromIntoSplit(sheet, from, init, t);
      FilterBoth(sheet, from, t);
      LoadSnoc(sheet, from, init, t);
    }
  }

  lemma {:induction false} LoadSnoc(sheet: seq<Cable>, from: string, init: seq<string>, t: string)
    ensures LoadInto(sheet, from, init + [t]) == LoadInto(sheet, from, init) + |Filter(From(from), Filter(Into(t), sheet))|
  {
    var f := RunsBetween(sheet, from);
    var ns := Map(f, init + [t]);
    assert ns[..|ns| - 1] == Map(f, init);
    assert ns[|ns| - 1] == f(t) == |Filter(From(from), Filter(Into(t), sheet))|;
    assert Sum(ns) == Sum(Map(f, init)) + f(t);
  }

  lemma {:induction false} SamePdu(container: string, side: string, x: nat, side': string, i: nat)
    requires side in {"A", "B"} && side' in {"A", "B"} && PduTag(container, side, x) == PduTag(container, side', i)
    ensures side == side' && x == i
  {
    assert PduTag(container, side, x)[|container| + 1..] == "PDU-" + side + Dec(x);
    assert PduTag(container, side', i)[|container| + 1..] == "PDU-" + side' + Dec(i);
    assert ("PDU-" + side + Dec(x))[4] == side[0] && ("PDU-" + side' + Dec(i))[4] == side'[0];
    StemInjective("PDU-" + side, x, i);
  }

  lemma {:induction false} FromTwo(x: Cable, y: Cable, from: string)
    ensures |Filter(From(from), [x, y])| == (if x.fromTag == from then 1 else 0) + if y.fromTag == from then 1 else 0
  {
    FilterSnoc(From(from), [], x);
    FilterSnoc(From(from), [x], y);
    assert [] + [x] == [x] && [x] + [y] == [x, y];
  }

  /** Of a server's two cordsets, one leaves a PDU of its own number and side. */
  lemma {:induction false} ServerWeight(sheet: seq<Cable>, container: string, p: nat, j: nat, side: string, i: nat)
    requires ServerFed(sheet, container, p, j) && side in {"A", "B"}
    ensures |Filter(From(PduTag(container, side, i)), Filter(Into(ServerTag(container, j)), sheet))|
         == if (j - 1) % p + 1 == i then 1 else 0
  {
    var n := (j - 1) % p + 1;
    FromTwo(Cord(container, "A", n, j), Cord(container, "B", n, j), PduTag(container, side, i));
    if PduTag(container, "A", n) == PduTag(container, side, i) {
      SamePdu(container, "A", n, side, i);
    }
    if PduTag(container, "B", n) == PduTag(container, side, i) {
      SamePdu(container, "B", n, side, i);
    }
  }

  lemma FullTagsSnoc(container: string, stem: string, n: nat)
    ensures FullTags(container, stem, n + 1) == FullTags(container, stem, n) + [container + "-" + (stem + Dec(n + 1))]
  {
  }

  lemma {:induction false} OwnLoad(sheet: seq<Cable>, container: string, k: nat, p: nat, side: string, i: nat)
    requires p > 0 && side in {"A", "B"} && i >= 1 && forall j :: 1 <= j <= k ==> ServerFed(sheet, container, p, j)
    ensures LoadInto(sheet, PduTag(container, side, i), FullTags(container, "NODE-", k)) == FedBy(k, p, i - 1)
  {
    if k > 0 {
      OwnLoad(sheet, container, k - 1, p, side, i);
      FullTagsSnoc(container, "NODE-", k - 1);
      LoadSnoc(sheet, PduTag(container, side, i), FullTags(container, "NODE-", k - 1), ServerTag(container, k));
      ServerWeight(sheet, container, p, k, side, i);
    } else {
      assert FullTags(container, "NODE-", 0) == [];
    }
  }

  /** A tag no PDU of the container carries feeds none of its servers. */
  lemma {:induction false} OtherLoad(sheet: seq<Cable>, container: string, k: nat, p: nat, from: string)
    requires forall j :: 1 <= j <= k ==> ServerFed(sheet, container, p, j)
    requires forall x: nat :: 1 <= x <= p ==> PduTag(container, "A", x) != from && PduTag(container, "B", x) != from
    ensures LoadInto(sheet, from, FullTags(container, "NODE-", k)) == 0
  {
    if k > 0 {
      OtherLoad(sheet, container, k - 1, p, from);
      FullTagsSnoc(container, "NODE-", k - 1);
      LoadSnoc(sheet, from, FullTags(container, "NODE-", k - 1), ServerTag(container, k));
      assert ServerFed(sheet, container, p, k);
      Wraps(k - 1, p);
      var n := (k - 1) % p + 1;
      FromTwo(Cord(container, "A", n, k), Cord(container, "B", n, k), from);
    } else {
      assert FullTags(container, "NODE-", 0) == [];
    }
  }

  lemma {:induction false} LoadAppend(sheet: seq<Cable>, from: string, a: seq<string>, b: seq<string>)
    ensures LoadInto(sheet, from, a + b) == LoadInto(sheet, from, a) + LoadInto(sheet, from, b)
  {
    MapAppend(RunsBetween(sheet, from), a, b);
    SumJoin(Map(RunsBetween(sheet, from), a), Map(RunsBetween(sheet, from), b));
  }

  lemma {:induction false} OneGroupLoads(sheet: seq<Cable>, from: string, groups: seq<seq<string>>, at: nat)
    requires forall m :: 0 <= m < |groups| && m != at ==> LoadInto(sheet, from, groups[m]) == 0
    ensures LoadInto(sheet, from, Concat(groups)) == if at < |groups| then LoadInto(sheet, from, groups[at]) else 0
  {
    if groups != [] {
      var last := |groups| - 1;
      OneGroupLoads(sheet, from, groups[..last], at);
      LoadAppend(sheet, from, Concat(groups[..last]), groups[last]);
    }
  }

  /** Tags of every server of the site. */
  function AllServerTags(sites: seq<Container>): seq<string> {
    Concat(Map((c: Container) => TagsOf(c.Of(GPU_NODES)), sites))
  }

  lemma {:induction false} ForeignPdu(sites: seq<Container>, first: nat, at: nat, k: nat, m: nat, km: nat, side: string, i: nat, side': string, x: nat)
    requires Standing(sites, first, at, k) && Standing(sites, first, m, km) && m != at
    requires side in {"A", "B"} && side' in {"A", "B"} && 1 <= i <= PathWidth(k) && 1 <= x <= PathWidth(km)
    ensures PduTag(sites[m].tag, side', x) != PduTag(sites[at].tag, side, i)
  {
    var a := PduIndex(sites[at], k, side, i);
    var b := PduIndex(sites[m], km, side', x);
    PduChild(sites[at], a);
    PduChild(sites[m], b);
    TagOfMember(sites[m].devices, SidePdus(sites[m])[b]);
    assert OwnsTag(sites, at, SidePdus(sites[at])[a]);
  }

  ghost predicate AllStanding(sites: seq<Container>, first: nat, ks: seq<nat>) {
    |ks| == first && forall at :: 0 <= at < first ==> Standing(sites, first, at, ks[at])
  }

  lemma {:induction false} ServersFedAt(sites: seq<Container>, first: nat, at: nat, k: nat)
    requires Standing(sites, first, at, k)
    ensures ServersFed(PowerSheet(sites).value, sites[at].tag, k)
  {
    forall j: nat | 1 <= j <= k ensures ServerFed(PowerSheet(sites).value, sites[at].tag, PathWidth(k), j) {
      ServerFedAt(sites, first, at, k, j);
    }
  }

  lemma {:induction false} ForeignLoad(sites: seq<Container>, first: nat, at: nat, k: nat, m: nat, km: nat, side: string, i: nat)
    requires Standing(sites, first, at, k) && Standing(sites, first, m, km) && m != at
    requires side in {"A", "B"} && 1 <= i <= PathWidth(k)
    ensures LoadInto(PowerSheet(sites).value, PduTag(sites[at].tag, side, i), TagsOf(sites[m].Of(GPU_NODES))) == 0
  {
    forall x: nat | 1 <= x <= PathWidth(km)
      ensures PduTag(sites[m].tag, "A", x) != PduTag(sites[at].tag, side, i)
      ensures PduTag(sites[m].tag, "B", x) != PduTag(sites[at].tag, side, i)
    {
      ForeignPdu(sites, first, at, k, m, km, side, i, "A", x);
      ForeignPdu(sites, first, at, k, m, km, side, i, "B", x);
    }
    ServersFedAt(sites, first, m, km);
    OtherLoad(PowerSheet(sites).value, sites[m].tag, km, PathWidth(km), PduTag(sites[at].tag, side, i));
  }

  lemma {:induction false} OwnLoadAt(sites: seq<Container>, first: nat, at: nat, k: nat, side: string, i: nat)
    requires Standing(sites, first, at, k) && side in {"A", "B"} && 1 <= i <= PathWidth(k)
    ensures LoadInto(PowerSheet(sites).value, PduTag(sites[at].tag, side, i), TagsOf(sites[at].Of(GPU_NODES))) <= 3
  {
    ServersFedAt(sites, first, at, k);
    WidthCovers(k);
    LoadOfFed(PowerSheet(sites).value, sites[at].tag, k, PathWidth(k), side, i);
    assert TagsOf(sites[at].Of(GPU_NODES)) == FullTags(sites[at].tag, "NODE-", k);
  }

  lemma {:induction false} LoadOfFed(sheet: seq<Cable>, container: string, k: nat, p: nat, side: string, i: nat)
    requires 0 < p && k <= 3 * p && side in {"A", "B"} && i >= 1 && forall j :: 1 <= j <= k ==> ServerFed(sheet, container, p, j)
    ensures LoadInto(sheet, PduTag(container, side, i), FullTags(container, "NODE-", k)) <= 3
  {
    OwnLoad(sheet, container, k, p, side, i);
    AtMostThree(k, p, i - 1);
  }

  lemma WidthCovers(k: nat)
    ensures k <= 3 * PathWidth(k)
    ensures k >= 1 ==> PathWidth(k) >= 1
  {
  }

  /** No PDU feeds more than three servers of the whole site. */
  ghost predicate PduLoadsHold(sheet: seq<Cable>, container: string, k: nat, servers: seq<string>) {
    forall i: nat :: 1 <= i <= PathWidth(k) ==>
      && |Filter(FromInto(PduTag(container, "A", i), servers), sheet)| <= 3
      && |Filter(FromInto(PduTag(container, "B", i), servers), sheet)| <= 3
  }

  lemma {:induction false} PduLoad(sites: seq<Container>, first: nat, ks: seq<nat>, at: nat, side: string, i: nat)
    requires AllStanding(sites, first, ks) && InParts(sites, first) && at < first && side in {"A", "B"} && 1 <= i <= PathWidth(ks[at])
    ensures |Filter(FromInto(PduTag(sites[at].tag, side, i), AllServerTags(sites[..first])), PowerSheet(sites).value)| <= 3
  {
    var from, sheet := PduTag(sites[at].tag, side, i), PowerSheet(sites).value;
    var groups := Map((c: Container) => TagsOf(c.Of(GPU_NODES)), sites[..first]);
    forall m | 0 <= m < |groups| && m != at ensures LoadInto(sheet, from, groups[m]) == 0 {
      ForeignLoad(sites, first, at, ks[at], m, ks[m], side, i);
    }
    OneGroupLoads(sheet, from, groups, at);
    OwnLoadAt(sites, first, at, ks[at], side, i);
    LoadBound(sheet, from, AllServerTags(sites[..first]));
  }

  // ----- the whole container -----

  /** The panelboard hangs on one feeder, from the grid container whose feed lists this one. */
  ghost predicate PanelFedOnce(sites: seq<Container>, first: nat, at: nat)
    requires at < first < |sites| - 1 && PowerSheet(sites).Ok?
  {
    Panelboard(sites[at]).Some? && exists g: nat :: FeedsPanel(sites, first, at, g)
  }

  /** The k-th feed lists container `at`, and the one run into its panelboard is the feeder from that switchboard. */
  ghost predicate FeedsPanel(sites: seq<Container>, first: nat, at: nat, k: nat)
    requires at < first < |sites| - 1 && PowerSheet(sites).Ok? && Panelboard(sites[at]).Some?
  {
    && k < |sites| - 1 - first && at + 1 in Feeds(first, |sites| - 1 - first)[k] && Switchboard(sites[first + k]).Some?
    && Filter(Into(Tag(Panelboard(sites[at]).value)), PowerSheet(sites).value)
       == [Run(Switchboard(sites[first + k]).value, Panelboard(sites[at]).value, Feeder, "4 x 2/0 AWG Cu + ground, 175 A (size for run length)")]
  }

  /** Everything a compute container of k servers draws power from: its panelboard from one feeder; PDUs and cooling from the
      panelboard; each server from one A and one B PDU, no PDU over three servers; switches from the first PDU of each path.
      Nothing is fed twice and nothing is left out. */
  ghost predicate PowerStands(sites: seq<Container>, first: nat, at: nat, k: nat) {
    && first < |sites| - 1 && at < first && PowerSheet(sites).Ok?
    && var sheet, c := PowerSheet(sites).value, sites[at];
    && ServersAndPdus(c, k) && ServersFed(sheet, c.tag, k)
    && PduLoadsHold(sheet, c.tag, k, AllServerTags(sites[..first]))
    && SwitchesFed(sheet, c)
    && PanelFedOnce(sites, first, at)
    && CoolingFed(sheet, c, Panelboard(c).value)
    && PdusFed(sheet, c.tag, k, Tag(Panelboard(c).value))
  }

  lemma {:induction false} LoadsHoldAt(sites: seq<Container>, first: nat, ks: seq<nat>, at: nat)
    requires AllStanding(sites, first, ks) && InParts(sites, first) && at < first
    ensures PduLoadsHold(PowerSheet(sites).value, sites[at].tag, ks[at], AllServerTags(sites[..first]))
  {
    forall i: nat | 1 <= i <= PathWidth(ks[at])
      ensures |Filter(FromInto(PduTag(sites[at].tag, "A", i), AllServerTags(sites[..first])), PowerSheet(sites).value)| <= 3
      ensures |Filter(FromInto(PduTag(sites[at].tag, "B", i), AllServerTags(sites[..first])), PowerSheet(sites).value)| <= 3
    {
      PduLoad(sites, first, ks, at, "A", i);
      PduLoad(sites, first, ks, at, "B", i);
    }
  }

  lemma {:induction false} SwitchesFedAt(sites: seq<Container>, first: nat, at: nat, k: nat)
    requires Standing(sites, first, at, k)
    ensures SwitchesFed(PowerSheet(sites).value, sites[at])
  {
    var sheet, c := PowerSheet(sites).value, sites[at];
    FirstPdus(c, k);
    forall i | 0 <= i < |c.Of(SWITCHES)|
      ensures Filter(Into(Tag(c.Of(SWITCHES)[i])), sheet)
           == [SwitchCord(c.tag, "A", Tag(c.Of(SWITCHES)[i])), SwitchCord(c.tag, "B", Tag(c.Of(SWITCHES)[i]))]
    {
      SwitchFedAt(sites, first, at, k, i);
    }
  }

  lemma {:induction false} PanelSideFed(sites: seq<Container>, first: nat, at: nat, k: nat)
    requires Standing(sites, first, at, k) && Panelboard(sites[at]).Some?
    ensures CoolingFed(PowerSheet(sites).value, sites[at], Panelboard(sites[at]).value)
    ensures PdusFed(PowerSheet(sites).value, sites[at].tag, k, Tag(Panelboard(sites[at]).value))
  {
    forall i | 0 <= i < |Cooling(sites[at])|
      ensures Filter(Into(Tag(Cooling(sites[at])[i])), PowerSheet(sites).value)
           == [Run(Panelboard(sites[at]).value, Cooling(sites[at])[i], LoadBranch, FIELD_WIRED)]
    {
      CoolingFedAt(sites, first, at, k, i);
    }
    forall i: nat | 1 <= i <= PathWidth(k)
      ensures PduFed(PowerSheet(sites).value, sites[at].tag, "A", i, Tag(Panelboard(sites[at]).value))
      ensures PduFed(PowerSheet(sites).value, sites[at].tag, "B", i, Tag(Panelboard(sites[at]).value))
    {
      PduFedAt(sites, first, at, k, "A", i);
      PduFedAt(sites, first, at, k, "B", i);
    }
  }

  lemma {:induction false} PanelFedAt(sites: seq<Container>, first: nat, at: nat, k: nat)
    requires Standing(sites, first, at, k)
    requires forall n :: 0 <= n < first ==> Panelboard(sites[n]).Some?
    requires forall g :: first <= g < |sites| - 1 ==> Switchboard(sites[g]).Some?
    ensures PanelFedOnce(sites, first, at)
  {
    PanelboardIsChild(sites[at]);
    OnlyPanel(sites, first, at);
    var g := PanelFed(sites, first, at);
    assert FeedsPanel(sites, first, at, g);
  }

  // ----- every generated site -----

  lemma {:induction false} StandsAt(sites: seq<Container>, first: nat, at: nat, k: nat)
    requires InParts(sites, first) && OneTagEach(sites) && at < first && k >= 1
    requires PowerReady(sites[at], k) && Sorted(sites[at].devices, ChildLe())
    ensures Standing(sites, first, at, k)
  {
    PathsInOrder(sites[at], k);
    OwnTagsDistinct(sites, at);
    forall d | d in sites[at].devices ensures OwnsTag(sites, at, d) {
      TagIsOwn(sites, at, d);
    }
  }

  lemma {:induction false} PlannedReady(plans: seq<Plan>, battery: Plan, nodes: int, n: nat, t: Topology, sites: seq<Container>)
    requires BlocksKinded(Blocks(plans + [battery])) && sites == SiteContainers(Blocks(plans + [battery]))
    requires nodes >= 1 && 1 <= n <= ComputeContainerCount(nodes) <= |plans|
    requires plans[n - 1] == ComputePlan(Some(t), nodes, n) && PowerLayout(t.devices)
    ensures |sites| >= n && NodesInContainer(nodes, n) >= 1 && PowerReady(sites[n - 1], NodesInContainer(nodes, n))
    ensures Sorted(sites[n - 1].devices, ChildLe())
  {
    var all, c := plans + [battery], sites[n - 1];
    assert all[n - 1] == plans[n - 1] && c == SiteContainer(Blocks(all)[n - 1]);
    EveryContainerReady(t, all, nodes, n, c);
    ChildrenSorted(Blocks(all)[n - 1]);
  }

  lemma ChildrenSorted(b: Block)
    requires KindOf(b.root.template).Some?
    ensures Sorted(SiteContainer(b).devices, ChildLe())
  {
    ChildLeIsTotal();
    SortSorts(b.leaves, ChildLe());
  }

  /** What the power sheet asks of a catalog: compute topologies with servers NODE-1…7 on PDUs PDU-A1…3 and PDU-B1…3. */
  ghost predicate PowerCatalog(m: Manifest, prof: Profile) {
    forall v :: prof.ComputeVariant(v).Some? ==> PoweredTopology(m.Topology(ComputeContainer, prof.ComputeVariant(v).value))
  }

  ghost predicate PoweredTopology(t: Option<Topology>) { t.Some? && PowerLayout(t.value.devices) }

  /** A compute container as read: so many servers, children in natural order. */
  ghost predicate ReadyWith(sites: seq<Container>, at: nat, k: nat) {
    at < |sites| && k >= 1 && PowerReady(sites[at], k) && Sorted(sites[at].devices, ChildLe())
  }

  ghost predicate AllReady(sites: seq<Container>, ks: seq<nat>) { forall at :: 0 <= at < |ks| ==> ReadyWith(sites, at, ks[at]) }

  lemma {:induction false} ReadyAt(profile: string, r: Resolution, m: Manifest, templates: Templates, n: nat) returns (k: nat)
    requires Generate(profile, r, m, templates).Ok? && profile in m.profiles
    requires Readable(m, m.profiles[profile]) && PowerCatalog(m, m.profiles[profile])
    requires r.computeCount == ComputeContainerCount(r.nodeCount) && 1 <= n <= r.computeCount
    ensures k == NodesInContainer(r.nodeCount, n)
    ensures ReadyWith(Containers(Generate(profile, r, m, templates).value.devices), n - 1, k)
  {
    var plans, battery, between := Parts(profile, r, m, templates);
    var prof := m.profiles[profile];
    PlansAt(m, prof, r, plans, 0);
    assert PoweredTopology(m.Topology(ComputeContainer, prof.ComputeVariant(r.gpu).value));
    var t := m.Topology(ComputeContainer, prof.ComputeVariant(r.gpu).value).value;
    SiteReadsInOrder(m, prof, r, templates, plans, battery);
    ComputePlanAt(m, prof, r, plans, n, t);
    PlannedReady(plans, battery, r.nodeCount, n, t, Containers(SiteDevices(plans, battery, r)));
    k := NodesInContainer(r.nodeCount, n);
  }

  lemma AllReadyNext(sites: seq<Container>, ks: seq<nat>, k: nat)
    requires AllReady(sites, ks) && ReadyWith(sites, |ks|, k)
    ensures AllReady(sites, ks + [k])
  {
  }

  /** How many servers each container was read with. */
  lemma {:induction false} SiteReady(profile: string, r: Resolution, m: Manifest, templates: Templates, at: nat, upTo: nat) returns (ks: seq<nat>)
    requires Generate(profile, r, m, templates).Ok? && profile in m.profiles
    requires Readable(m, m.profiles[profile]) && PowerCatalog(m, m.profiles[profile])
    requires r.computeCount == ComputeContainerCount(r.nodeCount) && upTo <= r.computeCount
    ensures |ks| == upTo && AllReady(Containers(Generate(profile, r, m, templates).value.devices), ks)
    ensures at < upTo ==> ks[at] == NodesInContainer(r.nodeCount, at + 1)
  {
    if upTo == 0 {
      ks := [];
    } else {
      ks := SiteReady(profile, r, m, templates, at, upTo - 1);
      var k := ReadyAt(profile, r, m, templates, upTo);
      AllReadyNext(Containers(Generate(profile, r, m, templates).value.devices), ks, k);
      ks := ks + [k];
    }
  }

  /** Read back, the site has its sheet in parts, and gear in every container. */
  ghost predicate Geared(sites: seq<Container>, first: nat) {
    && InParts(sites, first)
    && (forall n :: 0 <= n < first ==> Panelboard(sites[n]).Some?)
    && (forall g :: first <= g < |sites| - 1 ==> Switchboard(sites[g]).Some?)
  }

  lemma {:induction false} GearedFrom(sites: seq<Container>, first: nat)
    requires Ordered(sites, first) && first < |sites| - 1 && GearTagged(sites[first..|sites| - 1], sites[..first])
    ensures Geared(sites, first)
  {
    SheetParts(sites, first);
    forall n | 0 <= n < first ensures Panelboard(sites[n]).Some? {
      assert sites[..first][n] == sites[n];
    }
    forall g | first <= g < |sites| - 1 ensures Switchboard(sites[g]).Some? {
      assert sites[first..|sites| - 1][g - first] == sites[g];
    }
  }

  lemma {:induction false} SiteGeared(profile: string, r: Resolution, m: Manifest, templates: Templates)
    requires Generate(profile, r, m, templates).Ok? && profile in m.profiles && Schedulable(m, m.profiles[profile])
    requires r.computeCount == ComputeContainerCount(r.nodeCount)
    ensures Geared(Containers(Generate(profile, r, m, templates).value.devices), r.computeCount)
  {
    var plans, battery, between := Parts(profile, r, m, templates);
    ScheduleReadsSite(profile, r, m, templates, plans, battery);
    ComputeCountWithin(m, m.profiles[profile], r, plans);
    GearedFrom(SiteContainers(Blocks(plans + [battery])), r.computeCount);
  }

  lemma {:induction false} StandingPowered(sites: seq<Container>, first: nat, ks: seq<nat>, at: nat)
    requires Geared(sites, first) && AllStanding(sites, first, ks) && at < first
    ensures PowerStands(sites, first, at, ks[at])
  {
    ServersFedAt(sites, first, at, ks[at]);
    LoadsHoldAt(sites, first, ks, at);
    SwitchesFedAt(sites, first, at, ks[at]);
    PanelFedAt(sites, first, at, ks[at]);
    PanelSideFed(sites, first, at, ks[at]);
  }

  lemma {:induction false} AllStand(sites: seq<Container>, first: nat, ks: seq<nat>)
    requires InParts(sites, first) && OneTagEach(sites) && AllReady(sites, ks) && |ks| == first
    ensures AllStanding(sites, first, ks)
  {
    forall at | 0 <= at < first ensures Standing(sites, first, at, ks[at]) {
      assert ReadyWith(sites, at, ks[at]);
      StandsAt(sites, first, at, ks[at]);
    }
  }

  lemma {:induction false} PoweredAs(sites: seq<Container>, first: nat, ks: seq<nat>, at: nat)
    requires Geared(sites, first) && OneTagEach(sites) && AllReady(sites, ks) && |ks| == first && at < first
    ensures PowerStands(sites, first, at, ks[at])
  {
    AllStand(sites, first, ks);
    StandingPowered(sites, first, ks, at);
  }

  /** Dual-path power, device by device, in every compute container of every generated site, the partial last one
      included: container `at`, counted from none, holds the servers the packing gives it. */
  lemma {:induction false} SitePowered(profile: string, r: Resolution, m: Manifest, templates: Templates, at: nat) returns (k: nat)
    requires Generate(profile, r, m, templates).Ok? && profile in m.profiles
    requires Schedulable(m, m.profiles[profile]) && PowerCatalog(m, m.profiles[profile])
    requires r.computeCount == ComputeContainerCount(r.nodeCount) && at < r.computeCount
    ensures k == NodesInContainer(r.nodeCount, at + 1)
    ensures PowerStands(Containers(Generate(profile, r, m, templates).value.devices), r.computeCount, at, k)
  {
    SiteGeared(profile, r, m, templates);
    SiteTagsApart(profile, r, m, templates);
    var ks := SiteReady(profile, r, m, templates, at, r.computeCount);
    PoweredAs(Containers(Generate(profile, r, m, templates).value.devices), r.computeCount, ks, at);
    k := ks[at];
  }

  // ----- the battery pad -----

  /** Each PCS of the pad has one DC string run, from the battery bank, and nothing else. */
  ghost predicate StringsStand(sites: seq<Container>)
    requires sites != []
  {
    var pad := Last(sites);
    && PowerSheet(sites).Ok?
    && (pad.One({"bess_catl"}).Some? ==>
          forall i :: 0 <= i < |pad.Of({"pcs"})| ==>
            Filter(Into(Tag(pad.Of({"pcs"})[i])), PowerSheet(sites).value)
            == [Run(pad.One({"bess_catl"}).value, pad.Of({"pcs"})[i], DcStrings, "1500 V DC PV/BESS cable, size per CATL string count")])
  }

  lemma PadOwns(sites: seq<Container>, k: nat, d: Device)
    requires OneTagEach(sites) && k + 1 == |sites| && d in Last(sites).devices
    ensures OwnsTag(sites, k, d) && Distinct(TagsOf(Last(sites).devices))
  {
    OwnTagsDistinct(sites, k);
    TagIsOwn(sites, k, d);
  }

  lemma PcsChild(pad: Container, i: nat)
    requires i < |pad.Of({"pcs"})|
    ensures pad.Of({"pcs"})[i] in pad.devices
  {
    OfAreChildren(pad, {"pcs"});
    assert pad.Of({"pcs"})[i] in pad.Of({"pcs"});
  }

  lemma {:induction false} PcsFed(sites: seq<Container>, first: nat, i: nat)
    requires InParts(sites, first) && OneTagEach(sites) && Last(sites).One({"bess_catl"}).Some? && i < |Last(sites).Of({"pcs"})|
    ensures Filter(Into(Tag(Last(sites).Of({"pcs"})[i])), PowerSheet(sites).value)
         == [Run(Last(sites).One({"bess_catl"}).value, Last(sites).Of({"pcs"})[i], DcStrings, PCS_DC_CABLE)]
  {
    var pad, k := Last(sites), |sites| - 1;
    PcsChild(pad, i);
    PadOwns(sites, k, pad.Of({"pcs"})[i]);
    PcsFedBy(sites, first, k, pad, i);
  }

  lemma {:induction false} PcsFedBy(sites: seq<Container>, first: nat, k: nat, pad: Container, i: nat)
    requires InParts(sites, first) && k + 1 == |sites| && pad == Last(sites) && pad.One({"bess_catl"}).Some? && i < |pad.Of({"pcs"})|
    requires Distinct(TagsOf(pad.devices)) && OwnsTag(sites, k, pad.Of({"pcs"})[i])
    ensures Filter(Into(Tag(pad.Of({"pcs"})[i])), PowerSheet(sites).value)
         == [Run(pad.One({"bess_catl"}).value, pad.Of({"pcs"})[i], DcStrings, PCS_DC_CABLE)]
  {
    PcsRunInto(pad, i);
    FedFromPad(sites, first, k, pad.Of({"pcs"})[i]);
  }

  lemma {:induction false} StringsFrom(sites: seq<Container>, first: nat)
    requires InParts(sites, first) && OneTagEach(sites)
    ensures StringsStand(sites)
  {
    if Last(sites).One({"bess_catl"}).Some? {
      forall i | 0 <= i < |Last(sites).Of({"pcs"})|
        ensures Filter(Into(Tag(Last(sites).Of({"pcs"})[i])), PowerSheet(sites).value)
             == [Run(Last(sites).One({"bess_catl"}).value, Last(sites).Of({"pcs"})[i], DcStrings, PCS_DC_CABLE)]
      {
        PcsFed(sites, first, i);
      }
    }
  }

  lemma {:induction false} SiteStrings(profile: string, r: Resolution, m: Manifest, templates: Templates)
    requires Generate(profile, r, m, templates).Ok? && profile in m.profiles && Schedulable(m, m.profiles[profile])
    requires r.computeCount == ComputeContainerCount(r.nodeCount)
    ensures Containers(Generate(profile, r, m, templates).value.devices) != []
    ensures StringsStand(Containers(Generate(profile, r, m, templates).value.devices))
  {
    SiteGeared(profile, r, m, templates);
    SiteTagsApart(profile, r, m, templates);
    StringsFrom(Containers(Generate(profile, r, m, templates).value.devices), r.computeCount);
  }
}
