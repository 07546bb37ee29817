/** A/B power inside a compute container, the partial last one included. */
module DualPath {
  import opened Lists
  import opened Text
  import opened Numbering
  import opened Catalog
  import opened ComputeNodes
  import opened Dtm
  import opened SitePlan
  import opened DtmSpec
  import opened DtmSoundness
  import opened SiteIndex
  import opened Sorting
  import opened Cabling
  import opened PowerCables
  import opened ManagementNetwork
  import opened ContainerGear

  function NumberedTags(stem: string, n: nat): (r: seq<Option<string>>)
    ensures |r| == n
  {
    seq(n, i requires 0 <= i < n => Some(stem + Dec(i + 1)))
  }

  /** A full container's topology: servers NODE-1…7, PDUs PDU-A1…3 and PDU-B1…3. */
  ghost predicate PowerLayout(specs: seq<DeviceSpec>) {
    && multiset(TagsUsing(specs, GPU_NODES)) == multiset(NumberedTags("NODE-", 7))
    && multiset(TagsUsing(specs, {"pdu"})) == multiset(NumberedTags("PDU-A", 3) + NumberedTags("PDU-B", 3))
  }

  function PdusPerSide(nodes: int): int { CeilDiv(nodes, NODES_PER_PDU) }

  // ----- what the partial container keeps -----

  lemma {:induction false} StemInjective(stem: string, a: nat, b: nat)
    requires stem + Dec(a) == stem + Dec(b)
    ensures a == b
  {
    assert (stem + Dec(a))[|stem|..] == Dec(a) && (stem + Dec(b))[|stem|..] == Dec(b);
    DecInjective(a, b);
  }

  lemma {:induction false} TagRangeMember(stem: string, lo: nat, hi: nat, tag: string)
    ensures tag in TagRange(stem, lo, hi) <==> exists i: nat :: lo <= i <= hi && tag == stem + Dec(i)
    decreases hi
  {
    if lo <= hi {
      if hi > 0 {
        TagRangeMember(stem, lo, hi - 1, tag);
      } else {
        assert TagRange(stem, lo, -1) == {};
      }
      assert stem + IntText(hi) == stem + Dec(hi);
    }
  }

  /** A numbered family's tag is in its own range by its number, and never in another family's. */
  lemma {:induction false} InRangeIff(stem: string, lo: nat, hi: nat, j: nat)
    ensures stem + Dec(j) in TagRange(stem, lo, hi) <==> lo <= j <= hi
  {
    TagRangeMember(stem, lo, hi, stem + Dec(j));
    forall i: nat | stem + Dec(j) == stem + Dec(i) ensures i == j {
      StemInjective(stem, i, j);
    }
  }

  lemma {:induction false} DroppedIff(k: nat, j: nat)
    requires 1 <= j
    ensures j <= 7 ==> ("NODE-" + Dec(j) in DroppedTags(k) <==> j > k)
    ensures j <= 3 ==> ("PDU-A" + Dec(j) in DroppedTags(k) <==> j > PdusPerSide(k))
    ensures j <= 3 ==> ("PDU-B" + Dec(j) in DroppedTags(k) <==> j > PdusPerSide(k))
  {
    var p := PdusPerSide(k);
    InRangeIff("NODE-", k + 1, 7, j);
    InRangeIff("PDU-A", p + 1, 3, j);
    InRangeIff("PDU-B", p + 1, 3, j);
    OtherRange("NODE-", "PDU-A", p + 1, 3, j);
    OtherRange("NODE-", "PDU-B", p + 1, 3, j);
    OtherRange("PDU-A", "NODE-", k + 1, 7, j);
    OtherRange("PDU-A", "PDU-B", p + 1, 3, j);
    OtherRange("PDU-B", "NODE-", k + 1, 7, j);
    OtherRange("PDU-B", "PDU-A", p + 1, 3, j);
  }

  lemma {:induction false} OtherRange(stem: string, other: string, lo: nat, hi: nat, j: nat)
    requires |stem| == |other| == 5 && (stem[0] != other[0] || stem[4] != other[4])
    ensures stem + Dec(j) !in TagRange(other, lo, hi)
  {
    TagRangeMember(other, lo, hi, stem + Dec(j));
    forall i: nat ensures stem + Dec(j) != other + Dec(i) {
      assert (stem + Dec(j))[0] == stem[0] && (other + Dec(i))[0] == other[0];
      assert (stem + Dec(j))[4] == stem[4] && (other + Dec(i))[4] == other[4];
    }
  }

  /** Dropping a tail of a numbered family keeps its head. */
  lemma FamilyKept(stem: string, total: nat, k: nat, drop: set<string>)
    requires k <= total
    requires forall j :: 1 <= j <= total ==> (stem + Dec(j) in drop <==> j > k)
    ensures Filter(Keeps(drop), NumberedTags(stem, total)) == NumberedTags(stem, k)
  {
    var rest := NumberedTags(stem, total)[k..];
    assert NumberedTags(stem, total) == NumberedTags(stem, k) + rest;
    FilterAppend(Keeps(drop), NumberedTags(stem, k), rest);
    FilterAll(Keeps(drop), NumberedTags(stem, k));
    FilterNone(Keeps(drop), rest);
  }

  lemma ServersKept(specs: seq<DeviceSpec>, k: nat)
    requires PowerLayout(specs) && 1 <= k <= 7
    ensures multiset(KeptTags(specs, DroppedTags(k), GPU_NODES)) == multiset(NumberedTags("NODE-", k))
  {
    FilterPermuted(Keeps(DroppedTags(k)), TagsUsing(specs, GPU_NODES), NumberedTags("NODE-", 7));
    forall j | 1 <= j <= 7 ensures "NODE-" + Dec(j) in DroppedTags(k) <==> j > k {
      DroppedIff(k, j);
    }
    FamilyKept("NODE-", 7, k, DroppedTags(k));
  }

  lemma PdusKept(specs: seq<DeviceSpec>, k: nat)
    requires PowerLayout(specs) && 1 <= k <= 7
    ensures multiset(KeptTags(specs, DroppedTags(k), {"pdu"}))
         == multiset(NumberedTags("PDU-A", PdusPerSide(k)) + NumberedTags("PDU-B", PdusPerSide(k)))
  {
    var drop := DroppedTags(k);
    FilterPermuted(Keeps(drop), TagsUsing(specs, {"pdu"}), NumberedTags("PDU-A", 3) + NumberedTags("PDU-B", 3));
    FilterAppend(Keeps(drop), NumberedTags("PDU-A", 3), NumberedTags("PDU-B", 3));
    forall j | 1 <= j <= 3
      ensures "PDU-A" + Dec(j) in drop <==> j > PdusPerSide(k)
      ensures "PDU-B" + Dec(j) in drop <==> j > PdusPerSide(k)
    {
      DroppedIff(k, j);
    }
    FamilyKept("PDU-A", 3, PdusPerSide(k), drop);
    FamilyKept("PDU-B", 3, PdusPerSide(k), drop);
  }

  // ----- the container the schedule reads -----

  /** Site tags of a numbered family in one container. */
  function FullTags(container: string, stem: string, n: nat): (r: seq<string>)
    ensures |r| == n
  {
    seq(n, i requires 0 <= i < n => container + "-" + (stem + Dec(i + 1)))
  }

  function NameText(name: Option<string>): string { if name.Some? then name.value else "" }

  lemma {:induction false} MapFilter<A, B>(f: A -> B, p: A -> bool, q: B -> bool, xs: seq<A>)
    requires forall x :: p(x) == q(f(x))
    ensures Map(f, Filter(p, xs)) == Filter(q, Map(f, xs))
  {
    if xs != [] {
      var init, x := xs[..|xs| - 1], xs[|xs| - 1];
      MapFilter(f, p, q, init);
      assert Map(f, xs)[..|init|] == Map(f, init);
      MapAppend(f, Filter(p, init), if p(x) then [x] else []);
    }
  }

  lemma MultisetHas<T>(xs: seq<T>, ys: seq<T>, x: T)
    requires multiset(xs) == multiset(ys) && x in xs
    ensures x in ys
  {
    assert x in multiset(ys);
  }

  /** Tags the schedule prints for some devices, from the names they carry. */
  lemma {:induction false} TagsFromNames(devices: seq<Device>, templates: set<string>, names: seq<string>)
    requires multiset(NamesUsing(devices, templates)) == multiset(Map((s: string) => Some(s), names))
    requires forall i :: 0 <= i < |names| ==> names[i] != ""
    ensures multiset(TagsOf(Filter(UsesOneOf(templates), devices))) == multiset(names)
  {
    var own := Filter(UsesOneOf(templates), devices);
    var some := Map((s: string) => Some(s), names);
    var shown := NamesUsing(devices, templates);
    forall i | 0 <= i < |own| ensures Tag(own[i]) == NameText(shown[i]) {
      assert shown[i] in shown;
      MultisetHas(shown, some, shown[i]);
    }
    assert TagsOf(own) == Map((n: Option<string>) => NameText(n), shown);
    MapPermuted((n: Option<string>) => NameText(n), shown, some);
    assert Map((n: Option<string>) => NameText(n), some) == names;
  }

  lemma SiteTagsNumbered(container: string, stem: string, n: nat)
    ensures SiteTags(container, NumberedTags(stem, n)) == Map((s: string) => Some(s), FullTags(container, stem, n))
  {
    var numbered := NumberedTags(stem, n);
    forall i | 0 <= i < n ensures numbered[i].value != "" {
      NumOfDec(i + 1);
    }
  }

  /** The devices of these templates carry exactly these tags. */
  ghost predicate Shows(devices: seq<Device>, templates: set<string>, tags: seq<string>) {
    multiset(TagsOf(Filter(UsesOneOf(templates), devices))) == multiset(tags)
  }

  function PduTags(container: string, p: nat): seq<string> { FullTags(container, "PDU-A", p) + FullTags(container, "PDU-B", p) }

  /** The servers and PDUs of a container holding k servers, and their site tags. */
  ghost predicate PowerReady(c: Container, k: nat) {
    && Shows(c.devices, GPU_NODES, FullTags(c.tag, "NODE-", k))
    && Shows(c.devices, {"pdu"}, PduTags(c.tag, PdusPerSide(k)))
  }

  /** Kept local tags become the site tags the schedule prints. */
  lemma ShownTags(b: Block, topology: Topology, tag: string, drop: set<string>, templates: set<string>,
                  local: seq<Option<string>>, names: seq<string>)
    requires Realizes(b, PlanOf(ComputeContainer, Some(topology), tag, drop))
    requires multiset(KeptTags(topology.devices, drop, templates)) == multiset(local)
    requires SiteTags(tag, local) == Map((s: string) => Some(s), names)
    requires forall i :: 0 <= i < |names| ==> names[i] != ""
    ensures Shows(Sort(b.leaves, ChildLe()), templates, names)
  {
    NamesOfContainer(b, ComputeContainer, Some(topology), tag, drop, templates);
    NamesSorted(b.leaves, templates);
    MapPermuted((t: Option<string>) => SiteTag(tag, t), KeptTags(topology.devices, drop, templates), local);
    TagsFromNames(Sort(b.leaves, ChildLe()), templates, names);
  }

  lemma BlockPowerReady(b: Block, topology: Topology, nodes: int, n: nat)
    requires Realizes(b, ComputePlan(Some(topology), nodes, n)) && KindOf(b.root.template).Some?
    requires PowerLayout(topology.devices) && 1 <= NodesInContainer(nodes, n) <= 7
    ensures PowerReady(SiteContainer(b), NodesInContainer(nodes, n))
  {
    var k, tag := NodesInContainer(nodes, n), "C" + Dec(n);
    ServersKept(topology.devices, k);
    PdusKept(topology.devices, k);
    LayoutShown(b, topology, tag, k, DroppedTags(k));
    var c := SiteContainer(b);
    assert c.tag == tag && c.devices == Sort(b.leaves, ChildLe());
  }

  lemma LayoutShown(b: Block, topology: Topology, tag: string, k: nat, drop: set<string>)
    requires Realizes(b, PlanOf(ComputeContainer, Some(topology), tag, drop))
    requires multiset(KeptTags(topology.devices, drop, GPU_NODES)) == multiset(NumberedTags("NODE-", k))
    requires multiset(KeptTags(topology.devices, drop, {"pdu"}))
          == multiset(NumberedTags("PDU-A", PdusPerSide(k)) + NumberedTags("PDU-B", PdusPerSide(k)))
    ensures Shows(Sort(b.leaves, ChildLe()), GPU_NODES, FullTags(tag, "NODE-", k))
    ensures Shows(Sort(b.leaves, ChildLe()), {"pdu"}, PduTags(tag, PdusPerSide(k)))
  {
    SiteTagsNumbered(tag, "NODE-", k);
    ShownTags(b, topology, tag, drop, GPU_NODES, NumberedTags("NODE-", k), FullTags(tag, "NODE-", k));
    PdusShown(b, topology, tag, PdusPerSide(k), drop);
  }

  lemma PdusShown(b: Block, topology: Topology, tag: string, p: nat, drop: set<string>)
    requires Realizes(b, PlanOf(ComputeContainer, Some(topology), tag, drop))
    requires multiset(KeptTags(topology.devices, drop, {"pdu"})) == multiset(NumberedTags("PDU-A", p) + NumberedTags("PDU-B", p))
    ensures Shows(Sort(b.leaves, ChildLe()), {"pdu"}, PduTags(tag, p))
  {
    BothSides(tag, p);
    ShownTags(b, topology, tag, drop, {"pdu"}, NumberedTags("PDU-A", p) + NumberedTags("PDU-B", p), PduTags(tag, p));
  }

  lemma BothSides(tag: string, p: nat)
    ensures SiteTags(tag, NumberedTags("PDU-A", p) + NumberedTags("PDU-B", p))
         == Map((s: string) => Some(s), PduTags(tag, p))
  {
    SiteTagsNumbered(tag, "PDU-A", p);
    SiteTagsNumbered(tag, "PDU-B", p);
    MapAppend((t: Option<string>) => SiteTag(tag, t), NumberedTags("PDU-A", p), NumberedTags("PDU-B", p));
    MapAppend((s: string) => Some(s), FullTags(tag, "PDU-A", p), FullTags(tag, "PDU-B", p));
  }

  // ----- splitting PDUs by side -----

  predicate SideTag(side: char, tag: string) { LastSegment(tag) != "" && LastSegment(tag)[0] == side }

  lemma {:induction false} SideOfPdu(container: string, side: string, n: nat)
    requires side == "A" || side == "B"
    ensures LastSegment(container + "-" + ("PDU-" + side + Dec(n))) == side + Dec(n)
  {
    NoHyphenInNumbered(side, n);
    LastSegmentOf(container + "-PDU", side + Dec(n));
    assert container + "-" + ("PDU-" + side + Dec(n)) == container + "-PDU" + "-" + (side + Dec(n));
  }

  lemma FamilyOnSide(container: string, side: string, stem: string, p: nat, asked: char)
    requires (side == "A" || side == "B") && stem == "PDU-" + side
    ensures Filter((t: string) => SideTag(asked, t), FullTags(container, stem, p))
         == if side[0] == asked then FullTags(container, stem, p) else []
  {
    var f := (t: string) => SideTag(asked, t);
    var tags := FullTags(container, stem, p);
    forall i | 0 <= i < p ensures f(tags[i]) == (side[0] == asked) {
      SideOfPdu(container, side, i + 1);
    }
    if side[0] == asked {
      FilterAll(f, tags);
    } else {
      FilterNone(f, tags);
    }
  }

  lemma SideOfBoth(devices: seq<Device>, a: seq<string>, b: seq<string>, side: char)
    requires multiset(TagsOf(devices)) == multiset(a + b)
    ensures var f := (t: string) => SideTag(side, t);
            multiset(TagsOf(Filter((d: Device) => OnSide(side, d), devices))) == multiset(Filter(f, a) + Filter(f, b))
  {
    var f := (t: string) => SideTag(side, t);
    MapFilter((d: Device) => Tag(d), (d: Device) => OnSide(side, d), f, devices);
    FilterPermuted(f, TagsOf(devices), a + b);
    FilterAppend(f, a, b);
  }

  /** The A path is exactly PDU-A1…p, the B path exactly PDU-B1…p. */
  lemma PathTags(c: Container, k: nat)
    requires PowerReady(c, k)
    ensures multiset(TagsOf(Pdus(c, 'A'))) == multiset(FullTags(c.tag, "PDU-A", PdusPerSide(k)))
    ensures multiset(TagsOf(Pdus(c, 'B'))) == multiset(FullTags(c.tag, "PDU-B", PdusPerSide(k)))
  {
    var p, devices := PdusPerSide(k), c.Of({"pdu"});
    var a, b := FullTags(c.tag, "PDU-A", p), FullTags(c.tag, "PDU-B", p);
    assert "PDU-" + "A" == "PDU-A" && "PDU-" + "B" == "PDU-B";
    assert a + [] == a && [] + b == b;
    SideOfBoth(devices, a, b, 'A');
    FamilyOnSide(c.tag, "A", "PDU-A", p, 'A');
    FamilyOnSide(c.tag, "B", "PDU-B", p, 'A');
    SideOfBoth(devices, a, b, 'B');
    FamilyOnSide(c.tag, "A", "PDU-A", p, 'B');
    FamilyOnSide(c.tag, "B", "PDU-B", p, 'B');
  }

  lemma FullTagsDistinct(container: string, stem: string, n: nat)
    ensures Distinct(FullTags(container, stem, n))
  {
    var tags := FullTags(container, stem, n);
    forall i, j | 0 <= i < j < n ensures tags[i] != tags[j] {
      assert tags[i][|container| + 1..] == stem + Dec(i + 1) && tags[j][|container| + 1..] == stem + Dec(j + 1);
      if tags[i] == tags[j] {
        StemInjective(stem, i + 1, j + 1);
      }
    }
  }

  lemma {:induction false} CountIsMultiplicity(names: seq<string>, t: string)
    ensures Count(names, t) == multiset(names)[t]
  {
    if names != [] {
      CountIsMultiplicity(names[..|names| - 1], t);
      assert names == names[..|names| - 1] + [names[|names| - 1]];
    }
  }

  lemma DistinctPermuted(xs: seq<string>, ys: seq<string>)
    requires multiset(xs) == multiset(ys) && Distinct(ys)
    ensures Distinct(xs) && |xs| == |ys|
  {
    assert |multiset(xs)| == |multiset(ys)|;
    forall t ensures Count(xs, t) <= 1 {
      CountIsMultiplicity(xs, t);
      CountIsMultiplicity(ys, t);
      DistinctIffCount(ys);
    }
    DistinctIffCount(xs);
  }

  lemma SidesApart(c: Container)
    ensures forall i, j :: 0 <= i < |Pdus(c, 'A')| && 0 <= j < |Pdus(c, 'B')| ==> Tag(Pdus(c, 'A')[i]) != Tag(Pdus(c, 'B')[j])
  {
    forall i, j | 0 <= i < |Pdus(c, 'A')| && 0 <= j < |Pdus(c, 'B')| ensures Tag(Pdus(c, 'A')[i]) != Tag(Pdus(c, 'B')[j]) {
      FilterMember((d: Device) => OnSide('A', d), c.Of({"pdu"}), Pdus(c, 'A')[i]);
      FilterMember((d: Device) => OnSide('B', d), c.Of({"pdu"}), Pdus(c, 'B')[j]);
    }
  }

  /** Every compute container of every order, full or partial, holds the servers the packing gives it and their PDUs. */
  lemma {:induction false} EveryContainerReady(topology: Topology, plans: seq<Plan>, nodes: int, n: nat, c: Container)
    requires nodes >= 1 && 1 <= n <= ComputeContainerCount(nodes) <= |plans|
    requires plans[n - 1] == ComputePlan(Some(topology), nodes, n) && PowerLayout(topology.devices)
    requires KindOf(Blocks(plans)[n - 1].root.template).Some? && c == SiteContainer(Blocks(plans)[n - 1])
    ensures 1 <= NodesInContainer(nodes, n) <= 7 && PowerReady(c, NodesInContainer(nodes, n))
  {
    PackingConservesServers(nodes);
    BlockRealizes(plans, n - 1);
    BlockPowerReady(Blocks(plans)[n - 1], topology, nodes, n);
  }
}
