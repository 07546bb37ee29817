/** The names a container's devices carry, told from its topology: what is kept, in order. */
module ContainerGear {
  import opened Lists
  import opened Catalog
  import opened Dtm
  import opened SitePlan
  import opened DtmSpec
  import opened DtmSoundness
  import opened SiteIndex
  import opened Sorting

  /** Site tag of a container-local tag. */
  function SiteTag(container: string, tag: Option<string>): Option<string> {
    if tag.Some? && tag.value != "" then Some(container + "-" + tag.value) else None
  }

  function SiteTags(container: string, tags: seq<Option<string>>): seq<Option<string>> {
    Map((t: Option<string>) => SiteTag(container, t), tags)
  }

  function SpecUses(templates: set<string>): DeviceSpec -> bool { (s: DeviceSpec) => s.template in templates }

  /** Local tags of the topology devices using any of these templates. */
  function TagsUsing(specs: seq<DeviceSpec>, templates: set<string>): seq<Option<string>> {
    Map((s: DeviceSpec) => s.tag, Filter(SpecUses(templates), specs))
  }

  function Keeps(drop: set<string>): Option<string> -> bool {
    (t: Option<string>) => !(t.Some? && t.value in drop)
  }

  function NamesUsing(devices: seq<Device>, templates: set<string>): seq<Option<string>> {
    Map((d: Device) => d.displayName, Filter(UsesOneOf(templates), devices))
  }

  function LeafUses(templates: set<string>): Leaf -> bool { (l: Leaf) => l.template in templates }

  function LeafNames(leaves: seq<Leaf>, templates: set<string>): seq<Option<string>> {
    Map((l: Leaf) => l.name, Filter(LeafUses(templates), leaves))
  }

  lemma MapSnoc<A, B>(f: A -> B, xs: seq<A>, x: A)
    ensures Map(f, xs + [x]) == Map(f, xs) + [f(x)]
  {
  }

  lemma {:induction false} FilterSnoc<T>(p: T -> bool, xs: seq<T>, x: T)
    ensures Filter(p, xs + [x]) == Filter(p, xs) + if p(x) then [x] else []
  {
    assert (xs + [x])[..|xs|] == xs;
  }

  lemma TagsUsingSnoc(specs: seq<DeviceSpec>, s: DeviceSpec, templates: set<string>)
    ensures TagsUsing(specs + [s], templates) == TagsUsing(specs, templates) + if s.template in templates then [s.tag] else []
  {
    FilterSnoc(SpecUses(templates), specs, s);
  }

  lemma LeafNamesSnoc(leaves: seq<Leaf>, l: Leaf, templates: set<string>)
    ensures LeafNames(leaves + [l], templates) == LeafNames(leaves, templates) + if l.template in templates then [l.name] else []
  {
    FilterSnoc(LeafUses(templates), leaves, l);
  }

  lemma NamesUsingSnoc(devices: seq<Device>, d: Device, templates: set<string>)
    ensures NamesUsing(devices + [d], templates) == NamesUsing(devices, templates) + if d.template in templates then [d.displayName] else []
  {
    FilterSnoc(UsesOneOf(templates), devices, d);
  }

  lemma NamesUsingAppend(a: seq<Device>, b: seq<Device>, templates: set<string>)
    ensures NamesUsing(a + b, templates) == NamesUsing(a, templates) + NamesUsing(b, templates)
  {
    FilterAppend(UsesOneOf(templates), a, b);
  }

  function KeptTags(specs: seq<DeviceSpec>, drop: set<string>, templates: set<string>): seq<Option<string>> {
    Filter(Keeps(drop), TagsUsing(specs, templates))
  }

  lemma KeptTagsSnoc(specs: seq<DeviceSpec>, s: DeviceSpec, drop: set<string>, templates: set<string>)
    ensures KeptTags(specs + [s], drop, templates)
         == KeptTags(specs, drop, templates) + if s.template in templates && !IsDropped(s, drop) then [s.tag] else []
  {
    TagsUsingSnoc(specs, s, templates);
    if s.template in templates {
      FilterSnoc(Keeps(drop), TagsUsing(specs, templates), s.tag);
    } else {
      assert TagsUsing(specs, templates) + [] == TagsUsing(specs, templates);
    }
  }

  lemma KeptSnoc(tag: string, specs: seq<DeviceSpec>, s: DeviceSpec, drop: set<string>, templates: set<string>)
    ensures SiteTags(tag, KeptTags(specs + [s], drop, templates))
         == SiteTags(tag, KeptTags(specs, drop, templates))
            + if s.template in templates && !IsDropped(s, drop) then [LeafOf(tag, s).name] else []
  {
    var kept := KeptTags(specs, drop, templates);
    KeptTagsSnoc(specs, s, drop, templates);
    if s.template in templates && !IsDropped(s, drop) {
      MapSnoc((t: Option<string>) => SiteTag(tag, t), kept, s.tag);
    } else {
      assert kept + [] == kept;
    }
  }

  /** Names of a container's leaves: its kept local tags under the container's own tag. */
  lemma {:induction false} NamesOfLeaves(tag: string, specs: seq<DeviceSpec>, drop: set<string>, templates: set<string>)
    ensures LeafNames(Leaves(tag, specs, drop), templates) == SiteTags(tag, KeptTags(specs, drop, templates))
  {
    if specs != [] {
      var init, s := specs[..|specs| - 1], specs[|specs| - 1];
      assert specs == init + [s];
      NamesOfLeaves(tag, init, drop, templates);
      KeptSnoc(tag, init, s, drop, templates);
      if IsDropped(s, drop) {
        assert Leaves(tag, specs, drop) == Leaves(tag, init, drop);
      } else {
        LeafNamesSnoc(Leaves(tag, init, drop), LeafOf(tag, s), templates);
      }
    }
  }

  /** Devices made of leaves, template for template and name for name. */
  ghost predicate Mirrors(devices: seq<Device>, leaves: seq<Leaf>) {
    && |devices| == |leaves|
    && forall i :: 0 <= i < |devices| ==> devices[i].template == leaves[i].template && devices[i].displayName == leaves[i].name
  }

  lemma {:induction false} NamesOfDevices(devices: seq<Device>, leaves: seq<Leaf>, templates: set<string>)
    requires Mirrors(devices, leaves)
    ensures NamesUsing(devices, templates) == LeafNames(leaves, templates)
  {
    if devices != [] {
      var last := |devices| - 1;
      NamesOfDevices(devices[..last], leaves[..last], templates);
      assert devices == devices[..last] + [devices[last]] && leaves == leaves[..last] + [leaves[last]];
      NamesUsingSnoc(devices[..last], devices[last], templates);
      LeafNamesSnoc(leaves[..last], leaves[last], templates);
    }
  }

  /** A block's devices of some templates are exactly the plan's leaves of those templates. */
  lemma NamesOfBlock(b: Block, p: Plan, templates: set<string>)
    requires Realizes(b, p)
    ensures NamesUsing(b.leaves, templates) == LeafNames(p.leaves, templates)
  {
    NamesOfDevices(b.leaves, p.leaves, templates);
  }

  lemma NamesOfContainer(b: Block, asm: AsmType, topology: Option<Topology>, tag: string, drop: set<string>, templates: set<string>)
    requires Realizes(b, PlanOf(asm, topology, tag, drop))
    ensures NamesUsing(b.leaves, templates)
         == if topology.None? then [] else SiteTags(tag, KeptTags(topology.value.devices, drop, templates))
  {
    NamesOfBlock(b, PlanOf(asm, topology, tag, drop), templates);
    if topology.Some? {
      NamesOfLeaves(tag, topology.value.devices, drop, templates);
    }
  }

  /** Sorting a container's children for the schedule loses and adds no name. */
  lemma {:induction false} NamesSorted(devices: seq<Device>, templates: set<string>)
    ensures multiset(NamesUsing(Sort(devices, ChildLe()), templates)) == multiset(NamesUsing(devices, templates))
  {
    SortPermutes(devices, ChildLe());
    FilterPermuted(UsesOneOf(templates), Sort(devices, ChildLe()), devices);
    MapPermuted((d: Device) => d.displayName, Filter(UsesOneOf(templates), Sort(devices, ChildLe())),
                Filter(UsesOneOf(templates), devices));
  }
}
