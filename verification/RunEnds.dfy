/** Where the runs of a sheet end, told by tags: on a site each tag names one device of one container. */
module RunEnds {
  import opened Lists
  import opened Text
  import opened Numbering
  import opened Catalog
  import opened Dtm
  import opened SitePlan
  import opened SiteIndex
  import opened Sorting
  import opened Cabling
  import opened PowerCables
  import opened ManagementNetwork
  import opened DualPath

  // ----- runs by the tag they reach -----

  function Into(t: string): Cable -> bool { (c: Cable) => c.toTag == t }

  /** Every run reaches one of these devices. */
  ghost predicate LandsOn(cables: seq<Cable>, dsts: seq<Device>) {
    forall i :: 0 <= i < |cables| ==> cables[i].toTag in TagsOf(dsts)
  }

  lemma {:induction false} NoneInto(cables: seq<Cable>, dsts: seq<Device>, t: string)
    requires LandsOn(cables, dsts) && t !in TagsOf(dsts)
    ensures Filter(Into(t), cables) == []
  {
    FilterNone(Into(t), cables);
  }

  lemma LandsOnBoth(a: seq<Cable>, b: seq<Cable>, dsts: seq<Device>)
    requires LandsOn(a, dsts) && LandsOn(b, dsts)
    ensures LandsOn(a + b, dsts)
  {
  }

  lemma LandsAmong(cables: seq<Cable>, dsts: seq<Device>, more: seq<Device>)
    requires LandsOn(cables, dsts) && forall d :: d in dsts ==> d in more
    ensures LandsOn(cables, more)
  {
    forall i | 0 <= i < |cables| ensures cables[i].toTag in TagsOf(more) {
      var j :| 0 <= j < |dsts| && TagsOf(dsts)[j] == cables[i].toTag;
      TagOfMember(more, dsts[j]);
    }
  }

  /** Filtering a concatenation to which one group alone contributes. */
  lemma {:induction false} OnlyGroup<T>(p: T -> bool, groups: seq<seq<T>>, k: nat, own: seq<T>)
    requires forall i :: 0 <= i < |groups| ==> Filter(p, groups[i]) == if i == k then own else []
    ensures Filter(p, Concat(groups)) == if k < |groups| then own else []
  {
    if groups != [] {
      var last := |groups| - 1;
      OnlyGroup(p, groups[..last], k, own);
      FilterAppend(p, Concat(groups[..last]), groups[last]);
    }
  }

  // ----- one tag, one device -----

  lemma {:induction false} DistinctGroups<T>(groups: seq<seq<T>>, i: nat, j: nat, x: T)
    requires Distinct(Concat(groups)) && i < j < |groups| && x in groups[i]
    ensures x !in groups[j]
  {
    var last := |groups| - 1;
    if j < last {
      DistinctPrefix(Concat(groups[..last]), groups[last]);
      DistinctGroups(groups[..last], i, j, x);
    } else {
      ConcatMember(groups[..last], x);
      assert groups[..last][i] == groups[i];
      DistinctParts(Concat(groups[..last]), groups[last]);
    }
  }

  lemma {:induction false} DistinctGroup<T>(groups: seq<seq<T>>, k: nat)
    requires Distinct(Concat(groups)) && k < |groups|
    ensures Distinct(groups[k])
  {
    var last := |groups| - 1;
    if k < last {
      DistinctPrefix(Concat(groups[..last]), groups[last]);
      DistinctGroup(groups[..last], k);
    } else {
      DistinctParts(Concat(groups[..last]), groups[last]);
    }
  }

  lemma OwnTagsDistinct(sites: seq<Container>, k: nat)
    requires OneTagEach(sites) && k < |sites|
    ensures Distinct(TagsOf(sites[k].devices))
  {
    var groups := Map((c: Container) => TagsOf(c.devices), sites);
    DistinctGroup(groups, k);
  }

  /** A shared tag means the same device of the same container. */
  lemma SameDevice(sites: seq<Container>, i: nat, j: nat, d: Device, e: Device)
    requires OneTagEach(sites) && i < |sites| && j < |sites|
    requires d in sites[i].devices && e in sites[j].devices && Tag(d) == Tag(e)
    ensures i == j && d == e
  {
    var groups := Map((c: Container) => TagsOf(c.devices), sites);
    TagOfMember(sites[i].devices, d);
    TagOfMember(sites[j].devices, e);
    if i < j {
      DistinctGroups(groups, i, j, Tag(d));
    } else if j < i {
      DistinctGroups(groups, j, i, Tag(e));
    } else {
      OwnTagsDistinct(sites, i);
      SameIndex(sites[i].devices, d, e);
    }
  }

  lemma SameIndex(devices: seq<Device>, d: Device, e: Device)
    requires Distinct(TagsOf(devices)) && d in devices && e in devices && Tag(d) == Tag(e)
    ensures d == e
  {
    var x :| 0 <= x < |devices| && devices[x] == d;
    var y :| 0 <= y < |devices| && devices[y] == e;
    assert TagsOf(devices)[x] == TagsOf(devices)[y];
  }

  lemma {:induction false} FilterTagsDistinct(p: Device -> bool, devices: seq<Device>)
    requires Distinct(TagsOf(devices))
    ensures Distinct(TagsOf(Filter(p, devices)))
  {
    if devices != [] {
      var init, d := devices[..|devices| - 1], devices[|devices| - 1];
      assert TagsOf(devices) == TagsOf(init) + [Tag(d)];
      DistinctPrefix(TagsOf(init), [Tag(d)]);
      FilterTagsDistinct(p, init);
      if p(d) {
        NotAmongKept(p, init, d);
        assert TagsOf(Filter(p, devices)) == TagsOf(Filter(p, init)) + [Tag(d)];
      }
    }
  }

  lemma {:induction false} NotAmongKept(p: Device -> bool, init: seq<Device>, d: Device)
    requires Tag(d) !in TagsOf(init)
    ensures Tag(d) !in TagsOf(Filter(p, init))
  {
    var kept := Filter(p, init);
    forall i | 0 <= i < |kept| ensures Tag(kept[i]) != Tag(d) {
      FilterMember(p, init, kept[i]);
      TagOfMember(init, kept[i]);
    }
  }

  // ----- a numbered family in natural order -----

  lemma NaturalLeTotal(a: (string, nat), b: (string, nat))
    ensures NaturalLe(a, b) || NaturalLe(b, a)
  {
    StrLeTotal(a.0, b.0);
  }

  lemma NaturalLeTransitive(a: (string, nat), b: (string, nat), c: (string, nat))
    requires NaturalLe(a, b) && NaturalLe(b, c)
    ensures NaturalLe(a, c)
  {
    if a.0 != b.0 && b.0 != c.0 {
      StrLeTransitive(a.0, b.0, c.0);
      StrLeTotal(a.0, b.0);
    }
  }

  lemma ChildLeIsTotal()
    ensures TotalOrder(ChildLe())
  {
    forall a, b ensures ChildLe()(a, b) || ChildLe()(b, a) {
      NaturalLeTotal(Natural(Tag(a)), Natural(Tag(b)));
    }
    forall a, b, c | ChildLe()(a, b) && ChildLe()(b, c) ensures ChildLe()(a, c) {
      NaturalLeTransitive(Natural(Tag(a)), Natural(Tag(b)), Natural(Tag(c)));
    }
  }

  lemma {:induction false} FilterSorted(p: Device -> bool, devices: seq<Device>)
    requires Sorted(devices, ChildLe())
    ensures Sorted(Filter(p, devices), ChildLe())
  {
    if devices != [] {
      var init, d := devices[..|devices| - 1], devices[|devices| - 1];
      FilterSorted(p, init);
      var kept := Filter(p, init);
      forall i | 0 <= i < |kept| ensures ChildLe()(kept[i], d) {
        FilterMember(p, init, kept[i]);
        var j :| 0 <= j < |init| && init[j] == kept[i];
        assert devices[j] == kept[i];
      }
    }
  }

  /** Numbers that keep growing, as many as their bound allows, are 1, 2, 3, … */
  lemma {:induction false} GrowingFromOne(ns: seq<nat>, i: nat)
    requires forall a, b :: 0 <= a < b < |ns| ==> ns[a] < ns[b]
    requires forall a :: 0 <= a < |ns| ==> ns[a] >= 1
    requires i < |ns|
    ensures ns[i] >= i + 1
  {
    if i > 0 {
      GrowingFromOne(ns, i - 1);
    }
  }

  lemma {:induction false} GrowingToBound(ns: seq<nat>, i: nat)
    requires forall a, b :: 0 <= a < b < |ns| ==> ns[a] < ns[b]
    requires forall a :: 0 <= a < |ns| ==> ns[a] <= |ns|
    requires i < |ns|
    ensures ns[i] <= i + 1
    decreases |ns| - i
  {
    if i < |ns| - 1 {
      GrowingToBound(ns, i + 1);
    }
  }

  lemma {:induction false} NaturalOfFull(container: string, stem: string, n: nat)
    requires stem != "" && !IsDigit(stem[|stem| - 1])
    ensures Natural(container + "-" + (stem + Dec(n))) == (container + "-" + stem, n)
  {
    assert container + "-" + (stem + Dec(n)) == (container + "-" + stem) + Dec(n);
    NaturalOfNumbered(container + "-" + stem, n);
  }

  /** The number in each tag of a family. */
  lemma FamilyNumbers(tags: seq<string>, container: string, stem: string, n: nat) returns (ns: seq<nat>)
    requires multiset(tags) == multiset(FullTags(container, stem, n))
    ensures |ns| == |tags| == n
    ensures forall i :: 0 <= i < n ==> 1 <= ns[i] <= n && tags[i] == container + "-" + (stem + Dec(ns[i]))
  {
    var all := FullTags(container, stem, n);
    assert |multiset(tags)| == |multiset(all)|;
    ns := [];
    for k := 0 to n
      invariant |ns| == k
      invariant forall i :: 0 <= i < k ==> 1 <= ns[i] <= n && tags[i] == container + "-" + (stem + Dec(ns[i]))
    {
      MultisetHas(tags, all, tags[k]);
      var j :| 0 <= j < n && all[j] == tags[k];
      ns := ns + [j + 1];
    }
  }

  lemma DistinctAgain(xs: seq<string>, ys: seq<string>)
    requires multiset(xs) == multiset(ys) && Distinct(ys)
    ensures Distinct(xs)
  {
    DistinctPermuted(xs, ys);
  }

  /** Natural order lists a family as 1, 2, 3, … */
  lemma FamilyInOrder(devices: seq<Device>, container: string, stem: string, n: nat)
    requires Sorted(devices, ChildLe()) && stem != "" && !IsDigit(stem[|stem| - 1])
    requires multiset(TagsOf(devices)) == multiset(FullTags(container, stem, n))
    ensures TagsOf(devices) == FullTags(container, stem, n)
  {
    var tags := TagsOf(devices);
    var ns := FamilyNumbers(tags, container, stem, n);
    FullTagsDistinct(container, stem, n);
    DistinctAgain(tags, FullTags(container, stem, n));
    forall a, b | 0 <= a < b < n ensures ns[a] < ns[b] {
      assert ChildLe()(devices[a], devices[b]);
      NaturalOfFull(container, stem, ns[a]);
      NaturalOfFull(container, stem, ns[b]);
      assert tags[a] != tags[b];
    }
    forall i | 0 <= i < n ensures tags[i] == FullTags(container, stem, n)[i] {
      GrowingFromOne(ns, i);
      GrowingToBound(ns, i);
    }
  }
}
