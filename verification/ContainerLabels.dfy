/** A BOM line's reference designators: container ranges and the tags in each, merged where they agree. */
module ContainerLabels {
  import opened Lists
  import opened Text
  import opened RefDes

  /** Containers prefix+first … prefix+last, each holding these tags. */
  datatype Group = Group(prefix: string, first: nat, last: nat, tags: seq<string>)

  function TagsAt(prefix: string, n: nat, tags: seq<string>): seq<string> {
    Map((t: string) => prefix + Dec(n) + "-" + t, tags)
  }

  /** Containers first … last, one tag list each. */
  function TagsOver(prefix: string, first: nat, last: int, tags: seq<string>): (r: seq<seq<string>>) {
    seq(if last >= first then last - first + 1 else 0, i requires 0 <= i => TagsAt(prefix, first + i, tags))
  }

  /** The site tags a group stands for, container by container. */
  function CoveredBy(g: Group): seq<string> { Concat(TagsOver(g.prefix, g.first, g.last, g.tags)) }

  function Covered(groups: seq<Group>): seq<string> { Concat(Map((g: Group) => CoveredBy(g), groups)) }

  predicate SameTags(groups: seq<Group>) {
    groups != [] && forall k :: 0 <= k < |groups| ==> groups[k].tags == groups[0].tags
  }

  /** Groups with the same tags print as one range, first container of the first to last of the last. */
  function Merged(groups: seq<Group>): seq<Group> {
    if SameTags(groups) then [Group(groups[0].prefix, groups[0].first, groups[|groups| - 1].last, groups[0].tags)] else groups
  }

  /** Groups tile a range of containers: each starts where the one before it ends. */
  ghost predicate Contiguous(groups: seq<Group>) {
    && (forall k :: 0 <= k < |groups| ==> groups[k].first <= groups[k].last)
    && (forall k :: 0 < k < |groups| ==> groups[k].prefix == groups[k - 1].prefix && groups[k].first == groups[k - 1].last + 1)
  }

  lemma TilesJoin(prefix: string, first: nat, mid: nat, last: nat, tags: seq<string>)
    requires first <= mid <= last
    ensures TagsOver(prefix, first, last, tags) == TagsOver(prefix, first, mid, tags) + TagsOver(prefix, mid + 1, last, tags)
  {
  }

  lemma {:induction false} MergedCovers(groups: seq<Group>)
    requires Contiguous(groups) && SameTags(groups)
    ensures groups[0].prefix == groups[|groups| - 1].prefix && groups[0].first <= groups[|groups| - 1].last
    ensures CoveredBy(Group(groups[0].prefix, groups[0].first, groups[|groups| - 1].last, groups[0].tags)) == Covered(groups)
  {
    var last := |groups| - 1;
    var init, g := groups[..last], groups[last];
    assert groups == init + [g];
    CoveredSnoc(init, g);
    if init == [] {
      assert [] + CoveredBy(g) == CoveredBy(g);
    } else {
      MergedCovers(init);
      assert groups[last - 1] == init[|init| - 1] && groups[last].first == groups[last - 1].last + 1;
      TilesJoin(g.prefix, init[0].first, init[|init| - 1].last, g.last, g.tags);
      ConcatAppend(TagsOver(g.prefix, init[0].first, init[|init| - 1].last, g.tags), TagsOver(g.prefix, g.first, g.last, g.tags));
    }
  }

  /** The same-tags merge names exactly the devices the groups do, given that the groups tile a range. */
  lemma MergeIsSound(groups: seq<Group>)
    requires Contiguous(groups)
    ensures Covered(Merged(groups)) == Covered(groups)
  {
    if SameTags(groups) {
      MergedCovers(groups);
      var one := Group(groups[0].prefix, groups[0].first, groups[|groups| - 1].last, groups[0].tags);
      CoveredOne(one);
    }
  }

  /** Without tiling it does not: C1 and C3 would print as C1-C3. */
  lemma MergeNeedsTiling()
    ensures var groups := [Group("C", 1, 1, ["X"]), Group("C", 3, 3, ["X"])];
            !Contiguous(groups) && |Covered(Merged(groups))| == 3 && |Covered(groups)| == 2
  {
    var a, b, one := Group("C", 1, 1, ["X"]), Group("C", 3, 3, ["X"]), Group("C", 1, 3, ["X"]);
    assert [a, b][1 - 1].last + 1 != [a, b][1].first;
    OneEach(a);
    OneEach(b);
    OneEach(one);
    assert SameTags([a, b]);
    assert Merged([a, b]) == [one];
    CoveredOne(one);
    CoveredTwo(a, b);
  }

  lemma CoveredOne(g: Group)
    ensures Covered([g]) == CoveredBy(g)
  {
    CoveredSnoc([], g);
    assert [] + [g] == [g];
  }

  lemma CoveredTwo(a: Group, b: Group)
    ensures Covered([a, b]) == CoveredBy(a) + CoveredBy(b)
  {
    CoveredOne(a);
    CoveredSnoc([a], b);
    assert [a] + [b] == [a, b];
  }

  lemma CoveredSnoc(groups: seq<Group>, g: Group)
    ensures Covered(groups + [g]) == Covered(groups) + CoveredBy(g)
  {
    MapAppend((g: Group) => CoveredBy(g), groups, [g]);
    ConcatSnoc(Map((g: Group) => CoveredBy(g), groups), CoveredBy(g));
  }

  lemma {:induction false} OneEach(g: Group)
    requires g.first <= g.last && |g.tags| == 1
    ensures |CoveredBy(g)| == g.last - g.first + 1
    decreases g.last
  {
    if g.last == g.first {
      assert TagsOver(g.prefix, g.first, g.last, g.tags) == [] + [TagsAt(g.prefix, g.first, g.tags)];
      ConcatSnoc([], TagsAt(g.prefix, g.first, g.tags));
    } else {
      OneEach(g.(last := g.last - 1));
      assert TagsOver(g.prefix, g.first, g.last, g.tags)
          == TagsOver(g.prefix, g.first, g.last - 1, g.tags) + [TagsAt(g.prefix, g.last, g.tags)];
      ConcatSnoc(TagsOver(g.prefix, g.first, g.last - 1, g.tags), TagsAt(g.prefix, g.last, g.tags));
    }
  }

  // ----- printing -----

  /** containers(prefix, first, last) */
  function RangeLabel(prefix: string, first: nat, last: nat): string {
    if first == last then prefix + Dec(first) else prefix + Dec(first) + "-" + (prefix + Dec(last))
  }

  function LabelOf(g: Group): string {
    RangeLabel(g.prefix, g.first, g.last) + ([':', ' '] + Compressed(g.tags))
  }

  predicate HoldsTags(g: Group) { g.tags != [] }

  function PrintRefDes(groups: seq<Group>): string {
    Join(Map((g: Group) => LabelOf(g), Filter((g: Group) => HoldsTags(g), Merged(groups))), ';')
  }

  // ----- reading back -----

  function ReadRange(s: string): (string, nat, nat) {
    var k := IndexOfChar(s, '-');
    var left, right := s[..k], if k < |s| then s[k + 1..] else s;
    (Stem(left), Num(Digits(left)), Num(Digits(right)))
  }

  function ReadLabel(s: string): seq<string> {
    var k := Cut(s, ':');
    if k == |s| then []
    else
      var (prefix, first, last) := ReadRange(s[..k]);
      CoveredBy(Group(prefix, first, last, Expand(s[k + 2..])))
  }

  function ReadRefDes(s: string): seq<string> {
    if s == "" then [] else Concat(Map((part: string) => ReadLabel(part), Split(s, ';')))
  }

  /** Container prefixes are plain letters ("C", "G"). */
  ghost predicate PlainPrefix(prefix: string) {
    forall i :: 0 <= i < |prefix| ==> 'A' <= prefix[i] <= 'Z'
  }

  ghost predicate PlainTags(tags: seq<string>) {
    && (forall t :: t in tags ==> Printable(t) && FreeOf(t, ':') && FreeOf(t, ';'))
    && (forall k :: 0 <= k < |Runs(tags)| ==> Faithful(Runs(tags)[k]))
  }

  ghost predicate PlainGroup(g: Group) {
    PlainPrefix(g.prefix) && PlainTags(g.tags)
  }

  lemma {:induction false} ContainerReads(prefix: string, n: nat)
    requires PlainPrefix(prefix)
    ensures Stem(prefix + Dec(n)) == prefix && Num(Digits(prefix + Dec(n))) == n
  {
    NumberedReads(prefix, n);
  }

  lemma SpanSplits(a: string, b: string)
    requires '-' !in a
    ensures ReadRange(a + "-" + b) == (Stem(a), Num(Digits(a)), Num(Digits(b)))
  {
    EllipsisAfter(a, '-', b);
    var s := a + (['-'] + b);
    assert a + "-" + b == s;
    assert s[..|a|] == a && s[|a| + 1..] == b;
  }

  lemma SingleReads(a: string)
    requires '-' !in a
    ensures ReadRange(a) == (Stem(a), Num(Digits(a)), Num(Digits(a)))
  {
    NoEllipsis(a, '-');
    assert a[..|a|] == a;
  }

  lemma RangeReads(prefix: string, first: nat, last: nat)
    requires PlainPrefix(prefix)
    ensures ReadRange(RangeLabel(prefix, first, last)) == (prefix, first, last)
  {
    ContainerReads(prefix, first);
    ContainerReads(prefix, last);
    NoHyphenInNumbered(prefix, first);
    if first == last {
      SingleReads(prefix + Dec(first));
    } else {
      SpanSplits(prefix + Dec(first), prefix + Dec(last));
      assert prefix + Dec(first) + "-" + (prefix + Dec(last)) == RangeLabel(prefix, first, last);
    }
  }

  lemma NoSpaceIsFree(s: string, mark: char)
    requires ' ' !in s
    ensures FreeOf(s, mark)
  {
    forall i | 0 <= i < |s| - 1 ensures s[i] != mark || s[i + 1] != ' ' {
      assert s[i + 1] in s;
    }
  }

  lemma RangeLabelFree(prefix: string, first: nat, last: nat, mark: char)
    requires PlainPrefix(prefix)
    ensures FreeOf(RangeLabel(prefix, first, last), mark)
    ensures RangeLabel(prefix, first, last) != ""
    ensures var s := RangeLabel(prefix, first, last); IsDigit(s[|s| - 1])
  {
    NumOfDec(first);
    NumOfDec(last);
    NoSpaceIsFree(RangeLabel(prefix, first, last), mark);
  }

  lemma CompressedFree(tags: seq<string>, mark: char)
    requires PlainTags(tags) && (mark == ':' || mark == ';')
    ensures FreeOf(Compressed(tags), mark)
  {
    LabelsFree(tags, mark);
    FreeOfJoin(RunLabels(Runs(tags)), ',', mark);
  }

  lemma LabelReads(g: Group)
    requires PlainGroup(g) && g.tags != []
    ensures ReadLabel(LabelOf(g)) == CoveredBy(g)
  {
    var range, tags := RangeLabel(g.prefix, g.first, g.last), Compressed(g.tags);
    RangeLabelFree(g.prefix, g.first, g.last, ':');
    ReadParts(range, tags);
    RangeReads(g.prefix, g.first, g.last);
    LabelReadsBackIff(g.tags);
  }

  lemma ReadParts(range: string, tags: string)
    requires FreeOf(range, ':')
    ensures var (prefix, first, last) := ReadRange(range);
            ReadLabel(range + ([':', ' '] + tags)) == CoveredBy(Group(prefix, first, last, Expand(tags)))
  {
    var s := range + ([':', ' '] + tags);
    CutAfter(range, tags, ':');
    assert s[..|range|] == range && s[|range| + 2..] == tags;
  }

  lemma LabelFree(g: Group)
    requires PlainGroup(g)
    ensures FreeOf(LabelOf(g), ';') && LabelOf(g) != ""
  {
    var range, tags := RangeLabel(g.prefix, g.first, g.last), Compressed(g.tags);
    RangeLabelFree(g.prefix, g.first, g.last, ';');
    CompressedFree(g.tags, ';');
    FreeOfConcat([':', ' '], tags, ';');
    FreeOfConcat(range, [':', ' '] + tags, ';');
  }

  lemma LabelsRead(groups: seq<Group>)
    requires forall k :: 0 <= k < |groups| ==> PlainGroup(groups[k]) && groups[k].tags != []
    ensures ReadRefDes(Join(Map((g: Group) => LabelOf(g), groups), ';')) == Covered(groups)
  {
    var labels := Map((g: Group) => LabelOf(g), groups);
    forall k | 0 <= k < |groups| ensures FreeOf(labels[k], ';') && ReadLabel(labels[k]) == CoveredBy(groups[k]) && labels[k] != "" {
      LabelFree(groups[k]);
      LabelReads(groups[k]);
    }
    if groups != [] {
      SplitOfJoin(labels, ';');
      assert Join(labels, ';') != "";
      assert Map((part: string) => ReadLabel(part), labels) == Map((g: Group) => CoveredBy(g), groups);
    }
  }

  lemma {:induction false} NoTagsNoCover(prefix: string, first: nat, last: int)
    ensures Concat(TagsOver(prefix, first, last, [])) == []
    decreases last - first
  {
    if last >= first {
      NoTagsNoCover(prefix, first, last - 1);
      assert TagsOver(prefix, first, last, []) == TagsOver(prefix, first, last - 1, []) + [TagsAt(prefix, last, [])];
      ConcatSnoc(TagsOver(prefix, first, last - 1, []), TagsAt(prefix, last, []));
    } else {
      assert TagsOver(prefix, first, last, []) == [];
    }
  }

  lemma {:induction false} EmptyGroupsCoverNothing(groups: seq<Group>)
    ensures Covered(Filter((g: Group) => HoldsTags(g), groups)) == Covered(groups)
  {
    var holds := (g: Group) => HoldsTags(g);
    if groups != [] {
      var init, g := groups[..|groups| - 1], groups[|groups| - 1];
      EmptyGroupsCoverNothing(init);
      assert groups == init + [g];
      CoveredSnoc(init, g);
      CoveredSnoc(Filter(holds, init), g);
      NoTagsNoCover(g.prefix, g.first, g.last);
      if !HoldsTags(g) {
        assert Filter(holds, groups) == Filter(holds, init);
        assert CoveredBy(g) == [];
      }
    }
  }

  /** A printed line names exactly its devices: reading the reference designators back gives every site tag the
      groups cover, in container order. */
  lemma RefDesReadsBack(groups: seq<Group>)
    requires Contiguous(groups) && forall k :: 0 <= k < |groups| ==> PlainGroup(groups[k])
    ensures ReadRefDes(PrintRefDes(groups)) == Covered(groups)
  {
    var merged := Merged(groups);
    var held := Filter((g: Group) => HoldsTags(g), merged);
    MergeIsSound(groups);
    EmptyGroupsCoverNothing(merged);
    forall k | 0 <= k < |held| ensures PlainGroup(held[k]) && held[k].tags != [] {
      FilterMember((g: Group) => HoldsTags(g), merged, held[k]);
    }
    LabelsRead(held);
  }
}
