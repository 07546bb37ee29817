/** Cable and hose runs rolled up into BOM lines, one per type. */
module FieldMaterial {
  import opened Lists
  import opened Text
  import opened Numbering
  import opened RefDes
  import opened ContainerLabels
  import opened BomModel
  import opened BomCoverage
  import opened BomBudget
  import opened BomAgreement

  /** One scheduled run: what it is made of and its schedule tag. */
  datatype FieldRun = FieldRun(kind: string, tag: string)

  /** CBL-0001, CBL-0002, … */
  function NumberRuns(stem: string, kinds: seq<string>): (r: seq<FieldRun>)
    ensures |r| == |kinds|
  {
    seq(|kinds|, i requires 0 <= i < |kinds| => FieldRun(kinds[i], stem + Pad(4, i + 1)))
  }

  function KindsOf(runs: seq<FieldRun>): seq<string> { Map((r: FieldRun) => r.kind, runs) }

  function IsKind(kind: string): FieldRun -> bool { (r: FieldRun) => r.kind == kind }

  function TagsOfKind(runs: seq<FieldRun>, kind: string): seq<string> {
    Map((r: FieldRun) => r.tag, Filter(IsKind(kind), runs))
  }

  function FieldLine(kind: string, tags: seq<string>): Line {
    Line(0, FieldSection, Compressed(tags), kind, "Installer", |tags|, FieldSupplied, None, None, None, [])
  }

  function FieldLines(runs: seq<FieldRun>): seq<Line> {
    Map((kind: string) => FieldLine(kind, TagsOfKind(runs, kind)), FirstSeen(KindsOf(runs)))
  }

  // ----- the loops -----

  /** A dict of lists in insertion order: keys beside the map. */
  ghost predicate Rolled(kinds: seq<string>, tags: map<string, seq<string>>, runs: seq<FieldRun>) {
    && kinds == FirstSeen(KindsOf(runs))
    && (forall k :: k in tags <==> k in kinds)
    && (forall k :: k in tags ==> tags[k] == TagsOfKind(runs, k))
  }

  lemma TagsSnoc(runs: seq<FieldRun>, r: FieldRun, kind: string)
    ensures TagsOfKind(runs + [r], kind) == TagsOfKind(runs, kind) + if r.kind == kind then [r.tag] else []
    ensures KindsOf(runs + [r]) == KindsOf(runs) + [r.kind]
  {
    assert (runs + [r])[..|runs|] == runs;
    MapAppend((r: FieldRun) => r.tag, Filter(IsKind(kind), runs), if r.kind == kind then [r] else []);
  }

  lemma NoTagsUnlessSeen(runs: seq<FieldRun>, kind: string)
    requires kind !in KindsOf(runs)
    ensures TagsOfKind(runs, kind) == []
  {
    forall i | 0 <= i < |runs| ensures !IsKind(kind)(runs[i]) {
      assert KindsOf(runs)[i] == runs[i].kind;
    }
    FilterNone(IsKind(kind), runs);
  }

  function WithTag(tags: map<string, seq<string>>, r: FieldRun): map<string, seq<string>> {
    tags[r.kind := (if r.kind in tags then tags[r.kind] else []) + [r.tag]]
  }

  function WithKind(kinds: seq<string>, kind: string): seq<string> { if kind in kinds then kinds else kinds + [kind] }

  lemma KindsNext(runs: seq<FieldRun>, r: FieldRun)
    ensures FirstSeen(KindsOf(runs + [r])) == WithKind(FirstSeen(KindsOf(runs)), r.kind)
  {
    TagsSnoc(runs, r, r.kind);
    assert (KindsOf(runs) + [r.kind])[..|runs|] == KindsOf(runs);
  }

  lemma TagsNext(kinds: seq<string>, tags: map<string, seq<string>>, runs: seq<FieldRun>, r: FieldRun, k: string)
    requires Rolled(kinds, tags, runs) && k in WithTag(tags, r)
    ensures WithTag(tags, r)[k] == TagsOfKind(runs + [r], k)
  {
    TagsSnoc(runs, r, k);
    if k == r.kind && k !in tags {
      FirstSeenMember(KindsOf(runs), k);
      NoTagsUnlessSeen(runs, k);
    }
  }

  lemma RolledNext(kinds: seq<string>, tags: map<string, seq<string>>, runs: seq<FieldRun>, r: FieldRun)
    requires Rolled(kinds, tags, runs)
    ensures Rolled(WithKind(kinds, r.kind), WithTag(tags, r), runs + [r])
  {
    KindsNext(runs, r);
    forall k | k in WithTag(tags, r) ensures WithTag(tags, r)[k] == TagsOfKind(runs + [r], k) {
      TagsNext(kinds, tags, runs, r, k);
    }
  }

  method RollUp(kinds0: seq<string>, tags0: map<string, seq<string>>, runs: seq<FieldRun>, ghost before: seq<FieldRun>)
    returns (kinds: seq<string>, tags: map<string, seq<string>>)
    requires Rolled(kinds0, tags0, before)
    ensures Rolled(kinds, tags, before + runs)
  {
    kinds, tags := kinds0, tags0;
    assert before + runs[..0] == before;
    ghost var done := before;
    for i := 0 to |runs|
      invariant done == before + runs[..i] && Rolled(kinds, tags, done)
    {
      var r := runs[i];
      RolledNext(kinds, tags, done, r);
      done := done + [r];
      assert done == before + runs[..i + 1];
      kinds := WithKind(kinds, r.kind);
      tags := WithTag(tags, r);
    }
    assert runs[..|runs|] == runs;
  }

  /** cable_hose_lines */
  method CableHoseLines(cables: seq<FieldRun>, hoses: seq<FieldRun>) returns (lines: seq<Line>)
    ensures lines == FieldLines(cables + hoses)
  {
    var kinds, tags := RollUp([], map[], cables, []);
    assert [] + cables == cables;
    kinds, tags := RollUp(kinds, tags, hoses, cables);
    lines := LinesFor(kinds, tags, cables + hoses);
  }

  method LinesFor(kinds: seq<string>, tags: map<string, seq<string>>, ghost runs: seq<FieldRun>) returns (lines: seq<Line>)
    requires Rolled(kinds, tags, runs)
    ensures lines == FieldLines(runs)
  {
    lines := [];
    for i := 0 to |kinds|
      invariant LinesUpTo(kinds, runs, lines, i)
    {
      assert tags[kinds[i]] == TagsOfKind(runs, kinds[i]);
      lines := AppendLine(kinds, tags[kinds[i]], lines, i, runs);
    }
  }

  ghost predicate LinesUpTo(kinds: seq<string>, runs: seq<FieldRun>, lines: seq<Line>, n: nat) {
    |lines| == n <= |kinds| && forall j :: 0 <= j < n ==> lines[j] == FieldLine(kinds[j], TagsOfKind(runs, kinds[j]))
  }

  method AppendLine(kinds: seq<string>, tags: seq<string>, lines: seq<Line>, n: nat, ghost runs: seq<FieldRun>) returns (more: seq<Line>)
    requires LinesUpTo(kinds, runs, lines, n) && n < |kinds| && tags == TagsOfKind(runs, kinds[n])
    ensures LinesUpTo(kinds, runs, more, n + 1)
  {
    more := lines + [FieldLine(kinds[n], tags)];
  }

  // ----- every run bought once -----

  function QtySum(lines: seq<Line>): nat {
    if lines == [] then 0 else QtySum(lines[..|lines| - 1]) + lines[|lines| - 1].qty
  }

  /** Runs of the kinds listed. */
  function RunsIn(runs: seq<FieldRun>, kinds: seq<string>): nat {
    if runs == [] then 0 else RunsIn(runs[..|runs| - 1], kinds) + if runs[|runs| - 1].kind in kinds then 1 else 0
  }

  lemma {:induction false} AddKind(runs: seq<FieldRun>, kinds: seq<string>, k: string)
    requires k !in kinds
    ensures RunsIn(runs, kinds + [k]) == RunsIn(runs, kinds) + |TagsOfKind(runs, k)|
  {
    if runs != [] {
      var init, r := runs[..|runs| - 1], runs[|runs| - 1];
      AddKind(init, kinds, k);
      TagsSnoc(init, r, k);
      assert runs == init + [r];
    }
  }

  lemma {:induction false} NoKinds(runs: seq<FieldRun>)
    ensures RunsIn(runs, []) == 0
  {
    if runs != [] {
      NoKinds(runs[..|runs| - 1]);
    }
  }

  lemma {:induction false} AllKinds(runs: seq<FieldRun>, kinds: seq<string>)
    requires forall i :: 0 <= i < |runs| ==> runs[i].kind in kinds
    ensures RunsIn(runs, kinds) == |runs|
  {
    if runs != [] {
      AllKinds(runs[..|runs| - 1], kinds);
    }
  }

  lemma {:induction false} LinesCountRuns(runs: seq<FieldRun>, kinds: seq<string>, lines: seq<Line>)
    requires Distinct(kinds) && |lines| == |kinds|
    requires forall i :: 0 <= i < |kinds| ==> lines[i].qty == |TagsOfKind(runs, kinds[i])|
    ensures QtySum(lines) == RunsIn(runs, kinds)
  {
    if kinds == [] {
      NoKinds(runs);
    } else {
      var last := |kinds| - 1;
      assert kinds == kinds[..last] + [kinds[last]];
      LinesCountRuns(runs, kinds[..last], lines[..last]);
      AddKind(runs, kinds[..last], kinds[last]);
    }
  }

  /** Every run of the schedule is bought exactly once. */
  lemma EveryRunBought(runs: seq<FieldRun>)
    ensures QtySum(FieldLines(runs)) == |runs|
  {
    var kinds := FirstSeen(KindsOf(runs));
    FirstSeenDistinct(KindsOf(runs));
    LinesCountRuns(runs, kinds, FieldLines(runs));
    forall i | 0 <= i < |runs| ensures runs[i].kind in kinds {
      assert KindsOf(runs)[i] == runs[i].kind;
      FirstSeenMember(KindsOf(runs), runs[i].kind);
    }
    AllKinds(runs, kinds);
  }

  /** Field lines are what the BOM and the budget expect of them. */
  lemma FieldLinesFit(runs: seq<FieldRun>)
    ensures AllFresh(FieldLines(runs)) && FieldOnly(FieldLines(runs))
  {
  }

  // ----- run tags read back -----

  /** Numbers are printed with at least four digits. */
  ghost predicate FourDigits(tag: string) { Digits(tag) == Pad(4, Num(Digits(tag))) }

  lemma PadDigits(width: nat, n: nat)
    ensures AllDigits(Pad(width, n)) && Num(Pad(width, n)) == n && |Pad(width, n)| >= width
  {
    NumOfDec(n);
    if |Dec(n)| < width {
      ZerosCount(width - |Dec(n)|, Dec(n));
    }
  }

  lemma {:induction false} ZerosCount(k: nat, d: string)
    requires AllDigits(d)
    ensures AllDigits(Zeros(k) + d) && Num(Zeros(k) + d) == Num(d)
  {
    if k == 0 {
      assert Zeros(0) + d == d;
    } else {
      ZerosCount(k - 1, d);
      assert Zeros(k) + d == "0" + (Zeros(k - 1) + d);
      LeadingZero(Zeros(k - 1) + d);
    }
  }

  lemma TagParts(stem: string, n: nat)
    requires stem != "" && !IsDigit(stem[|stem| - 1])
    ensures Digits(stem + Pad(4, n)) == Pad(4, n) && FourDigits(stem + Pad(4, n))
  {
    PadDigits(4, n);
    NumStartAppend(stem, Pad(4, n));
    assert NumStart(stem) == |stem|;
    assert (stem + Pad(4, n))[|stem|..] == Pad(4, n);
  }

  /** Tags printed this way keep their width over any run, past 9999 too. */
  lemma FourDigitsFaithful(run: seq<string>)
    requires Consecutive(run) && forall j :: 0 <= j < |run| ==> FourDigits(run[j])
    ensures Faithful(run)
  {
    if |run| > 1 {
      forall j | 0 <= j < |run| ensures Digits(run[j]) == Pad(|Digits(run[0])|, Num(Digits(run[j]))) {
        RunShape(run, j);
        var a, n := Num(Digits(run[0])), Num(Digits(run[j]));
        DecGrows(a, n);
        PadDigits(4, a);
        assert FourDigits(run[0]) && FourDigits(run[j]);
        assert |Pad(4, a)| == if |Dec(a)| >= 4 then |Dec(a)| else 4;
      }
    }
  }

  ghost predicate RunTag(tag: string) { Printable(tag) && FourDigits(tag) }

  lemma FieldLabelReads(runs: seq<FieldRun>, kind: string)
    requires forall i :: 0 <= i < |runs| ==> RunTag(runs[i].tag)
    requires kind in KindsOf(runs)
    ensures Expand(FieldLine(kind, TagsOfKind(runs, kind)).refDes) == TagsOfKind(runs, kind)
  {
    var tags, own := TagsOfKind(runs, kind), Filter(IsKind(kind), runs);
    forall t | t in tags ensures RunTag(t) {
      var i :| 0 <= i < |own| && own[i].tag == t;
      FilterMember(IsKind(kind), runs, own[i]);
    }
    var i :| 0 <= i < |runs| && runs[i].kind == kind;
    FilterMember(IsKind(kind), runs, runs[i]);
    RunsGroup(tags);
    forall k | 0 <= k < |Runs(tags)| ensures Faithful(Runs(tags)[k]) {
      assert Consecutive(Runs(tags)[k]);
      forall j | 0 <= j < |Runs(tags)[k]| ensures FourDigits(Runs(tags)[k][j]) {
        RunTags(tags, k, j);
      }
      FourDigitsFaithful(Runs(tags)[k]);
    }
    LabelReadsBackIff(tags);
  }

  lemma NotInDigits(d: string, c: char)
    requires AllDigits(d) && !IsDigit(c)
    ensures c !in d
  {
  }

  lemma NumberedRunsTagged(stem: string, kinds: seq<string>, i: nat)
    requires i < |kinds| && stem != "" && !IsDigit(stem[|stem| - 1]) && ' ' !in stem && ELLIPSIS !in stem
    ensures RunTag(NumberRuns(stem, kinds)[i].tag)
  {
    TagParts(stem, i + 1);
    PadDigits(4, i + 1);
    NotInDigits(Pad(4, i + 1), ' ');
    NotInDigits(Pad(4, i + 1), ELLIPSIS);
    NoSpaceIsFree(stem + Pad(4, i + 1), ',');
  }

  ghost predicate AllTagged(runs: seq<FieldRun>) { forall i :: 0 <= i < |runs| ==> RunTag(runs[i].tag) }

  lemma ScheduleTagged(cableKinds: seq<string>, hoseKinds: seq<string>)
    ensures AllTagged(NumberRuns("CBL-", cableKinds) + NumberRuns("HOS-", hoseKinds))
  {
    var cables, hoses := NumberRuns("CBL-", cableKinds), NumberRuns("HOS-", hoseKinds);
    forall i | 0 <= i < |cables| ensures RunTag(cables[i].tag) {
      NumberedRunsTagged("CBL-", cableKinds, i);
    }
    forall i | 0 <= i < |hoses| ensures RunTag(hoses[i].tag) {
      NumberedRunsTagged("HOS-", hoseKinds, i);
    }
  }

  lemma LineNamesItsRuns(runs: seq<FieldRun>, k: nat)
    requires AllTagged(runs) && k < |FieldLines(runs)|
    ensures var line := FieldLines(runs)[k];
            Expand(line.refDes) == TagsOfKind(runs, line.partNumber) && line.qty == |TagsOfKind(runs, line.partNumber)|
  {
    var kind := FirstSeen(KindsOf(runs))[k];
    FirstSeenMember(KindsOf(runs), kind);
    FieldLabelReads(runs, kind);
  }

  /** A schedule's field lines: every run bought once, under a label that reads back to exactly its run tags, for any
      number of runs. */
  lemma FieldLinesNameTheirRuns(cableKinds: seq<string>, hoseKinds: seq<string>, k: nat)
    requires k < |FieldLines(NumberRuns("CBL-", cableKinds) + NumberRuns("HOS-", hoseKinds))|
    ensures var runs := NumberRuns("CBL-", cableKinds) + NumberRuns("HOS-", hoseKinds);
            var line := FieldLines(runs)[k];
            && Expand(line.refDes) == TagsOfKind(runs, line.partNumber)
            && line.qty == |TagsOfKind(runs, line.partNumber)|
            && QtySum(FieldLines(runs)) == |cableKinds| + |hoseKinds|
  {
    ScheduleTagged(cableKinds, hoseKinds);
    LineNamesItsRuns(NumberRuns("CBL-", cableKinds) + NumberRuns("HOS-", hoseKinds), k);
    EveryRunBought(NumberRuns("CBL-", cableKinds) + NumberRuns("HOS-", hoseKinds));
  }
}
