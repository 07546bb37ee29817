/** Reference designators: the device tags a BOM line covers, printed short and read back. */
module RefDes {
  import opened Lists
  import opened Text

  const ELLIPSIS: char := '\U{2026}'

  predicate HasNumber(tag: string) { NumStart(tag) < |tag| }

  function Stem(tag: string): string { tag[..NumStart(tag)] }

  function Digits(tag: string): (d: string)
    ensures AllDigits(d)
  {
    tag[NumStart(tag)..]
  }

  /** Same stem, next number. */
  predicate Follows(prev: string, tag: string) {
    HasNumber(prev) && HasNumber(tag) && Stem(prev) == Stem(tag) && Num(Digits(tag)) == Num(Digits(prev)) + 1
  }

  function Last<T>(xs: seq<T>): T
    requires xs != []
  {
    xs[|xs| - 1]
  }

  predicate Extends(runs: seq<seq<string>>, tag: string) {
    runs != [] && Last(runs) != [] && Follows(Last(Last(runs)), tag)
  }

  function Extend(runs: seq<seq<string>>, tag: string): seq<seq<string>> {
    if Extends(runs, tag) then runs[..|runs| - 1] + [Last(runs) + [tag]] else runs + [[tag]]
  }

  function Runs(tags: seq<string>): seq<seq<string>> {
    if tags == [] then [] else Extend(Runs(tags[..|tags| - 1]), Last(tags))
  }

  predicate Consecutive(run: seq<string>) {
    run != [] && forall j :: 0 < j < |run| ==> Follows(run[j - 1], run[j])
  }

  predicate Apart(prev: seq<string>, next: seq<string>) {
    prev != [] && next != [] && !Follows(Last(prev), next[0])
  }

  ghost predicate AllConsecutive(runs: seq<seq<string>>) {
    forall k :: 0 <= k < |runs| ==> Consecutive(runs[k])
  }

  ghost predicate AllApart(runs: seq<seq<string>>) {
    forall k :: 0 < k < |runs| ==> Apart(runs[k - 1], runs[k])
  }

  /** The grouping compress promises: nothing lost or moved, each run consecutive, no two runs joinable. */
  ghost predicate Grouping(runs: seq<seq<string>>, tags: seq<string>) {
    Concat(runs) == tags && AllConsecutive(runs) && AllApart(runs)
  }

  lemma SplitLast<T>(xs: seq<T>)
    requires xs != []
    ensures xs == xs[..|xs| - 1] + [Last(xs)]
  {
  }

  lemma {:induction false} ConcatLast<T>(init: seq<seq<T>>, run: seq<T>, x: T)
    ensures Concat(init + [run + [x]]) == Concat(init + [run]) + [x]
  {
    ConcatSnoc(init, run + [x]);
    ConcatSnoc(init, run);
  }

  lemma AddRun(init: seq<seq<string>>, run: seq<string>)
    ensures AllConsecutive(init + [run]) <==> AllConsecutive(init) && Consecutive(run)
    ensures AllApart(init + [run]) <==> AllApart(init) && (init != [] ==> Apart(Last(init), run))
  {
    var runs := init + [run];
    assert runs[|init|] == run;
    assert forall k :: 0 <= k < |init| ==> runs[k] == init[k];
    if AllConsecutive(runs) {
      forall k | 0 <= k < |init| ensures Consecutive(init[k]) {
        assert Consecutive(runs[k]);
      }
    }
    if AllApart(runs) {
      forall k | 0 < k < |init| ensures Apart(init[k - 1], init[k]) {
        assert Apart(runs[k - 1], runs[k]);
      }
      if init != [] {
        assert Apart(runs[|init| - 1], runs[|init|]);
      }
    }
  }

  lemma AddTag(run: seq<string>, tag: string)
    requires run != []
    ensures Consecutive(run + [tag]) <==> Consecutive(run) && Follows(Last(run), tag)
  {
    var more := run + [tag];
    if Consecutive(more) {
      forall j | 0 < j < |run| ensures Follows(run[j - 1], run[j]) {
        assert Follows(more[j - 1], more[j]);
      }
      assert Follows(more[|run| - 1], more[|run|]);
    }
  }

  lemma ApartGrows(prev: seq<string>, run: seq<string>, tag: string)
    requires run != []
    ensures Apart(prev, run + [tag]) <==> Apart(prev, run)
  {
  }

  lemma ExtendGroups(runs: seq<seq<string>>, tags: seq<string>, tag: string)
    requires Grouping(runs, tags)
    ensures Grouping(Extend(runs, tag), tags + [tag])
  {
    if Extends(runs, tag) {
      var init, run := runs[..|runs| - 1], Last(runs);
      SplitLast(runs);
      AddRun(init, run);
      AddTag(run, tag);
      AddRun(init, run + [tag]);
      if init != [] {
        ApartGrows(Last(init), run, tag);
      }
      ConcatLast(init, run, tag);
    } else {
      AddRun(runs, [tag]);
      ConcatSnoc(runs, [tag]);
      if runs != [] {
        assert Consecutive(runs[|runs| - 1]);
      }
    }
  }

  lemma {:induction false} RunsGroup(tags: seq<string>)
    ensures Grouping(Runs(tags), tags)
  {
    if tags != [] {
      RunsGroup(tags[..|tags| - 1]);
      ExtendGroups(Runs(tags[..|tags| - 1]), tags[..|tags| - 1], Last(tags));
      SplitLast(tags);
    }
  }

  lemma DropOnly(init: seq<seq<string>>, tag: string, tags: seq<string>)
    requires Grouping(init + [[tag]], tags)
    ensures tags != [] && Last(tags) == tag && Grouping(init, tags[..|tags| - 1]) && init + [[tag]] == Extend(init, tag)
  {
    AddRun(init, [tag]);
    ConcatSnoc(init, [tag]);
    assert (init + [[tag]])[..|init|] == init;
  }

  lemma DropFrom(init: seq<seq<string>>, run: seq<string>, tag: string, tags: seq<string>)
    requires Grouping(init + [run + [tag]], tags) && run != []
    ensures tags != [] && Last(tags) == tag
    ensures Grouping(init + [run], tags[..|tags| - 1]) && init + [run + [tag]] == Extend(init + [run], tag)
  {
    AddRun(init, run + [tag]);
    ConcatLast(init, run, tag);
    ConcatSnoc(init, run);
    AddTag(run, tag);
    AddRun(init, run);
    if init != [] {
      ApartGrows(Last(init), run, tag);
    }
    assert (init + [run])[..|init|] == init;
  }

  /** Taking the last tag off a grouping is what Extend undoes. */
  lemma DropLast(init: seq<seq<string>>, run: seq<string>, tag: string, tags: seq<string>)
    requires Grouping(init + [run + [tag]], tags)
    ensures tags != [] && Last(tags) == tag
    ensures run == [] ==> Grouping(init, tags[..|tags| - 1]) && init + [run + [tag]] == Extend(init, tag)
    ensures run != [] ==> Grouping(init + [run], tags[..|tags| - 1]) && init + [run + [tag]] == Extend(init + [run], tag)
  {
    if run == [] {
      assert run + [tag] == [tag];
      DropOnly(init, tag, tags);
    } else {
      DropFrom(init, run, tag, tags);
    }
  }

  /** Consecutive and maximal pins the grouping down: there is only one. */
  lemma {:induction false} GroupingUnique(runs: seq<seq<string>>, tags: seq<string>)
    requires Grouping(runs, tags)
    ensures runs == Runs(tags)
    decreases |tags|
  {
    if runs != [] {
      var init, run := runs[..|runs| - 1], Last(runs);
      SplitLast(runs);
      AddRun(init, run);
      var rest, tag := run[..|run| - 1], Last(run);
      SplitLast(run);
      DropLast(init, rest, tag, tags);
      GroupingUnique(if rest == [] then init else init + [rest], tags[..|tags| - 1]);
    }
  }

  /** compress's loop: append to the open run or start a new one. */
  method CollectRuns(tags: seq<string>) returns (runs: seq<seq<string>>)
    ensures Grouping(runs, tags)
  {
    runs := [];
    for i := 0 to |tags|
      invariant Grouping(runs, tags[..i])
    {
      ghost var before := runs;
      ExtendGroups(runs, tags[..i], tags[i]);
      assert tags[..i + 1] == tags[..i] + [tags[i]];
      if Extends(runs, tags[i]) {
        runs := runs[|runs| - 1 := Last(runs) + [tags[i]]];
      } else {
        runs := runs + [[tags[i]]];
      }
      assert runs == Extend(before, tags[i]);
    }
    assert tags[..|tags|] == tags;
  }

  function RunLabel(run: seq<string>): string
    requires run != []
  {
    if |run| == 1 then run[0] else run[0] + ([ELLIPSIS] + LastSegment(run[|run| - 1]))
  }

  function RunLabels(runs: seq<seq<string>>): (r: seq<string>)
    requires forall k :: 0 <= k < |runs| ==> runs[k] != []
    ensures |r| == |runs|
  {
    seq(|runs|, k requires 0 <= k < |runs| => RunLabel(runs[k]))
  }

  /** compress(tags) */
  method Compress(tags: seq<string>) returns (printed: string)
    ensures printed == Compressed(tags)
  {
    var runs := CollectRuns(tags);
    GroupingUnique(runs, tags);
    printed := Join(RunLabels(runs), ',');
  }

  function Compressed(tags: seq<string>): string {
    RunsGroup(tags);
    Join(RunLabels(Runs(tags)), ',')
  }

  // ----- reading a label back -----

  function Zeros(n: nat): (s: string)
    ensures |s| == n && AllDigits(s)
  {
    seq(n, _ => '0')
  }

  /** n printed with at least `width` digits. */
  function Pad(width: nat, n: nat): string {
    if |Dec(n)| >= width then Dec(n) else Zeros(width - |Dec(n)|) + Dec(n)
  }

  function Range(stem: string, width: nat, from: nat, to: nat): (r: seq<string>) {
    seq(if to >= from then to - from + 1 else 0, i requires 0 <= i => stem + Pad(width, from + i))
  }

  function IndexOfChar(s: string, c: char): (k: nat)
    ensures k <= |s| && (k < |s| ==> s[k] == c)
  {
    if s == "" || s[0] == c then 0 else 1 + IndexOfChar(s[1..], c)
  }

  /** "NODE-1…7" is NODE-1 to NODE-7, printed as wide as the first. */
  function ExpandPiece(piece: string): seq<string> {
    var k := IndexOfChar(piece, ELLIPSIS);
    if k == |piece| then [piece]
    else
      var first, tail := piece[..k], piece[k + 1..];
      Range(Stem(first), |Digits(first)|, Num(Digits(first)), Num(Digits(tail)))
  }

  function ExpandAll(pieces: seq<string>): (r: seq<seq<string>>)
    ensures |r| == |pieces|
  {
    seq(|pieces|, k requires 0 <= k < |pieces| => ExpandPiece(pieces[k]))
  }

  function Expand(printed: string): seq<string> { Concat(ExpandAll(Split(printed, ','))) }

  /** Every number of the run is printed at the width of the first. */
  ghost predicate Faithful(run: seq<string>) {
    |run| > 1 ==> forall j :: 0 <= j < |run| ==> Digits(run[j]) == Pad(|Digits(run[0])|, Num(Digits(run[j])))
  }

  ghost predicate Printable(tag: string) { ELLIPSIS !in tag && FreeOf(tag, ',') }

  lemma {:induction false} NoEllipsis(s: string, c: char)
    requires c !in s
    ensures IndexOfChar(s, c) == |s|
  {
    if s != "" {
      NoEllipsis(s[1..], c);
    }
  }

  lemma {:induction false} EllipsisAfter(s: string, c: char, rest: string)
    requires c !in s
    ensures IndexOfChar(s + ([c] + rest), c) == |s|
  {
    if s != "" {
      assert (s + ([c] + rest))[1..] == s[1..] + ([c] + rest);
      EllipsisAfter(s[1..], c, rest);
    }
  }

  lemma {:induction false} RunShape(run: seq<string>, j: nat)
    requires Consecutive(run) && j < |run|
    ensures Stem(run[j]) == Stem(run[0]) && Num(Digits(run[j])) == Num(Digits(run[0])) + j
  {
    if j > 0 {
      RunShape(run, j - 1);
      assert Follows(run[j - 1], run[j]);
    }
  }

  lemma RunExpands(run: seq<string>)
    requires Consecutive(run) && ELLIPSIS !in run[0]
    requires |run| > 1
    ensures ExpandPiece(RunLabel(run))
         == Range(Stem(run[0]), |Digits(run[0])|, Num(Digits(run[0])), Num(Digits(run[0])) + |run| - 1)
  {
    var tail := LastSegment(run[|run| - 1]);
    var piece := RunLabel(run);
    EllipsisAfter(run[0], ELLIPSIS, tail);
    assert piece[..|run[0]|] == run[0] && piece[|run[0]| + 1..] == tail;
    LastSegmentNumber(run[|run| - 1]);
    RunShape(run, |run| - 1);
  }

  /** A run's label reads back to the run exactly when its numbers keep the first one's width. */
  lemma RunReadsIff(run: seq<string>)
    requires Consecutive(run) && ELLIPSIS !in run[0]
    ensures |ExpandPiece(RunLabel(run))| == |run|
    ensures ExpandPiece(RunLabel(run)) == run <==> Faithful(run)
  {
    if |run| == 1 {
      NoEllipsis(run[0], ELLIPSIS);
    } else {
      RunExpands(run);
      RangeIsRunIff(run);
    }
  }

  lemma RangeAt(run: seq<string>, j: nat)
    requires Consecutive(run) && j < |run|
    ensures var width := |Digits(run[0])|;
            var back := Range(Stem(run[0]), width, Num(Digits(run[0])), Num(Digits(run[0])) + |run| - 1);
            |back| == |run| && (back[j] == run[j] <==> Digits(run[j]) == Pad(width, Num(Digits(run[j]))))
  {
    RunShape(run, j);
    SameStem(run[j], Stem(run[0]), Pad(|Digits(run[0])|, Num(Digits(run[j]))));
  }

  lemma SameElements(a: seq<string>, b: seq<string>)
    requires |a| == |b|
    ensures a == b <==> forall j :: 0 <= j < |a| ==> a[j] == b[j]
  {
  }

  lemma RangeIsRunIff(run: seq<string>)
    requires Consecutive(run) && |run| > 1
    ensures var back := Range(Stem(run[0]), |Digits(run[0])|, Num(Digits(run[0])), Num(Digits(run[0])) + |run| - 1);
            |back| == |run| && (back == run <==> Faithful(run))
  {
    var width := |Digits(run[0])|;
    var back := Range(Stem(run[0]), width, Num(Digits(run[0])), Num(Digits(run[0])) + |run| - 1);
    forall j | 0 <= j < |run| ensures back[j] == run[j] <==> Digits(run[j]) == Pad(width, Num(Digits(run[j]))) {
      RangeAt(run, j);
    }
    SameElements(back, run);
  }

  lemma SameStem(tag: string, stem: string, digits: string)
    requires Stem(tag) == stem
    ensures stem + digits == tag <==> Digits(tag) == digits
  {
    assert tag == stem + Digits(tag);
    assert (stem + digits)[|stem|..] == digits && tag[|stem|..] == Digits(tag);
  }

  lemma {:induction false} ConcatEqualIff<T(!new)>(a: seq<seq<T>>, b: seq<seq<T>>)
    requires |a| == |b| && forall k :: 0 <= k < |a| ==> |a[k]| == |b[k]|
    ensures |Concat(a)| == |Concat(b)|
    ensures Concat(a) == Concat(b) <==> a == b
  {
    if a != [] {
      var last := |a| - 1;
      ConcatEqualIff(a[..last], b[..last]);
      var x, y := Concat(a[..last]), Concat(b[..last]);
      assert (x + a[last])[..|x|] == x && (y + b[last])[..|y|] == y;
      assert (x + a[last])[|x|..] == a[last] && (y + b[last])[|y|..] == b[last];
      assert a == a[..last] + [a[last]] && b == b[..last] + [b[last]];
    }
  }

  // ----- what the label is made of -----

  lemma {:induction false} LastSegmentIn(tag: string) returns (head: string)
    ensures tag == head + LastSegment(tag)
  {
    if tag == "" || tag[|tag| - 1] == '-' {
      head := tag;
    } else {
      head := LastSegmentIn(tag[..|tag| - 1]);
      assert tag == tag[..|tag| - 1] + [tag[|tag| - 1]];
      assert head + (LastSegment(tag[..|tag| - 1]) + [tag[|tag| - 1]]) == head + LastSegment(tag[..|tag| - 1]) + [tag[|tag| - 1]];
    }
  }

  lemma FreeOfSuffix(head: string, tail: string, mark: char)
    requires FreeOf(head + tail, mark)
    ensures FreeOf(tail, mark)
  {
    forall i | 0 <= i < |tail| - 1 ensures tail[i] != mark || tail[i + 1] != ' ' {
      assert (head + tail)[|head| + i] == tail[i] && (head + tail)[|head| + i + 1] == tail[i + 1];
    }
  }

  lemma RunLabelFree(run: seq<string>, mark: char)
    requires run != [] && (forall j :: 0 <= j < |run| ==> FreeOf(run[j], mark)) && mark != ELLIPSIS
    ensures FreeOf(RunLabel(run), mark)
  {
    if |run| > 1 {
      var last := run[|run| - 1];
      var head := LastSegmentIn(last);
      FreeOfSuffix(head, LastSegment(last), mark);
      FreeOfConcat([ELLIPSIS], LastSegment(last), mark);
      FreeOfConcat(run[0], [ELLIPSIS] + LastSegment(last), mark);
    }
  }

  lemma {:induction false} RunTags(tags: seq<string>, k: nat, j: nat)
    requires k < |Runs(tags)| && j < |Runs(tags)[k]|
    ensures Runs(tags)[k][j] in tags
  {
    RunsGroup(tags);
    ConcatMember(Runs(tags), Runs(tags)[k][j]);
  }

  lemma {:induction false} RunsNonempty(tags: seq<string>)
    requires tags != []
    ensures Runs(tags) != []
  {
    RunsGroup(tags);
  }

  lemma {:induction false} LabelsFree(tags: seq<string>, mark: char)
    requires (forall t :: t in tags ==> FreeOf(t, mark)) && mark != ELLIPSIS
    ensures AllConsecutive(Runs(tags))
    ensures forall k :: 0 <= k < |Runs(tags)| ==> Runs(tags)[k] != [] && FreeOf(RunLabel(Runs(tags)[k]), mark)
  {
    RunsGroup(tags);
    var runs := Runs(tags);
    forall k | 0 <= k < |runs| ensures runs[k] != [] && FreeOf(RunLabel(runs[k]), mark) {
      assert Consecutive(runs[k]);
      forall j | 0 <= j < |runs[k]| ensures FreeOf(runs[k][j], mark) {
        RunTags(tags, k, j);
      }
      RunLabelFree(runs[k], mark);
    }
  }

  lemma {:induction false} LabelPieces(tags: seq<string>)
    requires tags != [] && forall t :: t in tags ==> Printable(t)
    ensures AllConsecutive(Runs(tags)) && (forall k :: 0 <= k < |Runs(tags)| ==> Runs(tags)[k] != [])
    ensures Split(Compressed(tags), ',') == RunLabels(Runs(tags))
  {
    LabelsFree(tags, ',');
    RunsNonempty(tags);
    SplitOfJoin(RunLabels(Runs(tags)), ',');
  }

  lemma {:induction false} RunsReadIff(runs: seq<seq<string>>)
    requires AllConsecutive(runs) && forall k :: 0 <= k < |runs| ==> runs[k] != [] && ELLIPSIS !in runs[k][0]
    ensures Concat(ExpandAll(RunLabels(runs))) == Concat(runs) <==> forall k :: 0 <= k < |runs| ==> Faithful(runs[k])
  {
    var back := ExpandAll(RunLabels(runs));
    forall k | 0 <= k < |runs| ensures |back[k]| == |runs[k]| && (back[k] == runs[k] <==> Faithful(runs[k])) {
      assert Consecutive(runs[k]);
      RunReadsIff(runs[k]);
    }
    ConcatEqualIff(back, runs);
  }

  /** compress loses nothing, exactly when every run is printed at one width: reading the label gives the tag list back. */
  lemma {:induction false} LabelReadsBackIff(tags: seq<string>)
    requires tags != [] && forall t :: t in tags ==> Printable(t)
    ensures Expand(Compressed(tags)) == tags <==> forall k :: 0 <= k < |Runs(tags)| ==> Faithful(Runs(tags)[k])
  {
    LabelPieces(tags);
    RunsGroup(tags);
    forall k | 0 <= k < |Runs(tags)| ensures ELLIPSIS !in Runs(tags)[k][0] {
      RunTags(tags, k, 0);
    }
    RunsReadIff(Runs(tags));
  }

  // ----- when numbers keep their width -----

  lemma {:induction false} LeadingZero(d: string)
    requires AllDigits(d)
    ensures Num("0" + d) == Num(d)
  {
    if d != "" {
      var init, c := d[..|d| - 1], d[|d| - 1];
      LeadingZero(init);
      assert ("0" + d)[..|d|] == "0" + init;
    } else {
      assert "0" + d == "0" && Num("0"[..0]) == 0;
      assert Num("0") == 10 * Num("0"[..0]) + DigitValue('0');
    }
  }

  lemma {:induction false} DecGrows(a: nat, b: nat)
    requires a <= b
    ensures |Dec(a)| <= |Dec(b)|
    decreases b
  {
    if b >= 10 && a >= 10 {
      DecGrows(a / 10, b / 10);
    }
  }

  /** Plain numbers such as NODE-1 … NODE-12 are printed with no more digits than they have. */
  lemma CanonicalIsFaithful(run: seq<string>)
    requires Consecutive(run) && forall j :: 0 <= j < |run| && HasNumber(run[j]) ==> Canonical(Digits(run[j]))
    ensures Faithful(run)
  {
    if |run| > 1 {
      assert Follows(run[0], run[0 + 1]);
      forall j | 0 <= j < |run| ensures Digits(run[j]) == Pad(|Digits(run[0])|, Num(Digits(run[j]))) {
        if j > 0 {
          assert Follows(run[j - 1], run[j]);
        }
        RunShape(run, j);
        DecOfNum(Digits(run[0]));
        DecOfNum(Digits(run[j]));
        DecGrows(Num(Digits(run[0])), Num(Digits(run[j])));
      }
    }
  }

  lemma CanonicalTagsReadBack(tags: seq<string>)
    requires tags != [] && forall t :: t in tags ==> Printable(t) && (HasNumber(t) ==> Canonical(Digits(t)))
    ensures Expand(Compressed(tags)) == tags
  {
    RunsGroup(tags);
    forall k | 0 <= k < |Runs(tags)| ensures Faithful(Runs(tags)[k]) {
      assert Consecutive(Runs(tags)[k]);
      forall j | 0 <= j < |Runs(tags)[k]| && HasNumber(Runs(tags)[k][j]) ensures Canonical(Digits(Runs(tags)[k][j])) {
        RunTags(tags, k, j);
      }
      CanonicalIsFaithful(Runs(tags)[k]);
    }
    LabelReadsBackIff(tags);
  }

  lemma {:induction false} PairCompressed(a: string, b: string)
    requires Follows(a, b)
    ensures Runs([a, b]) == [[a, b]]
    ensures Compressed([a, b]) == a + ([ELLIPSIS] + LastSegment(b))
  {
    assert [a, b][..1] == [a] && [a][..0] == [];
    assert Runs([a]) == [[a]];
    assert [[a]][..0] == [] && [a] + [b] == [a, b];
    assert Runs([a, b]) == Extend([[a]], b) == [[a, b]];
  }

  lemma PairLoses(a: string, b: string)
    requires Follows(a, b) && Printable(a) && Printable(b)
    requires Digits(a) == "9" && Digits(b) == "010" && Num("010") == 10
    ensures Expand(Compressed([a, b])) != [a, b]
  {
    PairCompressed(a, b);
    assert |Dec(10)| == 2;
    assert Digits([a, b][1]) != Pad(|Digits([a, b][0])|, 10);
    assert !Faithful(Runs([a, b])[0]);
    LabelReadsBackIff([a, b]);
  }

  /** A-9 then A-010 makes one run, printed A-9…010: read back, it names A-10. */
  lemma LabelCanLose()
    ensures Compressed(["A-9", "A-010"]) == "A-9" + ([ELLIPSIS] + "010")
    ensures Expand(Compressed(["A-9", "A-010"])) != ["A-9", "A-010"]
  {
    NumberedParts();
    PairCompressed("A-9", "A-010");
    LastSegmentOf("A", "010");
    assert "A" + "-" + "010" == "A-010";
    PairLoses("A-9", "A-010");
  }

  lemma NumberedParts()
    ensures NumStart("A-9") == 2 && NumStart("A-010") == 2 && Digits("A-9") == "9" && Digits("A-010") == "010"
    ensures Num("9") == 9 && Num("010") == 10
    ensures Follows("A-9", "A-010") && Printable("A-9") && Printable("A-010")
  {
    assert "A-9" == "A-" + "9" && "A-010" == "A-" + "010";
    NumStartAppend("A-", "9");
    NumStartAppend("A-", "010");
    assert "9"[..0] == "" && "010"[..2] == "01" && "01"[..1] == "0" && "0"[..0] == "";
    assert Num("0") == 0 && Num("01") == 1;
    assert Stem("A-9") == "A-" == Stem("A-010");
  }
}
