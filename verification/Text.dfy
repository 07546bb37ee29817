/** Decimal printing, trailing numbers and the identifiers built from them. */
module Text {

  predicate IsDigit(c: char) { '0' <= c <= '9' }

  predicate AllDigits(s: string) { forall i :: 0 <= i < |s| ==> IsDigit(s[i]) }

  function Digit(n: nat): (c: char)
    requires n < 10
    ensures IsDigit(c)
  {
    '0' + n as char
  }

  function DigitValue(c: char): (n: nat)
    requires IsDigit(c)
    ensures n < 10 && Digit(n) == c
  {
    (c - '0') as nat
  }

  /** str(n) */
  function Dec(n: nat): string {
    if n < 10 then [Digit(n)] else Dec(n / 10) + [Digit(n % 10)]
  }

  /** str(n) for any integer */
  function IntText(n: int): string {
    if n < 0 then "-" + Dec(-n) else Dec(n)
  }

  /** int(s) of a digit string */
  function Num(s: string): nat
    requires AllDigits(s)
  {
    if s == "" then 0 else 10 * Num(s[..|s| - 1]) + DigitValue(s[|s| - 1])
  }

  /** How str prints a number: at least one digit, no leading zero. */
  predicate Canonical(s: string) {
    s != "" && AllDigits(s) && (s[0] == '0' ==> |s| == 1)
  }

  /** Where the trailing digits of s begin (|s| when there are none). */
  function NumStart(s: string): (k: nat)
    ensures k <= |s| && AllDigits(s[k..])
    ensures k > 0 ==> !IsDigit(s[k - 1])
  {
    if s == "" || !IsDigit(s[|s| - 1]) then |s| else NumStart(s[..|s| - 1])
  }

  lemma {:induction false} NumOfDec(n: nat)
    ensures Canonical(Dec(n)) && Num(Dec(n)) == n
    ensures n > 0 ==> Dec(n)[0] != '0'
  {
    if n >= 10 {
      NumOfDec(n / 10);
      assert Dec(n)[..|Dec(n)| - 1] == Dec(n / 10);
      assert Dec(n)[0] == Dec(n / 10)[0];
    }
  }

  lemma {:induction false} DecOfNum(s: string)
    requires Canonical(s)
    ensures Dec(Num(s)) == s
    ensures s[0] != '0' ==> Num(s) > 0
  {
    var init, c := s[..|s| - 1], s[|s| - 1];
    assert s == init + [c];
    if |s| == 1 {
      assert Num(init) == 0 && Num(s) == DigitValue(c);
    } else {
      DecOfNum(init);
      assert (10 * Num(init) + DigitValue(c)) / 10 == Num(init) && (10 * Num(init) + DigitValue(c)) % 10 == DigitValue(c);
    }
  }

  lemma {:induction false} DecInjective(a: nat, b: nat)
    requires Dec(a) == Dec(b)
    ensures a == b
  {
    NumOfDec(a);
    NumOfDec(b);
  }

  lemma {:induction false} NumStartAppend(s: string, d: string)
    requires AllDigits(d)
    ensures NumStart(s + d) == NumStart(s)
  {
    if d == "" {
      assert s + d == s;
    } else {
      assert (s + d)[..|s + d| - 1] == s + d[..|d| - 1];
      NumStartAppend(s, d[..|d| - 1]);
    }
  }

  /** f"{stem}{n}": reading the trailing number back gives n and the stem. */
  lemma {:induction false} NumberedReads(stem: string, n: nat)
    requires stem == "" || !IsDigit(stem[|stem| - 1])
    ensures var s := stem + Dec(n);
            NumStart(s) == |stem| && s[..|stem|] == stem && s[|stem|..] == Dec(n) && Num(s[|stem|..]) == n
  {
    NumOfDec(n);
    NumStartAppend(stem, Dec(n));
  }

  /** Device and bus ids: f"{template}_{n}". */
  function Slug(template: string, n: nat): string { template + "_" + Dec(n) }

  lemma SlugInjective(t: string, n: nat, t': string, n': nat)
    requires Slug(t, n) == Slug(t', n')
    ensures t == t' && n == n'
  {
    NumberedReads(t + "_", n);
    NumberedReads(t' + "_", n');
    assert t + "_" == t' + "_";
    assert (t + "_")[..|t|] == (t' + "_")[..|t'|];
    DecInjective(n, n');
  }

  /** A fixed id whose last character is a letter is never a numbered id. */
  lemma SlugEndsInDigit(t: string, n: nat)
    ensures Slug(t, n) != "" && IsDigit(Slug(t, n)[|Slug(t, n)| - 1])
  {
    NumOfDec(n);
  }

  /** The part of a tag before its first hyphen. */
  function Owner(tag: string): string {
    if tag == "" || tag[0] == '-' then "" else [tag[0]] + Owner(tag[1..])
  }

  lemma {:induction false} OwnerOfHyphenated(head: string, tail: string)
    requires '-' !in head
    ensures Owner(head + "-" + tail) == head
    ensures Owner(head) == head
  {
    if head == "" {
      assert head + "-" + tail == "-" + tail;
    } else {
      OwnerOfHyphenated(head[1..], tail);
      assert (head + "-" + tail)[1..] == head[1..] + "-" + tail;
    }
  }

  lemma {:induction false} NoHyphenInNumbered(prefix: string, n: nat)
    requires '-' !in prefix
    ensures '-' !in prefix + Dec(n)
  {
    NumOfDec(n);
  }

  /** The part of a tag after its last hyphen. */
  function LastSegment(tag: string): string {
    if tag == "" || tag[|tag| - 1] == '-' then "" else LastSegment(tag[..|tag| - 1]) + [tag[|tag| - 1]]
  }

  lemma {:induction false} LastSegmentOf(head: string, tail: string)
    requires '-' !in tail
    ensures LastSegment(head + "-" + tail) == tail
  {
    if tail == "" {
      assert head + "-" + tail == head + "-";
    } else {
      var init, c := tail[..|tail| - 1], tail[|tail| - 1];
      LastSegmentOf(head, init);
      assert (head + "-" + tail)[..|head| + |tail|] == head + "-" + init;
      assert tail == init + [c] && c in tail;
    }
  }

  lemma {:induction false} NumberGrows(s: string, c: char)
    requires IsDigit(c)
    ensures (s + [c])[NumStart(s + [c])..] == s[NumStart(s)..] + [c]
  {
    assert (s + [c])[..|s|] == s;
  }

  /** … which keeps the tag's whole trailing number. */
  lemma {:induction false} LastSegmentNumber(tag: string)
    ensures LastSegment(tag)[NumStart(LastSegment(tag))..] == tag[NumStart(tag)..]
  {
    if tag != "" && IsDigit(tag[|tag| - 1]) {
      var init, c := tag[..|tag| - 1], tag[|tag| - 1];
      LastSegmentNumber(init);
      assert tag == init + [c] && LastSegment(tag) == LastSegment(init) + [c];
      NumberGrows(init, c);
      NumberGrows(LastSegment(init), c);
    }
  }

  // ----- lists printed with a two-character separator: a mark, then a space -----

  /** Where the first separator begins (|s| when there is none). */
  function Cut(s: string, mark: char): (k: nat)
    ensures k <= |s|
    ensures k < |s| ==> k + 2 <= |s| && s[k] == mark && s[k + 1] == ' '
  {
    if |s| < 2 then |s|
    else if s[0] == mark && s[1] == ' ' then 0
    else 1 + Cut(s[1..], mark)
  }

  ghost predicate FreeOf(s: string, mark: char) {
    forall i :: 0 <= i < |s| - 1 ==> s[i] != mark || s[i + 1] != ' '
  }

  function Split(s: string, mark: char): (r: seq<string>)
    ensures r != []
  {
    var k := Cut(s, mark);
    if k == |s| then [s] else [s[..k]] + Split(s[k + 2..], mark)
  }

  function Join(pieces: seq<string>, mark: char): string {
    if pieces == [] then "" else if |pieces| == 1 then pieces[0] else pieces[0] + ([mark, ' '] + Join(pieces[1..], mark))
  }

  lemma {:induction false} CutNone(s: string, mark: char)
    requires FreeOf(s, mark)
    ensures Cut(s, mark) == |s|
  {
    if |s| >= 2 {
      assert s[0] != mark || s[0 + 1] != ' ';
      forall i | 0 <= i < |s[1..]| - 1 ensures s[1..][i] != mark || s[1..][i + 1] != ' ' {
        assert s[1..][i] == s[i + 1] && s[1..][i + 1] == s[i + 1 + 1];
      }
      CutNone(s[1..], mark);
    }
  }

  lemma {:induction false} CutAfter(piece: string, rest: string, mark: char)
    requires FreeOf(piece, mark) && mark != ' '
    ensures Cut(piece + ([mark, ' '] + rest), mark) == |piece|
  {
    var s := piece + ([mark, ' '] + rest);
    if piece != "" {
      assert s[1..] == piece[1..] + ([mark, ' '] + rest);
      assert !(s[0] == mark && s[1] == ' ') by {
        if |piece| >= 2 {
          assert piece[0] != mark || piece[0 + 1] != ' ';
        }
      }
      forall i | 0 <= i < |piece[1..]| - 1 ensures piece[1..][i] != mark || piece[1..][i + 1] != ' ' {
        assert piece[1..][i] == piece[i + 1] && piece[1..][i + 1] == piece[i + 1 + 1];
      }
      CutAfter(piece[1..], rest, mark);
    }
  }

  lemma {:induction false} SplitNext(piece: string, rest: string, mark: char)
    requires FreeOf(piece, mark) && mark != ' '
    ensures Split(piece + ([mark, ' '] + rest), mark) == [piece] + Split(rest, mark)
  {
    var s := piece + ([mark, ' '] + rest);
    CutAfter(piece, rest, mark);
    assert s[..|piece|] == piece && s[|piece| + 2..] == rest;
  }

  /** Splitting gives back exactly the pieces joined. */
  lemma {:induction false} SplitOfJoin(pieces: seq<string>, mark: char)
    requires pieces != [] && mark != ' ' && forall i :: 0 <= i < |pieces| ==> FreeOf(pieces[i], mark)
    ensures Split(Join(pieces, mark), mark) == pieces
  {
    if |pieces| == 1 {
      CutNone(pieces[0], mark);
    } else {
      SplitOfJoin(pieces[1..], mark);
      SplitNext(pieces[0], Join(pieces[1..], mark), mark);
    }
  }

  lemma FreeOfConcat(a: string, b: string, mark: char)
    requires FreeOf(a, mark) && FreeOf(b, mark)
    requires a == "" || b == "" || a[|a| - 1] != mark || b[0] != ' '
    ensures FreeOf(a + b, mark)
  {
    var s := a + b;
    forall i | 0 <= i < |s| - 1 ensures s[i] != mark || s[i + 1] != ' ' {
      if i + 1 < |a| {
        assert s[i] == a[i] && s[i + 1] == a[i + 1];
      } else if i >= |a| {
        assert s[i] == b[i - |a|] && s[i + 1] == b[i - |a| + 1];
      }
    }
  }

  lemma {:induction false} FreeOfJoin(pieces: seq<string>, own: char, mark: char)
    requires forall i :: 0 <= i < |pieces| ==> FreeOf(pieces[i], mark)
    requires own != mark && own != ' ' && mark != ' '
    ensures FreeOf(Join(pieces, own), mark)
  {
    if |pieces| > 1 {
      var rest := Join(pieces[1..], own);
      FreeOfJoin(pieces[1..], own, mark);
      FreeOfConcat([own, ' '], rest, mark);
      FreeOfConcat(pieces[0], [own, ' '] + rest, mark);
    }
  }
}
