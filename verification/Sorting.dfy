/** Python's stable sort, and the orders it is used with. */
module Sorting {
  import opened Lists

  /** Places x after every element not greater than it. */
  function Insert<T>(xs: seq<T>, x: T, le: (T, T) -> bool): seq<T> {
    if xs == [] || le(xs[|xs| - 1], x) then xs + [x]
    else Insert(xs[..|xs| - 1], x, le) + [xs[|xs| - 1]]
  }

  function Sort<T>(xs: seq<T>, le: (T, T) -> bool): seq<T> {
    if xs == [] then [] else Insert(Sort(xs[..|xs| - 1], le), xs[|xs| - 1], le)
  }

  ghost predicate Sorted<T>(xs: seq<T>, le: (T, T) -> bool) {
    forall i, j :: 0 <= i < j < |xs| ==> le(xs[i], xs[j])
  }

  ghost predicate TotalOrder<T(!new)>(le: (T, T) -> bool) {
    && (forall a, b :: le(a, b) || le(b, a))
    && (forall a, b, c :: le(a, b) && le(b, c) ==> le(a, c))
  }

  lemma {:induction false} InsertPermutes<T>(xs: seq<T>, x: T, le: (T, T) -> bool)
    ensures multiset(Insert(xs, x, le)) == multiset(xs) + multiset{x}
  {
    if xs != [] && !le(xs[|xs| - 1], x) {
      InsertPermutes(xs[..|xs| - 1], x, le);
      assert xs == xs[..|xs| - 1] + [xs[|xs| - 1]];
    }
  }

  lemma {:induction false} SortPermutes<T>(xs: seq<T>, le: (T, T) -> bool)
    ensures multiset(Sort(xs, le)) == multiset(xs)
  {
    if xs != [] {
      var init, x := xs[..|xs| - 1], xs[|xs| - 1];
      SortPermutes(init, le);
      InsertPermutes(Sort(init, le), x, le);
      assert multiset(xs) == multiset(init) + multiset{x} by { assert xs == init + [x]; }
    }
  }

  lemma {:induction false} SortMember<T>(xs: seq<T>, le: (T, T) -> bool, x: T)
    ensures x in Sort(xs, le) <==> x in xs
  {
    SortPermutes(xs, le);
    assert x in Sort(xs, le) <==> x in multiset(Sort(xs, le));
    assert x in xs <==> x in multiset(xs);
  }

  lemma {:induction false} SortLength<T>(xs: seq<T>, le: (T, T) -> bool)
    ensures |Sort(xs, le)| == |xs|
  {
    SortPermutes(xs, le);
    assert |multiset(Sort(xs, le))| == |multiset(xs)|;
  }

  lemma {:induction false} InsertMember<T>(xs: seq<T>, x: T, le: (T, T) -> bool, y: T)
    ensures y in Insert(xs, x, le) <==> y in xs || y == x
  {
    InsertPermutes(xs, x, le);
    assert y in Insert(xs, x, le) <==> y in multiset(Insert(xs, x, le));
    assert y in xs <==> y in multiset(xs);
  }

  lemma {:induction false} InsertSorts<T(!new)>(xs: seq<T>, x: T, le: (T, T) -> bool)
    requires TotalOrder(le) && Sorted(xs, le)
    ensures Sorted(Insert(xs, x, le), le)
  {
    if xs != [] {
      var init, last := xs[..|xs| - 1], xs[|xs| - 1];
      if le(last, x) {
        forall i | 0 <= i < |xs| ensures le(xs[i], x) {
          assert le(xs[i], last) by {
            if i == |xs| - 1 {
              assert le(last, last) || le(last, last);
            }
          }
        }
      } else {
        assert le(x, last) by {
          assert le(last, x) || le(x, last);
        }
        InsertSorts(init, x, le);
        var inserted := Insert(init, x, le);
        forall i | 0 <= i < |inserted| ensures le(inserted[i], last) {
          InsertMember(init, x, le, inserted[i]);
          if inserted[i] != x {
            var j :| 0 <= j < |init| && init[j] == inserted[i];
            assert le(xs[j], xs[|xs| - 1]);
          }
        }
      }
    }
  }

  lemma {:induction false} SortSorts<T(!new)>(xs: seq<T>, le: (T, T) -> bool)
    requires TotalOrder(le)
    ensures Sorted(Sort(xs, le), le)
  {
    if xs != [] {
      SortSorts(xs[..|xs| - 1], le);
      InsertSorts(Sort(xs[..|xs| - 1], le), xs[|xs| - 1], le);
    }
  }

  /** Sorting a list whose neighbours are in order changes nothing. */
  lemma {:induction false} SortInOrder<T>(xs: seq<T>, le: (T, T) -> bool)
    requires forall i :: 0 < i < |xs| ==> le(xs[i - 1], xs[i])
    ensures Sort(xs, le) == xs
  {
    if xs != [] {
      var init := xs[..|xs| - 1];
      assert forall i :: 0 < i < |init| ==> le(init[i - 1], init[i]) by {
        forall i | 0 < i < |init| ensures le(init[i - 1], init[i]) {
          assert le(xs[i - 1], xs[i]);
        }
      }
      SortInOrder(init, le);
      if init != [] {
        assert le(xs[|xs| - 1 - 1], xs[|xs| - 1]);
      }
      assert xs == init + [xs[|xs| - 1]];
    }
  }

  // ----- strings, by code point -----

  predicate StrLe(a: string, b: string) {
    if a == "" then true
    else if b == "" then false
    else if a[0] == b[0] then StrLe(a[1..], b[1..])
    else a[0] < b[0]
  }

  lemma {:induction false} StrLeTotal(a: string, b: string)
    ensures StrLe(a, b) || StrLe(b, a)
    ensures StrLe(a, b) && StrLe(b, a) ==> a == b
  {
    if a != "" && b != "" && a[0] == b[0] {
      StrLeTotal(a[1..], b[1..]);
      assert a == [a[0]] + a[1..] && b == [b[0]] + b[1..];
    }
  }

  lemma {:induction false} StrLeTransitive(a: string, b: string, c: string)
    requires StrLe(a, b) && StrLe(b, c)
    ensures StrLe(a, c)
  {
    if a != "" && b != "" && c != "" && a[0] == b[0] == c[0] {
      StrLeTransitive(a[1..], b[1..], c[1..]);
    }
  }
}
