/** Numbering things of one name 1, 2, 3, … in the order they appear.
    The generators do it three times with a dict of counters: device ids, bus ids, switch ports. */
module Numbering {
  import opened Lists
  import opened Text

  function Count(names: seq<string>, t: string): nat {
    if names == [] then 0
    else Count(names[..|names| - 1], t) + if names[|names| - 1] == t then 1 else 0
  }

  /** The number the i-th entry gets: how many of its name have appeared, itself included. */
  function Ordinal(names: seq<string>, i: nat): nat
    requires i < |names|
  {
    Count(names[..i], names[i]) + 1
  }

  lemma {:induction false} CountSnoc(names: seq<string>, x: string, t: string)
    ensures Count(names + [x], t) == Count(names, t) + if x == t then 1 else 0
  {
    assert (names + [x])[..|names|] == names;
  }

  lemma {:induction false} CountAppend(a: seq<string>, b: seq<string>, t: string)
    ensures Count(a + b, t) == Count(a, t) + Count(b, t)
  {
    if b == [] {
      assert a + b == a;
    } else {
      var init := b[..|b| - 1];
      CountAppend(a, init, t);
      assert (a + b)[..|a + b| - 1] == a + init;
    }
  }

  lemma {:induction false} PrefixCounts(names: seq<string>, i: nat, j: nat, t: string)
    requires i < j <= |names| && names[i] == t
    ensures Count(names[..i], t) < Count(names[..j], t)
    decreases j
  {
    assert names[..j][..j - 1] == names[..j - 1];
    if i < j - 1 {
      PrefixCounts(names, i, j - 1, t);
    }
  }

  lemma OrdinalInjective(names: seq<string>, i: nat, j: nat)
    requires i < |names| && j < |names|
    requires names[i] == names[j] && Ordinal(names, i) == Ordinal(names, j)
    ensures i == j
  {
    if i < j {
      PrefixCounts(names, i, j, names[i]);
    } else if j < i {
      PrefixCounts(names, j, i, names[j]);
    }
  }

  /** No gaps: every number up to the count of a name was given out. */
  lemma {:induction false} OrdinalOnto(names: seq<string>, t: string, k: nat)
    requires 1 <= k <= Count(names, t)
    ensures exists i :: 0 <= i < |names| && names[i] == t && Ordinal(names, i) == k
  {
    var last := |names| - 1;
    var init := names[..last];
    if names[last] == t && k == Count(names, t) {
      assert Ordinal(names, last) == k;
    } else {
      OrdinalOnto(init, t, k);
      var i :| 0 <= i < |init| && init[i] == t && Ordinal(init, i) == k;
      assert init[..i] == names[..i];
      assert names[i] == t && Ordinal(names, i) == k;
    }
  }

  lemma {:induction false} OrdinalAtMostCount(names: seq<string>, i: nat)
    requires i < |names|
    ensures Ordinal(names, i) <= Count(names, names[i])
  {
    PrefixCounts(names, i, |names|, names[i]);
    assert names[..|names|] == names;
  }

  /** The ids given to `names` when `issued` have been numbered before them. */
  function Ids(issued: seq<string>, names: seq<string>): (ids: seq<string>)
    ensures |ids| == |names|
  {
    if names == [] then []
    else
      var init, t := names[..|names| - 1], names[|names| - 1];
      Ids(issued, init) + [Slug(t, Count(issued, t) + Count(init, t) + 1)]
  }

  lemma {:induction false} IdsAppend(issued: seq<string>, a: seq<string>, b: seq<string>)
    ensures Ids(issued, a + b) == Ids(issued, a) + Ids(issued + a, b)
  {
    if b == [] {
      assert a + b == a;
    } else {
      var init, t := b[..|b| - 1], b[|b| - 1];
      IdsAppend(issued, a, init);
      assert (a + b)[..|a + b| - 1] == a + init && (a + b)[|a + b| - 1] == t;
      var id := Slug(t, Count(issued, t) + Count(a + init, t) + 1);
      assert Ids(issued, a + b) == Ids(issued, a + init) + [id];
      assert Ids(issued + a, b) == Ids(issued + a, init) + [id] by {
        CountAppend(a, init, t);
        CountAppend(issued, a, t);
      }
    }
  }

  lemma {:induction false} IdsAreOrdinals(names: seq<string>, i: nat)
    requires i < |names|
    ensures Ids([], names)[i] == Slug(names[i], Ordinal(names, i))
  {
    var last := |names| - 1;
    if i < last {
      var init := names[..last];
      IdsAreOrdinals(init, i);
      assert init[..i] == names[..i];
    }
  }

  lemma {:induction false} IdsDistinct(names: seq<string>)
    ensures Distinct(Ids([], names))
  {
    var ids := Ids([], names);
    forall i, j | 0 <= i < j < |ids| ensures ids[i] != ids[j] {
      IdsAreOrdinals(names, i);
      IdsAreOrdinals(names, j);
      if ids[i] == ids[j] {
        SlugInjective(names[i], Ordinal(names, i), names[j], Ordinal(names, j));
        OrdinalInjective(names, i, j);
      }
    }
  }

  /** The next id of any name has not been given out yet. */
  lemma NextIdIsFresh(issued: seq<string>, t: string)
    ensures Slug(t, Count(issued, t) + 1) !in Ids([], issued)
    ensures Ids([], issued + [t]) == Ids([], issued) + [Slug(t, Count(issued, t) + 1)]
  {
    IdsDistinct(issued + [t]);
    var all := Ids([], issued + [t]);
    assert (issued + [t])[..|issued|] == issued;
    assert all == Ids([], issued) + [Slug(t, Count(issued, t) + 1)];
    forall k | 0 <= k < |issued| ensures Ids([], issued)[k] != Slug(t, Count(issued, t) + 1) {
      assert all[k] != all[|issued|];
    }
  }
}
