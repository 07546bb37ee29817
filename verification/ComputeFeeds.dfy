/** Which compute containers each grid container feeds (ADR-018), and whether its transformer holds. */
module ComputeFeeds {
  import opened Lists
  import opened ComputeNodes

  const GRID_CONTAINER_KVA := 1000.0
  const TRANSFORMER_DESIGN_LOADING := 0.8

  function GridContainerCount(sitePeakMw: real): int {
    Ceil(sitePeakMw * 1000.0 / (GRID_CONTAINER_KVA * TRANSFORMER_DESIGN_LOADING))
  }

  /** list(range(1, n + 1)) */
  function Numbers(n: nat): (r: seq<int>)
    ensures |r| == n && forall i :: 0 <= i < n ==> r[i] == i + 1
  {
    seq(n, i => i + 1)
  }

  function PerGrid(computeQty: nat, gridQty: nat): nat
    requires gridQty >= 1
  {
    assert CeilDiv(computeQty, gridQty) >= 0 by {
      CeilDivNonneg(computeQty, gridQty);
    }
    CeilDiv(computeQty, gridQty)
  }

  lemma CeilDivNonneg(a: nat, b: nat)
    requires b > 0
    ensures CeilDiv(a, b) >= 0
  {
    CeilDivBounds(a, b);
    if CeilDiv(a, b) < 0 {
      MulMono(CeilDiv(a, b), -1, b);
    }
  }

  /** Shares of the ceiling: the last one reached is the first that covers everyone. */
  lemma PerGridBounds(computeQty: nat, gridQty: nat)
    requires gridQty >= 1
    ensures gridQty * (PerGrid(computeQty, gridQty) - 1) < computeQty <= gridQty * PerGrid(computeQty, gridQty)
  {
    CeilDivBounds(computeQty, gridQty);
  }

  /** numbers[k * q : (k + 1) * q], clipped the way a slice is. */
  function Feed(computeQty: nat, q: nat, k: nat): (r: seq<int>)
    ensures |r| <= q
  {
    assert (k + 1) * q == k * q + q;
    Numbers(computeQty)[Min(k * q, computeQty)..Min((k + 1) * q, computeQty)]
  }

  lemma FeedMembers(computeQty: nat, q: nat, k: nat, n: int)
    ensures n in Feed(computeQty, q, k) <==> 1 <= n <= computeQty && k * q < n <= k * q + q
  {
    assert (k + 1) * q == k * q + q;
    var lo, f := Min(k * q, computeQty), Feed(computeQty, q, k);
    if 1 <= n <= computeQty && k * q < n <= k * q + q {
      assert f[n - 1 - lo] == n;
    }
  }

  function Feeds(computeQty: nat, gridQty: nat): (r: seq<seq<int>>)
    requires gridQty >= 1
    ensures |r| == gridQty
  {
    var q := PerGrid(computeQty, gridQty);
    seq(gridQty, k requires 0 <= k < gridQty => Feed(computeQty, q, k))
  }

  lemma {:induction false} FeedsPrefix(computeQty: nat, gridQty: nat, k: nat)
    requires 1 <= gridQty && k <= gridQty
    ensures Concat(Feeds(computeQty, gridQty)[..k])
         == Numbers(computeQty)[..Min(k * PerGrid(computeQty, gridQty), computeQty)]
  {
    var fs, q := Feeds(computeQty, gridQty), PerGrid(computeQty, gridQty);
    if k > 0 {
      FeedsPrefix(computeQty, gridQty, k - 1);
      assert fs[..k][..k - 1] == fs[..k - 1] && fs[..k][k - 1] == Feed(computeQty, q, k - 1);
      assert Concat(fs[..k]) == Concat(fs[..k - 1]) + Feed(computeQty, q, k - 1);
      Cut(computeQty, q, k - 1);
    }
  }

  lemma Cut(computeQty: nat, q: nat, k: nat)
    ensures Numbers(computeQty)[..Min(k * q, computeQty)] + Feed(computeQty, q, k)
         == Numbers(computeQty)[..Min((k + 1) * q, computeQty)]
  {
    assert (k + 1) * q == k * q + q;
  }

  /** The feeds are C1…CN cut in order: nothing lost, nothing fed twice. */
  lemma FeedsPartition(computeQty: nat, gridQty: nat)
    requires gridQty >= 1
    ensures Concat(Feeds(computeQty, gridQty)) == Numbers(computeQty)
  {
    var fs := Feeds(computeQty, gridQty);
    FeedsPrefix(computeQty, gridQty, gridQty);
    PerGridBounds(computeQty, gridQty);
    assert fs[..gridQty] == fs;
    assert Numbers(computeQty)[..computeQty] == Numbers(computeQty);
  }

  /** Every compute container has exactly one feeder, and it is the one division names. */
  lemma FedOnce(computeQty: nat, gridQty: nat, n: int, k: nat)
    requires 1 <= gridQty && k < gridQty && 1 <= n <= computeQty
    ensures PerGrid(computeQty, gridQty) > 0
    ensures (n - 1) / PerGrid(computeQty, gridQty) < gridQty
    ensures n in Feeds(computeQty, gridQty)[k] <==> k == (n - 1) / PerGrid(computeQty, gridQty)
  {
    var q := PerGrid(computeQty, gridQty);
    EvenShare(computeQty, gridQty);
    PerGridBounds(computeQty, gridQty);
    FeedMembers(computeQty, q, k, n);
    InSlot(n - 1, q, k);
    SlotBelow(n - 1, q, gridQty);
  }

  lemma SlotBelow(x: nat, q: nat, slots: nat)
    requires q > 0 && x < slots * q
    ensures x / q < slots
  {
    var d := x / q;
    assert d * q <= x;
    if d >= slots {
      MulMono(slots, d, q);
    }
  }

  lemma InSlot(x: nat, q: nat, k: nat)
    requires q > 0
    ensures k * q <= x < k * q + q <==> k == x / q
  {
    var d := x / q;
    assert d * q <= x < d * q + q;
    if k < d {
      MulMono(k + 1, d, q);
    } else if d < k {
      MulMono(d + 1, k, q);
    }
  }

  lemma MulMono(a: int, b: int, q: int)
    requires a <= b && q >= 0
    ensures a * q <= b * q
  {
  }

  /** A trailing grid container feeds nothing exactly when the ones before it already cover the order. */
  lemma FeedEmptyIff(computeQty: nat, gridQty: nat, k: nat)
    requires 1 <= gridQty && k < gridQty
    ensures Feeds(computeQty, gridQty)[k] == [] <==> k * PerGrid(computeQty, gridQty) >= computeQty
  {
    var q := PerGrid(computeQty, gridQty);
    assert (k + 1) * q == k * q + q;
    MulMono(k + 1, gridQty, q);
  }

  lemma FeedCanBeEmpty()
    ensures var n := ComputeContainerCount(GpuNodeCount(139 * 7 * 8));
            var m := GridContainerCount(SitePeakMw(B200, 139 * 7 * 8));
            n == 139 && m == 15 && Feeds(n, m)[14] == []
  {
    assert PerGrid(139, 15) == 10;
    FeedEmptyIff(139, 15, 14);
  }

  /** Summed load of a list of compute containers. */
  function LoadKw(v: GpuVariant, nodes: int, feed: seq<int>): real {
    if feed == [] then 0.0
    else LoadKw(v, nodes, feed[..|feed| - 1]) + ContainerLoadKw(v, nodes, feed[|feed| - 1])
  }

  lemma {:induction false} LoadBound(v: GpuVariant, nodes: int, feed: seq<int>)
    ensures LoadKw(v, nodes, feed) <= FullLoadsKw(v, |feed|)
  {
    if feed != [] {
      LoadBound(v, nodes, feed[..|feed| - 1]);
    }
  }

  lemma {:induction false} LoadOfFull(v: GpuVariant, nodes: int, feed: seq<int>)
    requires forall i :: 0 <= i < |feed| ==> NodesInContainer(nodes, feed[i]) == 7
    ensures LoadKw(v, nodes, feed) == FullLoadsKw(v, |feed|)
  {
    if feed != [] {
      LoadOfFull(v, nodes, feed[..|feed| - 1]);
    }
  }

  lemma {:induction false} LoadUpTo(v: GpuVariant, nodes: int, n: nat)
    ensures LoadKw(v, nodes, Numbers(n)) == NodesKw(v, ServersUpTo(nodes, n)) + OverheadsKw(v, n)
  {
    if n > 0 {
      assert Numbers(n)[..n - 1] == Numbers(n - 1);
      LoadUpTo(v, nodes, n - 1);
    }
  }

  lemma {:induction false} LoadAppend(v: GpuVariant, nodes: int, a: seq<int>, b: seq<int>)
    ensures LoadKw(v, nodes, a + b) == LoadKw(v, nodes, a) + LoadKw(v, nodes, b)
  {
    if b == [] {
      assert a + b == a;
    } else {
      assert (a + b)[..|a + b| - 1] == a + b[..|b| - 1];
      LoadAppend(v, nodes, a, b[..|b| - 1]);
    }
  }

  function TotalLoadKw(v: GpuVariant, nodes: int, feeds: seq<seq<int>>): real {
    if feeds == [] then 0.0
    else TotalLoadKw(v, nodes, feeds[..|feeds| - 1]) + LoadKw(v, nodes, feeds[|feeds| - 1])
  }

  lemma {:induction false} TotalLoadOfConcat(v: GpuVariant, nodes: int, feeds: seq<seq<int>>)
    ensures TotalLoadKw(v, nodes, feeds) == LoadKw(v, nodes, Concat(feeds))
  {
    if feeds != [] {
      TotalLoadOfConcat(v, nodes, feeds[..|feeds| - 1]);
      LoadAppend(v, nodes, Concat(feeds[..|feeds| - 1]), feeds[|feeds| - 1]);
    }
  }

  lemma {:induction false} SiteLoadIsPeak(v: GpuVariant, gpus: int)
    requires gpus >= 1
    ensures LoadKw(v, GpuNodeCount(gpus), Numbers(ComputeContainerCount(GpuNodeCount(gpus)))) == SitePeakMw(v, gpus) * 1000.0
  {
    var nodes := GpuNodeCount(gpus);
    PackingConservesServers(nodes);
    LoadUpTo(v, nodes, ComputeContainerCount(nodes));
  }

  /** Load is conserved: the transformers together carry exactly the site peak. */
  lemma {:induction false} FeedsCarrySitePeak(v: GpuVariant, gpus: int, gridQty: nat)
    requires gpus >= 1 && gridQty >= 1
    ensures TotalLoadKw(v, GpuNodeCount(gpus), Feeds(ComputeContainerCount(GpuNodeCount(gpus)), gridQty))
         == SitePeakMw(v, gpus) * 1000.0
  {
    var nodes := GpuNodeCount(gpus);
    var n := ComputeContainerCount(nodes);
    TotalLoadOfConcat(v, nodes, Feeds(n, gridQty));
    FeedsPartition(n, gridQty);
    SiteLoadIsPeak(v, gpus);
  }

  lemma PeakAboveFullOnes(v: GpuVariant, gpus: int)
    requires gpus >= 1
    ensures ComputeContainerCount(GpuNodeCount(gpus)) >= 1
    ensures var n := ComputeContainerCount(GpuNodeCount(gpus));
            FullLoadsKw(v, n - 1) < SitePeakMw(v, gpus) * 1000.0 <= FullLoadsKw(v, n)
    ensures SitePeakMw(v, gpus) > 0.0
  {
    var nodes := GpuNodeCount(gpus);
    var n := ComputeContainerCount(nodes);
    assert 7 * (n - 1) + 1 <= nodes <= 7 * n;
    assert SitePeakMw(v, gpus) * 1000.0 == NodesKw(v, nodes) + OverheadsKw(v, n);
  }

  lemma GridCountBounds(peakMw: real)
    requires peakMw > 0.0
    ensures var m := GridContainerCount(peakMw);
            m >= 1 && (m - 1) as real * 800.0 < peakMw * 1000.0 <= m as real * 800.0
  {
    var x := peakMw * 1000.0;
    assert GRID_CONTAINER_KVA * TRANSFORMER_DESIGN_LOADING == 800.0;
    assert x / 800.0 * 800.0 == x;
  }

  /** (q - 1) shares of `full` out of m grids of capacity 800 cannot reach 800 each. */
  lemma ShareArithmetic(a: real, b: real, c: real, full: real)
    requires a > 0.0 && full > 0.0
    requires a * b <= c && c * full < a * 800.0
    ensures b * full < 800.0
  {
    var x := a * b;
    MulReal(full, x, c);
    assert x * full == a * (b * full);
    Cancel(a, b * full, 800.0);
  }

  lemma Cancel(a: real, x: real, y: real)
    requires a > 0.0 && a * x < a * y
    ensures x < y
  {
    if x >= y {
      MulReal(a, y, x);
    }
  }

  lemma CountsOf(v: GpuVariant, gpus: int) returns (n: int, m: int)
    requires gpus >= 1
    ensures n == ComputeContainerCount(GpuNodeCount(gpus)) && m == GridContainerCount(SitePeakMw(v, gpus))
    ensures n >= 1 && m >= 1
    ensures FullLoadsKw(v, n - 1) < m as real * 800.0
    ensures (m - 1) as real * 800.0 < FullLoadsKw(v, n)
  {
    PeakAboveFullOnes(v, gpus);
    var peak := SitePeakMw(v, gpus);
    GridCountBounds(peak);
    n, m := ComputeContainerCount(GpuNodeCount(gpus)), GridContainerCount(peak);
    Between(FullLoadsKw(v, n - 1), peak * 1000.0, m as real * 800.0);
    Between((m - 1) as real * 800.0, peak * 1000.0, FullLoadsKw(v, n));
  }

  lemma Between(a: real, x: real, b: real)
    requires a < x <= b
    ensures a < b
  {
  }

  /** What the grid count buys: q - 1 full containers always fit the 800 kW design load. */
  lemma ShareBelowDesignPlusOne(v: GpuVariant, gpus: int)
    requires gpus >= 1
    ensures var n := ComputeContainerCount(GpuNodeCount(gpus));
            var m := GridContainerCount(SitePeakMw(v, gpus));
            n >= 1 && m >= 1 && PerGrid(n, m) >= 1 && FullLoadsKw(v, PerGrid(n, m) - 1) < 800.0
  {
    var n, m := CountsOf(v, gpus);
    EvenShare(n, m);
    ShareFits(v, n, m, PerGrid(n, m));
  }

  lemma PerContainer(v: GpuVariant, count: int)
    ensures FullLoadsKw(v, count) == count as real * FullLoadsKw(v, 1)
    ensures 68.0 < FullLoadsKw(v, 1) <= 86.0
  {
  }

  lemma ShareFits(v: GpuVariant, n: nat, m: nat, q: nat)
    requires n >= 1 && m >= 1 && q >= 1
    requires m as real * (q - 1) as real <= (n - 1) as real
    requires FullLoadsKw(v, n - 1) < m as real * 800.0
    ensures FullLoadsKw(v, q - 1) < 800.0
  {
    PerContainer(v, n - 1);
    PerContainer(v, q - 1);
    ShareArithmetic(m as real, (q - 1) as real, (n - 1) as real, FullLoadsKw(v, 1));
  }

  lemma EvenShare(n: nat, m: nat)
    requires n >= 1 && m >= 1
    ensures PerGrid(n, m) >= 1
    ensures m as real * (PerGrid(n, m) - 1) as real <= (n - 1) as real
  {
    var q := PerGrid(n, m);
    PerGridBounds(n, m);
    assert (m * (q - 1)) as real == m as real * (q - 1) as real;
  }

  lemma MulReal(c: real, a: real, b: real)
    requires c >= 0.0 && a <= b
    ensures c * a <= c * b
  {
  }

  /** Transformer bound: no order ever puts a grid container above its 1000 kVA nameplate. */
  lemma {:induction false} TransformerHolds(v: GpuVariant, gpus: int, k: nat)
    requires gpus >= 1
    requires k < GridContainerCount(SitePeakMw(v, gpus))
    ensures ComputeContainerCount(GpuNodeCount(gpus)) >= 1
    ensures var n := ComputeContainerCount(GpuNodeCount(gpus));
            var m := GridContainerCount(SitePeakMw(v, gpus));
            LoadKw(v, GpuNodeCount(gpus), Feeds(n, m)[k]) < 800.0 + FullLoadsKw(v, 1) < GRID_CONTAINER_KVA
  {
    ShareBelowDesignPlusOne(v, gpus);
    var n := ComputeContainerCount(GpuNodeCount(gpus));
    var m := GridContainerCount(SitePeakMw(v, gpus));
    ShareAtMostFull(v, GpuNodeCount(gpus), n, m, k);
  }

  ghost predicate AllWithin(v: GpuVariant, nodes: int, n: nat, m: nat)
    requires m >= 1
  {
    forall k :: 0 <= k < m ==> LoadKw(v, nodes, Feeds(n, m)[k]) <= 800.0
  }

  /** Every grid container within its 800 kW continuous design load. */
  ghost predicate WithinDesign(v: GpuVariant, gpus: int)
    requires gpus >= 1
  {
    ShareBelowDesignPlusOne(v, gpus);
    AllWithin(v, GpuNodeCount(gpus), ComputeContainerCount(GpuNodeCount(gpus)), GridContainerCount(SitePeakMw(v, gpus)))
  }

  lemma SeveralGridsSplit(v: GpuVariant, gpus: int)
    requires gpus >= 1
    requires GridContainerCount(SitePeakMw(v, gpus)) >= 2
    ensures ComputeContainerCount(GpuNodeCount(gpus)) >= 1
    ensures var n := ComputeContainerCount(GpuNodeCount(gpus));
            PerGrid(n, GridContainerCount(SitePeakMw(v, gpus))) < n
  {
    var n, m := CountsOf(v, gpus);
    SplitArithmetic(n, m);
  }

  lemma SplitArithmetic(n: nat, m: nat)
    requires m >= 2 && n >= 2
    ensures PerGrid(n, m) < n
  {
    var q := PerGrid(n, m);
    PerGridBounds(n, m);
    if q >= 1 {
      MulMono(2, m, q - 1);
    }
  }

  lemma {:induction false} FirstShareIsFull(v: GpuVariant, gpus: int)
    requires gpus >= 1
    requires GridContainerCount(SitePeakMw(v, gpus)) >= 2
    ensures ComputeContainerCount(GpuNodeCount(gpus)) >= 1
    ensures var n := ComputeContainerCount(GpuNodeCount(gpus));
            var m := GridContainerCount(SitePeakMw(v, gpus));
            LoadKw(v, GpuNodeCount(gpus), Feeds(n, m)[0]) == FullLoadsKw(v, PerGrid(n, m))
  {
    SeveralGridsSplit(v, gpus);
    PackingConservesServers(GpuNodeCount(gpus));
    FirstShare(v, GpuNodeCount(gpus), ComputeContainerCount(GpuNodeCount(gpus)), GridContainerCount(SitePeakMw(v, gpus)));
  }

  lemma {:induction false} FirstShare(v: GpuVariant, nodes: int, n: nat, m: nat)
    requires m >= 1 && PerGrid(n, m) < n
    requires forall i :: 1 <= i < n ==> NodesInContainer(nodes, i) == 7
    ensures LoadKw(v, nodes, Feeds(n, m)[0]) == FullLoadsKw(v, PerGrid(n, m))
  {
    var q := PerGrid(n, m);
    assert 0 * q == 0 && (0 + 1) * q == q;
    var first := Feeds(n, m)[0];
    assert first == Numbers(n)[0..q];
    LoadOfFull(v, nodes, first);
  }

  /** The design load is the exact limit of the even split: it holds on every grid container
      iff one container carries the site or a full share of q containers is within 800 kW. */
  lemma WithinDesignIff(v: GpuVariant, gpus: int)
    requires gpus >= 1
    ensures ComputeContainerCount(GpuNodeCount(gpus)) >= 1 && GridContainerCount(SitePeakMw(v, gpus)) >= 1
    ensures var n := ComputeContainerCount(GpuNodeCount(gpus));
            var m := GridContainerCount(SitePeakMw(v, gpus));
            WithinDesign(v, gpus) <==> m == 1 || FullLoadsKw(v, PerGrid(n, m)) <= 800.0
  {
    ShareBelowDesignPlusOne(v, gpus);
    var n := ComputeContainerCount(GpuNodeCount(gpus));
    var m := GridContainerCount(SitePeakMw(v, gpus));
    if m == 1 {
      OneGridCarriesAll(v, gpus);
    } else {
      FirstShareIsFull(v, gpus);
      forall k | 0 <= k < m
        ensures LoadKw(v, GpuNodeCount(gpus), Feeds(n, m)[k]) <= FullLoadsKw(v, PerGrid(n, m))
      {
        ShareAtMostFull(v, GpuNodeCount(gpus), n, m, k);
      }
    }
  }

  lemma {:induction false} ShareAtMostFull(v: GpuVariant, nodes: int, n: nat, m: nat, k: nat)
    requires k < m
    ensures LoadKw(v, nodes, Feeds(n, m)[k]) <= FullLoadsKw(v, PerGrid(n, m))
  {
    LoadBound(v, nodes, Feeds(n, m)[k]);
  }

  lemma OneFeed(n: nat)
    ensures Feeds(n, 1)[0] == Numbers(n)
  {
    FeedsPartition(n, 1);
    assert Feeds(n, 1)[..0] == [];
    assert Concat(Feeds(n, 1)) == [] + Feeds(n, 1)[0];
  }

  lemma {:induction false} OneWithin(v: GpuVariant, nodes: int, n: nat)
    requires LoadKw(v, nodes, Numbers(n)) <= 800.0
    ensures AllWithin(v, nodes, n, 1)
  {
    OneFeed(n);
  }

  lemma OneGridCarriesAll(v: GpuVariant, gpus: int)
    requires gpus >= 1 && GridContainerCount(SitePeakMw(v, gpus)) == 1
    ensures WithinDesign(v, gpus)
  {
    PeakAboveFullOnes(v, gpus);
    GridCountBounds(SitePeakMw(v, gpus));
    SiteLoadIsPeak(v, gpus);
    OneWithin(v, GpuNodeCount(gpus), ComputeContainerCount(GpuNodeCount(gpus)));
  }

  /** 37 full B200 containers: four grid containers, one of them asked for 860 kW. */
  lemma DesignLoadCanBeExceeded()
    ensures ComputeContainerCount(GpuNodeCount(37 * 7 * 8)) == 37
    ensures GridContainerCount(SitePeakMw(B200, 37 * 7 * 8)) == 4
    ensures LoadKw(B200, 259, Feeds(37, 4)[0]) == 860.0
  {
    assert GpuNodeCount(37 * 7 * 8) == 259 && ComputeContainerCount(259) == 37;
    assert SitePeakMw(B200, 37 * 7 * 8) * 1000.0 == 3182.0;
    assert PerGrid(37, 4) == 10;
    FirstShareIsFull(B200, 37 * 7 * 8);
  }
}
