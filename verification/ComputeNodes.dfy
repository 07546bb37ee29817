/** Servers per order, how they fill compute containers, and their load. */
module ComputeNodes {
  import opened Text

  datatype GpuVariant = B200 | H100Sxm

  const GPUS_PER_NODE := 8
  const NODES_PER_COMPUTE_CONTAINER := 7
  const NODES_PER_PDU := 3
  const PDUS_PER_SIDE := CeilDiv(NODES_PER_COMPUTE_CONTAINER, NODES_PER_PDU)
  const DRY_COOLER_FAN_KW := 6.0

  /** ceil(a / b); Dafny's `/` floors when the divisor is positive. */
  function CeilDiv(a: int, b: int): int
    requires b > 0
  {
    -((-a) / b)
  }

  lemma CeilDivBounds(a: int, b: int)
    requires b > 0
    ensures b * (CeilDiv(a, b) - 1) < a <= b * CeilDiv(a, b)
  {
  }

  function Ceil(x: real): (r: int)
    ensures (r - 1) as real < x <= r as real
  {
    -((-x).Floor)
  }

  function Min(a: int, b: int): int { if a < b then a else b }

  /** CONTAINER_KW: full containers, servers and overhead. */
  function ContainersKw(v: GpuVariant, count: int): real {
    match v case B200 => count as real * 80.0 case H100Sxm => count as real * 62.6
  }

  /** NODE_KW: servers alone. */
  function NodesKw(v: GpuVariant, servers: int): real {
    match v case B200 => servers as real * 10.5 case H100Sxm => servers as real * 7.94
  }

  function GpuNodeCount(gpus: int): int { CeilDiv(gpus, GPUS_PER_NODE) }

  function ComputeContainerCount(nodes: int): int { CeilDiv(nodes, NODES_PER_COMPUTE_CONTAINER) }

  function NodesInContainer(nodes: int, n: int): int {
    Min(NODES_PER_COMPUTE_CONTAINER, nodes - NODES_PER_COMPUTE_CONTAINER * (n - 1))
  }

  /** {f"{stem}{i}" for i in range(lo, hi + 1)} */
  function TagRange(stem: string, lo: int, hi: int): set<string>
    decreases hi - lo
  {
    if hi < lo then {} else TagRange(stem, lo, hi - 1) + {stem + IntText(hi)}
  }

  /** Topology tags a container holding `nodes` servers leaves out. */
  function DroppedTags(nodes: int): set<string> {
    var pdus := CeilDiv(nodes, NODES_PER_PDU);
    TagRange("NODE-", nodes + 1, NODES_PER_COMPUTE_CONTAINER)
    + TagRange("PDU-A", pdus + 1, PDUS_PER_SIDE)
    + TagRange("PDU-B", pdus + 1, PDUS_PER_SIDE)
  }

  /** Switch, CDU, PDU and dry cooler load, there whatever the containers hold. */
  function OverheadsKw(v: GpuVariant, count: int): real {
    ContainersKw(v, count) - NodesKw(v, NODES_PER_COMPUTE_CONTAINER * count) + count as real * DRY_COOLER_FAN_KW
  }

  /** Load of container Cn when `nodes` servers are ordered. */
  function ContainerLoadKw(v: GpuVariant, nodes: int, n: int): real {
    NodesKw(v, NodesInContainer(nodes, n)) + OverheadsKw(v, 1)
  }

  /** Load of full containers. */
  function FullLoadsKw(v: GpuVariant, count: int): real { ContainersKw(v, count) + count as real * DRY_COOLER_FAN_KW }

  function SitePeakMw(v: GpuVariant, gpus: int): real {
    var nodes := GpuNodeCount(gpus);
    (NodesKw(v, nodes) + OverheadsKw(v, ComputeContainerCount(nodes))) / 1000.0
  }

  function ServersUpTo(nodes: int, n: nat): int {
    if n == 0 then 0 else ServersUpTo(nodes, n - 1) + NodesInContainer(nodes, n)
  }

  lemma {:induction false} FullPrefix(nodes: int, n: nat)
    requires 7 * n <= nodes
    ensures ServersUpTo(nodes, n) == 7 * n
  {
    if n > 0 {
      FullPrefix(nodes, n - 1);
    }
  }

  /** Packing loses no server: every container but the last is full, the last holds 1 to 7. */
  lemma {:induction false} PackingConservesServers(nodes: int)
    requires nodes >= 1
    ensures var count := ComputeContainerCount(nodes);
            && count >= 1
            && ServersUpTo(nodes, count) == nodes
            && 1 <= NodesInContainer(nodes, count) <= 7
            && forall n :: 1 <= n < count ==> NodesInContainer(nodes, n) == 7
  {
    var count := ComputeContainerCount(nodes);
    FullPrefix(nodes, count - 1);
  }

  /** The delivered order (whole servers of 8 GPUs) sizes the same site as the requested one. */
  lemma DeliveredSizesAsRequested(v: GpuVariant, gpus: int)
    ensures GpuNodeCount(GpuNodeCount(gpus) * GPUS_PER_NODE) == GpuNodeCount(gpus)
    ensures SitePeakMw(v, GpuNodeCount(gpus) * GPUS_PER_NODE) == SitePeakMw(v, gpus)
  {
    var nodes := GpuNodeCount(gpus);
    var r := CeilDiv(nodes * GPUS_PER_NODE, GPUS_PER_NODE);
    assert 8 * (r - 1) < 8 * nodes <= 8 * r;
  }
}
