/** What an order is built from: the assemblies manifest, the device templates and the resolved order. */
module Catalog {
  import opened Lists
  import opened Text
  import opened ComputeNodes

  datatype Connection = Connection(host: string, port: string, unitId: Option<string>)

  datatype CxLevel = L1 | L2 | L3 | L4 | L5

  datatype InstallTask = InstallTask(name: string, dependsOn: seq<string>, estMinutes: nat, crew: string, level: CxLevel)

  /** A device template; modules have no equipment id. */
  datatype Template = Template(
    equipmentId: Option<string>, capacityKwh: Option<real>, protocol: Option<string>, tasks: seq<InstallTask>)

  type Templates = map<string, Template>

  // topology.yaml
  datatype DeviceSpec = DeviceSpec(template: string, tag: Option<string>, connection: Option<Connection>)
  datatype MemberSpec = MemberSpec(template: string, port: Option<string>)
  datatype BusSpec = BusSpec(busId: string, kind: string, members: seq<MemberSpec>)
  datatype Topology = Topology(moduleTemplate: Option<string>, devices: seq<DeviceSpec>, buses: seq<BusSpec>)

  // bom.yaml
  datatype Shell = Shell(partNumber: string, description: string)
  datatype Part = Part(equipmentId: string, qty: nat, tags: seq<string>)
  datatype Plate = Plate(id: string, qty: nat)
  datatype BomYaml = BomYaml(shell: Shell, parts: seq<Part>, plates: seq<Plate>)

  datatype AsmType = ComputeContainer | GridContainer

  /** One assembly variant: bom.yaml always, topology.yaml when published. */
  datatype Variant = Variant(bom: BomYaml, topology: Option<Topology>)

  datatype Profile = Profile(
    computeContainer: string,
    computeByGpu: map<GpuVariant, string>,
    gridContainer: Option<string>,
    gridFeeder: Option<string>,
    interfacePlates: seq<string>)
  {
    /** Variant for the ordered GPU; None is compute_variant's KeyError: never another GPU's container. */
    function ComputeVariant(v: GpuVariant): Option<string> {
      if computeByGpu == map[] then Some(computeContainer)
      else if v in computeByGpu then Some(computeByGpu[v]) else None
    }
  }

  datatype Manifest = Manifest(profiles: map<string, Profile>, assemblies: map<(AsmType, string), Variant>) {
    function Topology(asm: AsmType, name: string): Option<Topology> {
      if (asm, name) in assemblies then assemblies[(asm, name)].topology else None
    }
  }

  datatype Coupling = AcCoupled | DcIntegratedPcs | DcExternalPcs

  type Pos = n: nat | n >= 1 witness 1

  /** The fields of ModuleResolution the generators read, with its own lower bounds. */
  datatype Resolution = Resolution(
    computeCount: Pos,
    nodeCount: Pos,
    gridCount: Pos,
    pcsCount: nat,
    coupling: Coupling,
    bessCapacityMwh: real,
    gpu: GpuVariant,
    offGrid: bool)
}
