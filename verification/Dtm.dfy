/** The device topology manifest and its referential-integrity validators. */
module Dtm {
  import opened Lists
  import opened Text
  import opened Catalog

  datatype Device = Device(
    id: string,
    template: string,
    displayName: Option<string>,
    parent: Option<string>,
    connection: Option<Connection>,
    capacityKwh: Option<real>)

  datatype BusMember = BusMember(deviceId: string, port: Option<string>)
  datatype Bus = Bus(id: string, kind: string, members: seq<BusMember>)

  /** `devices` is a Python dict keyed by device id: the list keeps its insertion order. */
  datatype Dtm = Dtm(devices: seq<Device>, buses: seq<Bus>, templatesUsed: Templates)

  function DeviceIds(devices: seq<Device>): seq<string> {
    Map((d: Device) => d.id, devices)
  }

  function IndexOf(devices: seq<Device>, id: string): (i: nat)
    ensures i <= |devices|
    ensures i < |devices| ==> devices[i].id == id
    ensures i == |devices| ==> id !in DeviceIds(devices)
  {
    if devices == [] then 0
    else if devices[0].id == id then 0
    else
      assert DeviceIds(devices) == [devices[0].id] + DeviceIds(devices[1..]);
      1 + IndexOf(devices[1..], id)
  }

  /** devices[d.id] = d: overwrites in place when the key exists. */
  function Put(devices: seq<Device>, d: Device): (r: seq<Device>)
    ensures d.id !in DeviceIds(devices) ==> r == devices + [d]
  {
    var i := IndexOf(devices, d.id);
    if i < |devices| then
      assert devices[i].id == DeviceIds(devices)[i];
      devices[i := d]
    else devices + [d]
  }

  /** Ids of the devices using a template, in order: the generator's by_template entry for it. */
  function IdsOf(devices: seq<Device>, template: string): seq<string> {
    if devices == [] then []
    else IdsOf(devices[..|devices| - 1], template)
         + if devices[|devices| - 1].template == template then [devices[|devices| - 1].id] else []
  }

  lemma {:induction false} IdsOfAppend(a: seq<Device>, b: seq<Device>, template: string)
    ensures IdsOf(a + b, template) == IdsOf(a, template) + IdsOf(b, template)
  {
    if b == [] {
      assert a + b == a;
    } else {
      assert (a + b)[..|a + b| - 1] == a + b[..|b| - 1];
      IdsOfAppend(a, b[..|b| - 1], template);
    }
  }

  lemma {:induction false} IdsOfMember(devices: seq<Device>, template: string, id: string)
    ensures id in IdsOf(devices, template) <==> exists d :: d in devices && d.template == template && d.id == id
  {
    if devices != [] {
      var init, d := devices[..|devices| - 1], devices[|devices| - 1];
      assert devices == init + [d];
      IdsOfMember(init, template, id);
    }
  }

  lemma DeviceIdsMember(devices: seq<Device>, id: string)
    ensures id in DeviceIds(devices) <==> exists d :: d in devices && d.id == id
  {
    var ids := DeviceIds(devices);
    if id in ids {
      var i :| 0 <= i < |ids| && ids[i] == id;
      assert devices[i] in devices && devices[i].id == id;
    }
    if d :| d in devices && d.id == id {
      var i :| 0 <= i < |devices| && devices[i] == d;
      assert ids[i] == id;
    }
  }

  predicate IsLower(c: char) { 'a' <= c <= 'z' }

  predicate AllSlugChars(s: string) { forall i :: 0 <= i < |s| ==> IsLower(s[i]) || IsDigit(s[i]) || s[i] == '_' }

  /** device_id_slug: ^[a-z][a-z0-9_]{0,62}[a-z0-9]$ */
  predicate ValidSlug(id: string) {
    2 <= |id| <= 64 && IsLower(id[0]) && AllSlugChars(id) && id[|id| - 1] != '_'
  }

  predicate IdsValid(devices: seq<Device>) { forall i :: 0 <= i < |devices| ==> ValidSlug(devices[i].id) }

  ghost predicate ParentChainResolves(dtm: Dtm) {
    forall d :: d in dtm.devices && d.parent.Some? ==> d.parent.value in DeviceIds(dtm.devices)
  }

  ghost predicate TemplateRefsResolve(dtm: Dtm) {
    forall d :: d in dtm.devices ==> d.template in dtm.templatesUsed
  }

  ghost predicate BusMembersResolve(dtm: Dtm) {
    forall b, m :: b in dtm.buses && m in b.members ==> m.deviceId in DeviceIds(dtm.devices)
  }

  /** Every site tag names one device. */
  ghost predicate NamesUnique(devices: seq<Device>) {
    forall d, e :: d in devices && e in devices && d.displayName.Some? && d.displayName == e.displayName ==> d == e
  }
}
