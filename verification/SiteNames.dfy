/** Site tags: every device of a site can be told apart by its display name. */
module SiteNames {
  import opened Lists
  import opened Text
  import opened Catalog
  import opened ComputeNodes
  import opened Dtm
  import opened SitePlan
  import opened DtmSpec
  import opened DtmSoundness

  predicate Tagged(s: DeviceSpec) { s.tag.Some? && s.tag.value != "" }

  /** No two devices of one topology carry the same container-local tag. */
  ghost predicate TagsDistinct(specs: seq<DeviceSpec>) {
    forall i, j :: 0 <= i < j < |specs| && Tagged(specs[i]) ==> specs[i].tag != specs[j].tag
  }

  ghost predicate TopologiesTagged(m: Manifest) {
    forall key :: key in m.assemblies && m.assemblies[key].topology.Some? ==>
                    TagsDistinct(m.assemblies[key].topology.value.devices)
  }

  /** Within one block no name repeats and every name belongs to the block's tag. */
  ghost predicate LeavesDistinct(leaves: seq<Leaf>) {
    forall i, j :: 0 <= i < j < |leaves| && leaves[i].name.Some? ==> leaves[i].name != leaves[j].name
  }

  ghost predicate OwnNames(p: Plan) {
    && LeavesDistinct(p.leaves)
    && (forall i :: 0 <= i < |p.leaves| ==> p.leaves[i].name != Some(p.tag))
  }

  ghost predicate OwnedBy(p: Plan, owners: set<string>) {
    && Owner(p.tag) in owners
    && (forall i :: 0 <= i < |p.leaves| && p.leaves[i].name.Some? ==> Owner(p.leaves[i].name.value) in owners)
  }

  // ----- one container -----

  lemma LeafNameOwner(tag: string, s: DeviceSpec)
    requires '-' !in tag
    ensures LeafOf(tag, s).name.Some? ==> Owner(LeafOf(tag, s).name.value) == tag && LeafOf(tag, s).name != Some(tag)
  {
    if Tagged(s) {
      OwnerOfHyphenated(tag, s.tag.value);
      assert |tag + "-" + s.tag.value| > |tag|;
    }
  }

  lemma LeafNameInjective(tag: string, s: DeviceSpec, s': DeviceSpec)
    requires LeafOf(tag, s).name.Some? && LeafOf(tag, s).name == LeafOf(tag, s').name
    ensures Tagged(s) && s.tag == s'.tag
  {
    assert (tag + "-" + s.tag.value)[|tag| + 1..] == s.tag.value;
    assert (tag + "-" + s'.tag.value)[|tag| + 1..] == s'.tag.value;
  }

  lemma {:induction false} LeafFromSpec(tag: string, specs: seq<DeviceSpec>, drop: set<string>, i: nat) returns (k: nat)
    requires i < |Leaves(tag, specs, drop)|
    ensures k < |specs| && Leaves(tag, specs, drop)[i] == LeafOf(tag, specs[k])
  {
    var init := specs[..|specs| - 1];
    if i < |Leaves(tag, init, drop)| {
      k := LeafFromSpec(tag, init, drop, i);
    } else {
      k := |specs| - 1;
    }
  }

  lemma {:induction false} LeavesAreDistinct(tag: string, specs: seq<DeviceSpec>, drop: set<string>)
    requires TagsDistinct(specs)
    ensures LeavesDistinct(Leaves(tag, specs, drop))
  {
    if specs != [] {
      var init, last := specs[..|specs| - 1], |specs| - 1;
      LeavesAreDistinct(tag, init, drop);
      var before := Leaves(tag, init, drop);
      forall i | 0 <= i < |before| && before[i].name.Some? ensures before[i].name != LeafOf(tag, specs[last]).name {
        var k := LeafFromSpec(tag, init, drop, i);
        if before[i].name == LeafOf(tag, specs[last]).name {
          LeafNameInjective(tag, specs[k], specs[last]);
        }
      }
    }
  }

  lemma ContainerNames(asm: AsmType, topology: Option<Topology>, tag: string, drop: set<string>)
    requires '-' !in tag
    requires topology.Some? ==> TagsDistinct(topology.value.devices)
    ensures OwnNames(PlanOf(asm, topology, tag, drop)) && OwnedBy(PlanOf(asm, topology, tag, drop), {tag})
  {
    OwnerOfHyphenated(tag, "");
    if topology.Some? {
      var specs := topology.value.devices;
      LeavesAreDistinct(tag, specs, drop);
      forall i | 0 <= i < |Leaves(tag, specs, drop)|
        ensures Leaves(tag, specs, drop)[i].name != Some(tag)
        ensures Leaves(tag, specs, drop)[i].name.Some? ==> Owner(Leaves(tag, specs, drop)[i].name.value) == tag
      {
        var k := LeafFromSpec(tag, specs, drop, i);
        LeafNameOwner(tag, specs[k]);
      }
    }
  }

  // ----- the battery pad -----

  lemma NumberedNames(template: string, stem: string, count: nat)
    ensures LeavesDistinct(NumberedLeaves(template, stem, count))
  {
    var leaves := NumberedLeaves(template, stem, count);
    forall i, j | 0 <= i < j < |leaves| ensures leaves[i].name != leaves[j].name {
      if leaves[i].name == leaves[j].name {
        assert (stem + Dec(i + 1))[|stem|..] == Dec(i + 1) && (stem + Dec(j + 1))[|stem|..] == Dec(j + 1);
        DecInjective(i + 1, j + 1);
      }
    }
  }

  lemma {:induction false} NumberedOwner(head: string, tail: string, n: nat)
    requires '-' !in head
    ensures Owner(head + "-" + tail + Dec(n)) == head
    ensures |head + "-" + tail + Dec(n)| > |head| + 1 + |tail|
  {
    OwnerOfHyphenated(head, tail + Dec(n));
    assert head + "-" + tail + Dec(n) == head + "-" + (tail + Dec(n));
    NumOfDec(n);
  }

  lemma AcPadNames(r: Resolution, kwh: real)
    requires kwh != 0.0
    ensures OwnNames(AcPlan(r, kwh)) && OwnedBy(AcPlan(r, kwh), {"BESS", "PCS"})
  {
    var units := MegapackUnits(r.bessCapacityMwh, kwh);
    var leaves := NumberedLeaves("bess_rack", "BESS-1-MP-", units);
    NumberedNames("bess_rack", "BESS-1-MP-", units);
    OwnerOfHyphenated("BESS", "");
    assert "BESS" + "-" + "1-MP-" == "BESS-1-MP-";
    forall i | 0 <= i < units ensures leaves[i].name != Some("BESS") && Owner(leaves[i].name.value) == "BESS" {
      NumberedOwner("BESS", "1-MP-", i + 1);
    }
  }

  lemma BankNames()
    ensures Owner("BESS") == "BESS" && Owner("BESS-1") == "BESS" && "BESS-1" != "BESS" && "PCS" + "-" + "" == "PCS-"
  {
    OwnerOfHyphenated("BESS", "1");
    assert "BESS" + "-" + "1" == "BESS-1";
  }

  lemma DcPadNames(r: Resolution)
    ensures OwnNames(DcPlan(r)) && OwnedBy(DcPlan(r), {"BESS", "PCS"})
  {
    var pcs := NumberedLeaves("pcs", "PCS-", PcsUnits(r));
    NumberedNames("pcs", "PCS-", PcsUnits(r));
    BankNames();
    forall i | 0 <= i < |pcs|
      ensures pcs[i].name != Some("BESS") && pcs[i].name != Some("BESS-1") && Owner(pcs[i].name.value) == "PCS"
    {
      NumberedOwner("PCS", "", i + 1);
      assert pcs[i].name == Some("PCS-" + Dec(i + 1)) && ("PCS-" + Dec(i + 1))[0] == 'P';
    }
  }

  lemma PadNames(r: Resolution, templates: Templates)
    requires BatteryPlan(r, templates).Ok?
    ensures OwnNames(BatteryPlan(r, templates).value) && OwnedBy(BatteryPlan(r, templates).value, {"BESS", "PCS"})
  {
    if r.coupling == AcCoupled {
      AcPadNames(r, templates["bess_rack"].capacityKwh.value);
    } else {
      DcPadNames(r);
    }
  }

  // ----- the site -----

  /** Tag of the k-th container plan: C1…CN, then G1…GM. */
  function ContainerTag(computeCount: nat, k: nat): string {
    if k < computeCount then "C" + Dec(k + 1) else "G" + Dec(k - computeCount + 1)
  }

  lemma TagsApart(computeCount: nat, i: nat, j: nat)
    requires ContainerTag(computeCount, i) == ContainerTag(computeCount, j)
    ensures i == j
  {
    var a, b := ContainerTag(computeCount, i), ContainerTag(computeCount, j);
    assert a[1..] == Dec(if i < computeCount then i + 1 else i - computeCount + 1);
    assert b[1..] == Dec(if j < computeCount then j + 1 else j - computeCount + 1);
    assert a[0] == (if i < computeCount then 'C' else 'G') && b[0] == (if j < computeCount then 'C' else 'G');
    DecInjective(if i < computeCount then i + 1 else i - computeCount + 1,
                 if j < computeCount then j + 1 else j - computeCount + 1);
  }

  lemma TagHasNoHyphen(computeCount: nat, k: nat)
    ensures '-' !in ContainerTag(computeCount, k)
    ensures ContainerTag(computeCount, k)[0] == 'C' || ContainerTag(computeCount, k)[0] == 'G'
  {
    NoHyphenInNumbered("C", k + 1);
    if k >= computeCount {
      NoHyphenInNumbered("G", k - computeCount + 1);
    }
  }

  lemma ContainerPlanAt(m: Manifest, prof: Profile, r: Resolution, plans: seq<Plan>, k: nat)
    requires ContainerPlans(m, prof, r) == Ok(plans) && k < |plans| && TopologiesTagged(m)
    ensures plans[k].tag == ContainerTag(r.computeCount, k)
    ensures OwnNames(plans[k]) && OwnedBy(plans[k], {plans[k].tag})
  {
    TagHasNoHyphen(r.computeCount, k);
    var variant := prof.ComputeVariant(r.gpu).value;
    if k < r.computeCount {
      ContainerNames(ComputeContainer, m.Topology(ComputeContainer, variant), plans[k].tag,
                     DroppedTags(NodesInContainer(r.nodeCount, k + 1)));
    } else {
      var grid := GridVariants(prof, r.gridCount).value[k - r.computeCount];
      ContainerNames(GridContainer, m.Topology(GridContainer, grid), plans[k].tag, {});
    }
  }

  /** A device's name belongs to its block. */
  lemma BlockNameOwner(b: Block, p: Plan, owners: set<string>, d: Device)
    requires Realizes(b, p) && OwnedBy(p, owners) && d in BlockDevices(b) && d.displayName.Some?
    ensures Owner(d.displayName.value) in owners
  {
    if d != b.root {
      var i :| 0 <= i < |b.leaves| && b.leaves[i] == d;
      assert p.leaves[i].name == d.displayName;
    }
  }

  lemma NamesApartInBlock(b: Block, p: Plan, d: Device, e: Device)
    requires Realizes(b, p) && OwnNames(p) && d in BlockDevices(b) && e in BlockDevices(b)
    requires d.displayName.Some? && d.displayName == e.displayName
    ensures d == e
  {
    var i :| 0 <= i < |BlockDevices(b)| && BlockDevices(b)[i] == d;
    var j :| 0 <= j < |BlockDevices(b)| && BlockDevices(b)[j] == e;
    if 0 < i {
      assert p.leaves[i - 1].name == d.displayName;
    }
    if 0 < j {
      assert p.leaves[j - 1].name == e.displayName;
    }
  }

  /** Blocks with disjoint owners: a shared name means the same device. */
  lemma {:induction false} NamesApart(plans: seq<Plan>, owners: seq<set<string>>, d: Device, e: Device)
    requires |owners| == |plans|
    requires forall k :: 0 <= k < |plans| ==> OwnNames(plans[k]) && OwnedBy(plans[k], owners[k])
    requires forall i, j :: 0 <= i < j < |plans| ==> owners[i] !! owners[j]
    requires d in Flat(Blocks(plans)) && e in Flat(Blocks(plans))
    requires d.displayName.Some? && d.displayName == e.displayName
    ensures d == e
  {
    var i := InBlock(plans, d);
    var j := InBlock(plans, e);
    BlockNameOwner(Blocks(plans)[i], plans[i], owners[i], d);
    BlockNameOwner(Blocks(plans)[j], plans[j], owners[j], e);
    if i == j {
      NamesApartInBlock(Blocks(plans)[i], plans[i], d, e);
    }
  }

  function OwnersOf(plans: seq<Plan>): (r: seq<set<string>>)
    ensures |r| == |plans| + 1
  {
    seq(|plans| + 1, k requires 0 <= k <= |plans| => if k < |plans| then {plans[k].tag} else {"BESS", "PCS"})
  }

  lemma OwnersApart(m: Manifest, prof: Profile, r: Resolution, plans: seq<Plan>)
    requires ContainerPlans(m, prof, r) == Ok(plans) && TopologiesTagged(m)
    ensures forall i, j :: 0 <= i < j <= |plans| ==> OwnersOf(plans)[i] !! OwnersOf(plans)[j]
  {
    forall i, j | 0 <= i < j <= |plans| ensures OwnersOf(plans)[i] !! OwnersOf(plans)[j] {
      ContainerPlanAt(m, prof, r, plans, i);
      TagHasNoHyphen(r.computeCount, i);
      if j < |plans| {
        ContainerPlanAt(m, prof, r, plans, j);
        if plans[i].tag == plans[j].tag {
          TagsApart(r.computeCount, i, j);
        }
      } else {
        assert "BESS"[0] == 'B' && "PCS"[0] == 'P';
      }
    }
  }

  /** No owner starts the way the two utility names do. */
  ghost predicate NotUtility(owners: set<string>) {
    forall o :: o in owners ==> o != "" && o[0] != 'D' && o[0] != 'O'
  }

  lemma {:induction false} UtilityNamesApart(plans: seq<Plan>, owners: seq<set<string>>, d: Device, u: Device)
    requires |owners| == |plans|
    requires forall k :: 0 <= k < |plans| ==> OwnedBy(plans[k], owners[k]) && NotUtility(owners[k])
    requires d in Flat(Blocks(plans)) && u in UTILITY_DEVICES
    ensures d.displayName != u.displayName
  {
    assert u.displayName.value[0] == 'D' || u.displayName.value[0] == 'O';
    var i := InBlock(plans, d);
    if d.displayName.Some? {
      BlockNameOwner(Blocks(plans)[i], plans[i], owners[i], d);
      assert Owner(d.displayName.value)[0] == d.displayName.value[0];
    }
  }

  lemma SiteNamesUnique(profile: string, r: Resolution, m: Manifest, templates: Templates, plans: seq<Plan>, battery: Plan)
    requires profile in m.profiles && ContainerPlans(m, m.profiles[profile], r) == Ok(plans) && TopologiesTagged(m)
    requires BatteryPlan(r, templates) == Ok(battery)
    ensures NamesUnique(SiteDevices(plans, battery, r))
  {
    OwnersApart(m, m.profiles[profile], r, plans);
    AllOwned(profile, r, m, templates, plans, battery);
    var devices := SiteDevices(plans, battery, r);
    forall d, e | d in devices && e in devices && d.displayName.Some? && d.displayName == e.displayName ensures d == e {
      NamesApartOnSite(plans + [battery], OwnersOf(plans), r.offGrid, d, e);
    }
  }

  /** Every site tag names one device: containers, partial or not, the battery, the PCS and the utility pair. */
  lemma EveryTagNamesOneDevice(profile: string, r: Resolution, m: Manifest, templates: Templates)
    requires Generate(profile, r, m, templates).Ok? && TopologiesTagged(m)
    ensures NamesUnique(Generate(profile, r, m, templates).value.devices)
  {
    var plans, battery, between := Parts(profile, r, m, templates);
    SiteNamesUnique(profile, r, m, templates, plans, battery);
  }

  lemma AllOwned(profile: string, r: Resolution, m: Manifest, templates: Templates, plans: seq<Plan>, battery: Plan)
    requires profile in m.profiles && ContainerPlans(m, m.profiles[profile], r) == Ok(plans) && TopologiesTagged(m)
    requires BatteryPlan(r, templates) == Ok(battery)
    ensures forall k :: 0 <= k <= |plans| ==>
              && OwnNames((plans + [battery])[k]) && OwnedBy((plans + [battery])[k], OwnersOf(plans)[k])
              && NotUtility(OwnersOf(plans)[k])
  {
    forall k | 0 <= k <= |plans|
      ensures OwnNames((plans + [battery])[k]) && OwnedBy((plans + [battery])[k], OwnersOf(plans)[k])
      ensures NotUtility(OwnersOf(plans)[k])
    {
      if k < |plans| {
        ContainerPlanAt(m, m.profiles[profile], r, plans, k);
        TagHasNoHyphen(r.computeCount, k);
      } else {
        PadNames(r, templates);
      }
    }
  }

  lemma {:induction false} NamesApartOnSite(plans: seq<Plan>, owners: seq<set<string>>, offGrid: bool, d: Device, e: Device)
    requires |owners| == |plans|
    requires forall k :: 0 <= k < |plans| ==>
               OwnNames(plans[k]) && OwnedBy(plans[k], owners[k]) && NotUtility(owners[k])
    requires forall i, j :: 0 <= i < j < |plans| ==> owners[i] !! owners[j]
    requires d in Flat(Blocks(plans)) + UtilityOf(offGrid) && e in Flat(Blocks(plans)) + UtilityOf(offGrid)
    requires d.displayName.Some? && d.displayName == e.displayName
    ensures d == e
  {
    if d in Flat(Blocks(plans)) {
      if e in Flat(Blocks(plans)) {
        NamesApart(plans, owners, d, e);
      } else {
        UtilityNamesApart(plans, owners, d, e);
      }
    } else if e in Flat(Blocks(plans)) {
      UtilityNamesApart(plans, owners, e, d);
    } else {
      UtilityPairApart(d, e);
    }
  }

  lemma UtilityPairApart(d: Device, e: Device)
    requires d in UTILITY_DEVICES && e in UTILITY_DEVICES && d.displayName == e.displayName
    ensures d == e
  {
    assert "DER-DISPATCH"[0] != "OPERATING-ENVELOPE"[0];
  }
}
