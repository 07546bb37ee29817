/** The method of procedure: every device's install tasks in commissioning order. */
module InstallSequence {
  import opened Lists
  import opened Catalog
  import opened Dtm
  import opened Sorting
  import SiteIndex

  datatype MopRow = MopRow(level: CxLevel, device: string, task: string, minutes: nat, crew: string)

  function Rank(l: CxLevel): nat {
    match l case L1 => 1 case L2 => 2 case L3 => 3 case L4 => 4 case L5 => 5
  }

  function RowOf(d: Device, t: InstallTask): MopRow { MopRow(t.level, SiteIndex.Tag(d), t.name, t.estMinutes, t.crew) }

  function TasksOf(dtm: Dtm, d: Device): seq<InstallTask> {
    if d.template in dtm.templatesUsed then dtm.templatesUsed[d.template].tasks else []
  }

  function RowsOf(dtm: Dtm, d: Device): seq<MopRow> { Map((t: InstallTask) => RowOf(d, t), TasksOf(dtm, d)) }

  /** Every device's rows, device by device. */
  function RowsOver(dtm: Dtm, devices: seq<Device>): seq<MopRow> { Concat(Map((d: Device) => RowsOf(dtm, d), devices)) }

  function IdLe(): (Device, Device) -> bool { (a: Device, b: Device) => StrLe(a.id, b.id) }

  /** (level, device, task name), compared left to right. */
  predicate RowBefore(a: MopRow, b: MopRow) {
    if Rank(a.level) != Rank(b.level) then Rank(a.level) < Rank(b.level)
    else if a.device != b.device then StrLe(a.device, b.device)
    else StrLe(a.task, b.task)
  }

  function RowLe(): (MopRow, MopRow) -> bool { (a: MopRow, b: MopRow) => RowBefore(a, b) }

  function MopRows(dtm: Dtm): seq<MopRow> { Sort(RowsOver(dtm, Sort(dtm.devices, IdLe())), RowLe()) }

  /** build_mop_rows, on a DTM that passed its validators: every device has its template */
  method BuildMopRows(dtm: Dtm) returns (rows: seq<MopRow>)
    requires TemplateRefsResolve(dtm)
    ensures rows == MopRows(dtm)
  {
    rows := [];
    var ordered := Sort(dtm.devices, IdLe());
    ghost var groups := Map((d: Device) => RowsOf(dtm, d), ordered);
    for i := 0 to |ordered|
      invariant rows == Concat(groups[..i])
    {
      ConcatStep(groups, i);
      assert groups[i] == RowsOf(dtm, ordered[i]);
      rows := rows + RowsOf(dtm, ordered[i]);
    }
    assert groups[..|ordered|] == groups;
    rows := Sort(rows, RowLe());
  }

  // ----- nothing lost, levels in order -----

  lemma RowsOverSnoc(dtm: Dtm, devices: seq<Device>, d: Device)
    ensures RowsOver(dtm, devices + [d]) == RowsOver(dtm, devices) + RowsOf(dtm, d)
  {
    MapAppend((d: Device) => RowsOf(dtm, d), devices, [d]);
    ConcatSnoc(Map((d: Device) => RowsOf(dtm, d), devices), RowsOf(dtm, d));
  }

  lemma {:induction false} InsertRows(dtm: Dtm, devices: seq<Device>, d: Device)
    ensures multiset(RowsOver(dtm, Insert(devices, d, IdLe()))) == multiset(RowsOver(dtm, devices)) + multiset(RowsOf(dtm, d))
  {
    if devices == [] || IdLe()(devices[|devices| - 1], d) {
      RowsOverSnoc(dtm, devices, d);
    } else {
      var init, last := devices[..|devices| - 1], devices[|devices| - 1];
      assert devices == init + [last];
      InsertRows(dtm, init, d);
      RowsOverSnoc(dtm, Insert(init, d, IdLe()), last);
      RowsOverSnoc(dtm, init, last);
    }
  }

  lemma {:induction false} SortRows(dtm: Dtm, devices: seq<Device>)
    ensures multiset(RowsOver(dtm, Sort(devices, IdLe()))) == multiset(RowsOver(dtm, devices))
  {
    if devices != [] {
      var init, last := devices[..|devices| - 1], devices[|devices| - 1];
      assert devices == init + [last];
      SortRows(dtm, init);
      InsertRows(dtm, Sort(init, IdLe()), last);
      RowsOverSnoc(dtm, init, last);
    }
  }

  /** The plan is a permutation of every device's tasks. */
  lemma EveryTaskOnce(dtm: Dtm)
    ensures multiset(MopRows(dtm)) == multiset(RowsOver(dtm, dtm.devices))
  {
    SortPermutes(RowsOver(dtm, Sort(dtm.devices, IdLe())), RowLe());
    SortRows(dtm, dtm.devices);
  }

  /** A task of a device, as its row reads. */
  ghost predicate TaskRow(dtm: Dtm, d: Device, t: InstallTask, row: MopRow) {
    && d.template in dtm.templatesUsed && t in dtm.templatesUsed[d.template].tasks
    && row == MopRow(t.level, if d.displayName.Some? && d.displayName.value != "" then d.displayName.value else d.id, t.name, t.estMinutes, t.crew)
  }

  lemma RowHasTask(dtm: Dtm, row: MopRow)
    requires row in RowsOver(dtm, dtm.devices)
    ensures exists d, t :: d in dtm.devices && TaskRow(dtm, d, t, row)
  {
    var groups := Map((d: Device) => RowsOf(dtm, d), dtm.devices);
    ConcatMember(groups, row);
    var k :| 0 <= k < |groups| && row in groups[k];
    var d := dtm.devices[k];
    var i :| 0 <= i < |RowsOf(dtm, d)| && RowsOf(dtm, d)[i] == row;
    assert d in dtm.devices && TaskRow(dtm, d, TasksOf(dtm, d)[i], row);
  }

  lemma TaskHasRow(dtm: Dtm, d: Device, t: InstallTask, row: MopRow)
    requires d in dtm.devices && TaskRow(dtm, d, t, row)
    ensures row in RowsOver(dtm, dtm.devices)
  {
    var groups := Map((d: Device) => RowsOf(dtm, d), dtm.devices);
    var i :| 0 <= i < |TasksOf(dtm, d)| && TasksOf(dtm, d)[i] == t;
    assert RowsOf(dtm, d)[i] == row;
    var k :| 0 <= k < |dtm.devices| && dtm.devices[k] == d;
    assert row in groups[k];
    ConcatMember(groups, row);
  }

  lemma {:induction false} TaskTotal(dtm: Dtm, devices: seq<Device>)
    ensures |RowsOver(dtm, devices)|
         == Sum(Map((d: Device) => if d.template in dtm.templatesUsed then |dtm.templatesUsed[d.template].tasks| else 0, devices))
  {
    if devices != [] {
      var init, d := devices[..|devices| - 1], devices[|devices| - 1];
      TaskTotal(dtm, init);
      assert devices == init + [d];
      RowsOverSnoc(dtm, init, d);
      var count := (d: Device) => if d.template in dtm.templatesUsed then |dtm.templatesUsed[d.template].tasks| else 0;
      assert Map(count, devices)[..|init|] == Map(count, init);
    }
  }

  /** Every task of every device's template has its row, every row is one of them, and there are as many rows as tasks. */
  lemma RowsAreTasks(dtm: Dtm)
    ensures forall row :: row in MopRows(dtm) <==> exists d, t :: d in dtm.devices && TaskRow(dtm, d, t, row)
    ensures |MopRows(dtm)|
         == Sum(Map((d: Device) => if d.template in dtm.templatesUsed then |dtm.templatesUsed[d.template].tasks| else 0, dtm.devices))
  {
    EveryTaskOnce(dtm);
    TaskTotal(dtm, dtm.devices);
    assert |multiset(MopRows(dtm))| == |multiset(RowsOver(dtm, dtm.devices))|;
    forall row ensures row in MopRows(dtm) <==> exists d, t :: d in dtm.devices && TaskRow(dtm, d, t, row) {
      assert row in multiset(MopRows(dtm)) <==> row in multiset(RowsOver(dtm, dtm.devices));
      if row in MopRows(dtm) {
        RowHasTask(dtm, row);
      }
      if d, t :| d in dtm.devices && TaskRow(dtm, d, t, row) {
        TaskHasRow(dtm, d, t, row);
      }
    }
  }

  lemma RowBeforeTotal(a: MopRow, b: MopRow)
    ensures RowBefore(a, b) || RowBefore(b, a)
  {
    StrLeTotal(a.device, b.device);
    StrLeTotal(a.task, b.task);
  }

  lemma RowBeforeTransitive(a: MopRow, b: MopRow, c: MopRow)
    requires RowBefore(a, b) && RowBefore(b, c)
    ensures RowBefore(a, c)
  {
    if Rank(a.level) == Rank(b.level) == Rank(c.level) {
      if a.device == b.device == c.device {
        StrLeTransitive(a.task, b.task, c.task);
      } else {
        StrLeTotal(a.device, b.device);
        StrLeTotal(b.device, c.device);
        if a.device != b.device && b.device != c.device {
          StrLeTransitive(a.device, b.device, c.device);
        }
        if a.device == c.device && a.device != b.device {
          StrLeTotal(a.device, b.device);
        }
      }
    }
  }

  lemma RowLeIsTotal()
    ensures TotalOrder(RowLe())
  {
    forall a, b ensures RowLe()(a, b) || RowLe()(b, a) {
      RowBeforeTotal(a, b);
    }
    forall a, b, c | RowLe()(a, b) && RowLe()(b, c) ensures RowLe()(a, c) {
      RowBeforeTransitive(a, b, c);
    }
  }

  lemma RowsSorted(dtm: Dtm, i: nat, j: nat)
    requires i < j < |MopRows(dtm)|
    ensures RowBefore(MopRows(dtm)[i], MopRows(dtm)[j])
  {
    RowLeIsTotal();
    SortSorts(RowsOver(dtm, Sort(dtm.devices, IdLe())), RowLe());
    assert RowLe()(MopRows(dtm)[i], MopRows(dtm)[j]);
  }

  /** No task of a higher commissioning level comes before one of a lower level; within a level, devices go by name and
      then tasks by name. */
  lemma LevelsInOrder(dtm: Dtm, i: nat, j: nat)
    requires i < j < |MopRows(dtm)|
    ensures Rank(MopRows(dtm)[i].level) <= Rank(MopRows(dtm)[j].level)
    ensures var a, b := MopRows(dtm)[i], MopRows(dtm)[j];
            a.level == b.level ==> (a.device == b.device && StrLe(a.task, b.task)) || (a.device != b.device && StrLe(a.device, b.device))
  {
    RowsSorted(dtm, i, j);
  }

  // ----- dependencies -----

  /** Strictly first by level, then by task name. */
  predicate Sooner(a: MopRow, b: MopRow) {
    Rank(a.level) < Rank(b.level) || (Rank(a.level) == Rank(b.level) && StrLe(a.task, b.task) && a.task != b.task)
  }

  /** On one device, a task comes after what it depends on exactly when the dependency is of a lower level, or of the same
      level with a name that sorts first. */
  lemma DependencyHonouredIff(dtm: Dtm, dep: nat, task: nat)
    requires dep < |MopRows(dtm)| && task < |MopRows(dtm)| && MopRows(dtm)[dep].device == MopRows(dtm)[task].device
    requires MopRows(dtm)[dep].task != MopRows(dtm)[task].task
    ensures dep < task <==> Sooner(MopRows(dtm)[dep], MopRows(dtm)[task])
  {
    var a, b := MopRows(dtm)[dep], MopRows(dtm)[task];
    StrLeTotal(a.task, b.task);
    if dep < task {
      RowsSorted(dtm, dep, task);
    } else if task < dep {
      RowsSorted(dtm, task, dep);
    }
  }

  /** Dependencies that point to a strictly lower level are always honoured. */
  lemma LowerLevelDependenciesFollow(dtm: Dtm, d: Device, t: InstallTask, dep: InstallTask, i: nat, j: nat)
    requires d in dtm.devices && t in TasksOf(dtm, d) && dep in TasksOf(dtm, d) && dep.name in t.dependsOn
    requires Rank(dep.level) < Rank(t.level)
    requires i < |MopRows(dtm)| && j < |MopRows(dtm)| && MopRows(dtm)[i] == RowOf(d, dep) && MopRows(dtm)[j] == RowOf(d, t)
    ensures i < j
  {
    if j < i {
      LevelsInOrder(dtm, j, i);
    }
  }

  /** A dependency at its own level can come last: "anchor" is listed before the "pour" it depends on. */
  lemma SameLevelDependencyCanFail()
    ensures var pour := InstallTask("pour", [], 60, "civil", L1);
            var anchor := InstallTask("anchor", ["pour"], 30, "civil", L1);
            var pad := Device("pad_1", "pad", Some("C1-PAD"), None, None, None);
            var dtm := Dtm([pad], [], map["pad" := Template(None, None, None, [pour, anchor])]);
            MopRows(dtm) == [RowOf(pad, anchor), RowOf(pad, pour)]
  {
    var pour := InstallTask("pour", [], 60, "civil", L1);
    var anchor := InstallTask("anchor", ["pour"], 30, "civil", L1);
    var pad := Device("pad_1", "pad", Some("C1-PAD"), None, None, None);
    var dtm := Dtm([pad], [], map["pad" := Template(None, None, None, [pour, anchor])]);
    var a, p := RowOf(pad, anchor), RowOf(pad, pour);
    SortOne(pad, IdLe());
    assert [] + [pad] == [pad];
    RowsOverSnoc(dtm, [], pad);
    assert RowsOver(dtm, [pad]) == [] + [p, a];
    assert 'a' < 'p' && !RowBefore(p, a);
    SortTwo(p, a, RowLe());
  }

  lemma SortOne<T>(x: T, le: (T, T) -> bool)
    ensures Sort([x], le) == [x]
  {
    assert [x][..0] == [];
  }

  lemma SortTwo<T>(x: T, y: T, le: (T, T) -> bool)
    requires !le(x, y)
    ensures Sort([x, y], le) == [y, x]
  {
    SortOne(x, le);
    assert [x, y][..1] == [x] && [x][..0] == [];
    assert Insert([x], y, le) == Insert([], y, le) + [x];
  }
}
