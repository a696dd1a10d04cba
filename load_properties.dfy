/** What `load` in `src/storage.js` promises about the graph it returns,
    stated of its specification `LoadSpec`: when it falls back to the default
    graph, that a non-empty General project always exists, what the repair
    changes and keeps, and that reading back what it saved changes nothing. */
module LoadProperties {
  import opened JsValues
  import opened Todos
  import opened Projects
  import opened Records
  import opened Persistence

  /** A stored array holds a record whose property read throws: a `null` or
      `undefined` project, or such an element in a project's array `todos`. */
  predicate HasNullRecord(items: seq<Val>) {
    exists i :: 0 <= i < |items| &&
      (Nullish(items[i]) || exists k :: 0 <= k < |TodoItems(items[i])| && Nullish(TodoItems(items[i])[k]))
  }

  /** With nothing usable in the slot (never written, cleared, empty text,
      text `JSON.parse` rejects, or a value that is not an array), `load`
      returns the default graph. */
  lemma LoadFallback(slot: Slot, now: string, today: string)
    requires slot.Absent? || slot.Empty? || slot.Unparseable? || (slot.Parsed? && !slot.v.Arr?)
    ensures LoadSpec(slot, now, today) == DefaultProjects(now, today)
  {
  }

  /** A stored array is rebuilt exactly when it holds no `null` record; with
      one, `load` returns the default graph, and otherwise the rebuilt
      projects with a General project made sure of. */
  lemma LoadArray(items: seq<Val>, now: string, today: string)
    ensures HasNullRecord(items) <==> ReconstructProjects(items, now).Thrown?
    ensures HasNullRecord(items) ==> LoadSpec(Parsed(Arr(items)), now, today) == DefaultProjects(now, today)
    ensures !HasNullRecord(items) ==>
      LoadSpec(Parsed(Arr(items)), now, today) == WithGeneral(ReconstructProjects(items, now).value, now, today)
  {
    forall i | 0 <= i < |items|
      ensures ReconstructProject(items[i], now).Thrown? <==>
        Nullish(items[i]) || exists k :: 0 <= k < |TodoItems(items[i])| && Nullish(TodoItems(items[i])[k])
    {
      ReconstructProjectThrown(items[i], now);
    }
    ReconstructProjectsThrown(items, now);
  }

  /** `find` returns the first match. */
  lemma FirstGeneralAt(ps: seq<ProjectV>, i: nat)
    requires i < |ps| && ps[i].name == GeneralName
    requires forall j :: 0 <= j < i ==> ps[j].name != GeneralName
    ensures FirstGeneral(ps) == Some(i) && GeneralIndex(ps) == i
  {
  }

  /** The repair step finds or appends the General project at
      `GeneralIndex(ps)`, which is then the first General project of the
      result and holds tasks; every other project is left as it was, and at
      most one project is appended. */
  lemma WithGeneralShape(ps: seq<ProjectV>, now: string, today: string)
    ensures var r := WithGeneral(ps, now, today); var i := GeneralIndex(ps);
      && |r| == (if i < |ps| then |ps| else |ps| + 1)
      && FirstGeneral(r) == Some(i)
      && 0 < |r[i].todos|
      && forall j :: 0 <= j < |ps| && j != i ==> r[j] == ps[j]
  {
    var i := GeneralIndex(ps);
    var pushed := PushGeneral(ps, now);
    var r := FillEmpty(pushed, i, today);
    assert r[i].name == GeneralName;
    forall j | 0 <= j < i
      ensures r[j].name != GeneralName
    {
      assert r[j] == pushed[j] == ps[j];
    }
    FirstGeneralAt(r, i);
  }

  /** What the repair does to the General project itself: a non-empty one
      makes it change nothing, an empty one gets the three canned tasks under
      its own id, and a missing one is appended, id'd by the clock and holding
      the canned tasks. */
  lemma WithGeneralRepair(ps: seq<ProjectV>, now: string, today: string)
    ensures var r := WithGeneral(ps, now, today); var i := GeneralIndex(ps);
      && (i < |ps| && 0 < |ps[i].todos| ==> r == ps)
      && (i < |ps| && |ps[i].todos| == 0 ==>
            r == ps[i := ps[i].(todos := CannedTodos(ps[i].id, today, RepairPlayTitle))])
      && (i == |ps| ==>
            r == ps + [ProjectV(Str(now), GeneralName, CannedTodos(Str(now), today, RepairPlayTitle))])
  {
    var i := GeneralIndex(ps);
    if i == |ps| {
      var pushed := PushGeneral(ps, now);
      assert pushed == ps + [ProjectV(Str(now), GeneralName, [])];
    }
  }

  /** Whatever `load` returns has a General project, and the first one holds
      tasks. */
  lemma LoadHasGeneral(slot: Slot, now: string, today: string)
    ensures var r := LoadSpec(slot, now, today);
      FirstGeneral(r).Some? && 0 < |r[FirstGeneral(r).value].todos|
  {
    if slot.Parsed? && slot.v.Arr? && ReconstructProjects(slot.v.items, now).Ok? {
      WithGeneralShape(ReconstructProjects(slot.v.items, now).value, now, today);
    } else {
      FirstGeneralAt(DefaultProjects(now, today), 0);
    }
  }

  /** The stored projects keep their names and their ids (the clock reading
      for one stored without an id), in the stored order, ahead of any
      appended General project. */
  lemma LoadKeepsStoredProjects(items: seq<Val>, now: string, today: string)
    requires !HasNullRecord(items)
    ensures var r := LoadSpec(Parsed(Arr(items)), now, today);
      && |items| <= |r| <= |items| + 1
      && forall j :: 0 <= j < |items| ==>
           && r[j].name == Member(items[j], "name")
           && r[j].id == ProjectId(Member(items[j], "id"), now)
  {
    LoadArray(items, now, today);
    var ps := ReconstructProjects(items, now).value;
    WithGeneralShape(ps, now, today);
    var r := WithGeneral(ps, now, today);
    forall j | 0 <= j < |items|
      ensures r[j].name == Member(items[j], "name") && r[j].id == ProjectId(Member(items[j], "id"), now)
    {
      ReconstructProjectFields(items[j], now);
      assert ReconstructProject(items[j], now) == Ok(ps[j]);
    }
  }

  /** The canned tasks survive a save and a reconstruction. */
  lemma CannedAreNormal(pid: Val, today: string, playTitle: string)
    ensures forall k :: 0 <= k < 3 ==> NormalTodo(CannedTodos(pid, today, playTitle)[k])
  {
  }

  /** Everything `load` returns survives a save and a reconstruction. */
  lemma LoadIsNormal(slot: Slot, now: string, today: string)
    ensures forall j :: 0 <= j < |LoadSpec(slot, now, today)| ==> NormalProject(LoadSpec(slot, now, today)[j])
  {
    if slot.Parsed? && slot.v.Arr? && ReconstructProjects(slot.v.items, now).Ok? {
      var ps := ReconstructProjects(slot.v.items, now).value;
      ReconstructedIsNormal(slot.v.items, now);
      var i := GeneralIndex(ps);
      var pushed := PushGeneral(ps, now);
      assert forall j :: 0 <= j < |pushed| ==> NormalProject(pushed[j]) by {
        if i == |ps| {
          assert pushed == ps + [ProjectV(Str(now), GeneralName, [])];
        }
      }
      CannedAreNormal(pushed[i].id, today, RepairPlayTitle);
    } else {
      CannedAreNormal(Str(now), today, DefaultPlayTitle);
    }
  }

  /** The repair leaves a graph whose first General project holds tasks as
      it is. */
  lemma WithGeneralKeeps(ps: seq<ProjectV>, now: string, today: string)
    requires FirstGeneral(ps).Some? && 0 < |ps[FirstGeneral(ps).value].todos|
    ensures WithGeneral(ps, now, today) == ps
  {
  }

  /** A stored array that rebuilds to `ps` loads as `ps` repaired. */
  lemma LoadRebuilt(items: seq<Val>, ps: seq<ProjectV>, now: string, today: string)
    requires ReconstructProjects(items, now) == Ok(ps)
    ensures LoadSpec(Parsed(Arr(items)), now, today) == WithGeneral(ps, now, today)
  {
  }

  /** What `save` stored, `load` gives back with a General project made sure
      of. */
  lemma SaveThenLoad(ps: seq<ProjectV>, now: string, today: string)
    requires forall j :: 0 <= j < |ps| ==> NormalProject(ps[j])
    ensures LoadSpec(Parsed(Serialise(ps)), now, today) == WithGeneral(ps, now, today)
  {
    var stored := Serialise(ps);
    RoundTrip(ps, now);
    LoadRebuilt(stored.items, ps, now, today);
    assert stored == Arr(stored.items);
  }

  /** What `save` stored, `load` gives back unchanged once it has a General
      project with tasks. */
  lemma SaveThenLoadUnchanged(ps: seq<ProjectV>, now: string, today: string)
    requires forall j :: 0 <= j < |ps| ==> NormalProject(ps[j])
    requires FirstGeneral(ps).Some? && 0 < |ps[FirstGeneral(ps).value].todos|
    ensures LoadSpec(Parsed(Serialise(ps)), now, today) == ps
  {
    SaveThenLoad(ps, now, today);
    WithGeneralKeeps(ps, now, today);
  }

  /** `load` saves what it returns, so the next `load`, at any later time,
      returns the same graph again. */
  lemma LoadStable(slot: Slot, now: string, today: string, later: string, laterToday: string)
    ensures var r := LoadSpec(slot, now, today);
      LoadSpec(Parsed(Serialise(r)), later, laterToday) == r
  {
    var r := LoadSpec(slot, now, today);
    LoadIsNormal(slot, now, today);
    LoadHasGeneral(slot, now, today);
    SaveThenLoadUnchanged(r, later, laterToday);
  }

  /** Two `load` calls in a row, at any two times, return graphs with the
      same data, and the slot then holds that data. */
  method LoadTwice(s: Storage, now: string, today: string, later: string, laterToday: string)
    returns (first: seq<Project>, second: seq<Project>)
    modifies s
    ensures Values(first) == Values(second) == LoadSpec(old(s.slot), now, today)
    ensures s.slot == Parsed(Serialise(Values(second)))
  {
    ghost var slot := s.slot;
    first := s.Load(now, today);
    ghost var graph := Values(first);
    second := s.Load(later, laterToday);
    LoadStable(slot, now, today, later, laterToday);
    assert Values(first) == graph;
  }

  /** An empty stored array is repaired into a single General project whose
      third canned task carries the repair-path title, so it differs from the
      default graph of an empty slot. */
  lemma LoadEmptyArray(now: string, today: string)
    ensures LoadSpec(Parsed(Arr([])), now, today) ==
      [ProjectV(Str(now), GeneralName, CannedTodos(Str(now), today, RepairPlayTitle))]
    ensures LoadSpec(Parsed(Arr([])), now, today) != DefaultProjects(now, today)
  {
    var general := ProjectV(Str(now), GeneralName, CannedTodos(Str(now), today, RepairPlayTitle));
    LoadRebuilt([], [], now, today);
    WithGeneralRepair([], now, today);
    assert WithGeneral([], now, today) == [] + [general] == [general];
    assert RepairPlayTitle[12] != DefaultPlayTitle[12];
    assert general.todos[2].title != DefaultProjects(now, today)[0].todos[2].title;
  }

  /** A stored array holding one project record with no tasks and a name
      other than General loads as that project followed by a new General
      project with the canned tasks. */
  lemma LoadOneProject(id: Val, name: Val, now: string, today: string)
    requires name != GeneralName
    ensures var stored := Obj([Prop("id", id), Prop("name", name), Prop("todos", Arr([]))]);
      LoadSpec(Parsed(Arr([stored])), now, today) ==
        [ProjectV(ProjectId(id, now), name, []),
         ProjectV(Str(now), GeneralName, CannedTodos(Str(now), today, RepairPlayTitle))]
  {
    var stored := Obj([Prop("id", id), Prop("name", name), Prop("todos", Arr([]))]);
    LookupLast(stored.props, "id", 0);
    LookupLast(stored.props, "name", 1);
    LookupLast(stored.props, "todos", 2);
    var p := ProjectV(ProjectId(id, now), name, []);
    var general := ProjectV(Str(now), GeneralName, CannedTodos(Str(now), today, RepairPlayTitle));
    assert TodoItems(stored) == [];
    assert ReconstructProject(stored, now) == Ok(p);
    ReconstructProjectsThrown([stored], now);
    assert ReconstructProjects([stored], now).value == [p];
    LoadRebuilt([stored], [p], now, today);
    assert GeneralIndex([p]) == 1;
    WithGeneralRepair([p], now, today);
    assert WithGeneral([p], now, today) == [p] + [general] == [p, general];
  }
}
