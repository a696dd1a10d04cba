/** The `Storage` module of `src/storage.js`: one storage slot, `save`,
    the repair-on-read `load`, and `clear`. */
module Persistence {
  import opened JsValues
  import opened Todos
  import opened Projects
  import opened Records

  /** What the `todoApp` slot of local storage reads as: nothing, the empty
      string, text that `JSON.parse` rejects, or text that parses to `v`. */
  datatype Slot = Absent | Empty | Unparseable | Parsed(v: Val)

  datatype Option<T> = None | Some(value: T)

  /** The name of the project that must always exist. */
  const GeneralName := Str("General")

  /** The third canned title on the three paths that start from nothing
      (lines 63, 115 and 234). */
  const DefaultPlayTitle := "Play with UI todos, edit, mark as done, delete todo"

  /** The third canned title when an empty General project is filled during
      reconstruction (line 188); it differs from the other three. */
  const RepairPlayTitle := "Play with UI, edit, mark as done, delete todo"

  /** The texts of the first onboarding task (lines 39-45). */
  const CreateProjectTitle := "Create project"
  const CreateProjectDescription := "Create a new project to organize tasks"
  const CreateProjectNotes := "Use the Add New Project button"
  const CreateProjectSteps := ["Open project popup", "Enter project name", "Save project"]

  /** The texts of the second onboarding task (lines 51-57). */
  const CreateTodoTitle := "Create todo"
  const CreateTodoDescription := "Add a new todo to a project"
  const CreateTodoNotes := "Use the Add Todo button"
  const CreateTodoSteps := ["Open todo popup", "Fill in details", "Save todo"]

  /** The texts of the third onboarding task (lines 63-69), apart from its
      title, which depends on the path. */
  const PlayDescription := "Experiment with todo features in the UI"
  const PlayNotes := "Try editing, completing, and deleting todos"
  const PlaySteps := ["Edit a todo", "Mark a todo as done", "Delete a todo"]

  /** A checklist of plain strings. */
  function Steps(items: seq<string>): (r: Val)
    ensures r.Arr? && |r.items| == |items|
  {
    Arr(seq(|items|, i requires 0 <= i < |items| => Str(items[i])))
  }

  /** The three onboarding tasks, owned by project `pid` and due `today`:
      low, medium and high priority, none completed. */
  function CannedTodos(pid: Val, today: string, playTitle: string): (r: seq<TodoV>)
    ensures |r| == 3
    ensures r[0].priority == Str("low") && r[1].priority == Str("medium") && r[2].priority == Str("high")
    ensures forall k :: 0 <= k < 3 ==>
      r[k].completed == Bool(false) && r[k].projectId == pid && r[k].dueDate == Str(today)
      && r[k].checklist.Arr? && |r[k].checklist.items| == 3
    ensures r[2].title == Str(playTitle)
  {
    [TodoV(Str(CreateProjectTitle), Str(CreateProjectDescription), Str(today), Str("low"),
           Str(CreateProjectNotes), pid, Steps(CreateProjectSteps), Bool(false)),
     TodoV(Str(CreateTodoTitle), Str(CreateTodoDescription), Str(today), Str("medium"),
           Str(CreateTodoNotes), pid, Steps(CreateTodoSteps), Bool(false)),
     TodoV(Str(playTitle), Str(PlayDescription), Str(today), Str("high"),
           Str(PlayNotes), pid, Steps(PlaySteps), Bool(false))]
  }

  /** The graph `load` falls back to: one General project, id'd by the
      clock, holding the three canned tasks. */
  function DefaultProjects(now: string, today: string): (r: seq<ProjectV>)
    ensures |r| == 1 && r[0].name == GeneralName && r[0].id == Str(now)
    ensures |r[0].todos| == 3 && forall k :: 0 <= k < 3 ==> r[0].todos[k].projectId == r[0].id
  {
    [ProjectV(Str(now), GeneralName, CannedTodos(Str(now), today, DefaultPlayTitle))]
  }

  /** `projects.find((p) => p.name === 'General')`, as an index. */
  function FirstGeneral(ps: seq<ProjectV>): (r: Option<nat>)
    ensures r.Some? ==> r.value < |ps| && ps[r.value].name == GeneralName
    ensures r.Some? ==> forall j :: 0 <= j < r.value ==> ps[j].name != GeneralName
    ensures r.None? ==> forall j :: 0 <= j < |ps| ==> ps[j].name != GeneralName
  {
    if |ps| == 0 then None
    else if ps[0].name == GeneralName then Some(0)
    else match FirstGeneral(ps[1..])
      case None => None
      case Some(k) => Some(k + 1)
  }

  /** Where `generalProject` ends up (lines 153-159): the first General
      project, or the slot just past the end where a new one is pushed. */
  function GeneralIndex(ps: seq<ProjectV>): (i: nat)
    ensures i <= |ps|
    ensures i < |ps| ==> ps[i].name == GeneralName
    ensures forall j :: 0 <= j < i && j < |ps| ==> ps[j].name != GeneralName
  {
    match FirstGeneral(ps)
    case None => |ps|
    case Some(i) => i
  }

  /** Lines 153-159: `createProject('General')` is pushed when no project is
      named General. */
  function PushGeneral(ps: seq<ProjectV>, now: string): (r: seq<ProjectV>)
    ensures |r| == if FirstGeneral(ps).None? then |ps| + 1 else |ps|
    ensures GeneralIndex(ps) < |r| && r[..|ps|] == ps
  {
    if FirstGeneral(ps).None? then ps + [ProjectV(Str(now), GeneralName, [])] else ps
  }

  /** Lines 160-199: project `i` gets the canned tasks (with the repair-path
      title) when it has none. */
  function FillEmpty(ps: seq<ProjectV>, i: nat, today: string): (r: seq<ProjectV>)
    requires i < |ps|
    ensures |r| == |ps| && forall j :: 0 <= j < |ps| && j != i ==> r[j] == ps[j]
  {
    if |ps[i].todos| == 0 then ps[i := ps[i].(todos := CannedTodos(ps[i].id, today, RepairPlayTitle))]
    else ps
  }

  /** Lines 153-199: make sure a General project exists and is not empty. */
  function WithGeneral(ps: seq<ProjectV>, now: string, today: string): seq<ProjectV> {
    FillEmpty(PushGeneral(ps, now), GeneralIndex(ps), today)
  }

  /** The graph `load` returns for a slot, given the clock reading `now`
      (`Date.now().toString()`) and `today` (the date part of `new
      Date().toISOString()`). */
  function LoadSpec(slot: Slot, now: string, today: string): seq<ProjectV> {
    match slot
    case Absent => DefaultProjects(now, today)
    case Empty => DefaultProjects(now, today)
    case Unparseable => DefaultProjects(now, today)
    case Parsed(v) =>
      if !v.Arr? then DefaultProjects(now, today)
      else match ReconstructProjects(v.items, now)
        case Thrown => DefaultProjects(now, today)
        case Ok(ps) => WithGeneral(ps, now, today)
  }

  /** `p.addTodo(createTodo(...))` with the fields of `t`: a fresh task
      object holding `t` is pushed onto `p`'s list. */
  method AddNewTodo(p: Project, t: TodoV) returns (o: Todo)
    requires !t.checklist.Undefined? && !t.completed.Undefined?
    modifies p`todos
    ensures fresh(o) && p.todos == old(p.todos) + [o]
    ensures TodoValues(p.todos) == old(TodoValues(p.todos)) + [t]
  {
    o := new Todo(t.title, t.description, t.dueDate, t.priority, t.notes,
                  t.projectId, t.checklist, t.completed);
    p.AddTodo(o);
    TodoValuesPush(old(p.todos), o);
  }

  /** The three `addTodo(createTodo(...))` calls that add the onboarding
      tasks `canned` to project `p`. */
  method AddCannedTodos(p: Project, canned: seq<TodoV>)
    requires |canned| == 3
    requires forall k :: 0 <= k < 3 ==> !canned[k].checklist.Undefined? && !canned[k].completed.Undefined?
    modifies p`todos
    ensures TodoValues(p.todos) == old(TodoValues(p.todos)) + canned
  {
    ghost var before := TodoValues(p.todos);
    var t0 := AddNewTodo(p, canned[0]);
    var t1 := AddNewTodo(p, canned[1]);
    var t2 := AddNewTodo(p, canned[2]);
    assert TodoValues(p.todos) == before + [canned[0]] + [canned[1]] + [canned[2]];
    assert before + [canned[0]] + [canned[1]] + [canned[2]] == before + canned;
  }

  /** `createProject('General')` filled with the canned tasks. */
  method NewDefaultProject(now: string, today: string) returns (p: Project)
    ensures fresh(p) && [p.Value()] == DefaultProjects(now, today)
  {
    p := new Project(GeneralName, Undefined, now);
    assert TodoValues(p.todos) == [];
    AddCannedTodos(p, CannedTodos(p.id, today, DefaultPlayTitle));
    assert p.Value() == ProjectV(Str(now), GeneralName, CannedTodos(Str(now), today, DefaultPlayTitle));
  }

  /** Lines 134-148: `todos.forEach((todo) => newProject.addTodo(createTodo(...)))`
      over the stored task records; `ok` is false when one of them is `null`
      or `undefined`, whose property read throws. */
  method AddStoredTodos(p: Project, elements: seq<Val>) returns (ok: bool)
    modifies p`todos
    ensures ok <==> ReconstructTodos(elements).Ok?
    ensures ok ==> TodoValues(p.todos) == old(TodoValues(p.todos)) + ReconstructTodos(elements).value
  {
    ghost var before := TodoValues(p.todos);
    ghost var done: seq<TodoV> := [];
    var k := 0;
    while k < |elements|
      invariant 0 <= k <= |elements|
      invariant ReconstructTodos(elements[..k]) == Ok(done)
      invariant TodoValues(p.todos) == before + done
    {
      var element := elements[k];
      if Nullish(element) {
        ReconstructTodosThrown(elements);
        ok := false;
        return;
      }
      var checklist := Member(element, "checklist");
      var t := new Todo(Member(element, "title"), Member(element, "description"),
                        Member(element, "dueDate"), Member(element, "priority"),
                        Member(element, "notes"), Member(element, "projectId"),
                        if checklist.Arr? then checklist else Arr([]),
                        Or(Member(element, "completed"), Bool(false)));
      ghost var prior := TodoValues(p.todos);
      p.AddTodo(t);
      assert TodoValues(p.todos) == prior + [t.Value()];
      assert elements[..k + 1][..k] == elements[..k];
      done := done + [t.Value()];
      k := k + 1;
    }
    ok := true;
    assert elements[..k] == elements;
  }

  /** Lines 132-149, the callback of `projects.map`: `createProject(project.name,
      project.id)` filled by `AddStoredTodos`; `ok` is false when a property
      read throws. */
  method RebuildProject(item: Val, now: string, ghost others: seq<Project>) returns (p: Project, ok: bool)
    ensures fresh(p) && forall j :: 0 <= j < |others| ==> others[j] != p
    ensures Values(others) == old(Values(others))
    ensures ok <==> ReconstructProject(item, now).Ok?
    ensures ok ==> p.Value() == ReconstructProject(item, now).value
  {
    if Nullish(item) {
      // The source throws before creating a project; this one is discarded.
      p := new Project(Undefined, Undefined, now);
      ok := false;
      return;
    }
    p := new Project(Member(item, "name"), Member(item, "id"), now);
    assert TodoValues(p.todos) == [];
    ok := AddStoredTodos(p, TodoItems(item));
    if ok {
      ghost var ts := ReconstructTodos(TodoItems(item)).value;
      assert TodoValues(p.todos) == ts;
      assert ReconstructProject(item, now) == Ok(ProjectV(p.id, p.name, ts));
    }
  }

  /** Lines 130-150: `projects.map(...)` over the stored array, one fresh
      project object per element, built left to right (the prefix first, then
      the last element); `ok` is false when rebuilding one of them throws. */
  method ReconstructAll(items: seq<Val>, now: string) returns (ps: seq<Project>, ok: bool)
    ensures ok <==> ReconstructProjects(items, now).Ok?
    ensures ok ==> Values(ps) == ReconstructProjects(items, now).value
    ensures forall j :: 0 <= j < |ps| ==> fresh(ps[j])
    ensures forall j, k :: 0 <= j < k < |ps| ==> ps[j] != ps[k]
    decreases |items|
  {
    if |items| == 0 {
      return [], true;
    }
    var front;
    front, ok := ReconstructAll(items[..|items| - 1], now);
    if !ok {
      return [], false;
    }
    var p;
    p, ok := RebuildProject(items[|items| - 1], now, front);
    if !ok {
      return [], false;
    }
    ps := front + [p];
  }

  /** Lines 153-159 on the project objects: `generalProject` is the first
      General project, or a new `createProject('General')` pushed at the end;
      `index` is its position. */
  method FindOrPushGeneral(ps: seq<Project>, now: string) returns (r: seq<Project>, index: nat)
    requires forall j, k :: 0 <= j < k < |ps| ==> ps[j] != ps[k]
    ensures index == GeneralIndex(old(Values(ps))) && index < |r|
    ensures Values(r) == PushGeneral(old(Values(ps)), now)
    ensures forall j :: 0 <= j < |r| ==> (j < |ps| && r[j] == ps[j]) || fresh(r[j])
    ensures forall j, k :: 0 <= j < k < |r| ==> r[j] != r[k]
  {
    var found := FirstGeneral(Values(ps));
    if found.None? {
      ghost var before := Values(ps);
      var general := new Project(GeneralName, Undefined, now);
      r := ps + [general];
      assert Values(ps) == before;
      assert Values(r) == before + [general.Value()];
      index := |ps|;
    } else {
      r := ps;
      index := found.value;
    }
  }

  /** Lines 160-199 on the project objects: the project at `index` gets the
      canned tasks when it has none; no other project changes. */
  method FillGeneral(r: seq<Project>, index: nat, general: Project, today: string)
    requires index < |r| && r[index] == general
    requires forall j, k :: 0 <= j < k < |r| ==> r[j] != r[k]
    modifies general`todos
    ensures Values(r) == FillEmpty(old(Values(r)), index, today)
  {
    ghost var before := Values(r);
    if |general.todos| == 0 {
      var canned := CannedTodos(general.id, today, RepairPlayTitle);
      AddCannedTodos(general, canned);
      assert general.Value() == before[index].(todos := canned);
    }
    assert forall j :: 0 <= j < |r| && j != index ==> r[j].Value() == before[j];
  }

  /** Lines 129-199: the stored array rebuilt into project objects, with a
      non-empty General project; `ok` is false when the rebuilding throws. */
  method RestoreArray(items: seq<Val>, now: string, today: string) returns (projects: seq<Project>, ok: bool)
    ensures ok <==> ReconstructProjects(items, now).Ok?
    ensures ok ==> Values(projects) == WithGeneral(ReconstructProjects(items, now).value, now, today)
    ensures forall j :: 0 <= j < |projects| ==> fresh(projects[j])
  {
    var rebuilt;
    rebuilt, ok := ReconstructAll(items, now);
    if !ok {
      projects := [];
      return;
    }
    ghost var vs := Values(rebuilt);
    var index;
    projects, index := FindOrPushGeneral(rebuilt, now);
    ghost var pushed := Values(projects);
    assert pushed == PushGeneral(vs, now) && index == GeneralIndex(vs);
    FillGeneral(projects, index, projects[index], today);
    assert Values(projects) == FillEmpty(pushed, index, today);
  }

  /** The graph that `load` builds from what the slot holds, before it
      saves it: the default project on lines 34-77, 83-127 and 202-246,
      otherwise the rebuilt projects. */
  method Restore(data: Slot, now: string, today: string) returns (projects: seq<Project>)
    ensures Values(projects) == LoadSpec(data, now, today)
    ensures forall j :: 0 <= j < |projects| ==> fresh(projects[j])
  {
    if data.Parsed? && data.v.Arr? {
      var ok;
      projects, ok := RestoreArray(data.v.items, now, today);
      if ok {
        return;
      }
    }
    var p := NewDefaultProject(now, today);
    projects := [p];
  }

  /** The local-storage slot under the key `todoApp`. */
  class Storage {
    var slot: Slot

    constructor (slot: Slot)
      ensures this.slot == slot
    {
      this.slot := slot;
    }

    /** `save(projects)`: the record form of the graph is written to the
        slot. */
    method Save(projects: seq<Project>)
      modifies this`slot
      ensures slot == Parsed(Serialise(Values(projects)))
    {
      ghost var graph := Values(projects);
      slot := Parsed(Serialise(Values(projects)));
      assert Values(projects) == graph;
    }

    /** `load()`: every path builds a graph that `LoadSpec` describes, saves
        it and returns it. */
    method Load(now: string, today: string) returns (projects: seq<Project>)
      modifies this`slot
      ensures Values(projects) == LoadSpec(old(slot), now, today)
      ensures slot == Parsed(Serialise(Values(projects)))
      ensures forall j :: 0 <= j < |projects| ==> fresh(projects[j])
    {
      projects := Restore(slot, now, today);
      Save(projects);
    }

    /** `clear()`: the slot is removed. */
    method Clear()
      modifies this`slot
      ensures slot == Absent
    {
      slot := Absent;
    }
  }
}
