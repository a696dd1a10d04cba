/** The plain-record form of the project graph in `src/storage.js`: what
    `save` turns projects and tasks into, and how `load` rebuilds project and
    task data from whatever records it finds. */
module Records {
  import opened JsValues
  import opened Todos
  import opened Projects

  /** The keys of a saved task record, in the order `save` writes them. */
  const TodoKeys := ["title", "description", "dueDate", "priority", "notes",
                     "projectId", "checklist", "completed"]

  /** The keys of a saved project record, in the order `save` writes them. */
  const ProjectKeys := ["id", "name", "todos"]

  /** The record `save` writes for one task. */
  function SerialiseTodo(t: TodoV): Val {
    Obj([Prop("title", t.title), Prop("description", t.description),
         Prop("dueDate", t.dueDate), Prop("priority", t.priority),
         Prop("notes", t.notes), Prop("projectId", t.projectId),
         Prop("checklist", t.checklist), Prop("completed", t.completed)])
  }

  /** The records of a task list, in order. */
  function SerialiseTodos(ts: seq<TodoV>): (r: seq<Val>)
    ensures |r| == |ts|
    ensures forall i :: 0 <= i < |ts| ==> r[i] == SerialiseTodo(ts[i])
  {
    if |ts| == 0 then [] else SerialiseTodos(ts[..|ts| - 1]) + [SerialiseTodo(ts[|ts| - 1])]
  }

  /** The record `save` writes for one project. */
  function SerialiseProject(p: ProjectV): Val {
    Obj([Prop("id", p.id), Prop("name", p.name), Prop("todos", Arr(SerialiseTodos(p.todos)))])
  }

  /** A record with exactly the eight task keys, in order. */
  predicate TodoRecord(v: Val) {
    v.Obj? && Keys(v.props) == TodoKeys
  }

  /** A record with exactly the three project keys, in order, whose `todos`
      is an array of task records. */
  predicate ProjectRecord(v: Val) {
    && v.Obj? && Keys(v.props) == ProjectKeys
    && v.props[2].value.Arr?
    && forall j :: 0 <= j < |v.props[2].value.items| ==> TodoRecord(v.props[2].value.items[j])
  }

  /** The value `save` stores: `projects.map(...)`, one record per project,
      in order. */
  function Serialise(ps: seq<ProjectV>): (r: Val)
    ensures r.Arr? && |r.items| == |ps|
    ensures forall i :: 0 <= i < |ps| ==> r.items[i] == SerialiseProject(ps[i])
  {
    if |ps| == 0 then Arr([])
    else Arr(Serialise(ps[..|ps| - 1]).items + [SerialiseProject(ps[|ps| - 1])])
  }

  /** Every record `save` writes holds exactly the project keys `id`, `name`
      and `todos`, in that order, and every task record in it exactly the
      eight task keys, in order; the values are the project's and tasks'. */
  lemma SavedRecordShape(ps: seq<ProjectV>)
    ensures forall i :: 0 <= i < |ps| ==> ProjectRecord(Serialise(ps).items[i])
    ensures forall i :: 0 <= i < |ps| ==>
      var v := Serialise(ps).items[i];
      v.props[0].value == ps[i].id && v.props[1].value == ps[i].name &&
      forall j :: 0 <= j < |ps[i].todos| ==> v.props[2].value.items[j] == SerialiseTodo(ps[i].todos[j])
  {
    forall i | 0 <= i < |ps|
      ensures ProjectRecord(Serialise(ps).items[i])
    {
      var v := SerialiseProject(ps[i]);
      assert Keys(v.props) == ProjectKeys;
      var items := v.props[2].value.items;
      forall j | 0 <= j < |items|
        ensures TodoRecord(items[j])
      {
        assert Keys(items[j].props) == TodoKeys;
      }
    }
  }

  /** The task data `load` rebuilds from one stored element (lines 137-146):
      reading a property of `null` throws. */
  function ReconstructTodo(v: Val): (r: Result<TodoV>)
    ensures r.Thrown? <==> Nullish(v)
  {
    if Nullish(v) then Thrown
    else
      var checklist := Member(v, "checklist");
      Ok(Create(Member(v, "title"), Member(v, "description"), Member(v, "dueDate"),
                Member(v, "priority"), Member(v, "notes"), Member(v, "projectId"),
                if checklist.Arr? then checklist else Arr([]),
                Or(Member(v, "completed"), Bool(false))))
  }

  /** The field rules of task reconstruction: six fields are copied as
      stored, a checklist that is not an array becomes `[]` and a falsy
      `completed` becomes `false`. */
  lemma ReconstructTodoFields(v: Val)
    requires !Nullish(v)
    ensures var t := ReconstructTodo(v).value;
      && t.title == Member(v, "title")
      && t.description == Member(v, "description")
      && t.dueDate == Member(v, "dueDate")
      && t.priority == Member(v, "priority")
      && t.notes == Member(v, "notes")
      && t.projectId == Member(v, "projectId")
      && (Member(v, "checklist").Arr? ==> t.checklist == Member(v, "checklist"))
      && (!Member(v, "checklist").Arr? ==> t.checklist == Arr([]))
      && (Truthy(Member(v, "completed")) ==> t.completed == Member(v, "completed"))
      && (!Truthy(Member(v, "completed")) ==> t.completed == Bool(false))
  {
  }

  /** The task list rebuilt from a stored array, in order; it throws as soon
      as one element does. */
  function ReconstructTodos(items: seq<Val>): (r: Result<seq<TodoV>>)
    ensures r.Ok? ==> |r.value| == |items|
    ensures r.Ok? ==> forall i :: 0 <= i < |items| ==> ReconstructTodo(items[i]) == Ok(r.value[i])
  {
    if |items| == 0 then Ok([])
    else
      match ReconstructTodos(items[..|items| - 1])
      case Thrown => Thrown
      case Ok(ts) =>
        match ReconstructTodo(items[|items| - 1])
        case Thrown => Thrown
        case Ok(t) => Ok(ts + [t])
  }

  /** Rebuilding a task list throws exactly when one of its elements is
      `null` or `undefined`. */
  lemma {:induction false} ReconstructTodosThrown(items: seq<Val>)
    ensures ReconstructTodos(items).Thrown? <==> exists i :: 0 <= i < |items| && Nullish(items[i])
  {
    if |items| > 0 {
      var prefix := items[..|items| - 1];
      ReconstructTodosThrown(prefix);
      assert forall i :: 0 <= i < |prefix| ==> prefix[i] == items[i];
    }
  }

  /** The elements of a project's stored `todos`: none unless it is an array
      (line 134). */
  function TodoItems(v: Val): seq<Val>
    requires !Nullish(v)
  {
    var todos := Member(v, "todos");
    if todos.Arr? then todos.items else []
  }

  /** The project data `load` rebuilds from one stored element (lines
      132-149): `createProject(project.name, project.id)` and its tasks. */
  function ReconstructProject(v: Val, now: string): (r: Result<ProjectV>)
    ensures Nullish(v) ==> r.Thrown?
    ensures !Nullish(v) ==> (r.Thrown? <==> ReconstructTodos(TodoItems(v)).Thrown?)
  {
    if Nullish(v) then Thrown
    else
      match ReconstructTodos(TodoItems(v))
      case Thrown => Thrown
      case Ok(ts) => Ok(ProjectV(ProjectId(Member(v, "id"), now), Member(v, "name"), ts))
  }

  /** Rebuilding a project throws exactly when it is `null` or `undefined`
      or one element of its stored `todos` array is. */
  lemma ReconstructProjectThrown(v: Val, now: string)
    ensures ReconstructProject(v, now).Thrown? <==>
            Nullish(v) || exists i :: 0 <= i < |TodoItems(v)| && Nullish(TodoItems(v)[i])
  {
    if !Nullish(v) {
      ReconstructTodosThrown(TodoItems(v));
    }
  }

  /** A rebuilt project keeps the stored name, takes the stored id or the
      clock reading when there is none, and holds one rebuilt task per
      element of the stored `todos` array, in order (none when `todos` is
      not an array). */
  lemma ReconstructProjectFields(v: Val, now: string)
    requires ReconstructProject(v, now).Ok?
    ensures !Nullish(v) && var p := ReconstructProject(v, now).value;
      && p.name == Member(v, "name")
      && p.id == ProjectId(Member(v, "id"), now)
      && |p.todos| == |TodoItems(v)|
      && (!Member(v, "todos").Arr? ==> p.todos == [])
      && (forall i :: 0 <= i < |p.todos| ==> ReconstructTodo(TodoItems(v)[i]) == Ok(p.todos[i]))
  {
  }

  /** `projects.map(...)` over the stored array: one project per element, in
      order; it throws as soon as one element does. */
  function ReconstructProjects(items: seq<Val>, now: string): (r: Result<seq<ProjectV>>)
    ensures r.Ok? ==> |r.value| == |items|
    ensures r.Ok? ==> forall i :: 0 <= i < |items| ==> ReconstructProject(items[i], now) == Ok(r.value[i])
  {
    if |items| == 0 then Ok([])
    else
      match ReconstructProjects(items[..|items| - 1], now)
      case Thrown => Thrown
      case Ok(ps) =>
        match ReconstructProject(items[|items| - 1], now)
        case Thrown => Thrown
        case Ok(p) => Ok(ps + [p])
  }

  /** Rebuilding the stored array throws exactly when rebuilding one of its
      elements does: a `null` project, or a `null` element in a project's
      `todos` array. */
  lemma {:induction false} ReconstructProjectsThrown(items: seq<Val>, now: string)
    ensures ReconstructProjects(items, now).Thrown? <==>
            exists i :: 0 <= i < |items| && ReconstructProject(items[i], now).Thrown?
  {
    if |items| > 0 {
      var prefix := items[..|items| - 1];
      ReconstructProjectsThrown(prefix, now);
      assert forall i :: 0 <= i < |prefix| ==> prefix[i] == items[i];
    }
  }

  /** Task data that survives a save and a reconstruction unchanged: its
      checklist is an array and its `completed` is truthy or `false`. */
  predicate NormalTodo(t: TodoV) {
    t.checklist.Arr? && (Truthy(t.completed) || t.completed == Bool(false))
  }

  /** Project data that survives a save and a reconstruction unchanged. */
  predicate NormalProject(p: ProjectV) {
    !p.id.Undefined? && forall j :: 0 <= j < |p.todos| ==> NormalTodo(p.todos[j])
  }

  /** Whatever `load` rebuilds is normal. */
  lemma ReconstructedIsNormal(items: seq<Val>, now: string)
    requires ReconstructProjects(items, now).Ok?
    ensures forall i :: 0 <= i < |items| ==> NormalProject(ReconstructProjects(items, now).value[i])
  {
    var ps := ReconstructProjects(items, now).value;
    forall i | 0 <= i < |items|
      ensures NormalProject(ps[i])
    {
      assert ReconstructProject(items[i], now) == Ok(ps[i]);
      forall j | 0 <= j < |ps[i].todos|
        ensures NormalTodo(ps[i].todos[j])
      {
        assert ReconstructTodo(TodoItems(items[i])[j]) == Ok(ps[i].todos[j]);
      }
    }
  }

  /** Reading a saved task record gives back the task's data, except that a
      checklist that is not an array comes back as `[]` and a falsy
      `completed` comes back as `false`. */
  lemma TodoRebuild(t: TodoV)
    ensures ReconstructTodo(SerialiseTodo(t)) ==
      Ok(t.(checklist := if t.checklist.Arr? then t.checklist else Arr([]),
            completed := Or(t.completed, Bool(false))))
  {
    var props := SerialiseTodo(t).props;
    LookupLast(props, "title", 0);
    LookupLast(props, "description", 1);
    LookupLast(props, "dueDate", 2);
    LookupLast(props, "priority", 3);
    LookupLast(props, "notes", 4);
    LookupLast(props, "projectId", 5);
    LookupLast(props, "checklist", 6);
    LookupLast(props, "completed", 7);
  }

  /** Reading a saved normal task record gives back exactly the task's data. */
  lemma TodoRoundTrip(t: TodoV)
    requires NormalTodo(t)
    ensures ReconstructTodo(SerialiseTodo(t)) == Ok(t)
  {
    TodoRebuild(t);
  }

  /** Reading back the records of a task list gives back its data. */
  lemma {:induction false} TodosRoundTrip(ts: seq<TodoV>)
    requires forall j :: 0 <= j < |ts| ==> NormalTodo(ts[j])
    ensures ReconstructTodos(SerialiseTodos(ts)) == Ok(ts)
  {
    if |ts| > 0 {
      var init, last := ts[..|ts| - 1], ts[|ts| - 1];
      TodosRoundTrip(init);
      TodoRoundTrip(last);
      assert SerialiseTodos(ts)[..|ts| - 1] == SerialiseTodos(init);
      assert init + [last] == ts;
    }
  }

  /** Reading a saved project record gives back the project's data, whatever
      the clock says. */
  lemma ProjectRoundTrip(p: ProjectV, now: string)
    requires NormalProject(p)
    ensures ReconstructProject(SerialiseProject(p), now) == Ok(p)
  {
    var v := SerialiseProject(p);
    LookupLast(v.props, "id", 0);
    LookupLast(v.props, "name", 1);
    LookupLast(v.props, "todos", 2);
    assert TodoItems(v) == SerialiseTodos(p.todos);
    TodosRoundTrip(p.todos);
    assert ReconstructTodos(TodoItems(v)) == Ok(p.todos);
  }

  /** Reading back what `save` stored gives back the same project graph. */
  lemma RoundTrip(ps: seq<ProjectV>, now: string)
    requires forall i :: 0 <= i < |ps| ==> NormalProject(ps[i])
    ensures ReconstructProjects(Serialise(ps).items, now) == Ok(ps)
  {
    var items := Serialise(ps).items;
    forall i | 0 <= i < |ps|
      ensures ReconstructProject(items[i], now) == Ok(ps[i])
    {
      ProjectRoundTrip(ps[i], now);
    }
    var r := ReconstructProjects(items, now);
    ReconstructProjectsThrown(items, now);
    assert r.Ok?;
    forall i | 0 <= i < |ps|
      ensures r.value[i] == ps[i]
    {
      assert ReconstructProject(items[i], now) == Ok(r.value[i]);
    }
    assert r.value == ps;
  }
}
