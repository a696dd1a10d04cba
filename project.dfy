/** The project object of `src/project.js`: an id, a name and a captured
    list of tasks that `addTodo` pushes onto and `removeTodo` filters. */
module Projects {
  import opened JsValues
  import opened Todos

  /** A project's data, as a value. */
  datatype ProjectV = ProjectV(id: Val, name: Val, todos: seq<TodoV>)

  /** The default parameter `id = Date.now().toString()`, with the clock
      reading passed in as `now`. */
  function ProjectId(id: Val, now: string): (r: Val)
    ensures !r.Undefined?
    ensures id.Undefined? ==> r == Str(now)
    ensures !id.Undefined? ==> r == id
  {
    if id.Undefined? then Str(now) else id
  }

  /** The data of a list of task objects. */
  function TodoValues(ts: seq<Todo>): (r: seq<TodoV>)
    reads ts
    ensures |r| == |ts|
    ensures forall i :: 0 <= i < |ts| ==> r[i] == ts[i].Value()
  {
    seq(|ts|, i requires 0 <= i < |ts| reads ts => ts[i].Value())
  }

  /** `todos.filter((todo) => todo.title !== todoTitle)`. */
  function Without(ts: seq<Todo>, title: Val): (r: seq<Todo>)
    reads ts
    ensures forall t :: t in r ==> t in ts && t.title != title
    ensures forall t :: t in ts && t.title != title ==> t in r
  {
    if |ts| == 0 then []
    else (if ts[0].title != title then [ts[0]] else []) + Without(ts[1..], title)
  }

  /** How many of the tasks carry the given title. */
  function CountTitled(ts: seq<Todo>, title: Val): (n: nat)
    reads ts
    ensures n <= |ts|
  {
    if |ts| == 0 then 0
    else (if ts[0].title == title then 1 else 0) + CountTitled(ts[1..], title)
  }

  /** A project object. */
  class Project {
    var id: Val
    var name: Val
    var todos: seq<Todo>

    /** The project's current data, including that of its tasks. */
    function Value(): ProjectV
      reads this, todos
    {
      ProjectV(id, name, TodoValues(todos))
    }

    /** `createProject(name, id = Date.now().toString())`. */
    constructor (name: Val, id: Val, now: string)
      ensures this.name == name && this.id == ProjectId(id, now) && todos == []
      ensures Value() == ProjectV(ProjectId(id, now), name, [])
    {
      this.name := name;
      this.id := if id.Undefined? then Str(now) else id;
      todos := [];
    }

    /** `getTodos()`. */
    method GetTodos() returns (r: seq<Todo>)
      ensures r == todos
    {
      r := todos;
    }

    /** `addTodo(todo)`: `todos.push(todo)`. */
    method AddTodo(t: Todo)
      modifies this`todos
      ensures todos == old(todos) + [t]
    {
      todos := todos + [t];
    }

    /** `removeTodo(todoTitle)`. */
    method RemoveTodo(title: Val)
      modifies this`todos
      ensures todos == Without(old(todos), title)
    {
      todos := Without(todos, title);
    }
  }

  /** The data of a list of project objects. */
  function Values(ps: seq<Project>): (r: seq<ProjectV>)
    reads ps, set p, i | p in ps && 0 <= i < |p.todos| :: p.todos[i]
    ensures |r| == |ps|
    ensures forall i :: 0 <= i < |ps| ==> r[i] == ps[i].Value()
  {
    seq(|ps|, i requires 0 <= i < |ps|
                 reads ps, set p, j | p in ps && 0 <= j < |p.todos| :: p.todos[j] => ps[i].Value())
  }

  /** Pushing a task adds its data at the end and leaves the rest in place. */
  lemma TodoValuesPush(ts: seq<Todo>, t: Todo)
    ensures TodoValues(ts + [t]) == TodoValues(ts) + [t.Value()]
  {
  }

  /** After `removeTodo(title)` no task has that title, and the list shrinks
      by exactly the number of tasks that had it. */
  lemma {:induction false} WithoutCount(ts: seq<Todo>, title: Val)
    ensures |Without(ts, title)| == |ts| - CountTitled(ts, title)
  {
    if |ts| > 0 {
      WithoutCount(ts[1..], title);
    }
  }

  /** Filtering distributes over concatenation: the kept tasks stay in their
      relative order. */
  lemma {:induction false} WithoutAppend(a: seq<Todo>, b: seq<Todo>, title: Val)
    ensures Without(a + b, title) == Without(a, title) + Without(b, title)
  {
    if |a| == 0 {
      assert a + b == b;
    } else {
      assert (a + b)[1..] == a[1..] + b;
      WithoutAppend(a[1..], b, title);
    }
  }

  /** Removing a title that no task has leaves the list as it was. */
  lemma {:induction false} WithoutAbsent(ts: seq<Todo>, title: Val)
    requires forall t :: t in ts ==> t.title != title
    ensures Without(ts, title) == ts
  {
    if |ts| > 0 {
      WithoutAbsent(ts[1..], title);
      assert [ts[0]] + ts[1..] == ts;
    }
  }

  /** A second `removeTodo` with the same title changes nothing. */
  lemma WithoutIdempotent(ts: seq<Todo>, title: Val)
    ensures Without(Without(ts, title), title) == Without(ts, title)
  {
    WithoutAbsent(Without(ts, title), title);
  }
}
