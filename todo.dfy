/** The task record of `src/todo.js`: a factory with two defaults and two
    methods that assign the record's own fields. */
module Todos {
  import opened JsValues

  /** The eight data fields of a task, as a value. */
  datatype TodoV = TodoV(
    title: Val,
    description: Val,
    dueDate: Val,
    priority: Val,
    notes: Val,
    projectId: Val,
    checklist: Val,
    completed: Val)

  /** The object passed to `update`, already destructured: a property the
      caller leaves out is `Undefined`. */
  datatype Patch = Patch(
    title: Val,
    description: Val,
    dueDate: Val,
    priority: Val,
    notes: Val,
    checklist: Val)

  /** A default parameter: it applies exactly when the argument is `undefined`. */
  function Default(arg: Val, dflt: Val): Val
  {
    if arg.Undefined? then dflt else arg
  }

  /** The record `createTodo` builds: `checklist` defaults to `[]` and
      `completed` to `false`; every other argument is stored as given. */
  function Create(title: Val, description: Val, dueDate: Val, priority: Val, notes: Val,
                  projectId: Val, checklist: Val, completed: Val): TodoV
  {
    TodoV(title, description, dueDate, priority, notes, projectId,
          Default(checklist, Arr([])), Default(completed, Bool(false)))
  }

  /** `toggleComplete`: `completed` becomes the boolean negation of its
      truthiness; nothing else changes. */
  function Toggled(t: TodoV): (r: TodoV)
    ensures r.completed.Bool? && Truthy(r.completed) == !Truthy(t.completed)
    ensures r.(completed := t.completed) == t
  {
    t.(completed := Bool(!Truthy(t.completed)))
  }

  /** `update`: each of the six editable fields takes the patch's value when
      that value is truthy and keeps its own otherwise (`new || old`). */
  function Updated(t: TodoV, p: Patch): TodoV
  {
    t.(title := Or(p.title, t.title),
       description := Or(p.description, t.description),
       dueDate := Or(p.dueDate, t.dueDate),
       priority := Or(p.priority, t.priority),
       notes := Or(p.notes, t.notes),
       checklist := Or(p.checklist, t.checklist))
  }

  /** The patch that names no field. */
  const EmptyPatch := Patch(Undefined, Undefined, Undefined, Undefined, Undefined, Undefined)

  /** A task object, whose fields `toggleComplete` and `update` assign. */
  class Todo {
    var title: Val
    var description: Val
    var dueDate: Val
    var priority: Val
    var notes: Val
    var projectId: Val
    var checklist: Val
    var completed: Val

    /** The record's current data. */
    function Value(): TodoV
      reads this
    {
      TodoV(title, description, dueDate, priority, notes, projectId, checklist, completed)
    }

    /** `createTodo(title, …, projectId, checklist = [], completed = false)`. */
    constructor (title: Val, description: Val, dueDate: Val, priority: Val, notes: Val,
                 projectId: Val, checklist: Val, completed: Val)
      ensures Value() == Create(title, description, dueDate, priority, notes,
                                projectId, checklist, completed)
    {
      this.title := title;
      this.description := description;
      this.dueDate := dueDate;
      this.priority := priority;
      this.notes := notes;
      this.projectId := projectId;
      this.checklist := if checklist.Undefined? then Arr([]) else checklist;
      this.completed := if completed.Undefined? then Bool(false) else completed;
    }

    /** `toggleComplete()`. */
    method ToggleComplete()
      modifies this
      ensures Value() == Toggled(old(Value()))
    {
      completed := Bool(!Truthy(completed));
    }

    /** `update({title, description, dueDate, priority, notes, checklist})`. */
    method Update(patch: Patch)
      modifies this
      ensures Value() == Updated(old(Value()), patch)
    {
      title := Or(patch.title, title);
      description := Or(patch.description, description);
      dueDate := Or(patch.dueDate, dueDate);
      priority := Or(patch.priority, priority);
      notes := Or(patch.notes, notes);
      checklist := Or(patch.checklist, checklist);
    }
  }

  /** Omitted `checklist` and `completed` take their defaults; every other
      field is stored exactly as passed. */
  lemma CreateDefaults(title: Val, description: Val, dueDate: Val, priority: Val, notes: Val,
                       projectId: Val, checklist: Val, completed: Val)
    ensures var t := Create(title, description, dueDate, priority, notes, projectId, checklist, completed);
      && t.title == title && t.description == description && t.dueDate == dueDate
      && t.priority == priority && t.notes == notes && t.projectId == projectId
      && (checklist.Undefined? ==> t.checklist == Arr([]))
      && (completed.Undefined? ==> t.completed == Bool(false))
      && (!checklist.Undefined? ==> t.checklist == checklist)
      && (!completed.Undefined? ==> t.completed == completed)
  {
  }

  /** Toggling twice restores a boolean `completed` exactly. */
  lemma ToggleTwice(t: TodoV)
    requires t.completed.Bool?
    ensures Toggled(Toggled(t)) == t
  {
  }

  /** Toggling twice restores the truthiness of any `completed`, and leaves
      a boolean in it. */
  lemma ToggleTwiceTruthiness(t: TodoV)
    ensures var r := Toggled(Toggled(t));
      r.completed == Bool(Truthy(t.completed)) && r.(completed := t.completed) == t
  {
  }

  /** Each editable field is replaced exactly when the patch's value for it
      is truthy. */
  lemma UpdateFieldRule(t: TodoV, p: Patch)
    ensures var r := Updated(t, p);
      && r.title == (if Truthy(p.title) then p.title else t.title)
      && r.description == (if Truthy(p.description) then p.description else t.description)
      && r.dueDate == (if Truthy(p.dueDate) then p.dueDate else t.dueDate)
      && r.priority == (if Truthy(p.priority) then p.priority else t.priority)
      && r.notes == (if Truthy(p.notes) then p.notes else t.notes)
      && r.checklist == (if Truthy(p.checklist) then p.checklist else t.checklist)
  {
  }

  /** `update` never touches `projectId` or `completed`. */
  lemma UpdateKeepsOwnerAndStatus(t: TodoV, p: Patch)
    ensures Updated(t, p).projectId == t.projectId
    ensures Updated(t, p).completed == t.completed
  {
  }

  /** Applying the same patch twice is the same as applying it once. */
  lemma UpdateIdempotent(t: TodoV, p: Patch)
    ensures Updated(Updated(t, p), p) == Updated(t, p)
  {
  }

  /** A patch whose fields are all falsy changes nothing; in particular the
      patch that names no field. */
  lemma UpdateFalsyPatch(t: TodoV, p: Patch)
    requires !Truthy(p.title) && !Truthy(p.description) && !Truthy(p.dueDate)
    requires !Truthy(p.priority) && !Truthy(p.notes) && !Truthy(p.checklist)
    ensures Updated(t, p) == t
    ensures Updated(t, EmptyPatch) == t
  {
  }

  /** An empty title is ignored but an empty checklist array is truthy and
      replaces the checklist. */
  lemma UpdateEmptyTitleEmptyChecklist(t: TodoV)
    ensures var r := Updated(t, EmptyPatch.(title := Str(""), checklist := Arr([])));
      r.title == t.title && r.checklist == Arr([]) && r.(checklist := t.checklist) == t
  {
  }
}
