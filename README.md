# To-do app data layer, modelled in Dafny

This project models the data layer of a small browser to-do app:

- **Tasks.** The `createTodo` factory (`src/todo.js`) builds a task record with eight fields. `toggleComplete` flips `completed`. `update` overwrites each of its six editable fields only if the new value is JavaScript-truthy.
- **Projects.** The `createProject` factory (`src/project.js`) builds a project with an id, a name and a captured task list. `getTodos` reads the list, `addTodo` appends to it and `removeTodo` filters it by title.
- **Storage.** The `Storage` module (`src/storage.js`) manages one local-storage slot under the key `todoApp`:
  - `save` writes the project graph as plain records.
  - `load` reads the slot back and repairs what it finds. It falls back to a default graph: one "General" project with three onboarding tasks. Otherwise it rebuilds the stored projects, makes sure a General project exists, and gives that project the onboarding tasks when it is empty. Each path writes its result back.
  - `clear` removes the slot.

The files:

- `js_values.dfy` (module `JsValues`): the JavaScript values that `JSON.parse` produces, plus `undefined`.
  - Objects are association lists in insertion order. A repeated key reads as its last occurrence.
  - `Truthy` and `Or` model truthiness and `||`.
  - `Nullish` marks the two values whose property access throws.
- `todo.dfy` (module `Todos`): the class `Todo`, whose methods assign its fields, and its value snapshot `TodoV`. `Create`, `Toggled` and `Updated` specify those methods.
- `project.dfy` (module `Projects`): the class `Project` and its snapshot `ProjectV`. The task list is a `seq<Todo>` field that `AddTodo` extends and `RemoveTodo` reassigns.
- `records.dfy` (module `Records`): the record form that `save` writes, and the pure reconstruction that `load` performs. Reconstruction gives a `Result` because a property read of `null` throws there. The module also holds the round trip.
- `storage.dfy` (module `Persistence`):
  - The slot is `Absent | Empty | Unparseable | Parsed(v)`.
  - `LoadSpec` is the pure specification of `load`.
  - The imperative `load` builds project and task objects with `addTodo`, as the source does. Its methods are proved against `LoadSpec`.
  - The class `Storage` holds the slot.
- `load_properties.dfy` (module `LoadProperties`): what `load` guarantees.
  - When it falls back to the default graph.
  - The first General project of every loaded graph holds tasks.
  - What the repair changes and what it keeps.
  - What `save` stored comes back from `load`.
  - A loaded graph is a fixed point of a second load, so two loads in a row return the same data, as long as every stored number is finite (see `LoadProperties.LoadStable` under "## Left out").

The clock is a parameter. `now` stands for `Date.now().toString()` and `today` for the date part of `new Date().toISOString()`. One load reads each of them once.

Two behaviours of the code are easy to miss:

- `update({title: "", checklist: []})` ignores the empty title. But an empty array is truthy, so it REPLACES the checklist (`Todos.UpdateEmptyTitleEmptyChecklist`).
- The third onboarding task has two different titles. It is "Play with UI todos, edit, mark as done, delete todo" when the slot is unusable (`src/storage.js:63`, `115`, `234`). It is "Play with UI, edit, mark as done, delete todo" when an empty General project is filled during reconstruction (line 188). The model keeps both, and `LoadProperties.LoadEmptyArray` proves that an empty stored array therefore loads differently from an empty slot.

## Model

| member | source | states |
|---|---|---|
| `JsValues.Truthy` | src/todo.js:24-33 | JavaScript truthiness: `undefined`, `null`, `false`, `0` and `""` are falsy, everything else (including `[]` and `{}`) truthy; its use in `\|\|` is stated by `JsValues.Or` and `Todos.UpdateFieldRule` |
| `JsValues.Lookup` | src/storage.js:132-145 | a property read on a parsed object yields the value of the last property with that key, or `undefined` when no property has the key; `JsValues.LookupLast` proves the first case, and the second follows from the definition alone |
| `JsValues.Member` | src/storage.js:132-145 | `v.key` on a non-nullish value: the looked-up property of an object, `undefined` on anything else; its use in the rebuild is stated by `Records.ReconstructTodoFields` and `Records.ReconstructProjectFields` |
| `JsValues.LookupLast` | src/storage.js:132-145 | the property `Lookup` yields is the last one carrying the key |
| `JsValues.Nullish` | src/storage.js:132-138 | the two values whose property read throws, `null` and `undefined`; the throw it causes is stated by `Records.ReconstructTodo`, `Records.ReconstructProject` and `Records.ReconstructProjectThrown` |
| `JsValues.Or` | src/todo.js:28-33 | `a \|\| b` is truthy iff either operand is; it is `a` when `a` is truthy and `b` otherwise |
| `Todos.Default` | src/todo.js:9-10 | a default parameter applies exactly when the argument is `undefined`; stated for both defaults by `Todos.CreateDefaults` |
| `Todos.Create` | src/todo.js:2-21 | the record `createTodo` builds; its defaults are stated by `Todos.CreateDefaults` |
| `Todos.Updated` | src/todo.js:27-34 | the record after `update`; stated by `Todos.UpdateFieldRule`, `Todos.UpdateKeepsOwnerAndStatus`, `Todos.UpdateIdempotent` and `Todos.UpdateFalsyPatch` |
| `Todos.Toggled` | src/todo.js:23-25 | toggling leaves a boolean whose truthiness is the negation of the old `completed`, and no other field changes |
| `Todos.Todo.constructor` | src/todo.js:2-21 | a new task object holds the record `Create` describes |
| `Todos.Todo.ToggleComplete` | src/todo.js:23-25 | the object's data becomes `Toggled` of its old data |
| `Todos.Todo.Update` | src/todo.js:27-34 | the object's data becomes `Updated(old data, patch)` |
| `Todos.CreateDefaults` | src/todo.js:2-21 | an omitted `checklist` becomes `[]` and an omitted `completed` becomes `false`; every other argument is stored exactly as given |
| `Todos.ToggleTwice` | src/todo.js:23-25 | toggling twice restores a boolean `completed` exactly |
| `Todos.ToggleTwiceTruthiness` | src/todo.js:23-25 | toggling twice restores the truthiness of any `completed` and leaves every other field alone |
| `Todos.UpdateFieldRule` | src/todo.js:28-33 | each editable field takes the patch's value iff that value is truthy, and keeps its own otherwise |
| `Todos.UpdateKeepsOwnerAndStatus` | src/todo.js:27-34 | `update` never changes `projectId` or `completed` |
| `Todos.UpdateIdempotent` | src/todo.js:28-33 | applying the same patch twice equals applying it once |
| `Todos.UpdateFalsyPatch` | src/todo.js:27-34 | a patch whose six fields are all falsy, including the patch that names no field, changes nothing |
| `Todos.UpdateEmptyTitleEmptyChecklist` | src/todo.js:28-33 | an empty title is ignored, but an empty checklist array replaces the checklist and nothing else changes |
| `Projects.ProjectId` | src/project.js:2 | the id is never `undefined`: it is the given id, or the clock reading when the id is omitted |
| `Projects.Without` | src/project.js:21 | the filtered list holds exactly the tasks of the old list whose title differs from the given one |
| `Projects.Project.constructor` | src/project.js:2-7 | a new project has the given name, the defaulted id and no tasks |
| `Projects.Project.GetTodos` | src/project.js:10-12 | `getTodos` returns the project's current task list |
| `Projects.Project.AddTodo` | src/project.js:15-17 | the task goes at the end and earlier tasks keep their positions; only the list changes |
| `Projects.Project.RemoveTodo` | src/project.js:20-22 | the list becomes its filter by title; id and name are outside the method's frame |
| `Projects.TodoValuesPush` | src/project.js:15-17 | pushing a task object appends its data to the list's data |
| `Projects.WithoutCount` | src/project.js:21 | the list shrinks by exactly the number of tasks with that title |
| `Projects.WithoutAppend` | src/project.js:21 | filtering distributes over concatenation, so the kept tasks stay in their relative order |
| `Projects.WithoutAbsent` | src/project.js:21 | removing a title that no task has leaves the list unchanged |
| `Projects.WithoutIdempotent` | src/project.js:21 | a second `removeTodo` with the same title changes nothing |
| `Records.SerialiseTodo` | src/storage.js:15-24 | the eight-key task record; its key order is stated by `Records.SavedRecordShape` and its inverse by `Records.TodoRebuild` and `Records.TodoRoundTrip` |
| `Records.SerialiseProject` | src/storage.js:12-25 | the three-key project record; stated by `Records.SavedRecordShape` and inverted by `Records.ProjectRoundTrip` |
| `Records.SerialiseTodos` | src/storage.js:15-24 | one task record per task, in order |
| `Records.Serialise` | src/storage.js:12-25 | one project record per project, in order |
| `Records.SavedRecordShape` | src/storage.js:12-25 | each project record has exactly the keys `id`, `name`, `todos` in that order; each task record has exactly the eight task keys in order; all values are taken from the graph |
| `Records.ReconstructTodo` | src/storage.js:137-146 | rebuilding a task throws iff the stored element is `null` or `undefined` |
| `Records.ReconstructTodoFields` | src/storage.js:137-146 | six fields are copied verbatim; a non-array checklist becomes `[]`; a falsy `completed` becomes `false` |
| `Records.ReconstructTodos` | src/storage.js:134-148 | when it succeeds, the task list has one rebuilt task per stored element, in order |
| `Records.ReconstructTodosThrown` | src/storage.js:135-148 | rebuilding a task list throws iff one of its elements is `null` or `undefined` |
| `Records.TodoItems` | src/storage.js:134 | a project's stored `todos` when it is an array, otherwise none; its effect is stated by `Records.ReconstructProjectFields` |
| `Records.ReconstructProject` | src/storage.js:132-149 | a `null` project throws; otherwise the rebuild throws iff rebuilding its tasks does |
| `Records.ReconstructProjectThrown` | src/storage.js:132-149 | rebuilding a project throws iff it is `null`/`undefined` or some element of its array `todos` is |
| `Records.ReconstructProjectFields` | src/storage.js:132-148 | a rebuilt project keeps the stored name, takes the stored id or the clock reading, and has one task per element of `todos` (none when `todos` is not an array) |
| `Records.ReconstructProjects` | src/storage.js:130-150 | when it succeeds, each stored element yields its rebuilt project, in order |
| `Records.ReconstructProjectsThrown` | src/storage.js:130-150 | `projects.map` throws iff rebuilding one of the stored elements throws |
| `Records.ReconstructedIsNormal` | src/storage.js:130-150 | every rebuilt project has an id, and every rebuilt task has an array checklist and a truthy-or-`false` `completed` |
| `Records.TodoRebuild` | src/storage.js:15-146 | for every task, the record `save` writes rebuilds to the same task data, except that a checklist that is not an array becomes `[]` and `completed` becomes `completed \|\| false` |
| `Records.TodoRoundTrip` | src/storage.js:15-146 | for a normal task (its checklist is an array and its `completed` is truthy or `false`), the record `save` writes rebuilds to exactly the same task data; derived from `Records.TodoRebuild` |
| `Records.TodosRoundTrip` | src/storage.js:15-148 | for a list of normal tasks, the records rebuild to the same list |
| `Records.ProjectRoundTrip` | src/storage.js:12-149 | for a normal project (its id is defined and all its tasks are normal), the record rebuilds to the same project data, whatever the clock says |
| `Records.RoundTrip` | src/storage.js:12-150 | for a graph of normal projects, rebuilding what `save` wrote gives the same graph |
| `Persistence.CannedTodos` | src/storage.js:37-75 | three onboarding tasks (low, medium, high priority), none completed, each owned by the given project and due today, each with a three-step checklist; the third carries the title given for the path |
| `Persistence.DefaultProjects` | src/storage.js:34-77 | the default graph is a single General project, id'd by the clock, whose three tasks all name it as owner |
| `Persistence.FirstGeneral` | src/storage.js:153-155 | `find` returns the index of the first project named General, or nothing when no project has that name |
| `Persistence.GeneralIndex` | src/storage.js:153-159 | the General project sits at the first General index, or just past the end when none exists |
| `Persistence.PushGeneral` | src/storage.js:156-159 | the list grows by one exactly when no General project exists, and the existing projects stay in front |
| `Persistence.FillEmpty` | src/storage.js:160-199 | filling the General project changes no other project |
| `Persistence.WithGeneral` | src/storage.js:153-199 | the General repair, `FillEmpty` after `PushGeneral`; stated by `LoadProperties.WithGeneralShape`, `LoadProperties.WithGeneralRepair` and `LoadProperties.WithGeneralKeeps` |
| `Persistence.LoadSpec` | src/storage.js:31-247 | the graph `load` returns for each kind of slot; stated by `LoadProperties.LoadFallback`, `LoadProperties.LoadArray`, `LoadProperties.LoadHasGeneral`, `LoadProperties.LoadKeepsStoredProjects` and `LoadProperties.LoadStable`, and implemented by `Persistence.Storage.Load` |
| `Persistence.AddNewTodo` | src/storage.js:161-173 | a fresh task object with the given data is appended to the project |
| `Persistence.AddCannedTodos` | src/storage.js:160-198 | three `addTodo` calls append the three onboarding tasks' data, in order |
| `Persistence.NewDefaultProject` | src/storage.js:35-75 | the new project's data is the default graph |
| `Persistence.AddStoredTodos` | src/storage.js:134-148 | the `forEach` succeeds iff the task rebuild does, and then appends exactly that rebuild |
| `Persistence.RebuildProject` | src/storage.js:132-149 | the new project object succeeds iff the pure project rebuild does, and then holds its data; earlier objects are untouched |
| `Persistence.ReconstructAll` | src/storage.js:130-150 | `projects.map` on objects yields fresh, distinct objects whose data is the pure rebuild; it fails iff that rebuild throws |
| `Persistence.FindOrPushGeneral` | src/storage.js:153-159 | the object list's data becomes `PushGeneral` of the old data; the General object is at `GeneralIndex`; a pushed object is fresh |
| `Persistence.FillGeneral` | src/storage.js:160-199 | the object list's data becomes `FillEmpty` of the old data at the General index |
| `Persistence.RestoreArray` | src/storage.js:130-199 | on an array slot, the objects built hold the repaired rebuild; this fails iff the rebuild throws |
| `Persistence.Restore` | src/storage.js:31-247 | on every path, the objects built hold `LoadSpec` of the slot |
| `Persistence.Storage.constructor` | src/storage.js:6-7 | the storage begins with the given slot |
| `Persistence.Storage.Save` | src/storage.js:10-28 | the slot holds the record form of the graph |
| `Persistence.Storage.Load` | src/storage.js:31-247 | the returned objects hold `LoadSpec` of the old slot, and the slot then holds their record form |
| `Persistence.Storage.Clear` | src/storage.js:250-253 | the slot is removed |
| `LoadProperties.LoadFallback` | src/storage.js:32-246 | an absent, empty or unparseable slot, or one holding something other than an array, loads as the default graph (so `clear` followed by `load` does too) |
| `LoadProperties.LoadArray` | src/storage.js:80-246 | a stored array rebuilds iff it holds no `null` project and no `null` task element; with one, it loads as the default graph; without, it loads as the repaired rebuild |
| `LoadProperties.WithGeneralShape` | src/storage.js:153-199 | after the repair, the General project sits at `GeneralIndex`, it is the first General project, and it holds tasks; every other project is unchanged and at most one is appended |
| `LoadProperties.WithGeneralRepair` | src/storage.js:153-199 | a non-empty General project means nothing changes; an empty one gets exactly the three canned tasks under its own id; a missing one is appended, clock-id'd, with the canned tasks |
| `LoadProperties.LoadHasGeneral` | src/storage.js:31-247 | every loaded graph has a General project, and the first one holds tasks |
| `LoadProperties.LoadKeepsStoredProjects` | src/storage.js:130-159 | on the array path, the result begins with one project per stored element, in order, with the stored name and the stored id (or the clock reading when there is none); then at most one more |
| `LoadProperties.LoadIsNormal` | src/storage.js:31-247 | everything `load` returns survives a save and a rebuild |
| `LoadProperties.FirstGeneralAt` | src/storage.js:153-155 | a General project with none before it is what `find` returns |
| `LoadProperties.WithGeneralKeeps` | src/storage.js:153-160 | when the first General project already holds tasks, the repair returns the graph unchanged |
| `LoadProperties.LoadRebuilt` | src/storage.js:130-199 | a stored array that rebuilds to a graph loads as that graph, repaired |
| `LoadProperties.SaveThenLoad` | src/storage.js:10-201 | for a graph of normal projects, loading what `save` stored gives the saved graph, repaired |
| `LoadProperties.SaveThenLoadUnchanged` | src/storage.js:10-201 | for a graph of normal projects whose first General project holds tasks, loading what `save` stored gives back the saved graph exactly |
| `LoadProperties.LoadStable` | src/storage.js:31-247 | what `load` stores is a fixed point: a later load of it, at any time, returns the same graph (every number the model represents is finite) |
| `LoadProperties.LoadTwice` | src/storage.js:31-247 | two `load` calls in a row return graphs with the same data, and the slot holds their record form |
| `LoadProperties.LoadEmptyArray` | src/storage.js:153-199 | an empty stored array loads as one clock-id'd General project with the repair-path canned tasks, which differs from the default graph |
| `LoadProperties.LoadOneProject` | src/storage.js:130-199 | one stored project with no tasks and another name loads as that project followed by a new General project with the canned tasks |

## Left out

- Local storage and JSON text. The slot holds the value that `JSON.parse` would return, so `save` stores the record value directly.
- Persistence.Storage.Save: the effects of `JSON.stringify` on the stored value are not modelled. It drops object fields whose value is `undefined`, which reads back the same because an absent key is `undefined`, but it changes the key list. It turns `undefined` inside arrays, such as checklist items, into `null`.
- Numbers are `real`. `NaN` and the infinities, which `JSON.stringify` writes as `null`, are not modelled.
- LoadProperties.LoadStable (and so LoadProperties.LoadTwice) holds only when every stored number is finite. Take the slot text `[{"name":"General","id":1e999,"todos":[{}]}]`. On the first load `JSON.parse` gives the id `Infinity`, which `createProject` keeps (line 132), and `save` writes it as `"id":null` (line 26). The second load then returns the project with id `null`, so the two loads differ. The model cannot express this input, because `Num` holds a `real`.
- The clock is a parameter.
  - One load reads `now` and `today` once. The source calls `Date.now()` anew for each stored project without an id (line 132) and for a pushed General project (line 157), so in the model all of those get the same id `now`. It also reads `new Date().toISOString()` once per onboarding task, three times per set; the model uses one `today`.
  - Id collisions within one millisecond are out of scope.
- Failures of `localStorage.setItem`, such as a full quota, are not modelled. Neither is the catch on line 202 swallowing a throw from the write on line 200: the modelled `Save` cannot fail.
- Console logging is not modelled.
- Persistence.Storage.Load: it builds the graph, then saves it once. The source calls `save` on each path just before returning. Nothing reads the slot in between, so the stored value and the result are the same.
- Persistence.RebuildProject: when the stored project itself is `null` or `undefined`, the source throws before it creates a project. The model allocates a placeholder that the caller discards. With a `null` task element, both the source (line 132) and the model create the project before the rebuild of its tasks throws.
- Persistence.AddCannedTodos takes the three task records as a parameter. The source writes the three `createTodo` calls out on each path; `CannedTodos` fixes their contents.
- Projects.Project.GetTodos returns the list as a value. The source returns the internal array itself, so a caller could push onto it. The callers in src/storage.js (lines 15 and 160) only read the list.
- Strict equality `===` / `!==` is structural equality on `Val`. The source compares objects and arrays by identity, which matters for `removeTodo` with an object-valued title. For strings, numbers, booleans, `null` and `undefined` the two agree.
- `update` with a missing or `null` argument throws while destructuring. The model takes the six fields already destructured (`Patch`), with `Undefined` for each one left out.
- `src/dom.js` is not part of this model. It is the page's templates and event handlers, which only compose the operations above.
