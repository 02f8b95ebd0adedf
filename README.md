# Execution-scope context managers of the OpenTelemetry Swift SDK, in Dafny

This project models the part of OpenTelemetry Swift that keeps "the current context
value for a key" (typically the active span) per os.activity scope:

- `Stack` (`stack.dfy`, module `Stacks`): a LIFO of objects whose first array element
  is the top. `push` inserts at index 0; `peek` and `pop` read and remove the first
  element and are fatal on an empty stack. The pure functions `Top`, `Pushed` and
  `Popped` give the effect of each operation on the items. The class `Stack` has
  `items` as a field, and its methods are proved to have those effects.
- The os.activity facility (`activity.dfy`, module `Activity`), as an abstract
  scheduler. It has a current activity and the parent of every activity it has
  created. `Create` hands out a fresh identifier under the current activity. `Enter`
  makes an activity current and returns a scope state. `Leave` makes the activity
  saved in a scope state current again. `ResolveEntry` is the lookup both managers
  share: `contextMap[current] ?? contextMap[parent]`.
- `ActivityContextManager` (`activity_context.dfy`, module `ActivityContext`): the
  stacking manager. `contextMap` maps an activity id to a dictionary from key to
  `Stack`. `objectScope` is the side table from a value to its scope state.
- `DefaultContextManager` (`default_context.dfy`, module `DefaultContext`): the
  non-stacking manager. It keeps one value per key per activity id.

Each manager module has pure functions `Get`, `Set` and `Remove`. They give the
effect of `getCurrentContextValue`, `setCurrentContextValue` and `removeContextValue`
on a snapshot of the state: `contextMap`, `objectScope` and the scheduler state.
Their `ensures` clauses state what each operation promises. The manager class holds
the same fields and calls the scheduler object. Its methods are proved to produce
exactly the state those functions describe. `Run` applies a sequence of client calls,
and the lemmas about `Run` state what holds after any sequence of calls.

The model follows the code as written, including where the code does not do what the
design around it intends:

- `ActivityContextManager` never creates a stack. `set` installs an empty dictionary
  (line 68). It then pushes with optional chaining (line 70), and that push finds no
  stack. So every entry of `contextMap` stays an empty dictionary, and `get` returns
  nil after any sequence of calls (`Run`, `GetNeverObservesAValue`).
- Only root values get a side-table entry (line 66). So `remove` of a nested value
  never reaches the pop at lines 96-100 (`NestedRemoveIsNoOp`).
- A nested `set` whose key is already present replaces the current activity's whole
  entry by an empty dictionary.
- `DefaultContextManager.remove` only leaves the scope and drops the side-table
  entry. The clearing of `contextMap` is commented out, so the map only grows
  (`ContextMapOnlyGrows`).

The intended behaviour is different: `set` pushes the value onto the key's stack, and
`remove` of a nested value pops it. This model describes the code instead.

## Model

| member | source | states |
|---|---|---|
| `Stacks.Pushed` | Sources/OpenTelemetrySdk/Trace/Stack.swift:22-24 | push makes the stack one longer and puts the element on top. Popping afterwards gives back exactly the items before the push. |
| `Stacks.Popped` | Sources/OpenTelemetrySdk/Trace/Stack.swift:18-20 | pop is defined only on a non-empty stack, since `removeFirst` traps. It makes the stack one shorter, and the remaining elements keep their order. |
| `Stacks.Lifo` | Sources/OpenTelemetrySdk/Trace/Stack.swift:13-24 | push `a`, push `b`, then two pops yield `b`, then `a`, then the original stack. |
| `Stacks.Stack.constructor` | Sources/OpenTelemetrySdk/Trace/Stack.swift:11 | a new stack is empty. |
| `Stacks.Stack.Peek` | Sources/OpenTelemetrySdk/Trace/Stack.swift:13-16 | peek requires a non-empty stack (empty is a fatal error). It returns the first element and changes nothing. |
| `Stacks.Stack.Pop` | Sources/OpenTelemetrySdk/Trace/Stack.swift:18-20 | pop requires a non-empty stack. It returns the old top and leaves `Popped` of the old items. |
| `Stacks.Stack.Push` | Sources/OpenTelemetrySdk/Trace/Stack.swift:22-24 | push leaves `Pushed` of the old items. |
| `Stacks.PushTwicePopTwice` | Sources/OpenTelemetrySdk/Trace/Stack.swift:13-24 | with the class: after two pushes, peek sees the second element. Two pops return the elements in reverse order and leave the items as they were. |
| `Activity.Create` | Sources/OpenTelemetrySdk/Trace/ActivityContextManager.swift:79 | creating an activity does not change the current one. The new activity's parent is the current activity, and other parents are kept. For a valid state the id is fresh and non-zero. |
| `Activity.Enter` | Sources/OpenTelemetrySdk/Trace/ActivityContextManager.swift:81-82 | entering makes the activity current and records it in the scope state. Leaving that scope state restores the exact previous state. |
| `Activity.Leave` | Sources/OpenTelemetrySdk/Trace/ActivityContextManager.swift:95 | leaving makes the scope's saved activity current and keeps the created activities. It preserves validity for a scope whose saved activity was handed out. |
| `Activity.CreateActivityContext` | Sources/OpenTelemetrySdk/Trace/ActivityContextManager.swift:76-84 | create + enter returns the new current id and a scope state naming it. The new activity's parent is the previously current activity. The id is fresh for a valid state. Leaving the scope restores the previous current and parent ids. |
| `Activity.ResolveEntry` | Sources/OpenTelemetrySdk/Trace/ActivityContextManager.swift:41 | the entry looked in is the current id's if present, else the parent id's, else none. The result is always a key of the map. |
| `Activity.Scheduler.GetIdentifier` | Sources/OpenTelemetrySdk/Trace/ActivityContextManager.swift:38 | returns the current activity id and its parent's id without changing anything. |
| `Activity.Scheduler.CreateActivity` | Sources/OpenTelemetrySdk/Trace/ActivityContextManager.swift:79-80 | the scheduler's state becomes `Create` of the old state. |
| `Activity.Scheduler.ScopeEnter` | Sources/OpenTelemetrySdk/Trace/ActivityContextManager.swift:82 | the scheduler's state becomes `Enter` of the old state. |
| `Activity.Scheduler.ScopeLeave` | Sources/OpenTelemetrySdk/Trace/ActivityContextManager.swift:95 | the scheduler's state becomes `Leave` of the old state. |
| `ActivityContext.Get` | Sources/OpenTelemetrySdk/Trace/ActivityContextManager.swift:36-48 | nil when neither the current id nor its parent has an entry. Otherwise the current id's entry is preferred over the parent's. The result is nil when that entry has no stack for the key, else the stack's top. It is nil whenever no stack exists. |
| `ActivityContext.PushIfPresent` | Sources/OpenTelemetrySdk/Trace/ActivityContextManager.swift:70 | the optional-chained push keeps every id, every other entry and every other key unchanged. When the entry and the key's stack exist, the value becomes the stack's top, and popping gives back the old stack. Otherwise nothing changes. |
| `ActivityContext.Set` | Sources/OpenTelemetrySdk/Trace/ActivityContextManager.swift:50-74 | no stack gains an element: every entry is untouched or empty. No id is dropped, ids other than the resulting current one are unchanged, and no id other than the resulting current one joins the map. The scheduler keeps the parent record of every other activity, records no other new activity, and its counter never goes back. If the current id has no entry or already has the key, the current id's entry ends up empty. In that branch a root gets a fresh activity, created after the hand-built scope was left, so its parent is activity 0. For a consistent state that activity is non-zero, new to the scheduler and recorded by it. The root's side-table entry names that activity with saved activity 0. Otherwise the maps are unchanged, and a root only leaves the hand-built scope when the current id is non-zero. A nested value creates no activity and no side-table entry. A new side-table entry always belongs to a root. The set keeps "no stacks" and consistency. |
| `ActivityContext.Remove` | Sources/OpenTelemetrySdk/Trace/ActivityContextManager.swift:86-105 | a no-op without a side-table entry. The value's side-table entry is always dropped. For a root, the whole entry of the scope's activity is deleted and the scheduler state becomes `Leave` of the scope. For a nested value, the scheduler, the ids and the keys of every entry are unchanged. The only possible change is a pop of the key's stack in the scope's activity, and only when its top has the value's span id. If only roots have entries, a nested remove is a no-op. The remove keeps "no stacks", "roots only" and consistency. |
| `ActivityContext.Run` | Sources/OpenTelemetrySdk/Trace/ActivityContextManager.swift:50-105 | after any sequence of set/remove calls from a state without stacks, every entry of `contextMap` is still an empty dictionary. |
| `ActivityContext.GetNeverObservesAValue` | Sources/OpenTelemetrySdk/Trace/ActivityContextManager.swift:36-74 | after any sequence of calls, `get` returns nil for every key. |
| `ActivityContext.RootsOnlyAlongRun` | Sources/OpenTelemetrySdk/Trace/ActivityContextManager.swift:62-69 | after any sequence of calls, only root values have side-table entries. |
| `ActivityContext.ConsistentAlongRun` | Sources/OpenTelemetrySdk/Trace/ActivityContextManager.swift:62-69 | after any sequence of calls, every id in the maps is one the scheduler has handed out. So each activity a root creates is new to `contextMap`. |
| `ActivityContext.NestedRemoveIsNoOp` | Sources/OpenTelemetrySdk/Trace/ActivityContextManager.swift:86-105 | after any sequence of calls, removing a nested value changes nothing: the pop branch is unreachable. |
| `ActivityContext.RootSetThenRemoveTearsDown` | Sources/OpenTelemetrySdk/Trace/ActivityContextManager.swift:50-105 | when setting a root creates an activity, removing that root restores `contextMap` exactly and leaves no side-table entry for it. Afterwards activity 0 is current, not the caller's activity, because the scope was entered after the hand-built scope was left. |
| `ActivityContext.ActivityContextManager.constructor` | Sources/OpenTelemetrySdk/Trace/ActivityContextManager.swift:32-34 | the manager starts with an empty side table and an empty `contextMap`. |
| `ActivityContext.ActivityContextManager.GetCurrentContextValue` | Sources/OpenTelemetrySdk/Trace/ActivityContextManager.swift:36-48 | requires every stack to be non-empty, because peek on an empty stack is fatal. Returns `Get` of the current state and changes nothing. |
| `ActivityContext.ActivityContextManager.SetCurrentContextValue` | Sources/OpenTelemetrySdk/Trace/ActivityContextManager.swift:50-74 | the new maps and scheduler state are `Set` of the old ones. |
| `ActivityContext.ActivityContextManager.CreateActivityContext` | Sources/OpenTelemetrySdk/Trace/ActivityContextManager.swift:76-84 | returns the id and scope state of `Activity.CreateActivityContext`, and the scheduler's state becomes its result. |
| `ActivityContext.ActivityContextManager.RemoveContextValue` | Sources/OpenTelemetrySdk/Trace/ActivityContextManager.swift:86-105 | requires non-empty stacks for the peek. The new maps and scheduler state are `Remove` of the old ones. |
| `DefaultContext.Get` | Sources/OpenTelemetryApi/Context/DefaultContextManager.swift:42-54 | returns `contextMap[cur][key]`. If `cur` has no entry it returns `contextMap[parent][key]`, and if neither has an entry it returns nil. |
| `DefaultContext.Set` | Sources/OpenTelemetryApi/Context/DefaultContextManager.swift:56-68 | afterwards `get` returns the value. The entry of the resulting current id maps the key to the value, and all other ids' entries are unchanged. The scheduler keeps the parent record of every other activity, records no other new activity, and its counter never goes back. If the current id has no entry or already holds the key, a fresh activity is created under it. For a consistent state that activity is non-zero, new to the scheduler and recorded by it. That activity's entry holds only the value, and its scope is recorded for the value. Otherwise the current id is reused, with no new activity and no side-table entry. Consistency is kept, and no entry loses a key. |
| `DefaultContext.Remove` | Sources/OpenTelemetryApi/Context/DefaultContextManager.swift:80-100 | never changes `contextMap`. It is a no-op without a side-table entry. Otherwise the scheduler state becomes exactly `Leave` of the value's scope, and the value is deleted from the side table. |
| `DefaultContext.SetThenRemoveRestoresGet` | Sources/OpenTelemetryApi/Context/DefaultContextManager.swift:56-100 | when set creates an activity, removing the same value restores the current activity, so `get` answers as before. The created activity's entry stays in `contextMap`. |
| `DefaultContext.ContextMapOnlyGrows` | Sources/OpenTelemetryApi/Context/DefaultContextManager.swift:56-99 | no sequence of calls removes an id from `contextMap`. From a consistent state, no entry loses a key either. |
| `DefaultContext.DefaultContextManager.constructor` | Sources/OpenTelemetryApi/Context/DefaultContextManager.swift:38-40 | the manager starts with an empty side table and an empty `contextMap`. |
| `DefaultContext.DefaultContextManager.GetCurrentContextValue` | Sources/OpenTelemetryApi/Context/DefaultContextManager.swift:42-54 | returns `Get` of the current state and changes nothing. |
| `DefaultContext.DefaultContextManager.SetCurrentContextValue` | Sources/OpenTelemetryApi/Context/DefaultContextManager.swift:56-68 | the new maps and scheduler state are `Set` of the old ones. |
| `DefaultContext.DefaultContextManager.CreateActivityContext` | Sources/OpenTelemetryApi/Context/DefaultContextManager.swift:70-78 | returns the id and scope state of `Activity.CreateActivityContext`, and the scheduler's state becomes its result. |
| `DefaultContext.DefaultContextManager.RemoveContextValue` | Sources/OpenTelemetryApi/Context/DefaultContextManager.swift:80-100 | the new maps and scheduler state are `Remove` of the old ones. |

## Left out

- The os.activity bridge is replaced by the abstract scheduler in module `Activity`. This covers the `dlsym` of `OS_ACTIVITY_CURRENT`, `_os_activity_create`, `os_activity_scope_enter`/`leave` and `os_activity_get_identifier`. Only the ids and scope states matter to the managers, so the scheduler keeps no other state.
- The scope state that `ActivityContextManager.set` builds by hand at lines 54-57 has only `opaque.0` filled in. Its other slot is zero. In the model, leaving it therefore makes activity 0 current. The map logic that follows still uses the id read before the leave, as the code does.
- `OS_ACTIVITY_OBJECT_API` is taken to be non-zero, so `DefaultContextManager.remove` always leaves the scope.
- Activity ids are unbounded naturals. The 64-bit `os_activity_id_t` and any wrap-around of the scheduler's counter are not modelled.
- `NSRecursiveLock`: every method is treated as one atomic step, because concurrency is outside the model. `removeContextValue` takes no lock at all in either manager.
- The weak keys of `NSMapTable` are not modelled. The side table is an ordinary map keyed by value identity, so entries never vanish when a value is released.
- The force casts `as! RecordEventsReadableSpan` and `as! Span` are not modelled. A context value is a datatype carrying its identity, its span id and its optional parent.
- The `print` debug output is left out. So are the unused locals `afterIdent`, `context`, `v` and `currentBefore`. The peek at `ActivityContextManager.swift:72` only stores into the unused `v`. It can never reach a stack, because after lines 62-69 the key has no stack.
- The `static let instance` singletons are left out. A manager is constructed with the scheduler object it uses.
- Sources/Exporters/OpenTelemetryProtocol/proto/logs_service.pb.swift is not part of this model. It is generated protobuf message code, outside context propagation.
