/** The SDK's stacking context manager, `ActivityContextManager`: for each activity
    identifier a dictionary from context key to a `Stack` of values, and a side table
    from a value to the activity scope created for it.

    The functions `Get`, `Set` and `Remove` give the effect of the manager's three
    operations on a snapshot of its state; the class's methods are proved to have
    exactly those effects. As written, `set` installs an empty dictionary and then
    pushes only onto a stack that already exists, so no stack is ever created:
    `Run` and `GetNeverObservesAValue` state the consequence. */
module ActivityContext {
  import opened ContextValues
  import opened Activity
  import opened Stacks

  /** `contextMap`: activity identifier to key to that key's stack. A Swift `Stack` is
      a value type, so a stack in the dictionary is represented by its items. */
  type ContextMap = map<ActivityId, map<Key, seq<ContextValue>>>

  /** `objectScope`: a value to the scope state entered on its behalf. */
  type ObjectScope = map<ContextValue, ScopeState>

  datatype ManagerState = ManagerState(contextMap: ContextMap, objectScope: ObjectScope, os: ActivityState)

  /** Every stack held in the map is non-empty, so `peek` on it is defined. */
  ghost predicate StacksNonEmpty(m: ContextMap) {
    forall id, k :: id in m && k in m[id] ==> |m[id][k]| > 0
  }

  /** Every entry of the map is an empty dictionary: no stack exists at all. */
  ghost predicate NoStacks(m: ContextMap) {
    forall id :: id in m ==> m[id] == map[]
  }

  /** Only root values have a side-table entry. */
  ghost predicate RootsOnly(s: ObjectScope) {
    forall v :: v in s ==> v.IsRoot()
  }

  /** Every identifier and scope state in the manager was handed out by the scheduler. */
  ghost predicate Consistent(st: ManagerState) {
    && st.os.Valid()
    && (forall id :: id in st.contextMap ==> id < st.os.nextId)
    && (forall v :: v in st.objectScope ==> st.objectScope[v].id < st.os.nextId && st.objectScope[v].saved < st.os.nextId)
  }

  lemma NoStacksAreNonEmpty(m: ContextMap)
    requires NoStacks(m)
    ensures StacksNonEmpty(m)
  {
  }

  /** `getCurrentContextValue`: the top of the key's stack in the current activity's
      entry, or, when the current activity has no entry, in its parent's. */
  function Get(st: ManagerState, key: Key): (r: Option<ContextValue>)
    requires StacksNonEmpty(st.contextMap)
    ensures var cm, cur, parent := st.contextMap, st.os.current, st.os.ParentId();
            && (cur !in cm && parent !in cm ==> r.None?)
            && (cur in cm ==> (r.Some? <==> key in cm[cur]) && (r.Some? ==> r.value == Top(cm[cur][key])))
            && (cur !in cm && parent in cm ==>
                  (r.Some? <==> key in cm[parent]) && (r.Some? ==> r.value == Top(cm[parent][key])))
    ensures NoStacks(st.contextMap) ==> r.None?
  {
    match ResolveEntry(st.contextMap, st.os)
    case None => None
    case Some(id) => if key in st.contextMap[id] then Some(Top(st.contextMap[id][key])) else None
  }

  /** `contextMap[id]?[key]?.push(value)`: a push onto the key's stack, which does
      nothing unless both the entry and the stack exist. */
  function PushIfPresent(m: ContextMap, id: ActivityId, key: Key, value: ContextValue): (r: ContextMap)
    ensures r.Keys == m.Keys
    // Only the key's stack in the id's entry can change.
    ensures forall i :: i in m && i != id ==> r[i] == m[i]
    ensures id in m ==> r[id].Keys == m[id].Keys && forall k :: k in m[id] && k != key ==> r[id][k] == m[id][k]
    // When that stack exists, the value is its new top and popping restores it.
    ensures id in m && key in m[id] ==> |r[id][key]| > 0 && Top(r[id][key]) == value && Popped(r[id][key]) == m[id][key]
    ensures !(id in m && key in m[id]) ==> r == m
  {
    if id in m && key in m[id] then m[id := m[id][key := Pushed(m[id][key], value)]] else m
  }

  /** `setCurrentContextValue`. A root value first leaves a scope state forged from
      the current identifier (whose other slot is zero); the map logic still uses the
      identifier read before. When the current activity has no entry, or its entry
      already holds the key, a root value gets a fresh activity and a side-table entry,
      and the entry for the resulting activity is replaced by an empty dictionary.
      Finally the value is pushed onto the key's stack if that stack exists. */
  function Set(st: ManagerState, key: Key, value: ContextValue): (r: ManagerState)
    // No stack gains an element: every entry is either untouched or empty.
    ensures forall id :: id in r.contextMap ==>
              r.contextMap[id] == map[] || (id in st.contextMap && r.contextMap[id] == st.contextMap[id])
    ensures forall id :: id in st.contextMap && id != r.os.current ==>
              id in r.contextMap && r.contextMap[id] == st.contextMap[id]
    ensures st.contextMap.Keys <= r.contextMap.Keys
    // The reset branch: the entry of the activity now current is empty.
    ensures var cm, cur := st.contextMap, st.os.current;
            (cur !in cm || key in cm[cur]) ==> r.os.current in r.contextMap && r.contextMap[r.os.current] == map[]
    // Otherwise the push finds no stack and the maps are unchanged.
    ensures var cm, cur := st.contextMap, st.os.current;
            cur in cm && key !in cm[cur] ==> r.contextMap == cm && r.objectScope == st.objectScope
    // A nested value never creates an activity nor gets a side-table entry.
    ensures !value.IsRoot() ==> r.objectScope == st.objectScope && r.os == st.os
    // A new side-table entry belongs to a root and names the fresh current activity.
    ensures r.objectScope != st.objectScope ==>
              && value.IsRoot()
              && value in r.objectScope
              && r.objectScope == st.objectScope[value := r.objectScope[value]]
              && r.objectScope[value].id == r.os.current
              && r.contextMap[r.os.current] == map[]
              && (Consistent(st) ==> r.os.current !in st.contextMap)
    // A root in the reset branch gets a fresh activity, created after the forged
    // scope was left, and its side-table entry names that activity.
    ensures var cm, cur := st.contextMap, st.os.current;
            value.IsRoot() && (cur !in cm || key in cm[cur]) ==>
              && value in r.objectScope
              && r.objectScope == st.objectScope[value := r.objectScope[value]]
              && r.objectScope[value] == ScopeState(r.os.current, NoActivity)
              && r.os.ParentId() == NoActivity
              && (Consistent(st) ==> r.os.current !in cm && r.os.current != cur)
    // That activity is one the scheduler has just handed out.
    ensures var cm, cur := st.contextMap, st.os.current;
            Consistent(st) && value.IsRoot() && (cur !in cm || key in cm[cur]) ==>
              && st.os.nextId <= r.os.current < r.os.nextId
              && r.os.current in r.os.parentOf
              && r.os.current != NoActivity
    // A root outside the reset branch only leaves the forged scope.
    ensures var cm, cur := st.contextMap, st.os.current;
            value.IsRoot() && cur in cm && key !in cm[cur] ==>
              r.os == (if cur != NoActivity then Leave(st.os, ScopeState(cur, NoActivity)) else st.os)
    // No identifier but the resulting current one joins the map.
    ensures r.contextMap.Keys <= st.contextMap.Keys + {r.os.current}
    // The scheduler keeps the parent of every other activity and only moves forward.
    ensures forall id :: id in st.os.parentOf && id != r.os.current ==>
              id in r.os.parentOf && r.os.parentOf[id] == st.os.parentOf[id]
    ensures r.os.parentOf.Keys <= st.os.parentOf.Keys + {r.os.current}
    ensures st.os.nextId <= r.os.nextId
    ensures NoStacks(st.contextMap) ==> NoStacks(r.contextMap)
    ensures Consistent(st) ==> Consistent(r)
  {
    var cm, cur := st.contextMap, st.os.current;
    var os := if cur != NoActivity && value.IsRoot() then Leave(st.os, ScopeState(cur, NoActivity)) else st.os;
    if cur !in cm || key in cm[cur] then
      if value.IsRoot() then
        var (id, scope, entered) := CreateActivityContext(os);
        ManagerState(PushIfPresent(cm[id := map[]], id, key, value), st.objectScope[value := scope], entered)
      else
        ManagerState(PushIfPresent(cm[cur := map[]], cur, key, value), st.objectScope, os)
    else
      ManagerState(PushIfPresent(cm, cur, key, value), st.objectScope, os)
  }

  /** `removeContextValue`. Nothing happens unless the value has a side-table entry.
      For a root the whole entry of the scope's activity is dropped and the scope is
      left; for a nested value the key's stack is popped when its top has the value's
      span id. Either way the side-table entry is dropped. */
  function Remove(st: ManagerState, key: Key, value: ContextValue): (r: ManagerState)
    requires StacksNonEmpty(st.contextMap)
    ensures value !in st.objectScope ==> r == st
    ensures r.objectScope == st.objectScope - {value}
    ensures value in st.objectScope && value.IsRoot() ==>
              && r.contextMap == st.contextMap - {st.objectScope[value].id}
              && r.os == Leave(st.os, st.objectScope[value])
    ensures !value.IsRoot() ==> r.os == st.os && r.contextMap.Keys == st.contextMap.Keys
    ensures !value.IsRoot() ==> forall id :: id in st.contextMap ==> r.contextMap[id].Keys == st.contextMap[id].Keys
    ensures !value.IsRoot() ==> forall id, k :: id in st.contextMap && k in st.contextMap[id] ==>
              && id in r.contextMap && k in r.contextMap[id]
              && (|| r.contextMap[id][k] == st.contextMap[id][k]
                  || (&& value in st.objectScope && id == st.objectScope[value].id && k == key
                      && Top(st.contextMap[id][k]).spanId == value.spanId
                      && r.contextMap[id][k] == Popped(st.contextMap[id][k])))
    ensures value in st.objectScope && !value.IsRoot() ==>
              var id := st.objectScope[value].id;
              id in st.contextMap && key in st.contextMap[id] && Top(st.contextMap[id][key]).spanId == value.spanId ==>
                r.contextMap[id][key] == Popped(st.contextMap[id][key])
    // Nested values never have a side-table entry, so removing one does nothing.
    ensures RootsOnly(st.objectScope) && !value.IsRoot() ==> r == st
    ensures NoStacks(st.contextMap) ==> NoStacks(r.contextMap)
    ensures RootsOnly(st.objectScope) ==> RootsOnly(r.objectScope)
    ensures Consistent(st) ==> Consistent(r)
  {
    if value !in st.objectScope then st
    else
      var scope := st.objectScope[value];
      var id := scope.id;
      var objectScope := st.objectScope - {value};
      if value.IsRoot() then
        ManagerState(st.contextMap - {id}, objectScope, Leave(st.os, scope))
      else if id in st.contextMap && key in st.contextMap[id] then
        var stack := st.contextMap[id][key];
        if Top(stack).spanId == value.spanId then
          ManagerState(st.contextMap[id := st.contextMap[id][key := Popped(stack)]], objectScope, st.os)
        else
          ManagerState(st.contextMap, objectScope, st.os)
      else
        ManagerState(st.contextMap, objectScope, st.os)
  }

  /** When `set` of a root creates an activity, a `remove` of the same value tears
      the activity's entry down again, leaving the map and the side table as before
      the `set` (apart from any earlier entry of the value itself). */
  lemma RootSetThenRemoveTearsDown(st: ManagerState, key: Key, value: ContextValue)
    requires Consistent(st) && StacksNonEmpty(st.contextMap)
    requires value.IsRoot()
    requires st.os.current !in st.contextMap || key in st.contextMap[st.os.current]
    ensures StacksNonEmpty(Set(st, key, value).contextMap)
    ensures var r := Remove(Set(st, key, value), key, value);
            && r.contextMap == st.contextMap && r.objectScope == st.objectScope - {value}
            // The scope saved for the root is the one entered after the forged leave,
            // so leaving it makes no activity current, not the caller's activity.
            && r.os.current == NoActivity
  {
  }

  /** A call a client makes on the manager. */
  datatype Call = SetValue(key: Key, value: ContextValue) | RemoveValue(key: Key, value: ContextValue)

  function Step(st: ManagerState, c: Call): (r: ManagerState)
    requires StacksNonEmpty(st.contextMap)
  {
    match c
    case SetValue(key, value) => Set(st, key, value)
    case RemoveValue(key, value) => Remove(st, key, value)
  }

  /** The state after a sequence of calls, starting from a state without stacks (the
      manager's initial state has none). No stack appears along the way. */
  function Run(st: ManagerState, calls: seq<Call>): (r: ManagerState)
    requires NoStacks(st.contextMap)
    ensures NoStacks(r.contextMap)
    decreases |calls|
  {
    NoStacksAreNonEmpty(st.contextMap);
    if calls == [] then st else Run(Step(st, calls[0]), calls[1..])
  }

  /** Whatever sequence of calls precedes it, `get` returns nil for every key. */
  lemma GetNeverObservesAValue(st: ManagerState, calls: seq<Call>, key: Key)
    requires NoStacks(st.contextMap)
    ensures StacksNonEmpty(Run(st, calls).contextMap)
    ensures Get(Run(st, calls), key) == None
  {
    NoStacksAreNonEmpty(Run(st, calls).contextMap);
  }

  /** Side-table entries are only ever created for root values. */
  lemma {:induction false} RootsOnlyAlongRun(st: ManagerState, calls: seq<Call>)
    requires NoStacks(st.contextMap) && RootsOnly(st.objectScope)
    ensures RootsOnly(Run(st, calls).objectScope)
    decreases |calls|
  {
    NoStacksAreNonEmpty(st.contextMap);
    if calls != [] {
      RootsOnlyAlongRun(Step(st, calls[0]), calls[1..]);
    }
  }

  /** Every identifier and scope state stays one the scheduler handed out, so each
      activity a root value creates is absent from the map until then. */
  lemma {:induction false} ConsistentAlongRun(st: ManagerState, calls: seq<Call>)
    requires NoStacks(st.contextMap) && Consistent(st)
    ensures Consistent(Run(st, calls))
    decreases |calls|
  {
    NoStacksAreNonEmpty(st.contextMap);
    if calls != [] {
      ConsistentAlongRun(Step(st, calls[0]), calls[1..]);
    }
  }

  /** After any sequence of calls from a state in which only roots have side-table
      entries, removing a nested value changes nothing: the pop branch is never
      reached. */
  lemma NestedRemoveIsNoOp(st: ManagerState, calls: seq<Call>, key: Key, value: ContextValue)
    requires NoStacks(st.contextMap) && RootsOnly(st.objectScope)
    requires !value.IsRoot()
    ensures StacksNonEmpty(Run(st, calls).contextMap)
    ensures Remove(Run(st, calls), key, value) == Run(st, calls)
  {
    NoStacksAreNonEmpty(Run(st, calls).contextMap);
    RootsOnlyAlongRun(st, calls);
  }

  class ActivityContextManager {
    const os: Scheduler
    var objectScope: ObjectScope
    var contextMap: ContextMap

    constructor (os: Scheduler)
      ensures this.os == os && objectScope == map[] && contextMap == map[]
    {
      this.os := os;
      objectScope := map[];
      contextMap := map[];
    }

    ghost function State(): ManagerState
      reads this, os
    {
      ManagerState(contextMap, objectScope, os.state)
    }

    method GetCurrentContextValue(key: Key) returns (r: Option<ContextValue>)
      requires StacksNonEmpty(contextMap)
      ensures r == Get(State(), key)
    {
      var activityIdent, parentIdent := os.GetIdentifier();
      var context: map<Key, seq<ContextValue>>;
      if activityIdent in contextMap {
        context := contextMap[activityIdent];
      } else if parentIdent in contextMap {
        context := contextMap[parentIdent];
      } else {
        return None;
      }
      r := if key in context then Some(Top(context[key])) else None;
    }

    method SetCurrentContextValue(key: Key, value: ContextValue)
      modifies this, os
      ensures State() == Set(old(State()), key, value)
    {
      var activityIdent, parentIdent := os.GetIdentifier();
      if activityIdent != NoActivity && value.IsRoot() {
        os.ScopeLeave(ScopeState(activityIdent, NoActivity));
      }
      if activityIdent !in contextMap || key in contextMap[activityIdent] {
        if value.IsRoot() {
          var scope;
          activityIdent, scope := CreateActivityContext();
          objectScope := objectScope[value := scope];
        }
        contextMap := contextMap[activityIdent := map[]];
      }
      contextMap := PushIfPresent(contextMap, activityIdent, key, value);
    }

    method CreateActivityContext() returns (activityId: ActivityId, scope: ScopeState)
      modifies os
      ensures (activityId, scope, os.state) == Activity.CreateActivityContext(old(os.state))
    {
      var activity := os.CreateActivity();
      activityId := activity;
      scope := os.ScopeEnter(activity);
    }

    method RemoveContextValue(key: Key, value: ContextValue)
      requires StacksNonEmpty(contextMap)
      modifies this, os
      ensures State() == Remove(old(State()), key, value)
    {
      if value in objectScope {
        var scope := objectScope[value];
        var activityIdent := scope.id;
        if value.IsRoot() {
          contextMap := contextMap - {activityIdent};
          os.ScopeLeave(scope);
        } else if activityIdent in contextMap && key in contextMap[activityIdent] {
          var currentContext := Top(contextMap[activityIdent][key]);
          if currentContext.spanId == value.spanId {
            contextMap := contextMap[activityIdent := contextMap[activityIdent][key := Popped(contextMap[activityIdent][key])]];
          }
        }
        objectScope := objectScope - {value};
      }
    }
  }
}
