/** The API's non-stacking context manager, `DefaultContextManager`: for each activity
    identifier a dictionary holding one value per context key, and a side table from
    a value to the activity scope created for it.

    The functions `Get`, `Set` and `Remove` give the effect of the manager's three
    operations on a snapshot of its state; the class's methods are proved to have
    exactly those effects. `remove` leaves the value's scope but never clears the
    map, so the map only grows (`ContextMapOnlyGrows`). */
module DefaultContext {
  import opened ContextValues
  import opened Activity

  /** `contextMap`: activity identifier to key to the value set under it. */
  type ContextMap = map<ActivityId, map<Key, ContextValue>>

  /** `objectScope`: a value to the scope state entered on its behalf. */
  type ObjectScope = map<ContextValue, ScopeState>

  datatype ManagerState = ManagerState(contextMap: ContextMap, objectScope: ObjectScope, os: ActivityState)

  /** Every identifier and scope state in the manager was handed out by the scheduler. */
  ghost predicate Consistent(st: ManagerState) {
    && st.os.Valid()
    && (forall id :: id in st.contextMap ==> id < st.os.nextId)
    && (forall v :: v in st.objectScope ==> st.objectScope[v].id < st.os.nextId && st.objectScope[v].saved < st.os.nextId)
  }

  /** `getCurrentContextValue`: the value under the key in the current activity's
      entry, or, when the current activity has no entry, in its parent's. */
  function Get(st: ManagerState, key: Key): (r: Option<ContextValue>)
    ensures var cm, cur, parent := st.contextMap, st.os.current, st.os.ParentId();
            && (cur !in cm && parent !in cm ==> r.None?)
            && (cur in cm ==> (r.Some? <==> key in cm[cur]) && (r.Some? ==> r.value == cm[cur][key]))
            && (cur !in cm && parent in cm ==>
                  (r.Some? <==> key in cm[parent]) && (r.Some? ==> r.value == cm[parent][key]))
  {
    match ResolveEntry(st.contextMap, st.os)
    case None => None
    case Some(id) => if key in st.contextMap[id] then Some(st.contextMap[id][key]) else None
  }

  /** `setCurrentContextValue`. When the current activity has no entry, or its entry
      already holds the key, a fresh activity is created and entered, given an empty
      entry, and recorded for the value in the side table; then the key is set to the
      value in the entry of the activity that is now current. */
  function Set(st: ManagerState, key: Key, value: ContextValue): (r: ManagerState)
    // The value is what `get` now returns for the key.
    ensures r.os.current in r.contextMap && key in r.contextMap[r.os.current]
    ensures r.contextMap[r.os.current][key] == value
    ensures Get(r, key) == Some(value)
    // Only the entry of the resulting activity changes.
    ensures forall id :: id in st.contextMap && id != r.os.current ==>
              id in r.contextMap && r.contextMap[id] == st.contextMap[id]
    ensures r.contextMap.Keys == st.contextMap.Keys + {r.os.current}
    // A fresh activity, with the value alone in its entry and a side-table entry.
    ensures var cm, cur := st.contextMap, st.os.current;
            (cur !in cm || key in cm[cur]) ==>
              && r.os.ParentId() == cur
              && r.contextMap[r.os.current] == map[key := value]
              && value in r.objectScope
              && r.objectScope == st.objectScope[value := r.objectScope[value]]
              && r.objectScope[value].id == r.os.current
              && r.objectScope[value].saved == cur
              && (Consistent(st) ==> r.os.current !in cm)
    // That activity is one the scheduler has just handed out.
    ensures var cm, cur := st.contextMap, st.os.current;
            Consistent(st) && (cur !in cm || key in cm[cur]) ==>
              && st.os.nextId <= r.os.current < r.os.nextId
              && r.os.current in r.os.parentOf
              && r.os.current != NoActivity
    // A key new to an existing entry reuses the current activity.
    ensures var cm, cur := st.contextMap, st.os.current;
            (cur in cm && key !in cm[cur]) ==>
              && r.os == st.os
              && r.objectScope == st.objectScope
              && r.contextMap[cur] == cm[cur][key := value]
    // The scheduler keeps the parent of every other activity and only moves forward.
    ensures forall id :: id in st.os.parentOf && id != r.os.current ==>
              id in r.os.parentOf && r.os.parentOf[id] == st.os.parentOf[id]
    ensures r.os.parentOf.Keys <= st.os.parentOf.Keys + {r.os.current}
    ensures st.os.nextId <= r.os.nextId
    ensures Consistent(st) ==> Consistent(r)
    // With the fresh identifier, no entry loses a key.
    ensures Consistent(st) ==> forall id :: id in st.contextMap ==> st.contextMap[id].Keys <= r.contextMap[id].Keys
  {
    var cm, cur := st.contextMap, st.os.current;
    if cur !in cm || key in cm[cur] then
      var (id, scope, entered) := CreateActivityContext(st.os);
      var cm' := cm[id := map[]];
      ManagerState(cm'[id := cm'[id][key := value]], st.objectScope[value := scope], entered)
    else
      ManagerState(cm[cur := cm[cur][key := value]], st.objectScope, st.os)
  }

  /** `removeContextValue`. Nothing happens unless the value has a side-table entry;
      otherwise its scope is left and the entry dropped. The map is never changed. */
  function Remove(st: ManagerState, key: Key, value: ContextValue): (r: ManagerState)
    ensures r.contextMap == st.contextMap
    ensures r.objectScope == st.objectScope - {value}
    ensures value !in st.objectScope ==> r == st
    ensures value in st.objectScope ==>
              && r.os == Leave(st.os, st.objectScope[value])
              && r.os.current == st.objectScope[value].saved && r.os.parentOf == st.os.parentOf
    ensures Consistent(st) ==> Consistent(r)
  {
    if value !in st.objectScope then st
    else
      var scope := st.objectScope[value];
      ManagerState(st.contextMap, st.objectScope - {value}, Leave(st.os, scope))
  }

  /** When `set` creates an activity, a `remove` of the same value leaves that scope
      again, so `get` answers as before the `set`; the created activity's entry stays
      in the map. */
  lemma SetThenRemoveRestoresGet(st: ManagerState, key: Key, k: Key, value: ContextValue)
    requires Consistent(st)
    requires st.os.current !in st.contextMap || key in st.contextMap[st.os.current]
    ensures var s := Set(st, key, value);
            var r := Remove(s, key, value);
            && r.os.current == st.os.current
            && r.objectScope == st.objectScope - {value}
            && r.contextMap == s.contextMap
            && s.os.current in r.contextMap && s.os.current !in st.contextMap
            && Get(r, k) == Get(st, k)
  {
  }

  /** A call a client makes on the manager. */
  datatype Call = SetValue(key: Key, value: ContextValue) | RemoveValue(key: Key, value: ContextValue)

  function Step(st: ManagerState, c: Call): (r: ManagerState) {
    match c
    case SetValue(key, value) => Set(st, key, value)
    case RemoveValue(key, value) => Remove(st, key, value)
  }

  /** The state after a sequence of calls. */
  function Run(st: ManagerState, calls: seq<Call>): (r: ManagerState)
    decreases |calls|
  {
    if calls == [] then st else Run(Step(st, calls[0]), calls[1..])
  }

  /** No sequence of calls removes an activity's entry from the map; when the state's
      identifiers come from the scheduler, no entry loses a key either. */
  lemma {:induction false} ContextMapOnlyGrows(st: ManagerState, calls: seq<Call>)
    ensures st.contextMap.Keys <= Run(st, calls).contextMap.Keys
    ensures Consistent(st) ==> Consistent(Run(st, calls))
    ensures Consistent(st) ==> forall id :: id in st.contextMap ==>
              st.contextMap[id].Keys <= Run(st, calls).contextMap[id].Keys
    decreases |calls|
  {
    if calls != [] {
      ContextMapOnlyGrows(Step(st, calls[0]), calls[1..]);
    }
  }

  class DefaultContextManager {
    const os: Scheduler
    var objectScope: ObjectScope
    var contextMap: ContextMap

    constructor (os: Scheduler)
      ensures this.os == os && objectScope == map[] && contextMap == map[]
    {
      this.os := os;
      objectScope := map[];
      contextMap := map[];
    }

    ghost function State(): ManagerState
      reads this, os
    {
      ManagerState(contextMap, objectScope, os.state)
    }

    method GetCurrentContextValue(key: Key) returns (r: Option<ContextValue>)
      ensures r == Get(State(), key)
    {
      var activityIdent, parentIdent := os.GetIdentifier();
      var context: map<Key, ContextValue>;
      if activityIdent in contextMap {
        context := contextMap[activityIdent];
      } else if parentIdent in contextMap {
        context := contextMap[parentIdent];
      } else {
        return None;
      }
      r := if key in context then Some(context[key]) else None;
    }

    method SetCurrentContextValue(key: Key, value: ContextValue)
      modifies this, os
      ensures State() == Set(old(State()), key, value)
    {
      var activityIdent, parentIdent := os.GetIdentifier();
      if activityIdent !in contextMap || key in contextMap[activityIdent] {
        var scope;
        activityIdent, scope := CreateActivityContext();
        contextMap := contextMap[activityIdent := map[]];
        objectScope := objectScope[value := scope];
      }
      contextMap := contextMap[activityIdent := contextMap[activityIdent][key := value]];
    }

    method CreateActivityContext() returns (activityId: ActivityId, scope: ScopeState)
      modifies os
      ensures (activityId, scope, os.state) == Activity.CreateActivityContext(old(os.state))
    {
      var activity := os.CreateActivity();
      activityId := activity;
      scope := os.ScopeEnter(activity);
    }

    method RemoveContextValue(key: Key, value: ContextValue)
      modifies this, os
      ensures State() == Remove(old(State()), key, value)
    {
      if value in objectScope {
        var scope := objectScope[value];
        os.ScopeLeave(scope);
        objectScope := objectScope - {value};
      }
    }
  }
}
