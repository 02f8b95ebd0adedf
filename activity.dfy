/** An abstract model of the os.activity facility both context managers rest on:
    the identifier of the current activity and of its parent, creation of a new
    activity under the current one, and entering and leaving activity scopes. */
module Activity {
  import opened ContextValues

  /** `os_activity_id_t`; 0 stands for "no activity". */
  type ActivityId = nat

  const NoActivity: ActivityId := 0

  /** `os_activity_scope_state_s`. `id` is the slot `opaque.0` that the managers read
      as the entered activity's identifier; `saved` is the activity that was current
      when the scope was entered, which leaving the scope makes current again. A
      zero-initialised state has both slots 0. */
  datatype ScopeState = ScopeState(id: ActivityId, saved: ActivityId)

  /** The scheduler's state: the current activity, the parent of every activity
      created so far, and the next identifier it will hand out. */
  datatype ActivityState = ActivityState(current: ActivityId, parentOf: map<ActivityId, ActivityId>, nextId: ActivityId)
  {
    /** Identifiers handed out are positive and below `nextId`, and so are the
        current activity and every recorded parent. */
    ghost predicate Valid() {
      && 0 < nextId
      && current < nextId
      && forall id :: id in parentOf ==> 0 < id < nextId && parentOf[id] < nextId
    }

    /** The parent identifier `os_activity_get_identifier` reports for the current
        activity (0 when there is none). */
    function ParentId(): (r: ActivityId) {
      if current in parentOf then parentOf[current] else NoActivity
    }
  }

  /** No activity is current and none has been created yet. */
  const Initial: ActivityState := ActivityState(NoActivity, map[], 1)

  /** `_os_activity_create` with `OS_ACTIVITY_CURRENT` as the parent: a fresh activity
      whose parent is the current one. Creating does not enter it. */
  function Create(a: ActivityState): (r: (ActivityId, ActivityState))
    ensures r.1.current == a.current
    ensures r.0 in r.1.parentOf && r.1.parentOf[r.0] == a.current
    ensures forall id :: id in a.parentOf && id != r.0 ==> id in r.1.parentOf && r.1.parentOf[id] == a.parentOf[id]
    ensures a.Valid() ==> r.1.Valid() && r.0 != NoActivity && a.nextId <= r.0 < r.1.nextId
    ensures a.Valid() ==> r.0 != a.current && r.0 !in a.parentOf
  {
    var id := a.nextId;
    (id, ActivityState(a.current, a.parentOf[id := a.current], a.nextId + 1))
  }

  /** `os_activity_scope_enter`: the activity becomes current, and the returned scope
      state remembers which activity to restore. */
  function Enter(a: ActivityState, activity: ActivityId): (r: (ScopeState, ActivityState))
    ensures r.1.current == activity && r.0.id == activity
    ensures Leave(r.1, r.0) == a
  {
    (ScopeState(activity, a.current), a.(current := activity))
  }

  /** `os_activity_scope_leave`: the activity current before the scope was entered
      becomes current again. */
  function Leave(a: ActivityState, scope: ScopeState): (r: ActivityState)
    ensures r.current == scope.saved && r.parentOf == a.parentOf && r.nextId == a.nextId
    ensures a.Valid() && scope.saved < a.nextId ==> r.Valid()
  {
    a.(current := scope.saved)
  }

  /** What both managers' `createActivityContext` does: create an activity under the
      current one, read its identifier, and enter it. */
  function CreateActivityContext(a: ActivityState): (r: (ActivityId, ScopeState, ActivityState))
    ensures r.2.current == r.0 && r.1.id == r.0 && r.1.saved == a.current
    ensures r.2.ParentId() == a.current
    ensures Leave(r.2, r.1).current == a.current
    ensures a.Valid() ==> r.2.Valid() && r.0 != NoActivity && a.nextId <= r.0 < r.2.nextId
    ensures a.Valid() ==> Leave(r.2, r.1).ParentId() == a.ParentId()
  {
    var (activity, created) := Create(a);
    var (scope, entered) := Enter(created, activity);
    (activity, scope, entered)
  }

  /** `contextMap[current] ?? contextMap[parent]`, as both managers resolve the entry
      to look in: the current activity's entry when it has one, else its parent's. */
  function ResolveEntry<V>(m: map<ActivityId, V>, a: ActivityState): (r: Option<ActivityId>)
    ensures r.Some? ==> r.value in m
    ensures r.None? <==> a.current !in m && a.ParentId() !in m
    ensures a.current in m ==> r == Some(a.current)
    ensures a.current !in m && a.ParentId() in m ==> r == Some(a.ParentId())
  {
    if a.current in m then Some(a.current)
    else if a.ParentId() in m then Some(a.ParentId())
    else None
  }

  /** The process-wide activity facility, as one object whose state the managers'
      methods read and change. */
  class Scheduler {
    var state: ActivityState

    constructor ()
      ensures state == Initial
    {
      state := Initial;
    }

    /** `os_activity_get_identifier(OS_ACTIVITY_CURRENT, &parent)`. */
    method GetIdentifier() returns (activity: ActivityId, parent: ActivityId)
      ensures activity == state.current && parent == state.ParentId()
    {
      activity := state.current;
      parent := state.ParentId();
    }

    method CreateActivity() returns (activity: ActivityId)
      modifies this
      ensures (activity, state) == Create(old(state))
    {
      var (id, created) := Create(state);
      activity, state := id, created;
    }

    method ScopeEnter(activity: ActivityId) returns (scope: ScopeState)
      modifies this
      ensures (scope, state) == Enter(old(state), activity)
    {
      var (s, entered) := Enter(state, activity);
      scope, state := s, entered;
    }

    method ScopeLeave(scope: ScopeState)
      modifies this
      ensures state == Leave(old(state), scope)
    {
      state := Leave(state, scope);
    }
  }
}
