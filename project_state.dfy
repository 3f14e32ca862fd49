/**
 * The project store `ProjectState` (src/state/project-state.ts, and its earlier
 * copy in src/app.ts). Listeners are opaque identifiers; calling the listeners
 * is recorded as an append-only log of deliveries, one per listener call, each
 * holding the snapshot the listener was passed.
 */
module ProjectStore {
  import opened Wrappers
  import opened Text
  import opened Projects

  type ListenerId = nat

  /** One listener call: the listener and the array it was passed (a `slice()` of the
      store's array: a new sequence holding the same Project objects). */
  datatype Delivery = Delivery(listener: ListenerId, snapshot: seq<Project>)

  /** One notification round: each listener once, in registration order, with the same snapshot. */
  function Deliveries(listeners: seq<ListenerId>, snapshot: seq<Project>): (r: seq<Delivery>)
    ensures |r| == |listeners|
    ensures forall k :: 0 <= k < |r| ==> r[k] == Delivery(listeners[k], snapshot)
  {
    if listeners == [] then [] else [Delivery(listeners[0], snapshot)] + Deliveries(listeners[1..], snapshot)
  }

  /** `find`: the index of the first project whose id is `id` (NaN matches none). */
  function FindFirst(vs: seq<ProjectView>, id: Number): (r: Option<nat>)
    ensures r.Some? ==> r.value < |vs| && Int(vs[r.value].id) == id
    ensures r.Some? ==> forall j :: 0 <= j < r.value ==> Int(vs[j].id) != id
    ensures r.None? ==> forall j :: 0 <= j < |vs| ==> Int(vs[j].id) != id
  {
    if vs == [] then None
    else if Int(vs[0].id) == id then Some(0)
    else match FindFirst(vs[1..], id)
      case None => None
      case Some(i) => Some(i + 1)
  }

  /** Whether `moveProject(id, status)` changes anything: some project has the id and
      the first such project has a different status. */
  predicate MoveNotifies(vs: seq<ProjectView>, id: Number, status: ProjectStatus) {
    match FindFirst(vs, id)
    case None => false
    case Some(i) => vs[i].status != status
  }

  /** The store's contents after `moveProject(id, status)`. */
  function Move(vs: seq<ProjectView>, id: Number, status: ProjectStatus): seq<ProjectView> {
    match FindFirst(vs, id)
    case None => vs
    case Some(i) => vs[i := vs[i].(status := status)]
  }

  /** A move keeps length, order and every field except the status of the first match. */
  lemma MoveChangesOnlyFirstMatchStatus(vs: seq<ProjectView>, id: Number, status: ProjectStatus)
    ensures |Move(vs, id, status)| == |vs|
    ensures forall k :: 0 <= k < |vs| ==>
      Move(vs, id, status)[k] == if FindFirst(vs, id) == Some(k) then vs[k].(status := status) else vs[k]
  {
  }

  /** An id that matches no project: nothing changes and nobody is notified. */
  lemma MoveMissingIdIsNoOp(vs: seq<ProjectView>, id: Number, status: ProjectStatus)
    requires forall k :: 0 <= k < |vs| ==> Int(vs[k].id) != id
    ensures Move(vs, id, status) == vs && !MoveNotifies(vs, id, status)
  {
  }

  /** Moving to the status the project already has: nothing changes and nobody is notified. */
  lemma MoveToSameStatusIsNoOp(vs: seq<ProjectView>, id: Number, status: ProjectStatus)
    requires !MoveNotifies(vs, id, status)
    ensures Move(vs, id, status) == vs
  {
  }

  /** `find` looks at ids only. */
  lemma {:induction false} FindFirstIgnoresOtherFields(vs: seq<ProjectView>, ws: seq<ProjectView>, id: Number)
    requires |vs| == |ws| && forall k :: 0 <= k < |vs| ==> vs[k].id == ws[k].id
    ensures FindFirst(vs, id) == FindFirst(ws, id)
  {
    if vs != [] {
      FindFirstIgnoresOtherFields(vs[1..], ws[1..], id);
    }
  }

  /** Repeating a move changes nothing and notifies nobody: `moveProject` is idempotent. */
  lemma MoveIdempotent(vs: seq<ProjectView>, id: Number, status: ProjectStatus)
    ensures Move(Move(vs, id, status), id, status) == Move(vs, id, status)
    ensures !MoveNotifies(Move(vs, id, status), id, status)
  {
    FindFirstIgnoresOtherFields(vs, Move(vs, id, status), id);
  }

  /** Moving an Active project to Finished and back restores the store exactly. */
  lemma MoveRoundTrip(vs: seq<ProjectView>, id: Number)
    requires FindFirst(vs, id).Some? && vs[FindFirst(vs, id).value].status == Active
    ensures MoveNotifies(vs, id, Finished)
    ensures MoveNotifies(Move(vs, id, Finished), id, Active)
    ensures Move(Move(vs, id, Finished), id, Active) == vs
  {
    FindFirstIgnoresOtherFields(vs, Move(vs, id, Finished), id);
  }

  class ProjectState {
    var projects: seq<Project>
    var listeners: seq<ListenerId>
    var log: seq<Delivery>

    /** Every project the store holds is its own object. */
    ghost predicate Valid()
      reads this
    {
      Distinct(projects)
    }

    /** The store's contents as values. */
    function Contents(): seq<ProjectView>
      reads this, projects
    {
      Views(projects)
    }

    constructor ()
      ensures Valid()
      ensures projects == [] && listeners == [] && log == []
    {
      projects := [];
      listeners := [];
      log := [];
    }

    /** `addListener`: the listener is called on every later notification. */
    method AddListener(listener: ListenerId)
      requires Valid()
      modifies this
      ensures Valid()
      ensures listeners == old(listeners) + [listener]
      ensures projects == old(projects) && Contents() == old(Contents())
      ensures log == old(log)
    {
      listeners := listeners + [listener];
    }

    /** `addProject`: the id is a parameter (the source uses the wall clock). */
    method AddProject(id: nat, title: string, description: string, people: int)
      requires Valid()
      modifies this
      ensures Valid()
      ensures |projects| == |old(projects)| + 1 && projects[..|old(projects)|] == old(projects)
      ensures fresh(projects[|old(projects)|])
      ensures Contents() == old(Contents()) + [ProjectView(id, title, description, people, Active)]
      ensures listeners == old(listeners)
      ensures log == old(log) + Deliveries(listeners, projects)
    {
      var project := new Project(id, title, description, people, Active);
      projects := projects + [project];
      UpdateListeners();
    }

    /** `moveProject`. */
    method MoveProject(projectId: Number, newStatus: ProjectStatus)
      requires Valid()
      modifies this, projects
      ensures Valid()
      ensures projects == old(projects) && listeners == old(listeners)
      ensures Contents() == Move(old(Contents()), projectId, newStatus)
      ensures log == old(log) +
        if MoveNotifies(old(Contents()), projectId, newStatus) then Deliveries(listeners, projects) else []
    {
      var found := FindFirst(Views(projects), projectId);
      if found.Some? && projects[found.value].status != newStatus {
        var i := found.value;
        ghost var before := Views(projects);
        projects[i].status := newStatus;
        forall k | 0 <= k < |projects| && k != i
          ensures Views(projects)[k] == before[k]
        {
          assert projects[k] != projects[i];
        }
        assert Views(projects) == before[i := before[i].(status := newStatus)];
        UpdateListeners();
      }
    }

    /** `updateListeners`: every listener, in order, gets the current sequence. */
    method UpdateListeners()
      modifies this`log
      ensures log == old(log) + Deliveries(listeners, projects)
    {
      var i := 0;
      while i < |listeners|
        invariant 0 <= i <= |listeners|
        invariant log == old(log) + Deliveries(listeners[..i], projects)
      {
        assert Deliveries(listeners[..i + 1], projects) == Deliveries(listeners[..i], projects) + [Delivery(listeners[i], projects)];
        log := log + [Delivery(listeners[i], projects)];
        i := i + 1;
      }
      assert listeners[..i] == listeners;
    }
  }

  /**
   * The snapshot is a copy of the array, not of the projects in it: a project
   * that a listener was handed earlier reads its new status after a move.
   */
  method DeliveredSnapshotSharesProjects() returns (before: ProjectStatus, after: ProjectStatus)
    ensures before == Active && after == Finished
  {
    var store := new ProjectState();
    store.AddListener(0);
    store.AddProject(7, "ab", "cd", 3);
    var delivered := store.log[0].snapshot;
    before := delivered[0].status;
    store.MoveProject(Int(7), Finished);
    after := delivered[0].status;
  }

  /**
   * For every store and every move: a listener that was handed the current array in
   * an earlier delivery reads the moved contents through it, since the delivered
   * array holds the store's own projects.
   */
  method EarlierSnapshotSeesMove(store: ProjectState, k: nat, projectId: Number, newStatus: ProjectStatus)
    requires store.Valid() && k < |store.log| && store.log[k].snapshot == store.projects
    modifies store, store.projects
    ensures old(store.log) <= store.log && store.log[k] == old(store.log[k])
    ensures Views(store.log[k].snapshot) == Move(old(store.Contents()), projectId, newStatus)
  {
    store.MoveProject(projectId, newStatus);
  }

  /** Holds the single store `ProjectState.getInstance` hands out. */
  class StateHolder {
    var instance: ProjectState?

    ghost predicate Valid()
      reads this, instance
    {
      instance != null ==> instance.Valid()
    }

    constructor ()
      ensures Valid() && instance == null
    {
      instance := null;
    }

    /** `getInstance`: creates the store on the first call and returns that same store on every call. */
    method GetInstance() returns (s: ProjectState)
      requires Valid()
      modifies this
      ensures Valid() && s.Valid() && instance == s
      ensures old(instance) != null ==> s == old(instance)
      ensures old(instance) == null ==> fresh(s) && s.projects == [] && s.listeners == [] && s.log == []
    {
      if instance != null {
        return instance;
      }
      s := new ProjectState();
      instance := s;
    }
  }
}
