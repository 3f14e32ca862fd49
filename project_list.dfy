/**
 * The list component `ProjectList` (src/components/project-list.ts; the
 * listener in src/app.ts filters the same way): keeps the projects of one
 * status, renders them, and turns a drop into a move request.
 */
module ProjectLists {
  import opened Text
  import opened Projects
  import opened ProjectStore
  import opened DragDrop
  import opened ProjectItems

  /** The list's `type`: 'active' or 'finished'. */
  datatype ListType = ActiveList | FinishedList

  /** The status a list shows and the status a drop on it requests. */
  function ListStatus(t: ListType): ProjectStatus {
    match t
    case ActiveList => Active
    case FinishedList => Finished
  }

  /** `projects.filter(...)`: the projects with the given status, in their order. */
  function Filter(s: seq<Project>, status: ProjectStatus): (r: seq<Project>)
    reads s
    ensures |r| <= |s|
  {
    if s == [] then []
    else if s[0].status == status then [s[0]] + Filter(s[1..], status)
    else Filter(s[1..], status)
  }

  /** A list holds exactly the projects of the snapshot that have its status. */
  lemma {:induction false} FilterMembers(s: seq<Project>, status: ProjectStatus)
    ensures forall p :: p in Filter(s, status) <==> p in s && p.status == status
  {
    if s != [] {
      FilterMembers(s[1..], status);
      assert s == [s[0]] + s[1..];
    }
  }

  /** Filtering keeps order: the filter of a concatenation is the concatenation of the filters. */
  lemma {:induction false} FilterConcat(a: seq<Project>, b: seq<Project>, status: ProjectStatus)
    ensures Filter(a + b, status) == Filter(a, status) + Filter(b, status)
  {
    if a == [] {
      assert a + b == b;
    } else {
      var ab := a + b;
      assert ab[0] == a[0] && ab[1..] == a[1..] + b;
      FilterConcat(a[1..], b, status);
      if a[0].status == status {
        calc {
          Filter(ab, status);
          [a[0]] + Filter(a[1..] + b, status);
          [a[0]] + (Filter(a[1..], status) + Filter(b, status));
          ([a[0]] + Filter(a[1..], status)) + Filter(b, status);
        }
      } else {
        assert Filter(ab, status) == Filter(a[1..] + b, status);
      }
    }
  }

  /** The two lists partition a snapshot: every project of it lands in exactly one of them. */
  lemma {:induction false} FilterPartition(s: seq<Project>)
    ensures |Filter(s, Active)| + |Filter(s, Finished)| == |s|
    ensures multiset(Filter(s, Active)) + multiset(Filter(s, Finished)) == multiset(s)
  {
    if s != [] {
      FilterPartition(s[1..]);
      assert s == [s[0]] + s[1..];
    }
  }

  /** The items a list renders for its projects, one per project, in order. */
  function RenderAll(s: seq<Project>): (r: seq<ItemView>)
    ensures |r| == |s|
    ensures forall k :: 0 <= k < |s| ==> r[k] == RenderItem(s[k])
  {
    seq(|s|, k requires 0 <= k < |s| => RenderItem(s[k]))
  }

  class ProjectList {
    const listType: ListType
    var assignedProjects: seq<Project>
    /** Whether the list element carries the 'droppable' class. */
    var droppable: bool
    /** The children of the list element. */
    var rendered: seq<ItemView>

    /** A new list subscribes to the store; `listener` names its `OnSnapshot` callback. */
    constructor (listType: ListType, store: ProjectState, listener: ListenerId)
      requires store.Valid()
      modifies store
      ensures this.listType == listType
      ensures assignedProjects == [] && !droppable && rendered == []
      ensures store.Valid()
      ensures store.listeners == old(store.listeners) + [listener]
      ensures store.projects == old(store.projects) && store.log == old(store.log)
    {
      this.listType := listType;
      assignedProjects := [];
      droppable := false;
      rendered := [];
      new;
      store.AddListener(listener);
    }

    /** The listener the list registers with the store. */
    method OnSnapshot(projects: seq<Project>)
      modifies this
      ensures assignedProjects == Filter(projects, ListStatus(listType))
      ensures rendered == RenderAll(assignedProjects)
      ensures droppable == old(droppable)
    {
      assignedProjects := Filter(projects, ListStatus(listType));
      RenderProjects();
    }

    /** `renderProjects`: empties the list, then appends one item per assigned project. */
    method RenderProjects()
      modifies this`rendered
      ensures rendered == RenderAll(assignedProjects)
    {
      rendered := [];
      var i := 0;
      while i < |assignedProjects|
        invariant 0 <= i <= |assignedProjects|
        invariant rendered == RenderAll(assignedProjects[..i])
      {
        assert assignedProjects[..i + 1] == assignedProjects[..i] + [assignedProjects[i]];
        rendered := rendered + [RenderItem(assignedProjects[i])];
        i := i + 1;
      }
      assert assignedProjects[..i] == assignedProjects;
    }

    /** `dragOverHandler`: accepts the drop (prevents the default) and marks the list
        droppable only when the first format is 'text/plain'. */
    method DragOver(transfer: DataTransfer?) returns (accepted: bool)
      modifies this`droppable
      ensures accepted <==> transfer != null && |transfer.types| > 0 && transfer.types[0] == TextPlain
      ensures droppable == (accepted || old(droppable))
    {
      accepted := transfer != null && |transfer.types| > 0 && transfer.types[0] == TextPlain;
      if accepted {
        droppable := true;
      }
    }

    /** `dropHandler`: clears the mark and asks the store to move the dragged project here. */
    method Drop(transfer: DataTransfer, store: ProjectState)
      requires store.Valid()
      modifies this`droppable, store, store.projects
      ensures !droppable
      ensures store.Valid()
      ensures store.projects == old(store.projects) && store.listeners == old(store.listeners)
      ensures var id := ParseNumber(old(transfer.GetData(TextPlain)));
        && store.Contents() == Move(old(store.Contents()), id, ListStatus(listType))
        && store.log == old(store.log) +
             if MoveNotifies(old(store.Contents()), id, ListStatus(listType))
             then Deliveries(store.listeners, store.projects) else []
    {
      droppable := false;
      var projectId := transfer.GetData(TextPlain);
      store.MoveProject(ParseNumber(projectId), ListStatus(listType));
    }

    /** `dragLeaveHandler`. */
    method DragLeave()
      modifies this`droppable
      ensures !droppable
    {
      droppable := false;
    }
  }
}
