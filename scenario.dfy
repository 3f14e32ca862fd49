/**
 * One run of the whole widget: a project is added, both lists render it,
 * its item is dragged onto the finished list, and both lists render again.
 * The active list subscribes as listener 0 and the finished list as listener 1;
 * each delivery in the store's log is handed to its list.
 */
module Scenario {
  import opened Text
  import opened Projects
  import opened ProjectStore
  import opened DragDrop
  import opened ProjectItems
  import opened ProjectLists

  /** A one-project snapshot lands in the list of the project's status only. */
  lemma FilterSingleton(p: Project, status: ProjectStatus)
    ensures Filter([p], status) == if p.status == status then [p] else []
  {
    assert [p][1..] == [];
  }

  /** A list receives a one-project snapshot and renders it. */
  method Receive(list: ProjectList, snapshot: seq<Project>, p: Project)
    requires snapshot == [p]
    modifies list
    ensures list.rendered == if p.status == ListStatus(list.listType) then [RenderItem(p)] else []
  {
    FilterSingleton(p, ListStatus(list.listType));
    list.OnSnapshot(snapshot);
  }

  /** A project is added to an empty store with the two lists subscribed. */
  method AddOne(store: ProjectState, title: string, description: string, people: int, id: nat)
      returns (p: Project)
    requires store.Valid() && store.projects == [] && store.listeners == [0, 1] && store.log == []
    modifies store
    ensures store.Valid() && store.projects == [p] && fresh(p) && store.listeners == [0, 1]
    ensures store.log == Deliveries(store.listeners, [p])
    ensures p.id == id && p.title == title && p.description == description
    ensures p.people == people && p.status == Active
  {
    store.AddProject(id, title, description, people);
    p := store.projects[0];
    assert store.projects == [p];
    assert View(p) == store.Contents()[0];
  }

  /** The project's item is dragged onto the finished list and dropped there. */
  method DragToFinished(p: Project, finished: ProjectList, store: ProjectState) returns (accepted: bool)
    requires store.Valid() && store.projects == [p] && p.status == Active
    requires finished.listType == FinishedList
    modifies store, p, finished`droppable
    ensures accepted
    ensures store.Valid() && store.projects == [p] && p.status == Finished
    ensures store.listeners == old(store.listeners)
    ensures store.log == old(store.log) + Deliveries(store.listeners, [p])
  {
    var item := new ProjectItem(p);
    var transfer := new DataTransfer();
    item.DragStart(transfer);
    assert Without([], TextPlain) == [];
    accepted := finished.DragOver(transfer);
    assert store.Valid() && store.projects == [p];
    assert ParseNumber(transfer.GetData(TextPlain)) == Int(p.id);
    assert store.Contents() == [View(p)];
    assert MoveNotifies(store.Contents(), Int(p.id), Finished);
    finished.Drop(transfer, store);
    assert View(p) == store.Contents()[0];
  }

  method AddThenDragToFinished(title: string, description: string, people: int, id: nat) returns (
      activeBefore: seq<ItemView>, finishedBefore: seq<ItemView>, dropAccepted: bool,
      activeAfter: seq<ItemView>, finishedAfter: seq<ItemView>)
    ensures activeBefore == [ItemView(Decimal(id), title, PeopleLine(people), description)]
    ensures finishedBefore == []
    ensures dropAccepted
    ensures activeAfter == [] && finishedAfter == activeBefore
  {
    var store := new ProjectState();
    var active := new ProjectList(ActiveList, store, 0);
    var finished := new ProjectList(FinishedList, store, 1);
    var p := AddOne(store, title, description, people, id);
    assert store.log == [Delivery(0, [p]), Delivery(1, [p])];
    ghost var item := RenderItem(p);
    assert item == ItemView(Decimal(id), title, PeopleLine(people), description);

    Receive(active, store.log[0].snapshot, p);
    Receive(finished, store.log[1].snapshot, p);
    activeBefore, finishedBefore := active.rendered, finished.rendered;

    dropAccepted := DragToFinished(p, finished, store);
    assert store.log[2] == Delivery(0, [p]) && store.log[3] == Delivery(1, [p]);
    Receive(active, store.log[2].snapshot, p);
    Receive(finished, store.log[3].snapshot, p);
    activeAfter, finishedAfter := active.rendered, finished.rendered;
  }
}
