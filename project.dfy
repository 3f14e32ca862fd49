/**
 * The Project entity. The store keeps Project objects and changes a project's
 * status in place, so a Project is a class; `ProjectView` is the value a
 * project reads as at one moment.
 */
module Projects {

  datatype ProjectStatus = Active | Finished

  class Project {
    const id: nat
    const title: string
    const description: string
    const people: int
    var status: ProjectStatus

    constructor (id: nat, title: string, description: string, people: int, status: ProjectStatus)
      ensures this.id == id && this.title == title && this.description == description
      ensures this.people == people && this.status == status
    {
      this.id := id;
      this.title := title;
      this.description := description;
      this.people := people;
      this.status := status;
    }
  }

  datatype ProjectView = ProjectView(id: nat, title: string, description: string, people: int, status: ProjectStatus)

  function View(p: Project): ProjectView
    reads p
  {
    ProjectView(p.id, p.title, p.description, p.people, p.status)
  }

  /** What a sequence of projects reads as, element by element. */
  function Views(s: seq<Project>): (r: seq<ProjectView>)
    reads s
    ensures |r| == |s|
    ensures forall k :: 0 <= k < |s| ==> r[k] == View(s[k])
  {
    seq(|s|, k requires 0 <= k < |s| reads s => View(s[k]))
  }

  /** No project object occurs twice. */
  predicate Distinct(s: seq<Project>) {
    forall i, j :: 0 <= i < j < |s| ==> s[i] != s[j]
  }
}
