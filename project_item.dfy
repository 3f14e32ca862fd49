/**
 * The item component `ProjectItem` (src/components/project-item.component.ts):
 * what one project renders as, and the payload it puts on a drag.
 */
module ProjectItems {
  import opened Text
  import opened Projects
  import opened DragDrop

  /** The `person` getter. */
  function PersonLabel(people: int): string {
    if people == 1 then "1 person" else IntToText(people) + " persons"
  }

  /** The rendered people line. */
  function PeopleLine(people: int): string {
    PersonLabel(people) + " assigned"
  }

  /** The singular form is used for a count of one and never otherwise. */
  lemma SingularExactlyForOne(people: int)
    ensures PersonLabel(people) == "1 person" <==> people == 1
  {
    if people != 1 {
      assert |PersonLabel(people)| >= 9;
    }
  }

  /** Every other count is written out in front of " persons", readable back with unary `+`. */
  lemma PluralShowsCount(people: nat)
    requires people != 1
    ensures var text := PersonLabel(people);
      |text| > 8 && text[|text| - 8..] == " persons"
      && ParseNumber(text[..|text| - 8]) == Int(people)
  {
    var text := PersonLabel(people);
    assert text[..|text| - 8] == Decimal(people);
    ParseDecimal(people);
  }

  /** What the item component puts on the page: the element id, then a heading with the
      title, a heading with the people line and a paragraph with the description. */
  datatype ItemView = ItemView(elementId: string, title: string, peopleLine: string, description: string)

  function RenderItem(p: Project): ItemView {
    ItemView(Decimal(p.id), p.title, PeopleLine(p.people), p.description)
  }

  /** The element id is the project id's decimal text: two items share an element id
      exactly when their projects share an id, and the id reads back with unary `+`. */
  lemma ItemIdentifiesProject(p: Project, q: Project)
    ensures RenderItem(p).elementId == RenderItem(q).elementId <==> p.id == q.id
    ensures ParseNumber(RenderItem(p).elementId) == Int(p.id)
  {
    if Decimal(p.id) == Decimal(q.id) {
      DecimalInjective(p.id, q.id);
    }
    ParseDecimal(p.id);
  }

  class ProjectItem {
    const project: Project

    constructor (project: Project)
      ensures this.project == project
    {
      this.project := project;
    }

    /** `dragStartHandler`: the id as decimal text under 'text/plain', and the effect 'move'. */
    method DragStart(transfer: DataTransfer)
      modifies transfer
      ensures transfer.data == old(transfer.data)[TextPlain := Decimal(project.id)]
      ensures transfer.types == Without(old(transfer.types), TextPlain) + [TextPlain]
      ensures transfer.effectAllowed == "move"
      ensures ParseNumber(transfer.GetData(TextPlain)) == Int(project.id)
    {
      transfer.SetData(TextPlain, Decimal(project.id));
      transfer.effectAllowed := "move";
      ParseDecimal(project.id);
    }

    /** `dragEndHandler` does nothing. */
    method DragEnd()
    {
    }
  }
}
