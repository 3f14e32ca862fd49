/**
 * The input form `ProjectInput` (src/components/project-input.component.ts and
 * its earlier copy in src/app.ts): three text fields, checked with fixed
 * constraint sets, cleared and handed to the store only when all three pass.
 */
module ProjectInputs {
  import opened Wrappers
  import opened Text
  import opened Validation
  import opened Projects
  import opened ProjectStore

  function TitleValidatable(title: string): Validatable {
    Validatable(Str(title), true, Some(2), None, None, None)
  }

  function DescriptionValidatable(description: string): Validatable {
    Validatable(Str(description), true, Some(2), Some(240), None, None)
  }

  /** The people field is read as a number with unary `+`. */
  function PeopleValidatable(people: string): Validatable {
    Validatable(Num(ParseNumber(people)), true, None, None, Some(1), Some(10))
  }

  /** The three checks, as `gatherUserInput` combines them. */
  predicate Accepts(title: string, description: string, people: string) {
    Validate(TitleValidatable(title))
    && Validate(DescriptionValidatable(description))
    && Validate(PeopleValidatable(people))
  }

  /** A title passes exactly when its trimmed length is at least 2 (`required` adds nothing). */
  lemma TitleRule(title: string)
    ensures Validate(TitleValidatable(title)) <==> |Trim(title)| >= 2
  {
  }

  /** A description passes exactly when its trimmed length is between 2 and 240. */
  lemma DescriptionRule(description: string)
    ensures Validate(DescriptionValidatable(description)) <==> 2 <= |Trim(description)| <= 240
  {
  }

  /** The people field passes exactly when it reads as an integer from 1 to 10. */
  lemma PeopleRule(people: string)
    ensures Validate(PeopleValidatable(people)) <==>
      ParseNumber(people).Int? && 1 <= ParseNumber(people).n <= 10
  {
    NumberTextNotBlank(ParseNumber(people));
  }

  /** On decimal text, the people bounds are inclusive: 1 and 10 pass, 0 and 11 fail. */
  lemma PeopleBoundary(n: nat)
    ensures Validate(PeopleValidatable(Decimal(n))) <==> 1 <= n <= 10
  {
    ParseDecimal(n);
  }

  /** Title boundary: two visible characters pass, one fails, and blanks around it do not count. */
  lemma TitleBoundary(c: char, d: char)
    requires !IsWhitespace(c) && !IsWhitespace(d)
    ensures Validate(TitleValidatable([c, d]))
    ensures !Validate(TitleValidatable([c]))
    ensures !Validate(TitleValidatable([' ', c, ' ']))
  {
    TrimOfSpaced(c);
    TitleRule([' ', c, ' ']);
    TrimOfUnpadded([c, d]);
    TitleRule([c, d]);
    TrimOfUnpadded([c]);
    TitleRule([c]);
  }

  /** A submission whose title and description have no blanks at their ends and whose
      people field is the decimal text of a count: accepted exactly when the lengths
      and the count are in range, and then handed on unchanged. */
  lemma UnpaddedInputAccepted(title: string, description: string, n: nat)
    requires title != [] && !IsWhitespace(title[0]) && !IsWhitespace(title[|title| - 1])
    requires description != [] && !IsWhitespace(description[0]) && !IsWhitespace(description[|description| - 1])
    ensures Accepts(title, description, Decimal(n)) <==>
      2 <= |title| && 2 <= |description| <= 240 && 1 <= n <= 10
    ensures Accepts(title, description, Decimal(n)) ==>
      Gather(title, description, Decimal(n)) == Some(UserInput(title, description, n))
  {
    TrimOfUnpadded(title);
    TitleRule(title);
    TrimOfUnpadded(description);
    DescriptionRule(description);
    PeopleBoundary(n);
    ParseDecimal(n);
  }

  datatype UserInput = UserInput(title: string, description: string, people: int)

  /** What `gatherUserInput` returns: the untrimmed title and description and the
      number read from the people field, or nothing when a check fails. */
  function Gather(title: string, description: string, people: string): (r: Option<UserInput>)
    ensures r.Some? <==> Accepts(title, description, people)
    ensures r.Some? ==> r.value.title == title && r.value.description == description
    ensures r.Some? ==> ParseNumber(people) == Int(r.value.people) && 1 <= r.value.people <= 10
  {
    if !Accepts(title, description, people) then None
    else match ParseNumber(people)
      case Int(n) => Some(UserInput(title, description, n))
      case NaN => None
  }

  class ProjectInput {
    var titleValue: string
    var descriptionValue: string
    var peopleValue: string

    constructor ()
      ensures titleValue == "" && descriptionValue == "" && peopleValue == ""
    {
      titleValue, descriptionValue, peopleValue := "", "", "";
    }

    /** `gatherUserInput`: clears the fields only when it returns a triple. */
    method GatherUserInput() returns (r: Option<UserInput>)
      modifies this
      ensures r == Gather(old(titleValue), old(descriptionValue), old(peopleValue))
      ensures r.Some? ==> titleValue == "" && descriptionValue == "" && peopleValue == ""
      ensures r.None? ==>
        titleValue == old(titleValue) && descriptionValue == old(descriptionValue)
        && peopleValue == old(peopleValue)
    {
      var enteredTitle, enteredDescription, enteredPeople := titleValue, descriptionValue, peopleValue;
      if !Validate(TitleValidatable(enteredTitle))
        || !Validate(DescriptionValidatable(enteredDescription))
        || !Validate(PeopleValidatable(enteredPeople))
      {
        return None;
      }
      CleanInputs();
      r := Gather(enteredTitle, enteredDescription, enteredPeople);
    }

    /** `cleanInputs`. */
    method CleanInputs()
      modifies this
      ensures titleValue == "" && descriptionValue == "" && peopleValue == ""
    {
      titleValue, descriptionValue, peopleValue := "", "", "";
    }

    /** `submitHandler`: adds a project exactly when `gatherUserInput` produced a triple.
        The new project's id is a parameter. */
    method SubmitHandler(store: ProjectState, id: nat)
      requires store.Valid()
      modifies this, store
      ensures store.Valid()
      ensures Gather(old(titleValue), old(descriptionValue), old(peopleValue)).Some? ==>
        titleValue == "" && descriptionValue == "" && peopleValue == ""
      ensures Gather(old(titleValue), old(descriptionValue), old(peopleValue)).None? ==>
        titleValue == old(titleValue) && descriptionValue == old(descriptionValue)
        && peopleValue == old(peopleValue)
      ensures var u := Gather(old(titleValue), old(descriptionValue), old(peopleValue));
        if u.Some? then
          && |store.projects| == |old(store.projects)| + 1
          && store.projects[..|old(store.projects)|] == old(store.projects)
          && fresh(store.projects[|old(store.projects)|])
          && store.Contents() == old(store.Contents())
               + [ProjectView(id, u.value.title, u.value.description, u.value.people, Active)]
          && store.listeners == old(store.listeners)
          && store.log == old(store.log) + Deliveries(store.listeners, store.projects)
        else
          && store.projects == old(store.projects) && store.listeners == old(store.listeners)
          && store.log == old(store.log)
    {
      var userInput := GatherUserInput();
      if userInput.Some? {
        store.AddProject(id, userInput.value.title, userInput.value.description, userInput.value.people);
      }
    }
  }
}
