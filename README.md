# Project tracker: a Dafny model

This is a model of the core of a small browser widget for tracking projects.
A form collects a title, a description and a head-count. Each field is checked
with `validate`, and an accepted submission becomes a project in a single
store, `ProjectState`. Two lists, *active* and *finished*, subscribe to the
store. Each keeps and renders the store's projects that have its status. The
user drags a project's item from one list onto the other: the item puts the
project id on the drag as decimal text, and the list it is dropped on reads the
id back with unary `+` and asks the store to move the project.

Modules, one per source concern:

- `Text` (`text.dfy`) holds the JavaScript primitives the code leans on.
  `Trim` is `String.prototype.trim` over the ECMAScript whitespace and
  line-terminator code points. `Decimal` and `IntToText` are the decimal text
  of an integer, as template literals and `toString()` write it. `Number` and
  `ParseNumber` model unary `+` on a string.
- `Validation` (`validation.dfy`) is `validate` from `src/app.ts`.
- `Projects` (`project.dfy`) is the `Project` entity. The store changes a
  project's status in place, so `Project` is a class; `ProjectView` is its
  value at one moment.
- `ProjectStore` (`project_state.dfy`) is the store, with `addListener`,
  `addProject`, `moveProject`, `updateListeners` and `getInstance`. Listeners
  are identifiers. Calling them is recorded in an append-only log of
  deliveries, one per call, each holding the array the listener was passed.
  `moveProject` is specified by the value-level functions `FindFirst` and
  `Move`.
- `DragDrop` (`drag_drop.dfy`) is the part of the browser's `DataTransfer`
  the handlers touch: `types`, the data per format, and `effectAllowed`.
- `ProjectItems` (`project_item.dfy`) is the item component: the person
  label, what an item renders, and the drag-start payload.
- `ProjectLists` (`project_list.dfy`) is the list component: the status
  filter, `renderProjects`, and the drag-over, drop and drag-leave handlers.
  The list's `droppable` flag stands for the CSS class on its `<ul>`.
- `ProjectInputs` (`project_input.dfy`) is the form: the three constraint
  sets, `gatherUserInput`, `cleanInputs` and `submitHandler`.
- `Scenario` (`scenario.dfy`) runs one project through the whole widget:
  added, rendered by both lists, dragged to *finished*, rendered again.

In two places the code behaves differently from what one might expect, and
the model follows the code:

- One might expect each listener to get copies of the projects.
  `updateListeners` passes `this._projects.slice()`, which is a new array
  holding the same `Project` objects, not copies of them. A listener that
  kept an earlier snapshot therefore sees a later status change.
  `ProjectStore.DeliveredSnapshotSharesProjects` shows this.
- One might expect project ids to be unique. They come from `Date.now()`, and
  nothing makes them unique. The model takes the id as a parameter and assumes
  no uniqueness. `moveProject` changes only the first project with the id;
  `Move` and `MoveChangesOnlyFirstMatchStatus` state this.

## Model

| member | source | states |
|---|---|---|
| `Text.TrimStart` | src/app.ts:111 | the result is a suffix of the input, everything cut off is whitespace, and it does not start with whitespace |
| `Text.TrimEnd` | src/app.ts:111 | the result is a prefix of the input, everything cut off is whitespace, and it does not end with whitespace |
| `Text.TrimSlice` | src/app.ts:118-120 | `trim` returns a contiguous slice of its input with only whitespace on either side of it |
| `Text.TrimEndsNotBlank` | src/app.ts:127-129 | a non-empty trimmed string neither starts nor ends with whitespace |
| `Text.TrimEmptyIffBlank` | src/app.ts:110-112 | `trim` gives the empty string exactly when the input is all whitespace |
| `Text.TrimOfUnpadded` | src/app.ts:118-120 | a string with no whitespace at its ends trims to itself, whatever it holds inside |
| `Text.Trim` | src/app.ts:111 | `trim` as `TrimEnd` after `TrimStart`; its properties are stated by `TrimSlice`, `TrimEndsNotBlank`, `TrimEmptyIffBlank`, `TrimOfUnpadded` and `TrimOfSpaced` |
| `Text.TrimOfSpaced` | src/app.ts:118-120 | one visible character between two spaces trims to that character |
| `Text.Decimal` | src/components/project-item.component.ts:24 | the decimal text of a non-negative integer is non-empty and all digits, and starts with '0' only for 0: there is no leading zero |
| `Text.DecimalRoundTrip` | src/components/project-item.component.ts:24 | reading the digits of `Decimal(n)` gives back `n` |
| `Text.IntToText` | src/components/project-item.component.ts:11 | the text of an integer is non-empty, starts with '-' exactly when the integer is negative, and is digits after its first character |
| `Text.ParseDecimal` | src/components/project-list.ts:42-44 | unary `+` applied to the decimal text of an id gives that id: the drag payload round trip |
| `Text.ParseNumber` | src/components/project-list.ts:44 | unary `+` on a string: blank text reads as 0, trimmed decimal digits as their value, anything else as NaN (see "## Left out"); `ParseDecimal` and `PeopleRule` state what the code relies on |
| `Text.DecimalInjective` | src/components/project-item.component.ts:16 | distinct ids have distinct decimal texts |
| `Text.NumberToText` | src/app.ts:111 | `toString()` of a number: the integer's decimal text, or "NaN"; `Validate`'s `required` clause and `NumberTextNotBlank` state what the code relies on |
| `Validation.ValueText` | src/app.ts:111 | `value.toString()`: a string is itself and a number is `NumberToText` of it; it appears in `Validate`'s `required` clause |
| `Validation.NumberAtLeast` | src/app.ts:136 | `value >= min` on a number, false for NaN; `Validate`'s `min` clause states it in terms of the integer |
| `Validation.NumberAtMost` | src/app.ts:143 | `value <= max` on a number, false for NaN; `Validate`'s `max` clause states it in terms of the integer |
| `Validation.Validate` | src/app.ts:107-147 | the result holds exactly when every applicable check passes. `required` needs a non-blank trimmed text. The length bounds apply to strings only and are inclusive on the trimmed length. The numeric bounds apply to numbers only, are inclusive, and NaN never meets them |
| `Validation.RequiredRejectsOnlyBlank` | src/app.ts:110-112 | `required` alone fails exactly on text that is all whitespace |
| `Validation.NumberTextNotBlank` | src/app.ts:111 | the text of every number, "NaN" included, is non-blank after trimming |
| `Validation.RequiredIgnoresNumbers` | src/app.ts:110-112 | `required` never changes the verdict on a number, whatever the other constraints are |
| `Validation.InapplicableConstraintsSkipped` | src/app.ts:114-144 | length bounds are ignored for numbers, numeric bounds for strings |
| `Validation.NoConstraintsPass` | src/app.ts:107-108 | with no constraint, every value passes |
| `Validation.DroppingConstraintsWeakens` | src/app.ts:107-147 | removing any one constraint keeps a passing value passing |
| `Projects.Project.constructor` | src/app.ts:44-52 | a new project holds the given id, title, description, head-count and status |
| `ProjectStore.Deliveries` | src/state/project-state.ts:56-60 | a notification round calls each listener once, in registration order, with the same snapshot |
| `ProjectStore.FindFirst` | src/state/project-state.ts:49 | `find` returns the first index whose id equals the requested one, or none when no id does (NaN matches none) |
| `ProjectStore.MoveNotifies` | src/state/project-state.ts:50 | a move notifies exactly when some project has the id and the first such project has another status; used by `MoveProject`, `MoveMissingIdIsNoOp`, `MoveIdempotent` and `MoveRoundTrip` |
| `ProjectStore.Move` | src/state/project-state.ts:48-54 | the store's contents after `moveProject`; `MoveChangesOnlyFirstMatchStatus`, `MoveMissingIdIsNoOp`, `MoveToSameStatusIsNoOp`, `MoveIdempotent` and `MoveRoundTrip` state its properties |
| `ProjectStore.MoveChangesOnlyFirstMatchStatus` | src/state/project-state.ts:48-54 | a move keeps length and order. It changes exactly the status of the first project with the id and nothing else |
| `ProjectStore.MoveMissingIdIsNoOp` | src/state/project-state.ts:49-50 | a move with an id no project has changes nothing and notifies nobody |
| `ProjectStore.MoveToSameStatusIsNoOp` | src/state/project-state.ts:50-53 | a move that does not notify changes nothing |
| `ProjectStore.FindFirstIgnoresOtherFields` | src/state/project-state.ts:49 | the lookup depends on the ids only, so a status change does not change which project a later move finds |
| `ProjectStore.MoveIdempotent` | src/state/project-state.ts:48-54 | repeating a move changes nothing further and notifies nobody |
| `ProjectStore.MoveRoundTrip` | src/state/project-state.ts:48-54 | moving an active project to finished and back notifies both times and restores the store exactly |
| `ProjectStore.ProjectState.constructor` | src/state/project-state.ts:11-26 | a new store has no projects, no listeners and no notifications |
| `ProjectStore.ProjectState.AddListener` | src/state/project-state.ts:15-17 | the listener is appended; projects and notifications are untouched |
| `ProjectStore.ProjectState.AddProject` | src/state/project-state.ts:36-46 | a new active project with the given fields is appended, the earlier ones keep their values and order, and every listener is notified once, in order, with the new array |
| `ProjectStore.ProjectState.MoveProject` | src/state/project-state.ts:48-54 | the contents become `Move` of the old contents. The listeners are notified, once each, exactly when a project has the id and the first one had a different status. Distinctness of the stored objects is kept |
| `ProjectStore.ProjectState.UpdateListeners` | src/state/project-state.ts:56-60 | one delivery per listener, in order, each with the current array; nothing else changes |
| `ProjectStore.DeliveredSnapshotSharesProjects` | src/state/project-state.ts:58 | in one run (one listener, one project with id 7), the project read from the snapshot delivered before the move shows the status after the move, because `slice()` copies the array and not the projects |
| `ProjectStore.EarlierSnapshotSeesMove` | src/state/project-state.ts:48-60 | for every store, every delivery whose array holds the store's current projects, and every move: the delivery stays in the log, and the projects read through its array are `Move` of the contents before the move |
| `ProjectStore.StateHolder.GetInstance` | src/state/project-state.ts:28-34 | the first call creates an empty store and every later call returns that same store |
| `DragDrop.DataTransfer.SetData` | src/components/project-item.component.ts:24 | the format's entry is replaced and the format becomes the last of `types`, with no duplicate |
| `DragDrop.DataTransfer.GetData` | src/components/project-list.ts:42 | `getData`: the entry for the format, or the empty string; `ProjectItem.DragStart` states what it returns after a drag starts |
| `ProjectItems.PersonLabel` | src/components/project-item.component.ts:7-13 | the `person` getter; `SingularExactlyForOne` and `PluralShowsCount` state its two cases |
| `ProjectItems.PeopleLine` | src/components/project-item.component.ts:41 | the people heading: the person label followed by " assigned" |
| `ProjectItems.RenderItem` | src/components/project-item.component.ts:37-49 | the element id, title heading, people heading and description paragraph of an item; `ItemIdentifiesProject` states how the element id identifies the project |
| `ProjectItems.SingularExactlyForOne` | src/components/project-item.component.ts:7-13 | the label is "1 person" exactly when the head-count is 1 |
| `ProjectItems.PluralShowsCount` | src/components/project-item.component.ts:7-13 | any other non-negative count, which includes every count the form admits, is written in front of " persons", and unary `+` reads it back |
| `ProjectItems.ItemIdentifiesProject` | src/components/project-item.component.ts:15-16 | two items share an element id exactly when their projects share an id, and the element id reads back as the project id |
| `ProjectItems.ProjectItem.DragStart` | src/components/project-item.component.ts:23-26 | the transfer carries the id's decimal text under 'text/plain', which reads back as the id, and the effect 'move' |
| `ProjectLists.ListStatus` | src/components/project-list.ts:45 | the status a list shows and requests on a drop: Active for the active list, Finished for the finished one |
| `ProjectLists.Filter` | src/components/project-list.ts:16-21 | the listener's `filter` is never longer than the snapshot; `FilterMembers`, `FilterConcat` and `FilterPartition` state what it keeps |
| `ProjectLists.FilterMembers` | src/components/project-list.ts:16-21 | a list holds a project exactly when the snapshot holds it and its status is the list's |
| `ProjectLists.FilterConcat` | src/components/project-list.ts:16-21 | filtering keeps the snapshot's order |
| `ProjectLists.FilterPartition` | src/components/project-list.ts:16-21 | the active and finished lists split every snapshot between them, as multisets and in size |
| `ProjectLists.ProjectList.constructor` | src/components/project-list.ts:13-27 | a new list has its type, no projects, no items and no 'droppable' mark, and it is appended to the store's listeners; the store's projects and notifications are unchanged |
| `ProjectLists.ProjectList.OnSnapshot` | src/components/project-list.ts:15-24 | the list keeps the snapshot's projects of its status and re-renders them |
| `ProjectLists.ProjectList.RenderProjects` | src/components/project-list.ts:61-68 | the list is emptied and then gets one item per assigned project, in order |
| `ProjectLists.ProjectList.DragOver` | src/components/project-list.ts:29-36 | the drop is accepted and the list marked exactly when the transfer's first format is 'text/plain' |
| `ProjectLists.ProjectList.Drop` | src/components/project-list.ts:38-47 | the mark is cleared and the store performs `moveProject` with unary `+` of the payload and the list's status |
| `ProjectLists.ProjectList.DragLeave` | src/components/project-list.ts:49-53 | the mark is cleared |
| `ProjectInputs.TitleValidatable` | src/components/project-input.component.ts:20-24 | the title's constraints: required, at least 2 characters; `TitleRule` and `TitleBoundary` state what they accept |
| `ProjectInputs.DescriptionValidatable` | src/components/project-input.component.ts:25-30 | the description's constraints: required, 2 to 240 characters; `DescriptionRule` states what they accept |
| `ProjectInputs.PeopleValidatable` | src/components/project-input.component.ts:31-36 | the people constraints on unary `+` of the field: required, 1 to 10; `PeopleRule` and `PeopleBoundary` state what they accept |
| `ProjectInputs.Accepts` | src/components/project-input.component.ts:38-42 | the three checks combined; `UnpaddedInputAccepted` and `Gather` state when they hold |
| `ProjectInputs.TitleRule` | src/components/project-input.component.ts:20-24 | a title passes exactly when its trimmed length is at least 2 |
| `ProjectInputs.DescriptionRule` | src/components/project-input.component.ts:25-30 | a description passes exactly when its trimmed length is between 2 and 240 |
| `ProjectInputs.PeopleRule` | src/components/project-input.component.ts:31-36 | the head-count passes exactly when unary `+` of the field is an integer from 1 to 10 |
| `ProjectInputs.PeopleBoundary` | src/components/project-input.component.ts:31-36 | for decimal text the head-count bounds are inclusive: it passes exactly when 1 <= n <= 10 |
| `ProjectInputs.TitleBoundary` | src/components/project-input.component.ts:20-24 | two visible characters pass, one fails, and spaces around one do not count |
| `ProjectInputs.UnpaddedInputAccepted` | src/components/project-input.component.ts:15-48 | with no whitespace at the field ends, a submission is accepted exactly when the lengths and the count are in range. It is then returned unchanged, with the count as its number |
| `ProjectInputs.Gather` | src/components/project-input.component.ts:15-48 | a triple is returned exactly when all three checks pass. It holds the untrimmed title and description and the number read from the people field, which lies in 1..10 |
| `ProjectInputs.ProjectInput.GatherUserInput` | src/components/project-input.component.ts:15-48 | returns `Gather` of the fields. The fields are cleared exactly when a triple is returned and are otherwise unchanged |
| `ProjectInputs.ProjectInput.CleanInputs` | src/components/project-input.component.ts:50-56 | all three fields become empty |
| `ProjectInputs.ProjectInput.SubmitHandler` | src/components/project-input.component.ts:58-66 | an accepted submission clears the three fields, appends one new active project with the gathered values and notifies every listener. A rejected one leaves the fields and the store untouched |
| `Scenario.AddThenDragToFinished` | src/components/project-list.ts:38-47 | an added project is rendered by the active list only. Dragged and dropped onto the finished list, it is accepted, and afterwards it is rendered by the finished list only, as the same item |

## Left out

- The DOM, templates, `Component` attachment, event registration (`configure`), `renderContent` headings and the `Autobind` decorator are browser plumbing; the model keeps only the state changes they lead to.
- `event.preventDefault()` in `submitHandler` and `dragOverHandler` is not modelled except as `DragOver`'s accepted result.
- The webpack configuration is build tooling.
- `Date.now()` is a clock: `AddProject` and `SubmitHandler` take the id as a parameter.
- Listener callbacks are not code here. A list's constructor registers an identifier for its `OnSnapshot` callback. A delivery records the listener and the array it would be called with, and `Scenario` hands each delivery to its list by hand. There is no unsubscribe and no exception isolation; the source has neither.
- `ProjectItems.RenderItem` gives every project its own rendered item. In the source, `renderContent` finds its element again with `document.getElementById` on the project id (src/components/project-item.component.ts:44-48). When two projects share an id, in one list or across both, the later item's headings are appended to the first element with that id, and its own `<li>` stays empty. The model does not capture this DOM lookup.
- `ProjectLists.ProjectList.Drop` and `ProjectItems.ProjectItem.DragStart` take a transfer that is present, as the browser guarantees for real drop and drag-start events. The source's `event.dataTransfer!` (src/components/project-list.ts:42, src/components/project-item.component.ts:24-25) would throw on a missing one, in `Drop` after clearing the mark; the model does not capture that path.
- `DragEnd`: `dragEndHandler` does nothing, so there is nothing to state about it.
- `ParseNumber` models unary `+` only for strings that trim to nothing (0) or to decimal digits. Every other string is NaN here, although JavaScript also reads fractions, exponents, signs, hex, binary, octal and "Infinity". So "1.5" passes the people check in the source, with 1.5 people, and fails it in the model.
- `ProjectItems.PluralShowsCount` covers non-negative counts only. A negative count is still written as `-` and its digits, but the model's `ParseNumber` reads that text as NaN, where JavaScript reads the negative number. The form only admits counts from 1 to 10, so no project it creates has a negative count.
- Numbers are unbounded integers: JavaScript's double precision, unsafe integers and `-0` are not modelled.
- String lengths are counted in code points, not UTF-16 code units, so a title of one astral-plane character is two units long in the source and one here.
- The older copy of the widget in `src/app.ts` (lines 62-94 and 268-307) has no `moveProject` and renders only titles in `<li>` elements. The model follows the component files, which supersede it.
- `Scenario.AddThenDragToFinished` starts at `AddProject` rather than at the form, to keep the proof small. `ProjectInputs.UnpaddedInputAccepted` and `ProjectInputs.ProjectInput.SubmitHandler` cover the form step.
