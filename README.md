# Minibus line and plate registry — a verified model

The application is a municipal front-end for registering minibus lines (with their
sub-routes and their current UKOME decision, UKOME being the transport coordination board),
browsing them in a filterable table, and assigning vehicle plates to lines with an audit
trail. All of its logic sits in React handlers over in-memory arrays. This project models
that logic in Dafny and proves what it does:

- `types.dfy` (module `Types`): the records of `types.ts`.
- `seqs.dfy` (module `Seqs`): the array operations the handlers are built from (`filter`,
  `map`, `findIndex`) as recursive functions, with the facts the other modules use
  (filter membership and multiplicity, filter keeps order, filter drops exactly one element,
  map is pointwise, findIndex finds the first match).
- `app.dfy` (module `App`): the record store of `App.tsx` as the class `AppState` (fields
  `currentView`, `selectedLineId`, `lines`, `plates`), whose methods are the handlers; the
  new collections they compute as pure functions (`WithoutLine`, `Edited`, `Revised`,
  `SavedLines`, `AssignPlate`) with the lemmas about them; and lemmas that follow a form save
  from the line form into the store (NEW appends, EDIT keeps the history, REVISE archives the
  superseded decision exactly once).
- `line_form.dfy` (module `LineForm`): the form of `components/LineForm.tsx` as the class
  `Form`, whose constructor is the initial state plus the initialisation effect; the
  sub-route list edits and the validate-and-build step of `handleSave` as pure functions.
- `plate_operations.dfy` (module `PlateOperations`): the SEARCH / DETAIL / ACTION screen of
  `components/PlateOperations.tsx` as the class `PlateScreen`. It keeps a reference to the
  store, which stands for its `plates` and `lines` props and its `onUpdatePlate` callback.
  `Valid()` says that DETAIL and ACTION always have a plate. `InSync()` says that the plate
  on screen is what a fresh search would show. A submit keeps `InSync()` whenever the line it
  names resolves to a line with a non-empty name (`SubmitKeepsSync`).
- `dashboard.dfy` (module `Dashboard`): the four-box search of `components/Dashboard.tsx`
  as a filter. The result is a subsequence of the lines. A line is in it exactly when it
  meets all four conditions. With all boxes empty it is the whole list.

Nondeterministic and library inputs are parameters: the `Date.now()` ids are `freshId`,
the `confirm` dialog is the `confirmed` flag of `DeleteLine`, the `alert` of a failed save
is the `Rejected` outcome, and `toLowerCase` / `toUpperCase` are function-typed parameters
`lower` / `upper`.

Three modelling choices are worth stating:
- `DeleteLine` removes every line with the id, or none when no line has it, exactly as the
  filter at App.tsx:77 does.
- `ReviseScenario` revises mock line "2", whose history is empty and whose decision is
  2023/100.
- `AssignScenario` starts from an empty plate list, because "35 M 1234" is already a mock
  plate.

## Model

| member | source | states |
|---|---|---|
| Types.AuditAction | App.tsx:119 | the audit label is ADD_TO_LINE exactly for ADD and CHANGE_LINE otherwise |
| App.LineIndex | App.tsx:112 | the index of the first line with the id, or -1 when no line has it |
| App.FindLine | App.tsx:112 | a line is found exactly when some line has the id, and it is the first such line |
| App.PlateIndex | App.tsx:111 | findIndex by plate number: the first plate with the number, or -1 when none has it |
| App.WithoutLine | App.tsx:77 | the result holds exactly the lines with another id, each as many times as in the input, in their original order, and is the input itself when no line has the id |
| App.DeletePresentLineShrinks | App.tsx:77 | deleting an id that is present makes the list strictly shorter |
| App.Edited | App.tsx:87-88 | same length; every line with the saved id becomes the saved line; every other line is unchanged |
| App.EditIsIdempotent | App.tsx:88 | saving the same EDIT twice gives the same lines as saving it once |
| App.Revised | App.tsx:91-105 | same length; a matching line becomes the saved line except its history, which is the stored history plus one entry holding the stored decision's date, number and summary; other lines unchanged |
| App.Archived | App.tsx:94-98 | the archived entry carries the superseded decision's date, number and summary |
| App.ReviseHistoryOnlyGrows | App.tsx:92-105 | every old history is a prefix of the new one, one entry longer for matching lines and equal for the others |
| App.SaveNewAppends | App.tsx:83-84 | a NEW save adds one line at the end and leaves every earlier line unchanged |
| App.SaveElsewhereKeepsLines | App.tsx:81-106 | a save from any screen other than NEW, EDIT and REVISE leaves the lines unchanged |
| App.SavedLines | App.tsx:81-106 | a save adds one line from the NEW screen and keeps the number of lines from every other screen |
| App.NewFormSaveAppends | App.tsx:83-84 | a valid NEW form save appends a line with the fresh id, empty history and a NEW decision |
| App.EditFormSaveKeepsHistory | App.tsx:87-88 | an EDIT of the selected line keeps its id, counters and history, takes the form's name, sub-routes and decision (tagged NEW), and leaves the other lines alone |
| App.ReviseFormSaveArchivesOnce | App.tsx:91-105 | a REVISE of the selected line keeps its id and counters, its history gains exactly the archived old decision, the new decision is tagged REVISE, and other lines are unchanged |
| App.ReviseScenario | App.tsx:91-105 | revising the second mock line with decision 2026/670 archives its 2023/100 decision as its only history entry |
| App.AssignUnresolvedIsNoOp | App.tsx:112-113 | when no line has the target id the plate list is unchanged |
| App.AssignPlate | App.tsx:110-140 | the list grows by one exactly when the target line resolves and no plate has the number; no stored plate changes number |
| App.AssignExistingPlate | App.tsx:122-130 | for a stored number only the first plate with it changes: it moves to the target line and its history gains one entry with the decision number, date, resolved line name and mapped action |
| App.AssignNewPlate | App.tsx:131-139 | for an unknown number exactly one plate is appended, on the target line, with that one entry as its history |
| App.AssignRecordsOneEntry | App.tsx:110-140 | after a resolved update, a lookup by the number finds the plate on the target line with exactly one more history entry than before |
| App.AssignHistoryOnlyGrows | App.tsx:124-138 | the list grows by at most one; no plate changes number and every old history is a prefix of the new one |
| App.AssignScenario | App.tsx:131-139 | assigning plate "35 M 1234" to line "1" in an empty plate list creates that plate with the one ADD_TO_LINE entry naming "KARŞIYAKA - EVKA 5" |
| App.AppState.constructor | App.tsx:64-68 | the store starts on the dashboard with no selected line and the mock lines and plates |
| App.AppState.SelectedLine | App.tsx:144 | the selected line is the first stored line with the selected id; it is found whenever some line has that id |
| App.AppState.Navigate | App.tsx:70-73 | navigation sets both the selected line id and the screen |
| App.AppState.BackToDashboard | App.tsx:148 | cancel and close return to the dashboard |
| App.AppState.DeleteLine | App.tsx:75-79 | a confirmed delete filters the id out of the lines; an unconfirmed one changes nothing; plates are untouched |
| App.AppState.SaveLine | App.tsx:81-108 | the lines change as the current screen dictates and the screen becomes the dashboard |
| App.AppState.UpdatePlate | App.tsx:110-140 | the indexed write into the copied plate list yields exactly AssignPlate of the old plates |
| App.AppState.MountLineForm | App.tsx:146-155 | NEW always mounts a form without data; EDIT and REVISE mount one exactly when the selected line resolves, with that line as initial data; other screens mount none |
| App.AppState.SubmitLineForm | components/LineForm.tsx:49-72 | a rejected save never reaches the store (lines and screen unchanged); an accepted one is saved and the dashboard shown |
| LineForm.SubRoutesAdded | components/LineForm.tsx:37-39 | one more row, the earlier rows unchanged, the new one the empty row: fresh id, empty name, active, no file |
| LineForm.SubRoutesRemoved | components/LineForm.tsx:41-43 | exactly the rows with another id remain, each as many times as before, in their original order |
| LineForm.RemovingOfferedRowKeepsOne | components/LineForm.tsx:140-144 | with distinct ids, removing a row while more than one exists drops exactly one and leaves at least one |
| LineForm.SubRoutesUpdated | components/LineForm.tsx:45-47 | same length; rows with another id are unchanged; matching rows change only the edited field |
| LineForm.BuildLine | components/LineForm.tsx:49-72 | rejected exactly when the name or decision number is empty; otherwise status AKTİF, the form's name, rows and decision, type REVISE exactly in REVISE mode, and id, counters and history from the initial data (fresh id, zeros, empty history without it) |
| LineForm.Form.constructor | components/LineForm.tsx:13-35 | with initial data the name and rows are copied and only EDIT copies the decision number, date and summary; without it one empty active row and empty fields |
| LineForm.Form.SetName | components/LineForm.tsx:92 | the name box sets the name |
| LineForm.Form.SetUkomeNumber | components/LineForm.tsx:157 | the decision number box sets the number |
| LineForm.Form.SetUkomeDate | components/LineForm.tsx:169 | the date box sets the date |
| LineForm.Form.SetUkomeSummary | components/LineForm.tsx:179 | the summary box sets the summary |
| LineForm.Form.AddSubRoute | components/LineForm.tsx:37-39 | the rows become SubRoutesAdded of the old rows |
| LineForm.Form.RemoveSubRoute | components/LineForm.tsx:41-43 | the rows become SubRoutesRemoved of the old rows |
| LineForm.Form.UpdateSubRoute | components/LineForm.tsx:45-47 | the rows become SubRoutesUpdated of the old rows |
| LineForm.Form.HandleSave | components/LineForm.tsx:49-72 | the outcome is BuildLine of the current form state; the method modifies nothing |
| PlateOperations.LookupPlate | components/PlateOperations.tsx:24-33 | the first stored plate with the number, or a placeholder on no line with empty history when none matches |
| PlateOperations.LineName | components/PlateOperations.tsx:38-41 | none for a missing or empty id; the first matching line's name when it is non-empty; "Bilinmeyen Hat" when no line matches or its name is empty |
| PlateOperations.OrEmpty | components/PlateOperations.tsx:61 | a looked-up name is kept as it is, and the result is empty exactly when nothing or an empty name was looked up |
| PlateOperations.PlateScreen.constructor | components/PlateOperations.tsx:12-20 | the screen starts in SEARCH with an empty query, no plate, action ADD and empty action fields |
| PlateOperations.PlateScreen.TypeQuery | components/PlateOperations.tsx:79 | the query is the upper-cased input |
| PlateOperations.PlateScreen.HandleSearch | components/PlateOperations.tsx:22-36 | the shown plate is the lookup result, the store is not changed, and the view is DETAIL |
| PlateOperations.PlateScreen.ClickSearch | components/PlateOperations.tsx:88-94 | with an empty query the click does nothing; otherwise it searches |
| PlateOperations.PlateScreen.OpenAction | components/PlateOperations.tsx:43-49 | sets the action type, clears the decision number, date and chosen line, and shows ACTION |
| PlateOperations.PlateScreen.OnALine | components/PlateOperations.tsx:163 | true exactly when the shown plate has a non-empty current line id |
| PlateOperations.PlateScreen.ClickChangeLine | components/PlateOperations.tsx:161-167 | opens the CHANGE action only when the plate is on a line, and otherwise changes nothing |
| PlateOperations.PlateScreen.SetUkomeNo | components/PlateOperations.tsx:195 | the decision number box sets the number |
| PlateOperations.PlateScreen.SetUkomeDate | components/PlateOperations.tsx:201 | the date box sets the date |
| PlateOperations.PlateScreen.SelectLine | components/PlateOperations.tsx:207-211 | the select chooses the empty option or a stored line's id |
| PlateOperations.PlateScreen.SubmitAction | components/PlateOperations.tsx:51-67 | nothing changes unless a plate is shown and the line and decision number are non-empty; otherwise the store applies the update, the shown plate moves to the line with one more entry carrying the mapped action, and the view is DETAIL |
| PlateOperations.PlateScreen.Close | components/PlateOperations.tsx:95 | the back button returns the store to the dashboard |
| PlateOperations.PlateScreen.Cancel | components/PlateOperations.tsx:227 | cancel goes from ACTION to DETAIL |
| PlateOperations.PlateScreen.NewQuery | components/PlateOperations.tsx:171 | the new-query link goes from DETAIL to SEARCH |
| PlateOperations.SubmitKeepsSync | components/PlateOperations.tsx:53-64 | when the shown plate agreed with the store and the chosen line has a name, the shown plate after the submit is the one the store now holds |
| Dashboard.Contains | components/Dashboard.tsx:18-21 | an empty query is contained in every text, and a contained query is never longer than the text |
| Dashboard.ContainsMeansOccurs | components/Dashboard.tsx:18 | the includes test holds exactly when the query occurs in the text at some index |
| Dashboard.Decimal | components/Dashboard.tsx:20-21 | a counter's text is a non-empty string of digits without a leading zero |
| Dashboard.DecimalRoundTrip | components/Dashboard.tsx:20-21 | reading the digits of a counter's text back gives the counter |
| Dashboard.Matches | components/Dashboard.tsx:17-22 | with all four boxes empty (and lower-casing the empty string giving the empty string) every line matches |
| Dashboard.FilteredLines | components/Dashboard.tsx:17-22 | the shown lines are a subsequence of the lines, each meets all four conditions, every line meeting them is shown, and as many times as it occurs in the lines |
| Dashboard.EmptySearchShowsAll | components/Dashboard.tsx:17-22 | with all four boxes empty the whole list is shown |
| Dashboard.StatusSearchIsExact | components/Dashboard.tsx:19 | choosing a status shows exactly the lines with that status |

## Left out

- All markup, CSS classes and icons. The `Header.tsx` and `LineView.tsx` components only render, so they are not part of this model.
- React mechanics such as state batching, effect timing, stale closures and re-rendering. The initialisation effect runs once, when the form is constructed. It is not re-run when the props change.
- `Date.now()`, `confirm` and `alert`. They become the `freshId` parameters, the `confirmed` flag and the `Rejected` outcome.
- `toLowerCase` and `toUpperCase` are Unicode library calls and are not modelled. They are function parameters instead. `EmptySearchShowsAll` and `StatusSearchIsExact` assume only that lower-casing the empty string gives the empty string.
- Dashboard.Decimal: JavaScript number formatting is not modelled for negative or fractional numbers. The counters are natural numbers, because the form only ever stores 0 or a copied value.
- LineForm.SubRoutesUpdated: it covers the two fields the form edits ('name' and 'isActive'), not every key the TypeScript signature allows ('id', 'kmzFileName').
- The KMZ file input is an unimplemented placeholder in the source. The optional `kmzFileName` field is kept but never set.
- `submitAction` pushes onto a history array that it shares with the previously selected plate. The model updates the shown plate as a value and does not reproduce that sharing.
- PlateOperations.PlateScreen.SubmitAction: the `InSync()` guarantee requires the line the submit names to have a non-empty name. Otherwise the screen shows the fallback name while the store records the line's own, empty, name. The form never saves a line with an empty name.
- The render fallback that shows the action form for DETAIL without a plate is not modelled. `Valid()` proves that this state never arises.
- The dashboard's buttons only forward to `AppState.Navigate` and `AppState.DeleteLine`. The logout button has no handler.
