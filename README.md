# Calendar_Todo list-manipulation layer in Dafny

This project models the logic core of a single-page calendar and kanban todo app.
The core is its list-manipulation layer. It has two parts:

- **The shared state container** (`AppContext`). It holds the todo list, the calendar-event list and the sidebar flag. It adds a record under a new identifier, merges a partial record into every entry with a given identifier, and filters entries out by identifier.
- **The screens' projections and form handlers.** The kanban board splits todos into four status columns. Each column offers its own status moves, which makes a small state machine. The board's form has a blank-title guard and separate add and edit branches. The home screen lists today's todos and events. The calendar computes each day tile's class and event count, and handles picking a date and adding an event.

Modules, one per source file, plus three helper modules:

| file | module | models |
|---|---|---|
| `options.dfy` | `Options` | an absent or present value (`undefined` or a property) |
| `seqs.dfy` | `Seqs` | `Array.prototype.filter`, with order, multiplicity and append facts |
| `js_string.dfy` | `JsString` | `String.prototype.trim` and the truthiness of its result |
| `app_context.dfy` | `AppContext` | records, partial records and object spread, and the `AppState` class with its state cells and operations |
| `todo_screen.dfy` | `TodoScreen` | columns, status moves, label tables, the time-range rule, and the `TodoScreen` class with its form handlers |
| `home_screen.dfy` | `HomeScreen` | today's todos and events, and the priority label |
| `calendar_screen.dfy` | `CalendarScreen` | the tile class and content, the selected date's events, and the `CalendarScreen` class with its handlers |

How the model is shaped:

- **State cells become class fields.** Each React state cell is a field of a class, and each setter call is an assignment. Each effect is an explicit method that the caller runs (`RefreshBoard`, `LoadHolidays`). The projections the source recomputes on every render are functions.
- **The clock becomes parameters.** The source reads the clock in three places: the identifier from `Date.now()`, the "today" strings, and today's local date. All three are parameters here.
- **Dates are pairs.** A `Date` the calendar receives is modelled as the local calendar date it shows plus the day part of its UTC ISO string.
- **Schedule fields exist only for display.** A todo record has exactly the properties its declared type lists. The four schedule properties (`startDate`, `startTime`, `endDate`, `endTime`) appear only as the optional inputs of the display rule `TimeRangeText`.
- **Events are plain records.** A `CalendarEvent` has only an identifier, a title, a date and a description; it carries no start or end time and no colour, and nothing derives further dates from it.

The board's form keeps a quirk of the source, modelled as written. The blank-title guard of `handleAddTodo` reads the title of the new-todo draft even in edit mode, but edits are written into the todo being edited. The draft's title starts as `''` and every save resets it to `''`. So an edit submitted while the draft's title is blank is dropped. That holds from mount, and after every save, until a title is typed into the add form. The draft keeps that title when the form is cancelled, and also when a card's edit button is clicked while the add form is open, because the cards stay clickable beside the open form. The contract of `TodoScreen.TodoScreen.HandleAddTodo` states the general rule. `TodoScreen.EditAfterSaveIsIgnored` proves one concrete sequence: save, open an edit, change a field, submit. At the end the list holds only the first save, and the change is still pending in the open form.

## Model

| member | source | states |
|---|---|---|
| `AppContext.MergeTodo` | src/context/AppContext.tsx:93 | `{ ...todo, ...patch }`: each property present in the partial record (the identifier included) takes the record's value; each absent property keeps the old value |
| `AppContext.MergeFields` | src/screens/TodoScreen.tsx:57 | `{ ...newTodo, [name]: value }` and the non-identifier part of the todo merge: each property present in the partial record takes its value; each absent property keeps the old value |
| `AppContext.MergeEvent` | src/context/AppContext.tsx:116 | the same spread semantics for events |
| `AppContext.MergeTodoNoChange` | src/context/AppContext.tsx:93 | merging `{}` leaves a todo equal to itself |
| `AppContext.MergeEventNoChange` | src/context/AppContext.tsx:116 | merging `{}` leaves an event equal to itself |
| `AppContext.MergeWholeTodo` | src/context/AppContext.tsx:93 | merging a whole record yields exactly that record |
| `AppContext.MergeTodoIdempotent` | src/context/AppContext.tsx:93 | merging the same partial record twice equals merging it once |
| `AppContext.MergeStatusOnly` | src/screens/TodoScreen.tsx:105 | merging `{ status: s }` changes the status and no other property |
| `AppContext.UpdateTodos` | src/context/AppContext.tsx:90-96 | `updateTodo`'s map: same length and order; entries with another identifier unchanged; entries with the identifier merged with the partial record |
| `AppContext.UpdateEvents` | src/context/AppContext.tsx:113-119 | the same for `updateEvent` |
| `AppContext.UpdateTodosAbsentIsNoOp` | src/context/AppContext.tsx:90-96 | an identifier no todo has leaves the list equal |
| `AppContext.UpdateEventsAbsentIsNoOp` | src/context/AppContext.tsx:113-119 | an identifier no event has leaves the list equal |
| `AppContext.WithoutTodo` | src/context/AppContext.tsx:99-101 | `deleteTodo`'s filter: no survivor has the identifier; every todo with another identifier survives |
| `AppContext.WithoutEvent` | src/context/AppContext.tsx:122-124 | the same for `deleteEvent` |
| `AppContext.WithoutTodoKeepsOthers` | src/context/AppContext.tsx:99-101 | the survivors are the other todos, each as often as before, in their original relative order |
| `AppContext.WithoutEventKeepsOthers` | src/context/AppContext.tsx:122-124 | the same for events |
| `AppContext.WithoutTodoAbsentIsNoOp` | src/context/AppContext.tsx:99-101 | deleting an absent identifier leaves the list equal |
| `AppContext.WithoutEventAbsentIsNoOp` | src/context/AppContext.tsx:122-124 | the same for events |
| `AppContext.WithoutTodoIdempotent` | src/context/AppContext.tsx:99-101 | deleting an identifier twice equals deleting it once |
| `AppContext.WithoutEventIdempotent` | src/context/AppContext.tsx:122-124 | the same for events |
| `AppContext.WithoutTodoShrinksByOne` | src/context/AppContext.tsx:99-101 | with distinct identifiers, deleting a present one shortens the list by exactly one |
| `AppContext.WithoutEventShrinksByOne` | src/context/AppContext.tsx:122-124 | the same for events |
| `AppContext.AddTodoFreshId` | src/context/AppContext.tsx:81-87 | appending under an unused identifier keeps identifiers distinct, and the identifier then finds only the appended entry, carrying the supplied fields |
| `AppContext.AddEventFreshId` | src/context/AppContext.tsx:104-110 | the same for events |
| `AppContext.UpdateTodosKeepsIds` | src/context/AppContext.tsx:90-96 | an update whose partial record carries no identifier, or the updated one, keeps every entry's identifier at its index, so identifiers are distinct afterwards exactly when they were before |
| `AppContext.UpdateEventsKeepsIds` | src/context/AppContext.tsx:113-119 | the same for events |
| `AppContext.WithoutTodoKeepsUnique` | src/context/AppContext.tsx:99-101 | a delete keeps distinct identifiers distinct |
| `AppContext.WithoutEventKeepsUnique` | src/context/AppContext.tsx:122-124 | the same for events |
| `AppContext.EventsOn` | src/screens/HomeScreen.tsx:30 | a day's events: all dated that day, and every event dated that day is among them |
| `AppContext.EventsOnAppend` | src/screens/CalendarScreen.tsx:80 | after an append, a day's events are the old ones plus the new event if it falls on that day |
| `AppContext.AppState.constructor` | src/context/AppContext.tsx:44-50 | both lists start empty and the sidebar starts open |
| `AppContext.AppState.ToggleSidebar` | src/context/AppContext.tsx:53-55 | negates the sidebar flag and changes nothing else |
| `AppContext.ToggleSidebarTwice` | src/context/AppContext.tsx:53-55 | toggling twice restores the original flag |
| `AppContext.AppState.AddTodo` | src/context/AppContext.tsx:81-87 | the list becomes the old list plus the new todo at the end: one longer, the old entries as a prefix; events and flag unchanged |
| `AppContext.AppState.UpdateTodo` | src/context/AppContext.tsx:90-96 | the list becomes `UpdateTodos` of the old list; nothing else changes |
| `AppContext.AppState.DeleteTodo` | src/context/AppContext.tsx:99-101 | the list becomes `WithoutTodo` of the old list; nothing else changes |
| `AppContext.AppState.AddEvent` | src/context/AppContext.tsx:104-110 | the same append contract for events |
| `AppContext.AppState.UpdateEvent` | src/context/AppContext.tsx:113-119 | the event list becomes `UpdateEvents` of the old list |
| `AppContext.AppState.DeleteEvent` | src/context/AppContext.tsx:122-124 | the event list becomes `WithoutEvent` of the old list |
| `TodoScreen.WithStatus` | src/screens/TodoScreen.tsx:43-46 | a column holds only todos of its status, and every todo of that status |
| `TodoScreen.FilterTodos` | src/screens/TodoScreen.tsx:41-49 | the board's column for each status is that status's filter |
| `TodoScreen.FilterTodosPartition` | src/screens/TodoScreen.tsx:41-49 | each todo appears in the column of its status, as often as in the list, and in no other column; every column keeps list order |
| `TodoScreen.FilterTodosSizes` | src/screens/TodoScreen.tsx:41-49 | the four column lengths sum to the list length |
| `TodoScreen.WithStatusAppend` | src/screens/TodoScreen.tsx:36-38 | after an append, the new todo ends its own status column and no other column changes |
| `TodoScreen.ColumnActions` | src/screens/TodoScreen.tsx:309-523 | every card offers delete; edit everywhere except the completed column; one or two distinct status moves, never to the card's own status |
| `TodoScreen.CompletionGoesThroughInProgress` | src/screens/TodoScreen.tsx:464-468 | only in-progress offers completed, and completed offers only in-progress |
| `TodoScreen.ColumnsConnected` | src/screens/TodoScreen.tsx:344-523 | every column reaches every other one in at most three offered moves |
| `TodoScreen.StatusChangeOnlyStatus` | src/screens/TodoScreen.tsx:104-106 | a status change rewrites only the status of the matching todos; all other entries and properties are unchanged |
| `TodoScreen.SaveEditReplacesRecord` | src/screens/TodoScreen.tsx:67-70 | saving an edit replaces each todo with the edited identifier by the edited record, leaving the rest |
| `TodoScreen.GetPriorityInfo` | src/screens/TodoScreen.tsx:109-120 | a label exactly for 'high', 'medium', 'low'; the class name is `priority-` plus the level; empty label and class otherwise |
| `TodoScreen.PriorityLabelsDistinct` | src/screens/TodoScreen.tsx:109-120 | the three levels get three different labels |
| `TodoScreen.GetStatusLabel` | src/screens/TodoScreen.tsx:123-131 | a non-empty label exactly for the four status names, `''` otherwise |
| `TodoScreen.StatusLabelsDistinct` | src/screens/TodoScreen.tsx:123-131 | the four statuses get four different labels |
| `TodoScreen.TimeRangeText` | src/screens/TodoScreen.tsx:315-324 | a time range is shown exactly when the due date and all four schedule properties are non-empty; same-day ranges show only the times |
| `TodoScreen.InputPatch` | src/screens/TodoScreen.tsx:52-59 | `{ [name]: value }`: the partial record holds exactly the property the input names, with the input's value; every other property is absent, the identifier included |
| `TodoScreen.InputChangesOneProperty` | src/screens/TodoScreen.tsx:57 | an input typed into the add form sets the draft's named property to the input's value and leaves every other property |
| `TodoScreen.EditInputChangesOneProperty` | src/screens/TodoScreen.tsx:55 | an input typed into the edit form sets the edited todo's named property to the input's value; the identifier and every other property stay |
| `TodoScreen.EmptyForm` | src/screens/TodoScreen.tsx:22-33 | the blank draft, also the reset at lines 77-88: its title is blank, so it cannot be submitted; empty description and assignee; due today; priority medium; status todo |
| `TodoScreen.TodoScreen.constructor` | src/screens/TodoScreen.tsx:7-33 | empty board, form closed, nothing being edited, blank draft due today with priority medium and status todo |
| `TodoScreen.TodoScreen.RefreshBoard` | src/screens/TodoScreen.tsx:36-38 | the board becomes `FilterTodos` of the container's current todos |
| `TodoScreen.TodoScreen.HandleInputChange` | src/screens/TodoScreen.tsx:52-59 | in edit mode the input changes the edited todo only; otherwise it changes the draft only |
| `TodoScreen.TodoScreen.HandleAddTodo` | src/screens/TodoScreen.tsx:62-90 | a blank draft title changes nothing in either mode; otherwise edit mode saves the edited record under its identifier and leaves edit mode, and add mode appends the draft under the new identifier; then the draft resets and the form closes |
| `TodoScreen.TodoScreen.HandleEditTodo` | src/screens/TodoScreen.tsx:93-96 | enters edit mode on the given todo and opens the form |
| `TodoScreen.TodoScreen.OpenAddForm` | src/screens/TodoScreen.tsx:141-144 | opens the form in add mode |
| `TodoScreen.TodoScreen.CancelForm` | src/screens/TodoScreen.tsx:286-289 | closes the form and leaves edit mode; the draft is kept |
| `TodoScreen.TodoScreen.HandleDeleteTodo` | src/screens/TodoScreen.tsx:99-101 | the container's todos become `WithoutTodo` of the old list |
| `TodoScreen.TodoScreen.HandleStatusChange` | src/screens/TodoScreen.tsx:104-106 | the container's todos are updated with `{ status: newStatus }` |
| `TodoScreen.EditAfterSaveIsIgnored` | src/screens/TodoScreen.tsx:65 | after a save, a following edit submit is a no-op: the list holds only the first save, and the change stays pending in the open form |
| `HomeScreen.TodayTodos` | src/screens/HomeScreen.tsx:23-26 | no completed todo is listed; every todo marked for today is listed |
| `HomeScreen.IsForToday` | src/screens/HomeScreen.tsx:24-25 | the today test; no contract of its own, its meaning is stated by `HomeScreen.TodayTodosExactly` |
| `HomeScreen.TodayTodosExactly` | src/screens/HomeScreen.tsx:23-26 | a todo is listed if and only if it is marked for today, or due today and not completed; it is listed exactly as often as it occurs in the list |
| `HomeScreen.TodayTodosInOrder` | src/screens/HomeScreen.tsx:23-26 | the list keeps the todo list's order |
| `HomeScreen.TodayTodoListedOnce` | src/screens/HomeScreen.tsx:23-26 | a single todo that matches both conditions is listed once |
| `HomeScreen.TodayEvents` | src/screens/HomeScreen.tsx:30 | every listed event is dated today and every event dated today is listed |
| `HomeScreen.TodayEventsExactly` | src/screens/HomeScreen.tsx:30 | today's events are exactly the events dated today, each as often as in the list, in list order |
| `HomeScreen.GetPriorityLabel` | src/screens/HomeScreen.tsx:82-89 | a non-empty label exactly for 'high', 'medium', 'low' |
| `HomeScreen.PriorityLabelsAgree` | src/screens/HomeScreen.tsx:82-89 | for every string, the home screen's label equals the board's `getPriorityInfo` label |
| `CalendarScreen.HolidayTableNamesNonEmpty` | src/screens/CalendarScreen.tsx:22-39 | with the loaded table, a day counts as a holiday exactly when the table lists it |
| `CalendarScreen.HolidayTableIs2025` | src/screens/CalendarScreen.tsx:22-39 | the table `HolidayTable` lists only days of 2025, each with a non-empty name |
| `CalendarScreen.IsHoliday` | src/screens/CalendarScreen.tsx:89 | truthiness of `holidays[dateStr]`, also at line 118; no contract of its own, used by the tile contracts |
| `CalendarScreen.HasEventOn` | src/screens/CalendarScreen.tsx:102 | `events.some(...)`; no contract of its own, its meaning is stated by `CalendarScreen.HasEventOnIffListed` |
| `CalendarScreen.HasEventOnIffListed` | src/screens/CalendarScreen.tsx:102 | the `some` test of a tile agrees with the `filter` of its events being non-empty |
| `CalendarScreen.GetTileClassName` | src/screens/CalendarScreen.tsx:83-107 | no class outside the month view; in it, holiday before today before has-event, else no class |
| `CalendarScreen.GetTileContent` | src/screens/CalendarScreen.tsx:110-122 | nothing outside the month view; the holiday name exactly on holidays; an event count exactly when some event has that date, equal to the number of events dated that day |
| `CalendarScreen.CalendarScreen.constructor` | src/screens/CalendarScreen.tsx:9-17 | the selected date and the draft's date are today's; empty draft, no holidays yet, form closed |
| `CalendarScreen.CalendarScreen.LoadHolidays` | src/screens/CalendarScreen.tsx:20-40 | the holiday table becomes the fixed 2025 table |
| `CalendarScreen.CalendarScreen.SelectedDateEvents` | src/screens/CalendarScreen.tsx:80 | exactly the events of the selected date, each as often as in the list, in list order |
| `CalendarScreen.CalendarScreen.HandleDateChange` | src/screens/CalendarScreen.tsx:43-51 | an empty value changes nothing; otherwise the picked date (the first of an array) becomes the selected date and the draft's date |
| `CalendarScreen.PickedDate` | src/screens/CalendarScreen.tsx:46 | the date a value selects: the single date, or the first date of an array |
| `CalendarScreen.CalendarScreen.HandleInputChange` | src/screens/CalendarScreen.tsx:54-57 | the input changes the draft's title or description only, and the draft keeps the selected date |
| `CalendarScreen.CalendarScreen.HandleAddEvent` | src/screens/CalendarScreen.tsx:60-72 | a blank title changes nothing; otherwise the draft is appended once, becomes the last event of the selected date, and the form resets to the selected date and closes |
| `CalendarScreen.CalendarScreen.OpenEventForm` | src/screens/CalendarScreen.tsx:156 | opens the event form |
| `CalendarScreen.CalendarScreen.CancelEventForm` | src/screens/CalendarScreen.tsx:189 | closes the event form and keeps the draft |
| `CalendarScreen.CalendarScreen.HandleDeleteEvent` | src/screens/CalendarScreen.tsx:75-77 | the container's events become `WithoutEvent` of the old list |
| `JsString.BlankIffAllTrimmable` | src/screens/TodoScreen.tsx:65 | the guard `!title.trim()` holds exactly when the title is made only of whitespace and line terminators |
| `JsString.Trim` | src/screens/TodoScreen.tsx:65 | `title.trim()`, also at CalendarScreen.tsx:62: never longer than the input, and neither end of a non-empty result is whitespace; which substring is kept is not characterized, only whether the result is empty, exactly, by `JsString.BlankIffAllTrimmable` (the one use the source makes of it) |
| `JsString.IsBlank` | src/screens/CalendarScreen.tsx:62 | the guard `!title.trim()`, also at TodoScreen.tsx:65; no contract of its own, its meaning is stated by `JsString.BlankIffAllTrimmable` |
| `Seqs.Filter` | src/context/AppContext.tsx:100 | `Array.prototype.filter`, used at every `.filter` call: the result is no longer than the input, every element kept satisfies the test and occurs in the input, and every input element that satisfies the test is kept |
| `Seqs.FilterMultiplicity` | src/screens/TodoScreen.tsx:43-46 | a filter keeps each passing element exactly as often as it occurs in the input, and drops every other element |
| `Seqs.FilterIsSubsequence` | src/screens/HomeScreen.tsx:23-26 | a filter keeps the input's order |

## Left out

- Persistence is not modelled: the `localStorage` reads and writes and the JSON encoding (src/context/AppContext.tsx:58-78) are browser I/O. Malformed stored JSON is not handled by the source (lines 61 and 66 would throw at start-up).
- The raw setters `setTodos` and `setEvents` that the container also exposes are not modelled as operations. The `useAppContext` provider guard is React plumbing and is left out too.
- Identifier generation from `Date.now()` (src/context/AppContext.tsx:84, 107) is left out; the identifier is a parameter. Two records created in the same millisecond share an identifier. The container does not itself ensure distinct identifiers, so distinctness is a hypothesis of `AddTodoFreshId` and `WithoutTodoShrinksByOne`. Given fresh identifiers for adds, every operation keeps it: `AddTodoFreshId` for append, `UpdateTodosKeepsIds` for the status move and the edit save (neither rewrites an identifier to another one), `WithoutTodoKeepsUnique` for delete, and the event counterparts.
- Reading the clock and converting dates (`new Date()`, `toISOString`, `getDate`/`getMonth`/`getFullYear`) is left out: "today" strings, today's local date and picked dates are parameters. The today-tile test uses the local date while holiday and event lookups use the UTC day; the model takes both as independent inputs and does not relate them.
- Locale date rendering (`toLocaleDateString`), all markup, CSS, the calendar widget's configuration (its minimum and maximum dates) and the holiday name in the selected-date header are left out.
- The todo form's draft also carries `startDate`, `startTime`, `endDate` and `endTime` (src/screens/TodoScreen.tsx:25-28), and their inputs write them into the draft or the edited todo. These properties are outside the declared todo type. They are not modelled as record properties or form inputs, only as the inputs of `TimeRangeText`.
- `TodoScreen.TodoScreen.HandleInputChange`: a priority or status input carries one of the declared values, because the form's select elements offer only those.
- `CalendarScreen.CalendarScreen.HandleDateChange`: an array value is modelled with a first element. The widget passes only non-empty ranges; an empty array would throw in the source.
- React's scheduling is not modelled: state updates take effect at once, and effects run only when the model calls them. The home screen's copies of today's lists are modelled as the pure functions they are computed from.
- `JsString.Trim`: its contract does not say which substring is kept, only its ends and, through `JsString.BlankIffAllTrimmable`, exactly when it is empty; the source uses the trimmed title only for that emptiness test.
