/**
 * The shared state container: the todo and calendar-event records, the partial
 * records used to update them, and the provider's three state cells with their
 * add, update, delete and toggle operations.
 */
module AppContext {
  import opened Options
  import opened Seqs

  datatype Priority = High | Medium | Low {
    /** The string the record stores: 'high', 'medium' or 'low'. */
    function Name(): string {
      match this
      case High => "high"
      case Medium => "medium"
      case Low => "low"
    }
  }

  datatype Status = Todo | Today | InProgress | Completed {
    /** The string the record stores: 'todo', 'today', 'inProgress' or 'completed'. */
    function Name(): string {
      match this
      case Todo => "todo"
      case Today => "today"
      case InProgress => "inProgress"
      case Completed => "completed"
    }
  }

  /** A todo without its identifier (`Omit<TodoItem, 'id'>`): what the form edits and `addTodo` receives. */
  datatype TodoFields = TodoFields(
    title: string,
    dueDate: string,
    description: string,
    priority: Priority,
    assignee: string,
    status: Status)

  datatype TodoItem = TodoItem(id: string, fields: TodoFields)

  /** A calendar event without its identifier (`Omit<CalendarEvent, 'id'>`). */
  datatype EventFields = EventFields(title: string, date: string, description: string)

  datatype CalendarEvent = CalendarEvent(id: string, fields: EventFields)

  /** `Partial<TodoItem>`: every property, the identifier included, may be absent. */
  datatype TodoPatch = TodoPatch(
    id: Option<string>,
    title: Option<string>,
    dueDate: Option<string>,
    description: Option<string>,
    priority: Option<Priority>,
    assignee: Option<string>,
    status: Option<Status>)

  /** `Partial<CalendarEvent>`. */
  datatype EventPatch = EventPatch(
    id: Option<string>,
    title: Option<string>,
    date: Option<string>,
    description: Option<string>)

  /** The empty partial record `{}`. */
  const NoTodoChange := TodoPatch(None, None, None, None, None, None, None)

  const NoEventChange := EventPatch(None, None, None, None)

  /** `{ status: s }`, the partial record a status button sends. */
  function StatusPatch(s: Status): TodoPatch {
    NoTodoChange.(status := Some(s))
  }

  /** A whole todo used as a partial record: every property present. */
  function WholeTodoPatch(t: TodoItem): TodoPatch {
    TodoPatch(Some(t.id), Some(t.fields.title), Some(t.fields.dueDate), Some(t.fields.description),
              Some(t.fields.priority), Some(t.fields.assignee), Some(t.fields.status))
  }

  /** `{ ...t, ...p }`: the properties present in `p` replace those of `t`; the rest are kept. */
  function MergeTodo(t: TodoItem, p: TodoPatch): (r: TodoItem)
    ensures p.id.None? ==> r.id == t.id
    ensures p.title.None? ==> r.fields.title == t.fields.title
    ensures p.dueDate.None? ==> r.fields.dueDate == t.fields.dueDate
    ensures p.description.None? ==> r.fields.description == t.fields.description
    ensures p.priority.None? ==> r.fields.priority == t.fields.priority
    ensures p.assignee.None? ==> r.fields.assignee == t.fields.assignee
    ensures p.status.None? ==> r.fields.status == t.fields.status
    ensures p.id.Some? ==> r.id == p.id.value
    ensures p.title.Some? ==> r.fields.title == p.title.value
    ensures p.dueDate.Some? ==> r.fields.dueDate == p.dueDate.value
    ensures p.description.Some? ==> r.fields.description == p.description.value
    ensures p.priority.Some? ==> r.fields.priority == p.priority.value
    ensures p.assignee.Some? ==> r.fields.assignee == p.assignee.value
    ensures p.status.Some? ==> r.fields.status == p.status.value
  {
    TodoItem(p.id.GetOr(t.id), MergeFields(t.fields, p))
  }

  /** The non-identifier part of `MergeTodo`, also how a form input updates an unsaved draft. */
  function MergeFields(f: TodoFields, p: TodoPatch): (r: TodoFields)
    ensures p.title.None? ==> r.title == f.title
    ensures p.dueDate.None? ==> r.dueDate == f.dueDate
    ensures p.description.None? ==> r.description == f.description
    ensures p.priority.None? ==> r.priority == f.priority
    ensures p.assignee.None? ==> r.assignee == f.assignee
    ensures p.status.None? ==> r.status == f.status
    ensures p.title.Some? ==> r.title == p.title.value
    ensures p.dueDate.Some? ==> r.dueDate == p.dueDate.value
    ensures p.description.Some? ==> r.description == p.description.value
    ensures p.priority.Some? ==> r.priority == p.priority.value
    ensures p.assignee.Some? ==> r.assignee == p.assignee.value
    ensures p.status.Some? ==> r.status == p.status.value
  {
    TodoFields(
      p.title.GetOr(f.title),
      p.dueDate.GetOr(f.dueDate),
      p.description.GetOr(f.description),
      p.priority.GetOr(f.priority),
      p.assignee.GetOr(f.assignee),
      p.status.GetOr(f.status))
  }

  /** `{ ...e, ...p }` for events. */
  function MergeEvent(e: CalendarEvent, p: EventPatch): (r: CalendarEvent)
    ensures p.id.None? ==> r.id == e.id
    ensures p.title.None? ==> r.fields.title == e.fields.title
    ensures p.date.None? ==> r.fields.date == e.fields.date
    ensures p.description.None? ==> r.fields.description == e.fields.description
    ensures p.id.Some? ==> r.id == p.id.value
    ensures p.title.Some? ==> r.fields.title == p.title.value
    ensures p.date.Some? ==> r.fields.date == p.date.value
    ensures p.description.Some? ==> r.fields.description == p.description.value
  {
    CalendarEvent(
      p.id.GetOr(e.id),
      EventFields(
        p.title.GetOr(e.fields.title),
        p.date.GetOr(e.fields.date),
        p.description.GetOr(e.fields.description)))
  }

  /** Merging the empty partial record changes nothing. */
  lemma MergeTodoNoChange(t: TodoItem)
    ensures MergeTodo(t, NoTodoChange) == t
  {}

  /** Merging a whole record replaces every property, the identifier included. */
  lemma MergeWholeTodo(t: TodoItem, u: TodoItem)
    ensures MergeTodo(t, WholeTodoPatch(u)) == u
  {}

  /** Merging the same partial record again has no further effect. */
  lemma MergeTodoIdempotent(t: TodoItem, p: TodoPatch)
    ensures MergeTodo(MergeTodo(t, p), p) == MergeTodo(t, p)
  {}

  /** Merging a status-only partial record rewrites the status and nothing else. */
  lemma MergeStatusOnly(t: TodoItem, s: Status)
    ensures MergeTodo(t, StatusPatch(s)) == t.(fields := t.fields.(status := s))
  {}

  lemma MergeEventNoChange(e: CalendarEvent)
    ensures MergeEvent(e, NoEventChange) == e
  {}

  // ---------------------------------------------------------------------------
  // The collection transformations behind the state setters

  /** `todos.map(todo => todo.id === id ? { ...todo, ...patch } : todo)`. */
  function UpdateTodos(todos: seq<TodoItem>, id: string, patch: TodoPatch): (r: seq<TodoItem>)
    ensures |r| == |todos|
    ensures forall i :: 0 <= i < |todos| && todos[i].id != id ==> r[i] == todos[i]
    ensures forall i :: 0 <= i < |todos| && todos[i].id == id ==> r[i] == MergeTodo(todos[i], patch)
  {
    if todos == [] then []
    else [if todos[0].id == id then MergeTodo(todos[0], patch) else todos[0]]
         + UpdateTodos(todos[1..], id, patch)
  }

  /** `events.map(event => event.id === id ? { ...event, ...patch } : event)`. */
  function UpdateEvents(events: seq<CalendarEvent>, id: string, patch: EventPatch): (r: seq<CalendarEvent>)
    ensures |r| == |events|
    ensures forall i :: 0 <= i < |events| && events[i].id != id ==> r[i] == events[i]
    ensures forall i :: 0 <= i < |events| && events[i].id == id ==> r[i] == MergeEvent(events[i], patch)
  {
    if events == [] then []
    else [if events[0].id == id then MergeEvent(events[0], patch) else events[0]]
         + UpdateEvents(events[1..], id, patch)
  }

  function TodoIdIsNot(id: string): TodoItem -> bool {
    (t: TodoItem) => t.id != id
  }

  function EventIdIsNot(id: string): CalendarEvent -> bool {
    (e: CalendarEvent) => e.id != id
  }

  function DatedOn(day: string): CalendarEvent -> bool {
    (e: CalendarEvent) => e.fields.date == day
  }

  /** `todos.filter(todo => todo.id !== id)`. */
  function WithoutTodo(todos: seq<TodoItem>, id: string): (r: seq<TodoItem>)
    ensures forall i :: 0 <= i < |r| ==> r[i].id != id
    ensures forall i :: 0 <= i < |todos| && todos[i].id != id ==> todos[i] in r
  {
    Filter(todos, TodoIdIsNot(id))
  }

  /** `events.filter(event => event.id !== id)`. */
  function WithoutEvent(events: seq<CalendarEvent>, id: string): (r: seq<CalendarEvent>)
    ensures forall i :: 0 <= i < |r| ==> r[i].id != id
    ensures forall i :: 0 <= i < |events| && events[i].id != id ==> events[i] in r
  {
    Filter(events, EventIdIsNot(id))
  }

  /**
   * `events.filter(event => event.date === day)`: the events of one day, as the home
   * screen lists today's and the calendar lists the selected date's and counts a tile's.
   */
  function EventsOn(events: seq<CalendarEvent>, day: string): (r: seq<CalendarEvent>)
    ensures forall i :: 0 <= i < |r| ==> r[i].fields.date == day
    ensures forall i :: 0 <= i < |events| && events[i].fields.date == day ==> events[i] in r
  {
    Filter(events, DatedOn(day))
  }

  // ---------------------------------------------------------------------------
  // Properties of the transformations

  ghost predicate HasTodoId(todos: seq<TodoItem>, id: string) {
    exists i :: 0 <= i < |todos| && todos[i].id == id
  }

  ghost predicate HasEventId(events: seq<CalendarEvent>, id: string) {
    exists i :: 0 <= i < |events| && events[i].id == id
  }

  /** Identifiers are pairwise distinct: the session invariant that timestamp identifiers aim for. */
  ghost predicate UniqueTodoIds(todos: seq<TodoItem>) {
    forall i, j :: 0 <= i < j < |todos| ==> todos[i].id != todos[j].id
  }

  ghost predicate UniqueEventIds(events: seq<CalendarEvent>) {
    forall i, j :: 0 <= i < j < |events| ==> events[i].id != events[j].id
  }

  /**
   * Appending a todo under an identifier not yet in use keeps identifiers distinct, and
   * that identifier then retrieves exactly the appended entry, with the supplied fields.
   */
  lemma AddTodoFreshId(todos: seq<TodoItem>, fields: TodoFields, id: string)
    requires UniqueTodoIds(todos) && !HasTodoId(todos, id)
    ensures var r := todos + [TodoItem(id, fields)];
      && UniqueTodoIds(r)
      && forall i :: 0 <= i < |r| && r[i].id == id ==> i == |todos| && r[i].fields == fields
  {}

  lemma AddEventFreshId(events: seq<CalendarEvent>, fields: EventFields, id: string)
    requires UniqueEventIds(events) && !HasEventId(events, id)
    ensures var r := events + [CalendarEvent(id, fields)];
      && UniqueEventIds(r)
      && forall i :: 0 <= i < |r| && r[i].id == id ==> i == |events| && r[i].fields == fields
  {}

  /** Updating an identifier that no entry has returns an equal list. */
  lemma UpdateTodosAbsentIsNoOp(todos: seq<TodoItem>, id: string, patch: TodoPatch)
    requires !HasTodoId(todos, id)
    ensures UpdateTodos(todos, id, patch) == todos
  {
    assert forall i :: 0 <= i < |todos| ==> todos[i].id != id;
  }

  lemma UpdateEventsAbsentIsNoOp(events: seq<CalendarEvent>, id: string, patch: EventPatch)
    requires !HasEventId(events, id)
    ensures UpdateEvents(events, id, patch) == events
  {
    assert forall i :: 0 <= i < |events| ==> events[i].id != id;
  }

  /**
   * The survivors of a delete are the other entries, each exactly as often as before
   * and in their original relative order.
   */
  lemma WithoutTodoKeepsOthers(todos: seq<TodoItem>, id: string)
    ensures IsSubsequence(WithoutTodo(todos, id), todos)
    ensures forall t :: multiset(WithoutTodo(todos, id))[t] == if t.id == id then 0 else multiset(todos)[t]
  {
    FilterIsSubsequence(todos, TodoIdIsNot(id));
    forall t ensures multiset(WithoutTodo(todos, id))[t] == if t.id == id then 0 else multiset(todos)[t] {
      FilterMultiplicity(todos, TodoIdIsNot(id), t);
    }
  }

  lemma WithoutEventKeepsOthers(events: seq<CalendarEvent>, id: string)
    ensures IsSubsequence(WithoutEvent(events, id), events)
    ensures forall e :: multiset(WithoutEvent(events, id))[e] == if e.id == id then 0 else multiset(events)[e]
  {
    FilterIsSubsequence(events, EventIdIsNot(id));
    forall e ensures multiset(WithoutEvent(events, id))[e] == if e.id == id then 0 else multiset(events)[e] {
      FilterMultiplicity(events, EventIdIsNot(id), e);
    }
  }

  /** Deleting an identifier that no entry has returns an equal list. */
  lemma WithoutTodoAbsentIsNoOp(todos: seq<TodoItem>, id: string)
    requires !HasTodoId(todos, id)
    ensures WithoutTodo(todos, id) == todos
  {
    FilterKeepsAll(todos, TodoIdIsNot(id));
  }

  lemma WithoutEventAbsentIsNoOp(events: seq<CalendarEvent>, id: string)
    requires !HasEventId(events, id)
    ensures WithoutEvent(events, id) == events
  {
    FilterKeepsAll(events, EventIdIsNot(id));
  }

  /** Deleting the same identifier twice is deleting it once. */
  lemma WithoutTodoIdempotent(todos: seq<TodoItem>, id: string)
    ensures WithoutTodo(WithoutTodo(todos, id), id) == WithoutTodo(todos, id)
  {
    FilterIdempotent(todos, TodoIdIsNot(id));
  }

  lemma WithoutEventIdempotent(events: seq<CalendarEvent>, id: string)
    ensures WithoutEvent(WithoutEvent(events, id), id) == WithoutEvent(events, id)
  {
    FilterIdempotent(events, EventIdIsNot(id));
  }

  /** With distinct identifiers, deleting one that is present shortens the list by exactly one. */
  lemma {:induction false} WithoutTodoShrinksByOne(todos: seq<TodoItem>, id: string)
    requires UniqueTodoIds(todos) && HasTodoId(todos, id)
    ensures |WithoutTodo(todos, id)| == |todos| - 1
  {
    var rest := todos[1..];
    if todos[0].id == id {
      assert !HasTodoId(rest, id) by {
        forall i | 0 <= i < |rest| ensures rest[i].id != id {
          assert rest[i] == todos[i + 1];
        }
      }
      WithoutTodoAbsentIsNoOp(rest, id);
    } else {
      var k :| 0 <= k < |todos| && todos[k].id == id;
      assert rest[k - 1].id == id;
      WithoutTodoShrinksByOne(rest, id);
    }
  }

  lemma {:induction false} WithoutEventShrinksByOne(events: seq<CalendarEvent>, id: string)
    requires UniqueEventIds(events) && HasEventId(events, id)
    ensures |WithoutEvent(events, id)| == |events| - 1
  {
    var rest := events[1..];
    if events[0].id == id {
      assert !HasEventId(rest, id) by {
        forall i | 0 <= i < |rest| ensures rest[i].id != id {
          assert rest[i] == events[i + 1];
        }
      }
      WithoutEventAbsentIsNoOp(rest, id);
    } else {
      var k :| 0 <= k < |events| && events[k].id == id;
      assert rest[k - 1].id == id;
      WithoutEventShrinksByOne(rest, id);
    }
  }

  /**
   * An update whose partial record leaves the identifier alone, or rewrites it to the
   * one being updated, keeps every entry's identifier, so identifiers stay distinct
   * exactly when they were. Both callers send such a partial record: the status move
   * (no identifier) and the edit save (the edited todo's own identifier).
   */
  lemma UpdateTodosKeepsIds(todos: seq<TodoItem>, id: string, patch: TodoPatch)
    requires patch.id.None? || patch.id == Some(id)
    ensures forall i :: 0 <= i < |todos| ==> UpdateTodos(todos, id, patch)[i].id == todos[i].id
    ensures UniqueTodoIds(UpdateTodos(todos, id, patch)) <==> UniqueTodoIds(todos)
  {
    var r := UpdateTodos(todos, id, patch);
    assert forall i :: 0 <= i < |todos| ==> r[i].id == todos[i].id;
  }

  lemma UpdateEventsKeepsIds(events: seq<CalendarEvent>, id: string, patch: EventPatch)
    requires patch.id.None? || patch.id == Some(id)
    ensures forall i :: 0 <= i < |events| ==> UpdateEvents(events, id, patch)[i].id == events[i].id
    ensures UniqueEventIds(UpdateEvents(events, id, patch)) <==> UniqueEventIds(events)
  {
    var r := UpdateEvents(events, id, patch);
    assert forall i :: 0 <= i < |events| ==> r[i].id == events[i].id;
  }

  /** A delete keeps distinct identifiers distinct. */
  lemma {:induction false} WithoutTodoKeepsUnique(todos: seq<TodoItem>, id: string)
    requires UniqueTodoIds(todos)
    ensures UniqueTodoIds(WithoutTodo(todos, id))
  {
    if todos != [] {
      var rest := todos[1..];
      WithoutTodoKeepsUnique(rest, id);
      var tail := WithoutTodo(rest, id);
      if todos[0].id != id {
        assert WithoutTodo(todos, id) == [todos[0]] + tail;
        forall j | 0 <= j < |tail| ensures tail[j].id != todos[0].id {
          var k :| 0 <= k < |rest| && rest[k] == tail[j];
          assert rest[k] == todos[k + 1];
        }
      } else {
        assert WithoutTodo(todos, id) == tail;
      }
    }
  }

  lemma {:induction false} WithoutEventKeepsUnique(events: seq<CalendarEvent>, id: string)
    requires UniqueEventIds(events)
    ensures UniqueEventIds(WithoutEvent(events, id))
  {
    if events != [] {
      var rest := events[1..];
      WithoutEventKeepsUnique(rest, id);
      var tail := WithoutEvent(rest, id);
      if events[0].id != id {
        assert WithoutEvent(events, id) == [events[0]] + tail;
        forall j | 0 <= j < |tail| ensures tail[j].id != events[0].id {
          var k :| 0 <= k < |rest| && rest[k] == tail[j];
          assert rest[k] == events[k + 1];
        }
      } else {
        assert WithoutEvent(events, id) == tail;
      }
    }
  }

  /** A day's events after an append: the old ones, then the new event if it falls on that day. */
  lemma EventsOnAppend(events: seq<CalendarEvent>, e: CalendarEvent, day: string)
    ensures EventsOn(events + [e], day)
         == EventsOn(events, day) + (if e.fields.date == day then [e] else [])
  {
    FilterAppend(events, [e], DatedOn(day));
  }

  // ---------------------------------------------------------------------------
  // The provider's state cells

  /**
   * The provider's state: the todo list, the event list and the sidebar flag. Each
   * operation replaces exactly one cell; the identifier that the source draws from
   * the clock is a parameter.
   */
  class AppState {
    var todos: seq<TodoItem>
    var events: seq<CalendarEvent>
    var isSidebarOpen: bool

    /** Both lists start empty and the sidebar starts open. */
    constructor ()
      ensures todos == [] && events == [] && isSidebarOpen
    {
      todos := [];
      events := [];
      isSidebarOpen := true;
    }

    method ToggleSidebar()
      modifies this`isSidebarOpen
      ensures isSidebarOpen == !old(isSidebarOpen)
    {
      isSidebarOpen := !isSidebarOpen;
    }

    /** Appends the supplied fields under identifier `id`. */
    method AddTodo(todo: TodoFields, id: string)
      modifies this`todos
      ensures todos == old(todos) + [TodoItem(id, todo)]
      ensures |todos| == |old(todos)| + 1 && todos[..|old(todos)|] == old(todos)
    {
      todos := todos + [TodoItem(id, todo)];
    }

    method UpdateTodo(id: string, patch: TodoPatch)
      modifies this`todos
      ensures todos == UpdateTodos(old(todos), id, patch)
    {
      todos := UpdateTodos(todos, id, patch);
    }

    method DeleteTodo(id: string)
      modifies this`todos
      ensures todos == WithoutTodo(old(todos), id)
    {
      todos := WithoutTodo(todos, id);
    }

    method AddEvent(event: EventFields, id: string)
      modifies this`events
      ensures events == old(events) + [CalendarEvent(id, event)]
      ensures |events| == |old(events)| + 1 && events[..|old(events)|] == old(events)
    {
      events := events + [CalendarEvent(id, event)];
    }

    method UpdateEvent(id: string, patch: EventPatch)
      modifies this`events
      ensures events == UpdateEvents(old(events), id, patch)
    {
      events := UpdateEvents(events, id, patch);
    }

    method DeleteEvent(id: string)
      modifies this`events
      ensures events == WithoutEvent(old(events), id)
    {
      events := WithoutEvent(events, id);
    }
  }

  /** Toggling the sidebar twice restores its original state and touches nothing else. */
  method ToggleSidebarTwice(app: AppState)
    modifies app`isSidebarOpen
    ensures app.isSidebarOpen == old(app.isSidebarOpen)
  {
    app.ToggleSidebar();
    app.ToggleSidebar();
  }
}
