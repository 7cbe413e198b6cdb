/**
 * The home screen's projections: the todos to do today and the events of today,
 * recomputed from the container's lists for a given day string, and the priority
 * label shown beside each todo.
 */
module HomeScreen {
  import opened Seqs
  import opened AppContext
  import TodoScreen

  /** The home screen's test for a todo: marked for today, or due today and not yet completed. */
  predicate IsForToday(t: TodoItem, today: string) {
    t.fields.status == Today || (t.fields.dueDate == today && t.fields.status != Completed)
  }

  function ForToday(today: string): TodoItem -> bool {
    (t: TodoItem) => IsForToday(t, today)
  }

  /** The effect's `todayItems`: the todos for `today`, in list order. */
  function TodayTodos(todos: seq<TodoItem>, today: string): (r: seq<TodoItem>)
    ensures forall i :: 0 <= i < |r| ==> r[i].fields.status != Completed
    ensures forall i :: 0 <= i < |todos| && todos[i].fields.status == Today ==> todos[i] in r
  {
    Filter(todos, ForToday(today))
  }

  /**
   * A todo is listed exactly when it is marked for today or is due today and not
   * completed, and then exactly as often as in the todo list: one that meets both
   * conditions is not listed twice.
   */
  lemma TodayTodosExactly(todos: seq<TodoItem>, today: string, t: TodoItem)
    ensures t in TodayTodos(todos, today) <==>
      t in todos && (t.fields.status == Today || (t.fields.dueDate == today && t.fields.status != Completed))
    ensures multiset(TodayTodos(todos, today))[t] == if IsForToday(t, today) then multiset(todos)[t] else 0
  {
    FilterMultiplicity(todos, ForToday(today), t);
  }

  /** The todos for today keep their order in the todo list. */
  lemma TodayTodosInOrder(todos: seq<TodoItem>, today: string)
    ensures IsSubsequence(TodayTodos(todos, today), todos)
  {
    FilterIsSubsequence(todos, ForToday(today));
  }

  /** A single todo that is marked for today and also due today is listed once. */
  lemma TodayTodoListedOnce(todos: seq<TodoItem>, today: string, t: TodoItem)
    requires multiset(todos)[t] == 1
    requires t.fields.status == Today && t.fields.dueDate == today
    ensures multiset(TodayTodos(todos, today))[t] == 1
  {
    TodayTodosExactly(todos, today, t);
  }

  /** The effect's `todayEvts`: the events dated `today`, in list order. */
  function TodayEvents(events: seq<CalendarEvent>, today: string): (r: seq<CalendarEvent>)
    ensures forall i :: 0 <= i < |r| ==> r[i].fields.date == today
    ensures forall i :: 0 <= i < |events| && events[i].fields.date == today ==> events[i] in r
  {
    EventsOn(events, today)
  }

  /** Today's events are the events of that date, each as often as in the list, in list order. */
  lemma TodayEventsExactly(events: seq<CalendarEvent>, today: string)
    ensures IsSubsequence(TodayEvents(events, today), events)
    ensures forall e :: multiset(TodayEvents(events, today))[e] == if e.fields.date == today then multiset(events)[e] else 0
  {
    FilterIsSubsequence(events, DatedOn(today));
    forall e ensures multiset(TodayEvents(events, today))[e] == if e.fields.date == today then multiset(events)[e] else 0 {
      FilterMultiplicity(events, DatedOn(today), e);
    }
  }

  /** `getPriorityLabel`: the label of a stored priority string. */
  function GetPriorityLabel(priority: string): (r: string)
    ensures r != "" <==> exists p: Priority :: p.Name() == priority
  {
    match priority
    case "high" => assert High.Name() == priority; "高"
    case "medium" => assert Medium.Name() == priority; "中"
    case "low" => assert Low.Name() == priority; "低"
    case _ => ""
  }

  /** The home screen and the board label every priority string alike. */
  lemma PriorityLabelsAgree(priority: string)
    ensures GetPriorityLabel(priority) == TodoScreen.GetPriorityInfo(priority).labelText
  {}
}
