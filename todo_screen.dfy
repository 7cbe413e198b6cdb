/**
 * The kanban board: the four status columns computed from the todo list, the status
 * moves each column offers, the label tables, the time-range display rule, and the
 * form handlers that step the screen's state and call the container.
 */
module TodoScreen {
  import opened Options
  import opened Seqs
  import opened JsString
  import opened AppContext

  // ---------------------------------------------------------------------------
  // Columns

  /** The four columns of the board, one per status. */
  datatype Board = Board(
    todo: seq<TodoItem>,
    today: seq<TodoItem>,
    inProgress: seq<TodoItem>,
    completed: seq<TodoItem>)
  {
    /** The column that shows todos of status `s`. */
    function Column(s: Status): seq<TodoItem> {
      match s
      case Todo => todo
      case Today => today
      case InProgress => inProgress
      case Completed => completed
    }
  }

  const EmptyBoard := Board([], [], [], [])

  function HasStatus(s: Status): TodoItem -> bool {
    (t: TodoItem) => t.fields.status == s
  }

  /** `todos.filter(todo => todo.status === s)`. */
  function WithStatus(todos: seq<TodoItem>, s: Status): (r: seq<TodoItem>)
    ensures forall i :: 0 <= i < |r| ==> r[i].fields.status == s
    ensures forall i :: 0 <= i < |todos| && todos[i].fields.status == s ==> todos[i] in r
  {
    Filter(todos, HasStatus(s))
  }

  /** `filterTodos`: the todo list split by status. */
  function FilterTodos(todos: seq<TodoItem>): (b: Board)
    ensures forall s: Status :: b.Column(s) == WithStatus(todos, s)
  {
    Board(WithStatus(todos, Todo), WithStatus(todos, Today),
          WithStatus(todos, InProgress), WithStatus(todos, Completed))
  }

  /**
   * Each todo is shown in the column named by its status, as many times as it occurs
   * in the list, and in no other column; each column keeps the list's order.
   */
  lemma FilterTodosPartition(todos: seq<TodoItem>, s: Status, t: TodoItem)
    ensures multiset(FilterTodos(todos).Column(s))[t] == if t.fields.status == s then multiset(todos)[t] else 0
    ensures IsSubsequence(FilterTodos(todos).Column(s), todos)
  {
    FilterMultiplicity(todos, HasStatus(s), t);
    FilterIsSubsequence(todos, HasStatus(s));
  }

  /** The four columns together hold exactly as many entries as the todo list. */
  lemma {:induction false} FilterTodosSizes(todos: seq<TodoItem>)
    ensures var b := FilterTodos(todos);
      |b.todo| + |b.today| + |b.inProgress| + |b.completed| == |todos|
  {
    if todos != [] {
      FilterTodosSizes(todos[1..]);
    }
  }

  /** A todo appended to the list lands at the end of its status column and nowhere else. */
  lemma WithStatusAppend(todos: seq<TodoItem>, t: TodoItem, s: Status)
    ensures WithStatus(todos + [t], s) == WithStatus(todos, s) + (if t.fields.status == s then [t] else [])
  {
    FilterAppend(todos, [t], HasStatus(s));
  }

  // ---------------------------------------------------------------------------
  // What each column offers

  /** The buttons on a card: edit, delete, and the status moves in button order. */
  datatype CardActions = CardActions(edit: bool, delete: bool, moves: seq<Status>)

  /** The actions a card offers in the column of status `column`. */
  function ColumnActions(column: Status): (a: CardActions)
    ensures a.delete
    ensures a.edit <==> column != Completed
    ensures column !in a.moves
    ensures 1 <= |a.moves| <= 2
    ensures forall i, j :: 0 <= i < j < |a.moves| ==> a.moves[i] != a.moves[j]
  {
    match column
    case Todo => CardActions(true, true, [Today, InProgress])
    case Today => CardActions(true, true, [Todo, InProgress])
    case InProgress => CardActions(true, true, [Today, Completed])
    case Completed => CardActions(false, true, [InProgress])
  }

  /** The move from column `a` to column `b` is offered. */
  predicate Offers(a: Status, b: Status) {
    b in ColumnActions(a).moves
  }

  /** Only the in-progress column offers completion, and a completed todo can only go back to in progress. */
  lemma CompletionGoesThroughInProgress()
    ensures forall s: Status :: Offers(s, Completed) <==> s == InProgress
    ensures forall s: Status :: Offers(Completed, s) <==> s == InProgress
  {}

  /** Every column can reach every other one in at most three offered moves. */
  lemma ColumnsConnected()
    ensures forall a: Status, b: Status ::
      a == b || Offers(a, b)
      || (exists m: Status :: Offers(a, m) && Offers(m, b))
      || (exists m: Status, n: Status :: Offers(a, m) && Offers(m, n) && Offers(n, b))
  {
    forall a: Status, b: Status
      ensures a == b || Offers(a, b)
        || (exists m: Status :: Offers(a, m) && Offers(m, b))
        || (exists m: Status, n: Status :: Offers(a, m) && Offers(m, n) && Offers(n, b))
    {
      if a == Todo && b == Completed {
        assert Offers(Todo, InProgress) && Offers(InProgress, Completed);
      } else if a == Today && b == Completed {
        assert Offers(Today, InProgress) && Offers(InProgress, Completed);
      } else if a == InProgress && b == Todo {
        assert Offers(InProgress, Today) && Offers(Today, Todo);
      } else if a == Completed && b == Today {
        assert Offers(Completed, InProgress) && Offers(InProgress, Today);
      } else if a == Completed && b == Todo {
        assert Offers(Completed, InProgress) && Offers(InProgress, Today) && Offers(Today, Todo);
      }
    }
  }

  /** A status change rewrites the status of the matching todos and nothing else anywhere. */
  lemma StatusChangeOnlyStatus(todos: seq<TodoItem>, id: string, s: Status)
    ensures var r := UpdateTodos(todos, id, StatusPatch(s));
      && |r| == |todos|
      && forall i :: 0 <= i < |todos| ==>
           r[i] == if todos[i].id == id then todos[i].(fields := todos[i].fields.(status := s)) else todos[i]
  {
    forall i | 0 <= i < |todos| && todos[i].id == id {
      MergeStatusOnly(todos[i], s);
    }
  }

  /** Saving an edit replaces every todo with the edited identifier by the edited record. */
  lemma SaveEditReplacesRecord(todos: seq<TodoItem>, e: TodoItem)
    ensures var r := UpdateTodos(todos, e.id, WholeTodoPatch(e));
      && |r| == |todos|
      && forall i :: 0 <= i < |todos| ==> r[i] == if todos[i].id == e.id then e else todos[i]
  {
    forall i | 0 <= i < |todos| && todos[i].id == e.id {
      MergeWholeTodo(todos[i], e);
    }
  }

  // ---------------------------------------------------------------------------
  // Label tables and the time-range rule

  datatype PriorityInfo = PriorityInfo(labelText: string, className: string)

  /** `getPriorityInfo`: the label and class name of a stored priority string. */
  function GetPriorityInfo(priority: string): (r: PriorityInfo)
    ensures (r.labelText == "") <==> (r.className == "")
    ensures r.labelText != "" <==> exists p: Priority :: p.Name() == priority
    ensures r.className != "" ==> r.className == "priority-" + priority
  {
    match priority
    case "high" => assert High.Name() == priority; PriorityInfo("高", "priority-high")
    case "medium" => assert Medium.Name() == priority; PriorityInfo("中", "priority-medium")
    case "low" => assert Low.Name() == priority; PriorityInfo("低", "priority-low")
    case _ => PriorityInfo("", "")
  }

  /** Distinct priorities get distinct labels. */
  lemma PriorityLabelsDistinct(p: Priority, q: Priority)
    requires p != q
    ensures GetPriorityInfo(p.Name()).labelText != GetPriorityInfo(q.Name()).labelText
  {}

  /** `getStatusLabel`: the column title of a stored status string. */
  function GetStatusLabel(status: string): (r: string)
    ensures r != "" <==> exists s: Status :: s.Name() == status
  {
    match status
    case "todo" => assert Todo.Name() == status; "Todo"
    case "today" => assert Today.Name() == status; "今日のTodo"
    case "inProgress" => assert InProgress.Name() == status; "進行中"
    case "completed" => assert Completed.Name() == status; "完了"
    case _ => ""
  }

  /** Distinct statuses get distinct labels. */
  lemma StatusLabelsDistinct(s: Status, u: Status)
    requires s != u
    ensures GetStatusLabel(s.Name()) != GetStatusLabel(u.Name())
  {}

  /** JavaScript truthiness of an optional string: present and non-empty. */
  predicate Truthy(o: Option<string>) {
    o.Some? && o.value != ""
  }

  /**
   * The display rule itself is what the screen promises, so the contract states it
   * case by case. The time span shown under a card's due date, if any: only when the due date and all
   * four of start date, start time, end date and end time are non-empty; the dates are
   * left out when start and end fall on the same day.
   */
  function TimeRangeText(dueDate: string, startDate: Option<string>, startTime: Option<string>,
                         endDate: Option<string>, endTime: Option<string>): (r: Option<string>)
    ensures r.Some? <==>
      dueDate != "" && Truthy(startDate) && Truthy(startTime) && Truthy(endDate) && Truthy(endTime)
    ensures r.Some? && startDate == endDate ==> r.value == startTime.value + "～" + endTime.value
    ensures r.Some? && startDate != endDate ==>
      r.value == startDate.value + " " + startTime.value + "～" + endDate.value + " " + endTime.value
  {
    if dueDate != "" && Truthy(startDate) && Truthy(startTime) && Truthy(endDate) && Truthy(endTime) then
      if startDate.value == endDate.value then Some(startTime.value + "～" + endTime.value)
      else Some(startDate.value + " " + startTime.value + "～" + endDate.value + " " + endTime.value)
    else None
  }

  // ---------------------------------------------------------------------------
  // The form

  /** One change event from the form: the input's name selects the property, its value the new value. */
  datatype FormInput =
    | TitleInput(title: string)
    | DueDateInput(dueDate: string)
    | DescriptionInput(description: string)
    | PriorityInput(priority: Priority)
    | AssigneeInput(assignee: string)
    | StatusInput(status: Status)

  /** `{ [name]: value }` as a partial record: exactly one property, never the identifier. */
  function InputPatch(input: FormInput): (p: TodoPatch)
    ensures p.id.None?
    ensures p.title == if input.TitleInput? then Some(input.title) else None
    ensures p.dueDate == if input.DueDateInput? then Some(input.dueDate) else None
    ensures p.description == if input.DescriptionInput? then Some(input.description) else None
    ensures p.priority == if input.PriorityInput? then Some(input.priority) else None
    ensures p.assignee == if input.AssigneeInput? then Some(input.assignee) else None
    ensures p.status == if input.StatusInput? then Some(input.status) else None
  {
    match input
    case TitleInput(v) => NoTodoChange.(title := Some(v))
    case DueDateInput(v) => NoTodoChange.(dueDate := Some(v))
    case DescriptionInput(v) => NoTodoChange.(description := Some(v))
    case PriorityInput(v) => NoTodoChange.(priority := Some(v))
    case AssigneeInput(v) => NoTodoChange.(assignee := Some(v))
    case StatusInput(v) => NoTodoChange.(status := Some(v))
  }

  /** The record `f` with the one property an input names set to the input's value. */
  function WithInput(f: TodoFields, input: FormInput): TodoFields {
    match input
    case TitleInput(v) => f.(title := v)
    case DueDateInput(v) => f.(dueDate := v)
    case DescriptionInput(v) => f.(description := v)
    case PriorityInput(v) => f.(priority := v)
    case AssigneeInput(v) => f.(assignee := v)
    case StatusInput(v) => f.(status := v)
  }

  /** An input typed into the add form changes the draft's named property and no other. */
  lemma InputChangesOneProperty(f: TodoFields, input: FormInput)
    ensures MergeFields(f, InputPatch(input)) == WithInput(f, input)
  {}

  /** An input typed into the edit form changes the edited todo's named property; the identifier and the other properties stay. */
  lemma EditInputChangesOneProperty(t: TodoItem, input: FormInput)
    ensures MergeTodo(t, InputPatch(input)) == t.(fields := WithInput(t.fields, input))
  {
    InputChangesOneProperty(t.fields, input);
  }

  /** The blank form: empty texts, due date today, priority medium, status todo. */
  function EmptyForm(today: string): (f: TodoFields)
    ensures IsBlank(f.title) && f.description == "" && f.assignee == ""
    ensures f.dueDate == today && f.priority == Medium && f.status == Todo
  {
    TodoFields("", today, "", Medium, "", Todo)
  }

  /**
   * The screen's own state: the board computed from the container's todos, whether the
   * form is open, the todo being edited (if any) and the draft of a new todo. The date
   * the source reads from the clock is a parameter.
   */
  class TodoScreen {
    const app: AppState
    var filteredTodos: Board
    var isAddingTodo: bool
    var editingTodo: Option<TodoItem>
    var newTodo: TodoFields

    constructor (app: AppState, today: string)
      ensures this.app == app
      ensures filteredTodos == EmptyBoard && !isAddingTodo && editingTodo == None
      ensures newTodo == EmptyForm(today)
    {
      this.app := app;
      filteredTodos := EmptyBoard;
      isAddingTodo := false;
      editingTodo := None;
      newTodo := EmptyForm(today);
    }

    /** The effect that re-runs `filterTodos` whenever the todo list changes. */
    method RefreshBoard()
      modifies this`filteredTodos
      ensures filteredTodos == FilterTodos(app.todos)
    {
      filteredTodos := FilterTodos(app.todos);
    }

    /** `handleInputChange`: while editing, the input changes the edited todo; otherwise the draft. */
    method HandleInputChange(input: FormInput)
      modifies this`editingTodo, this`newTodo
      ensures old(editingTodo).Some? ==>
        editingTodo == Some(MergeTodo(old(editingTodo).value, InputPatch(input))) && newTodo == old(newTodo)
      ensures old(editingTodo).None? ==>
        editingTodo == None && newTodo == MergeFields(old(newTodo), InputPatch(input))
    {
      if editingTodo.Some? {
        editingTodo := Some(MergeTodo(editingTodo.value, InputPatch(input)));
      } else {
        newTodo := MergeFields(newTodo, InputPatch(input));
      }
    }

    /**
     * `handleAddTodo`. The blank-title guard reads the draft's title even while an
     * existing todo is being edited. `id` is the identifier a new todo receives and
     * `today` the due date the reset form gets.
     */
    method HandleAddTodo(id: string, today: string)
      modifies this`editingTodo, this`newTodo, this`isAddingTodo, app`todos
      ensures IsBlank(old(newTodo.title)) ==>
        && app.todos == old(app.todos) && editingTodo == old(editingTodo)
        && newTodo == old(newTodo) && isAddingTodo == old(isAddingTodo)
      ensures !IsBlank(old(newTodo.title)) && old(editingTodo).Some? ==>
        && app.todos == UpdateTodos(old(app.todos), old(editingTodo).value.id, WholeTodoPatch(old(editingTodo).value))
        && editingTodo == None
      ensures !IsBlank(old(newTodo.title)) && old(editingTodo).None? ==>
        && app.todos == old(app.todos) + [TodoItem(id, old(newTodo))]
        && editingTodo == None
      ensures !IsBlank(old(newTodo.title)) ==> newTodo == EmptyForm(today) && !isAddingTodo
    {
      if IsBlank(newTodo.title) {
        return;
      }
      if editingTodo.Some? {
        var e := editingTodo.value;
        app.UpdateTodo(e.id, WholeTodoPatch(e));
        editingTodo := None;
      } else {
        app.AddTodo(newTodo, id);
      }
      newTodo := EmptyForm(today);
      isAddingTodo := false;
    }

    /** `handleEditTodo`: opens the form on a copy of `todo`. */
    method HandleEditTodo(todo: TodoItem)
      modifies this`editingTodo, this`isAddingTodo
      ensures editingTodo == Some(todo) && isAddingTodo
    {
      editingTodo := Some(todo);
      isAddingTodo := true;
    }

    /** The add button: opens the form in add mode. */
    method OpenAddForm()
      modifies this`editingTodo, this`isAddingTodo
      ensures editingTodo == None && isAddingTodo
    {
      isAddingTodo := true;
      editingTodo := None;
    }

    /** The cancel button: closes the form and drops the edit; the draft is kept. */
    method CancelForm()
      modifies this`editingTodo, this`isAddingTodo
      ensures editingTodo == None && !isAddingTodo
    {
      isAddingTodo := false;
      editingTodo := None;
    }

    /** `handleDeleteTodo`. */
    method HandleDeleteTodo(id: string)
      modifies app`todos
      ensures app.todos == WithoutTodo(old(app.todos), id)
    {
      app.DeleteTodo(id);
    }

    /** `handleStatusChange`: sends `{ status: newStatus }` for the todo `id`. */
    method HandleStatusChange(id: string, newStatus: Status)
      modifies app`todos
      ensures app.todos == UpdateTodos(old(app.todos), id, StatusPatch(newStatus))
    {
      app.UpdateTodo(id, StatusPatch(newStatus));
    }
  }

  /**
   * An edit submitted while the draft's title is blank is lost. Saving resets the
   * draft title to '', so when an existing todo is opened for editing right after a
   * save and changed, submitting the form fails the blank-title guard: the list keeps
   * only the first save, and the change stays pending in the open form.
   */
  method EditAfterSaveIsIgnored(screen: TodoScreen, id: string, laterId: string, today: string,
                                target: TodoItem, input: FormInput)
    requires !IsBlank(screen.newTodo.title) && screen.editingTodo.None?
    modifies screen, screen.app`todos
    ensures screen.app.todos == old(screen.app.todos) + [TodoItem(id, old(screen.newTodo))]
    ensures screen.editingTodo == Some(MergeTodo(target, InputPatch(input))) && screen.isAddingTodo
  {
    screen.HandleAddTodo(id, today);
    screen.HandleEditTodo(target);
    screen.HandleInputChange(input);
    screen.HandleAddTodo(laterId, today);
  }
}
