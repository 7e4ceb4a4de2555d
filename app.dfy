/**
 * The top-level component of App.tsx as state: the list, the filter, the
 * `isLoaded` flag and the one storage slot (key `zenplan_todos`) the effects
 * read and write. The list operations themselves are in module TodoList.
 */
module App {
  import opened Wrappers
  import opened Types
  import opened TodoList
  import opened JsString
  import AddTodo
  import TodoItem

  class TodoApp {
    var todos: seq<Todo>
    var filter: FilterType
    var isLoaded: bool
    /** What storage holds under the key, as the list it encodes; `None` when the key is unset. */
    var stored: Option<seq<Todo>>
    /** What storage held when the app started. */
    ghost const savedAtStart: Option<seq<Todo>>

    /**
     * The load/save gate: until the first load, storage is untouched; from
     * then on it always holds the whole current list.
     */
    ghost predicate Valid()
      reads this
    {
      if isLoaded then stored == Some(todos) else stored == savedAtStart
    }

    /** The first render: an empty list, the `all` filter, not yet loaded. */
    constructor (saved: Option<seq<Todo>>)
      ensures Valid() && todos == [] && filter == All && !isLoaded && stored == saved
    {
      todos := [];
      filter := All;
      isLoaded := false;
      stored := saved;
      savedAtStart := saved;
    }

    /** The saving effect, run after every change of the list or of `isLoaded`: writes only once loaded. */
    method SaveEffect()
      modifies this`stored
      ensures stored == if isLoaded then Some(todos) else old(stored)
    {
      if isLoaded {
        stored := Some(todos);
      }
    }

    /**
     * The loading effect, run once on mount: a stored list replaces the
     * current one, and an unset key leaves it as it is. Setting `isLoaded`
     * then runs the saving effect, which writes the list back.
     */
    method Load()
      requires Valid() && !isLoaded
      modifies this
      ensures Valid() && isLoaded && filter == old(filter)
      ensures todos == if old(stored) != None then old(stored).value else old(todos)
      ensures stored == Some(todos)
    {
      if stored != None {
        todos := stored.value;
      }
      isLoaded := true;
      SaveEffect();
    }

    /**
     * `handleAddTodo`, with the id `crypto.randomUUID` draws and the time
     * `Date.now` reads as inputs; the id is one no task has yet.
     */
    method HandleAddTodo(id: string, now: int, text: string, date: string, time: string)
      requires Valid() && !HasId(todos, id)
      modifies this
      ensures Valid() && isLoaded == old(isLoaded) && filter == old(filter)
      ensures todos == Add(old(todos), id, text, date, time, now)
      ensures UniqueIds(old(todos)) ==> UniqueIds(todos)
      ensures stored == if isLoaded then Some(todos) else old(stored)
    {
      if UniqueIds(todos) {
        AddKeepsUniqueIds(todos, id, text, date, time, now);
      }
      todos := Add(todos, id, text, date, time, now);
      SaveEffect();
    }

    /** `handleToggleTodo`. */
    method HandleToggleTodo(id: string)
      requires Valid()
      modifies this
      ensures Valid() && isLoaded == old(isLoaded) && filter == old(filter)
      ensures todos == Toggle(old(todos), id)
      ensures UniqueIds(todos) <==> UniqueIds(old(todos))
      ensures stored == if isLoaded then Some(todos) else old(stored)
    {
      ToggleKeepsIds(todos, id);
      todos := Toggle(todos, id);
      SaveEffect();
    }

    /** `handleDeleteTodo`. */
    method HandleDeleteTodo(id: string)
      requires Valid()
      modifies this
      ensures Valid() && isLoaded == old(isLoaded) && filter == old(filter)
      ensures todos == Delete(old(todos), id)
      ensures UniqueIds(old(todos)) ==> UniqueIds(todos) && !HasId(todos, id)
      ensures stored == if isLoaded then Some(todos) else old(stored)
    {
      if UniqueIds(todos) {
        DeleteKeepsUniqueIds(todos, id);
      }
      todos := Delete(todos, id);
      SaveEffect();
    }

    /** `handleAddSubtasks`, applied to the current list. */
    method HandleAddSubtasks(id: string, subtasks: Option<seq<string>>)
      requires Valid()
      modifies this
      ensures Valid() && isLoaded == old(isLoaded) && filter == old(filter)
      ensures todos == AttachSubtasks(old(todos), id, subtasks)
      ensures UniqueIds(todos) <==> UniqueIds(old(todos))
      ensures stored == if isLoaded then Some(todos) else old(stored)
    {
      AttachKeepsIds(todos, id, subtasks);
      todos := AttachSubtasks(todos, id, subtasks);
      SaveEffect();
    }

    /** A filter button: the filter is not stored, so nothing is written. */
    method SetFilter(f: FilterType)
      modifies this`filter
      ensures filter == f
    {
      filter := f;
    }

    /**
     * The tasks the list renders, in list order: all of them under the `all`
     * filter, exactly the open ones under `active`, exactly the done ones
     * under `completed`.
     */
    function View(): (r: seq<Todo>)
      reads this
      ensures |r| <= |todos|
      ensures filter == All ==> r == todos
      ensures filter == Active ==> forall t :: t in r <==> t in todos && !t.completed
      ensures filter == Completed ==> forall t :: t in r <==> t in todos && t.completed
    {
      ViewAllIsIdentity(todos);
      FilteredView(todos, filter)
    }

    /**
     * The form wired to `handleAddTodo`: a blank submit changes neither the
     * form nor the list nor storage; any other adds the form's fields as
     * held and clears the form.
     */
    method SubmitForm(form: AddTodo.AddTodoForm, id: string, now: int)
      requires Valid() && !HasId(todos, id)
      modifies this, form
      ensures Valid() && isLoaded == old(isLoaded) && filter == old(filter)
      ensures IsBlank(old(form.text)) ==>
        todos == old(todos) && stored == old(stored)
        && form.text == old(form.text) && form.date == old(form.date) && form.time == old(form.time)
        && form.showOptions == old(form.showOptions)
      ensures !IsBlank(old(form.text)) ==>
        todos == Add(old(todos), id, old(form.text), old(form.date), old(form.time), now)
        && stored == (if isLoaded then Some(todos) else old(stored))
        && form.text == "" && form.date == "" && form.time == "" && !form.showOptions
    {
      var added := form.Submit();
      if added != None {
        HandleAddTodo(id, now, added.value.text, added.value.date, added.value.time);
      }
    }

    /**
     * A row's request comes back: the row clears its flag and its
     * `onAddSubtasks` call attaches the result to the task with the row's id.
     * The list update re-renders the row with the updated task no later than
     * the cleared flag, so once a non-empty list is attached the row refuses
     * further triggers.
     */
    method FinishSuggestions(item: TodoItem.TodoItemState, result: Option<seq<string>>)
      requires Valid() && item.loadingAI
      modifies this, item
      ensures Valid() && isLoaded == old(isLoaded) && filter == old(filter)
      ensures todos == AttachSubtasks(old(todos), old(item.todo.id), result)
      ensures stored == if isLoaded then Some(todos) else old(stored)
      ensures !item.loadingAI && item.todo == old(item.todo).(subtasks := result)
      ensures old(item.todo) in old(todos) ==> item.todo in todos
      ensures result.Some? && result.value != [] ==> !TodoItem.AcceptsTrigger(item.loadingAI, item.todo)
    {
      ghost var before := todos;
      var call := item.FinishSuggestions(result);
      HandleAddSubtasks(call.id, call.subtasks);
      item.Rerender(item.todo.(subtasks := result));
      if old(item.todo) in before {
        var k :| 0 <= k < |before| && before[k] == old(item.todo);
        assert todos[k].(subtasks := before[k].subtasks) == before[k];
        assert todos[k] == item.todo;
      }
    }
  }

  /**
   * A session: nothing stored, a task added through the form, a second click
   * on its suggestion button while the first request is in flight, the
   * generator's answer attached, and the counters after it.
   */
  method SuggestionSession()
  {
    var app := new TodoApp(None);
    app.Load();
    assert app.todos == [] && app.stored == Some([]);

    var form := new AddTodo.AddTodoForm();
    form.SetText("   ");
    app.SubmitForm(form, "a", 1);
    assert app.todos == [];

    form.SetText("Plan a birthday party");
    assert !IsBlank(form.text) by { assert !IsTrimmable(form.text[0]); }
    app.SubmitForm(form, "a", 1);
    var task := app.todos[0];
    assert app.todos == [task] && task.id == "a" && task.subtasks == None;
    assert form.text == "";

    var item := new TodoItem.TodoItemState(task);
    var first := item.StartSuggestions();
    assert first == Some("Plan a birthday party");
    var second := item.StartSuggestions();
    assert second == None;

    var answer := ["Book venue", "Send invites", "Order cake"];
    app.FinishSuggestions(item, Some(answer));
    assert !item.loadingAI;
    assert app.todos == [task.(subtasks := Some(answer))];
    assert app.stored == Some(app.todos);
    assert BoostCount(app.todos) == 1 by {
      assert app.todos[0].subtasks != None;
    }

    assert item.todo == app.todos[0];
    var third := item.StartSuggestions();
    assert third == None;
  }
}
