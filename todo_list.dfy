/**
 * The task list of App.tsx as values. Every handler there replaces the whole
 * list with a new one computed from the old (a spread prepend, a `map`, a
 * `filter`), and the filtered view and the counters are `filter`s of it;
 * this module gives each of them as a function on `seq<Todo>`.
 */
module TodoList {
  import opened Wrappers
  import opened Types
  import opened JsArray

  /** Some task in the list carries `id`. */
  predicate HasId(todos: seq<Todo>, id: string) {
    exists i :: 0 <= i < |todos| && todos[i].id == id
  }

  /** No two tasks share an id. */
  predicate UniqueIds(todos: seq<Todo>) {
    forall i, j :: 0 <= i < j < |todos| ==> todos[i].id != todos[j].id
  }

  // ---------------------------------------------------------------- add

  /**
   * `handleAddTodo`: a new, not completed task without a `subtasks` field is
   * put in front of the list. The text, date and time are stored exactly as
   * given; the id and the timestamp come from the caller.
   */
  function Add(todos: seq<Todo>, id: string, text: string, date: string, time: string, now: int): (r: seq<Todo>)
    ensures |r| == |todos| + 1 && r[1..] == todos
    ensures r[0].id == id && r[0].text == text && r[0].date == date && r[0].time == time
    ensures r[0].createdAt == now && !r[0].completed && r[0].subtasks == None
  {
    [Todo(id, text, date, time, false, now, None)] + todos
  }

  /** A fresh id keeps the ids unique. */
  lemma AddKeepsUniqueIds(todos: seq<Todo>, id: string, text: string, date: string, time: string, now: int)
    requires UniqueIds(todos) && !HasId(todos, id)
    ensures UniqueIds(Add(todos, id, text, date, time, now))
    ensures HasId(Add(todos, id, text, date, time, now), id)
  {
  }

  // ---------------------------------------------------------------- toggle

  function ToggleOne(t: Todo, id: string): Todo {
    if t.id == id then t.(completed := !t.completed) else t
  }

  /**
   * `handleToggleTodo`: the tasks whose id matches have `completed` flipped;
   * every other field, every other task and the order stay as they were.
   */
  function Toggle(todos: seq<Todo>, id: string): (r: seq<Todo>)
    ensures |r| == |todos|
    ensures forall i :: 0 <= i < |r| ==> r[i].(completed := todos[i].completed) == todos[i]
    ensures forall i :: 0 <= i < |r| ==> r[i].completed == (todos[i].completed != (todos[i].id == id))
  {
    Map(todos, t => ToggleOne(t, id))
  }

  /** Toggling the same id twice restores the list. */
  lemma ToggleTwice(todos: seq<Todo>, id: string)
    ensures Toggle(Toggle(todos, id), id) == todos
  {
  }

  /** Toggling an id that no task has changes nothing. */
  lemma ToggleAbsent(todos: seq<Todo>, id: string)
    requires !HasId(todos, id)
    ensures Toggle(todos, id) == todos
  {
  }

  /** With unique ids, toggling the id of task `k` changes task `k` and no other. */
  lemma ToggleChangesExactlyOne(todos: seq<Todo>, id: string, k: nat)
    requires UniqueIds(todos) && k < |todos| && todos[k].id == id
    ensures Toggle(todos, id)[k].completed == !todos[k].completed
    ensures forall i :: 0 <= i < |todos| && i != k ==> Toggle(todos, id)[i] == todos[i]
  {
  }

  /** Toggling keeps every id in place, so it keeps them unique. */
  lemma ToggleKeepsIds(todos: seq<Todo>, id: string)
    ensures forall i :: 0 <= i < |todos| ==> Toggle(todos, id)[i].id == todos[i].id
    ensures UniqueIds(Toggle(todos, id)) <==> UniqueIds(todos)
  {
  }

  // ---------------------------------------------------------------- delete

  /** `handleDeleteTodo`: keeps the tasks whose id differs, in their original order. */
  function Delete(todos: seq<Todo>, id: string): (r: seq<Todo>)
    ensures |r| <= |todos|
    ensures forall i :: 0 <= i < |r| ==> r[i].id != id && r[i] in todos
    ensures forall i :: 0 <= i < |todos| && todos[i].id != id ==> todos[i] in r
  {
    FilterMembers(todos, (t: Todo) => t.id != id);
    Filter(todos, (t: Todo) => t.id != id)
  }

  /** Deleting an id that no task has changes nothing. */
  lemma DeleteAbsent(todos: seq<Todo>, id: string)
    requires !HasId(todos, id)
    ensures Delete(todos, id) == todos
  {
    FilterKeepsAll(todos, (t: Todo) => t.id != id);
  }

  /** With unique ids, deleting the id of task `k` removes task `k` and keeps the rest in order. */
  lemma DeleteRemovesExactlyOne(todos: seq<Todo>, id: string, k: nat)
    requires UniqueIds(todos) && k < |todos| && todos[k].id == id
    ensures Delete(todos, id) == todos[..k] + todos[k + 1..]
    ensures |Delete(todos, id)| == |todos| - 1
  {
    var p := (t: Todo) => t.id != id;
    forall i | 0 <= i < |todos| && i != k ensures p(todos[i]) {
      if i < k { assert todos[i].id != todos[k].id; } else { assert todos[k].id != todos[i].id; }
    }
    FilterDropsOne(todos, p, k);
  }

  /** A list has unique ids exactly when its tail has and the head's id is not in the tail. */
  lemma UniqueIdsCons(todos: seq<Todo>)
    requires todos != []
    ensures UniqueIds(todos) <==>
      UniqueIds(todos[1..]) && forall i :: 0 <= i < |todos[1..]| ==> todos[1..][i].id != todos[0].id
  {
  }

  /** Any filter of a list with unique ids has unique ids. */
  lemma {:induction false} FilterKeepsUniqueIds(todos: seq<Todo>, p: Todo -> bool)
    requires UniqueIds(todos)
    ensures UniqueIds(Filter(todos, p))
  {
    if todos != [] {
      var rest := todos[1..];
      UniqueIdsCons(todos);
      FilterKeepsUniqueIds(rest, p);
      FilterMembers(rest, p);
      var kept := Filter(rest, p);
      forall i | 0 <= i < |kept| ensures kept[i].id != todos[0].id {
        var j :| 0 <= j < |rest| && rest[j] == kept[i];
      }
      if p(todos[0]) {
        assert Filter(todos, p) == [todos[0]] + kept;
        UniqueIdsCons([todos[0]] + kept);
        assert ([todos[0]] + kept)[1..] == kept;
      } else {
        assert Filter(todos, p) == kept;
      }
    }
  }

  /** Deleting keeps the ids unique and leaves no task with the deleted id. */
  lemma DeleteKeepsUniqueIds(todos: seq<Todo>, id: string)
    requires UniqueIds(todos)
    ensures UniqueIds(Delete(todos, id)) && !HasId(Delete(todos, id), id)
  {
    FilterKeepsUniqueIds(todos, (t: Todo) => t.id != id);
  }

  // ---------------------------------------------------------------- attach subtasks

  function AttachOne(t: Todo, id: string, subtasks: Option<seq<string>>): Todo {
    if t.id == id then t.(subtasks := subtasks) else t
  }

  /**
   * `handleAddSubtasks`: the tasks whose id matches get `subtasks` replaced by
   * the given value (an empty list included); every other field, every other
   * task and the order stay as they were. The value is declared as a list,
   * but the generator can hand over `undefined`, which the spread stores as an
   * absent field: `None` here.
   */
  function AttachSubtasks(todos: seq<Todo>, id: string, subtasks: Option<seq<string>>): (r: seq<Todo>)
    ensures |r| == |todos|
    ensures forall i :: 0 <= i < |r| ==> r[i].(subtasks := todos[i].subtasks) == todos[i]
    ensures forall i :: 0 <= i < |r| ==> r[i].subtasks == (if todos[i].id == id then subtasks else todos[i].subtasks)
  {
    Map(todos, t => AttachOne(t, id, subtasks))
  }

  /** Attaching to an id that no task has changes nothing. */
  lemma AttachAbsent(todos: seq<Todo>, id: string, subtasks: Option<seq<string>>)
    requires !HasId(todos, id)
    ensures AttachSubtasks(todos, id, subtasks) == todos
  {
  }

  /** The last attachment wins; in particular attaching the same value twice is attaching it once. */
  lemma AttachLastWins(todos: seq<Todo>, id: string, first: Option<seq<string>>, second: Option<seq<string>>)
    ensures AttachSubtasks(AttachSubtasks(todos, id, first), id, second) == AttachSubtasks(todos, id, second)
  {
  }

  /** Attaching keeps every id in place, so it keeps them unique. */
  lemma AttachKeepsIds(todos: seq<Todo>, id: string, subtasks: Option<seq<string>>)
    ensures forall i :: 0 <= i < |todos| ==> AttachSubtasks(todos, id, subtasks)[i].id == todos[i].id
    ensures UniqueIds(AttachSubtasks(todos, id, subtasks)) <==> UniqueIds(todos)
  {
  }

  /**
   * A toggle and an attachment touch different fields, so the order in which
   * they reach the list does not matter.
   */
  lemma ToggleAttachCommute(todos: seq<Todo>, toggled: string, attached: string, subtasks: Option<seq<string>>)
    ensures AttachSubtasks(Toggle(todos, toggled), attached, subtasks)
         == Toggle(AttachSubtasks(todos, attached, subtasks), toggled)
  {
  }

  // ---------------------------------------------------------------- filtered view

  /** The test `filteredTodos` applies to each task. */
  predicate Keep(filter: FilterType, t: Todo) {
    if filter == Active then !t.completed
    else if filter == Completed then t.completed
    else true
  }

  /** `filteredTodos`: the tasks the current filter lets through, in list order. */
  function FilteredView(todos: seq<Todo>, filter: FilterType): (r: seq<Todo>)
    ensures |r| <= |todos|
    ensures forall i :: 0 <= i < |r| ==> r[i] in todos
    ensures filter == Active ==> forall t :: t in r <==> t in todos && !t.completed
    ensures filter == Completed ==> forall t :: t in r <==> t in todos && t.completed
  {
    FilterMembers(todos, t => Keep(filter, t));
    Filter(todos, t => Keep(filter, t))
  }

  /** The `all` view is the list itself. */
  lemma ViewAllIsIdentity(todos: seq<Todo>)
    ensures FilteredView(todos, All) == todos
  {
    FilterKeepsAll(todos, t => Keep(All, t));
  }

  /**
   * The `active` and `completed` views partition the list: no task is in
   * both, and together they hold every task exactly as often as the list.
   */
  lemma ViewsPartition(todos: seq<Todo>)
    ensures |FilteredView(todos, Active)| + |FilteredView(todos, Completed)| == |todos|
    ensures multiset(FilteredView(todos, Active)) + multiset(FilteredView(todos, Completed)) == multiset(todos)
    ensures forall t :: !(t in FilteredView(todos, Active) && t in FilteredView(todos, Completed))
  {
    FilterPartition(todos, t => Keep(Active, t), t => Keep(Completed, t));
  }

  /** Every view keeps the relative order: the view of a concatenation is the concatenation of the views. */
  lemma ViewOfConcat(a: seq<Todo>, b: seq<Todo>, filter: FilterType)
    ensures FilteredView(a + b, filter) == FilteredView(a, filter) + FilteredView(b, filter)
  {
    FilterAppend(a, b, t => Keep(filter, t));
  }

  /** A new task shows at the front of the `all` and `active` views and not in the `completed` view. */
  lemma ViewAfterAdd(todos: seq<Todo>, id: string, text: string, date: string, time: string, now: int, filter: FilterType)
    ensures var r := Add(todos, id, text, date, time, now);
      FilteredView(r, filter) == (if filter == Completed then [] else [r[0]]) + FilteredView(todos, filter)
  {
  }

  // ---------------------------------------------------------------- counters

  predicate IsActive(t: Todo) { !t.completed }

  predicate IsDone(t: Todo) { t.completed }

  /** The truthiness of `t.subtasks`: any array, the empty one included. */
  predicate HasSubtaskField(t: Todo) { t.subtasks.Some? }

  /** `activeCount`, the "items left" figure. */
  function ActiveCount(todos: seq<Todo>): (n: nat)
    ensures n <= |todos|
    ensures n == 0 <==> forall i :: 0 <= i < |todos| ==> todos[i].completed
  {
    var r := Filter(todos, IsActive);
    FilterMembers(todos, IsActive);
    assert r != [] ==> r[0] in todos;
    |r|
  }

  /** The footer's "Done" figure. */
  function DoneCount(todos: seq<Todo>): (n: nat)
    ensures n <= |todos|
    ensures n == 0 <==> forall i :: 0 <= i < |todos| ==> !todos[i].completed
  {
    var r := Filter(todos, IsDone);
    FilterMembers(todos, IsDone);
    assert r != [] ==> r[0] in todos;
    |r|
  }

  /** The footer's "AI Boosts" figure: tasks with a `subtasks` field, an empty list included. */
  function BoostCount(todos: seq<Todo>): (n: nat)
    ensures n <= |todos|
    ensures n == 0 <==> forall i :: 0 <= i < |todos| ==> todos[i].subtasks == None
  {
    var r := Filter(todos, HasSubtaskField);
    FilterMembers(todos, HasSubtaskField);
    assert r != [] ==> r[0] in todos;
    |r|
  }

  /** "items left" plus "Done" is "Total", and "items left" is the size of the `active` view. */
  lemma CountsAddUp(todos: seq<Todo>)
    ensures ActiveCount(todos) + DoneCount(todos) == |todos|
    ensures ActiveCount(todos) == |FilteredView(todos, Active)|
    ensures DoneCount(todos) == |FilteredView(todos, Completed)|
  {
    FilterPartition(todos, IsActive, IsDone);
    FilterAgree(todos, IsActive, t => Keep(Active, t));
    FilterAgree(todos, IsDone, t => Keep(Completed, t));
  }

  /** Adding a task adds one to "items left" and "Total" and leaves "Done" and "AI Boosts" alone. */
  lemma CountsAfterAdd(todos: seq<Todo>, id: string, text: string, date: string, time: string, now: int)
    ensures var r := Add(todos, id, text, date, time, now);
      ActiveCount(r) == ActiveCount(todos) + 1 && DoneCount(r) == DoneCount(todos)
      && BoostCount(r) == BoostCount(todos) && |r| == |todos| + 1
  {
  }

  /** With unique ids, toggling task `k` moves it between "items left" and "Done" and changes no other figure. */
  lemma CountsAfterToggle(todos: seq<Todo>, id: string, k: nat)
    requires UniqueIds(todos) && k < |todos| && todos[k].id == id
    ensures var r := Toggle(todos, id);
      ActiveCount(r) == (if todos[k].completed then ActiveCount(todos) + 1 else ActiveCount(todos) - 1)
      && DoneCount(r) == (if todos[k].completed then DoneCount(todos) - 1 else DoneCount(todos) + 1)
      && BoostCount(r) == BoostCount(todos)
  {
    var r := Toggle(todos, id);
    ToggleChangesExactlyOne(todos, id, k);
    FilterLengthPointChange(todos, r, IsActive, k);
    FilterLengthPointChange(todos, r, IsDone, k);
    FilterLengthPointChange(todos, r, HasSubtaskField, k);
  }

  /**
   * With unique ids, attaching to task `k` changes "AI Boosts" only by what
   * task `k` had before and has after, and leaves the other figures alone.
   */
  lemma CountsAfterAttach(todos: seq<Todo>, id: string, subtasks: Option<seq<string>>, k: nat)
    requires UniqueIds(todos) && k < |todos| && todos[k].id == id
    ensures var r := AttachSubtasks(todos, id, subtasks);
      BoostCount(r) + (if todos[k].subtasks.Some? then 1 else 0) == BoostCount(todos) + (if subtasks.Some? then 1 else 0)
      && ActiveCount(r) == ActiveCount(todos) && DoneCount(r) == DoneCount(todos)
  {
    var r := AttachSubtasks(todos, id, subtasks);
    forall i | 0 <= i < |todos| && i != k ensures r[i] == todos[i] {
      assert todos[i].id != id by {
        if i < k { assert todos[i].id != todos[k].id; } else { assert todos[k].id != todos[i].id; }
      }
    }
    FilterLengthPointChange(todos, r, HasSubtaskField, k);
    FilterLengthAgree(todos, r, IsActive);
    FilterLengthAgree(todos, r, IsDone);
  }
}
