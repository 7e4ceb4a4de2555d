/**
 * One row of the list (components/TodoItem.tsx): which controls it shows,
 * and the per-row request for suggested subtasks, which is either idle or
 * in flight.
 */
module TodoItem {
  import opened Wrappers
  import opened Types

  /**
   * The subtask list is rendered: `todo.subtasks && todo.subtasks.length > 0`,
   * which is also when `todo.subtasks?.length` is truthy.
   */
  function ShowsSubtaskList(t: Todo): (r: bool)
    ensures r <==> t.subtasks.Some? && t.subtasks.value != []
  {
    t.subtasks.Some? && |t.subtasks.value| > 0
  }

  /** `todo.subtasks?.length` is truthy: the row already holds suggestions. */
  predicate HasSuggestions(t: Todo) {
    ShowsSubtaskList(t)
  }

  /**
   * The guard of `handleAISuggestions`: a request goes out only when none is
   * in flight and the task has no subtask field or an empty one.
   */
  function AcceptsTrigger(loadingAI: bool, t: Todo): (r: bool)
    ensures r <==> !loadingAI && (t.subtasks == None || t.subtasks == Some([]))
  {
    assert t.subtasks.Some? && |t.subtasks.value| == 0 ==> t.subtasks.value == [];
    !(loadingAI || HasSuggestions(t))
  }

  /** The suggestion button is rendered. */
  function ShowsAIButton(t: Todo): (r: bool)
    ensures r <==> !t.completed && (t.subtasks == None || t.subtasks == Some([]))
  {
    assert t.subtasks.Some? && |t.subtasks.value| == 0 ==> t.subtasks.value == [];
    !t.completed && !HasSuggestions(t)
  }

  /**
   * The button and the list never show together; an open task shows one of
   * them; a shown button on an idle row is a trigger that goes through; a
   * trigger made while the list shows is refused.
   */
  lemma ButtonAndListExclusive(t: Todo, loadingAI: bool)
    ensures !(ShowsAIButton(t) && ShowsSubtaskList(t))
    ensures !t.completed ==> ShowsAIButton(t) || ShowsSubtaskList(t)
    ensures ShowsAIButton(t) ==> AcceptsTrigger(false, t)
    ensures ShowsSubtaskList(t) ==> !AcceptsTrigger(loadingAI, t)
  {
  }

  /** The arguments of one `onAddSubtasks(id, subtasks)` call. */
  datatype AttachCall = AttachCall(id: string, subtasks: Option<seq<string>>)

  class TodoItemState {
    /** The `todo` prop of the latest render. */
    var todo: Todo
    var loadingAI: bool

    constructor (t: Todo)
      ensures todo == t && !loadingAI
    {
      todo := t;
      loadingAI := false;
    }

    /**
     * A later render hands the row a new `todo` prop while the row stays
     * rendered. Rows are keyed by id, so the prop keeps the row's id and the
     * row's own state, `loadingAI`, is kept.
     */
    method Rerender(t: Todo)
      requires t.id == todo.id
      modifies this`todo
      ensures todo == t
    {
      todo := t;
    }

    /**
     * The synchronous part of `handleAISuggestions`, up to the `await`. When
     * the guard refuses, nothing happens. Otherwise `loadingAI` is set and a
     * request for the task's text goes to the generator; `request` is that
     * request, so while one is in flight no second one is issued.
     */
    method StartSuggestions() returns (request: Option<string>)
      modifies this`loadingAI
      ensures request != None <==> AcceptsTrigger(old(loadingAI), todo)
      ensures request != None ==> request == Some(todo.text) && loadingAI
      ensures request == None ==> loadingAI == old(loadingAI)
    {
      if !AcceptsTrigger(loadingAI, todo) {
        return None;
      }
      loadingAI := true;
      request := Some(todo.text);
    }

    /**
     * The part after the `await`: whatever the generator returned (an empty
     * list, or `undefined` as `None`) goes to `onAddSubtasks` with this row's
     * id, once, and `loadingAI` is cleared.
     */
    method FinishSuggestions(suggestions: Option<seq<string>>) returns (call: AttachCall)
      requires loadingAI
      modifies this`loadingAI
      ensures call.id == todo.id && call.subtasks == suggestions
      ensures !loadingAI
    {
      call := AttachCall(todo.id, suggestions);
      loadingAI := false;
    }
  }
}
