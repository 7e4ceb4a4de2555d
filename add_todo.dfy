/**
 * The new-task form (components/AddTodo.tsx): four pieces of state, a guard
 * that refuses blank text, and a submit that hands the fields to `onAdd`
 * and clears the form.
 */
module AddTodo {
  import opened Wrappers
  import opened JsString

  /** The arguments of one `onAdd(text, date, time)` call. */
  datatype Submission = Submission(text: string, date: string, time: string)

  /** `disabled={!text.trim()}` on the submit button: the same test as the submit guard. */
  function SubmitDisabled(text: string): (r: bool)
    ensures r <==> IsBlank(text)
  {
    TrimEmptyIffBlank(text);
    Trim(text) == []
  }

  class AddTodoForm {
    var text: string
    var date: string
    var time: string
    var showOptions: bool

    /** All fields start empty and the schedule options start hidden. */
    constructor ()
      ensures text == "" && date == "" && time == "" && !showOptions
    {
      text, date, time := "", "", "";
      showOptions := false;
    }

    /** The text input's `onChange`. */
    method SetText(value: string)
      modifies this`text
      ensures text == value
    {
      text := value;
    }

    /** The date input's `onChange`. */
    method SetDate(value: string)
      modifies this`date
      ensures date == value
    {
      date := value;
    }

    /** The time input's `onChange`. */
    method SetTime(value: string)
      modifies this`time
      ensures time == value
    {
      time := value;
    }

    /**
     * `handleSubmit`. Blank text (only trimmable characters, or none) makes
     * it return at once: no `onAdd` call and no field changes. Otherwise
     * `onAdd` is called once with the text, date and time as held, untrimmed,
     * and the form is reset. `added` is that one call, or `None` for none.
     */
    method Submit() returns (added: Option<Submission>)
      modifies this
      ensures added == None <==> IsBlank(old(text))
      ensures added == None ==> text == old(text) && date == old(date) && time == old(time) && showOptions == old(showOptions)
      ensures added != None ==> added == Some(Submission(old(text), old(date), old(time)))
      ensures added != None ==> text == "" && date == "" && time == "" && !showOptions
    {
      TrimEmptyIffBlank(text);
      if Trim(text) == [] {
        return None;
      }
      added := Some(Submission(text, date, time));
      text := "";
      date := "";
      time := "";
      showOptions := false;
    }
  }
}
