/** The data model: the task record and the filter choice. */
module Types {
  import opened Wrappers

  /**
   * One task. `date` and `time` are always present; an unscheduled task holds
   * the empty string. `createdAt` is the millisecond timestamp of creation.
   * `subtasks` is optional: `None` means no suggestion was ever attached (or
   * the attached value was `undefined`), `Some([])` means a suggestion request
   * came back with an empty list.
   */
  datatype Todo = Todo(
    id: string,
    text: string,
    date: string,
    time: string,
    completed: bool,
    createdAt: int,
    subtasks: Option<seq<string>>)

  /** Which tasks the list shows. */
  datatype FilterType = All | Active | Completed

  /** The string literal each filter value is at run time. */
  function FilterName(f: FilterType): string
  {
    match f
    case All => "all"
    case Active => "active"
    case Completed => "completed"
  }

  /** Which string values belong to the literal union type, and as which filter. */
  function ParseFilter(s: string): (r: Option<FilterType>)
    ensures r.Some? ==> FilterName(r.value) == s
  {
    if s == "all" then Some(All)
    else if s == "active" then Some(Active)
    else if s == "completed" then Some(Completed)
    else None
  }

  /** Exactly three strings are filter values, and each names exactly one filter. */
  lemma FilterNamesRoundTrip(f: FilterType, s: string)
    ensures ParseFilter(FilterName(f)) == Some(f)
    ensures ParseFilter(s).None? <==> s != "all" && s != "active" && s != "completed"
  {
  }
}
