/** The self-contained home page of src/app/page.tsx: the same todo list as
    the TodoSection component, plus a colour theme read back from storage. */
module Home {
  import opened Wrappers
  import opened Todos

  datatype Theme = Mono | Natural | Brutal

  /** The identifier a theme is stored under. */
  function ThemeName(t: Theme): string
  {
    match t
    case Mono => "mono"
    case Natural => "natural"
    case Brutal => "brutal"
  }

  /** `["mono", "natural", "brutal"].includes(s)`, returning the theme named. */
  function ParseTheme(s: string): (r: Option<Theme>)
    ensures r.Some? ==> ThemeName(r.value) == s
    ensures r.None? <==> s !in ["mono", "natural", "brutal"]
  {
    if s == "mono" then Some(Mono)
    else if s == "natural" then Some(Natural)
    else if s == "brutal" then Some(Brutal)
    else None
  }

  /** Every theme is stored under a name that reads back as itself. */
  lemma ThemeRoundTrip(t: Theme)
    ensures ParseTheme(ThemeName(t)) == Some(t)
  {
  }

  const DefaultTheme: Theme := Brutal

  /** The theme after the mount effect: a stored value is adopted only when it
      names one of the three themes; otherwise the current theme stays. */
  function AdoptStoredTheme(current: Theme, stored: Option<string>): (r: Theme)
    ensures r != current ==> stored.Some? && ThemeName(r) == stored.value
    ensures stored.Some? && stored.value in ["mono", "natural", "brutal"] ==>
      ThemeName(r) == stored.value
    ensures stored.None? || stored.value !in ["mono", "natural", "brutal"] ==> r == current
  {
    if stored.Some? && stored.value != "" && ParseTheme(stored.value).Some? then
      ParseTheme(stored.value).value
    else current
  }

  /** The page's state: the todo store and the theme. */
  class HomePage {
    const store: TodoStore
    var theme: Theme

    constructor ()
      ensures fresh(store) && theme == DefaultTheme
      ensures store.todos == [] && store.inputValue == "" && !store.isLoaded
    {
      store := new TodoStore();
      theme := DefaultTheme;
    }

    /** The mount effect: stored todos and a stored theme are read back. */
    method Hydrate(storedTodos: Option<seq<Todo>>, storedTheme: Option<string>)
      modifies this`theme, store`todos, store`isLoaded
      ensures store.todos == (if storedTodos.Some? then storedTodos.value else old(store.todos))
      ensures theme == AdoptStoredTheme(old(theme), storedTheme)
      ensures store.isLoaded && store.inputValue == old(store.inputValue)
    {
      if storedTheme.Some? && storedTheme.value != "" {
        var parsed := ParseTheme(storedTheme.value);
        if parsed.Some? {
          theme := parsed.value;
        }
      }
      store.Hydrate(storedTodos);
    }

    /** A click on one of the theme buttons. */
    method SelectTheme(t: Theme)
      modifies this`theme
      ensures theme == t
    {
      theme := t;
    }

    /** `addTodo` */
    method AddTodo(newId: string, now: int)
      modifies store`todos, store`inputValue
      ensures store.todos == Todos.AddTodo(old(store.todos), old(store.inputValue), newId, now)
      ensures store.inputValue ==
        if Text.IsBlank(old(store.inputValue)) then old(store.inputValue) else ""
    {
      store.Add(newId, now);
    }

    /** `toggleTodo` */
    method ToggleTodo(id: string)
      modifies store`todos
      ensures store.todos == Todos.ToggleTodo(old(store.todos), id)
    {
      store.Toggle(id);
    }

    /** `deleteTodo` */
    method DeleteTodo(id: string)
      modifies store`todos
      ensures store.todos == Todos.DeleteTodo(old(store.todos), id)
    {
      store.Delete(id);
    }

    /** The "Clear completed" button. */
    method ClearCompleted()
      modifies store`todos
      ensures store.todos == Todos.ClearCompleted(old(store.todos))
      ensures CompletedCount(store.todos) == 0
    {
      store.ClearCompletedTodos();
    }

    /** The header's status line. */
    function Status(): (r: string)
      reads this, store
      ensures r == EmptyStatus <==> store.todos == []
    {
      store.Status()
    }
  }
}
