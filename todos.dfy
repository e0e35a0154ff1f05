/** The todo list of src/components/TodoSection.tsx (and its copy inside
    src/app/page.tsx): a newest-first sequence of todos and the text input,
    updated by the add, toggle, delete and clear-completed handlers. */
module Todos {
  import opened Wrappers
  import opened Text
  import opened Seqs

  /** The record of src/app/page.tsx; `createdAt` is the `Date.now()` stamp. */
  datatype Todo = Todo(id: string, text: string, completed: bool, createdAt: int)

  function TodoId(t: Todo): string { t.id }

  /** `{ ...todo, completed: !todo.completed }` */
  function Flip(t: Todo): Todo { t.(completed := !t.completed) }

  predicate IsActive(t: Todo) { !t.completed }

  /** The new todo list after submitting `input`: blank input is ignored, any other
      input puts one fresh, uncompleted todo holding the trimmed text in front. */
  function AddTodo(todos: seq<Todo>, input: string, id: string, now: int): (r: seq<Todo>)
    ensures IsBlank(input) ==> r == todos
    ensures !IsBlank(input) ==> |r| == |todos| + 1 && r[1..] == todos
    ensures !IsBlank(input) ==>
      && r[0].id == id && r[0].createdAt == now && !r[0].completed
      && r[0].text == Trim(input) && r[0].text != []
      && !IsWhitespace(r[0].text[0]) && !IsWhitespace(r[0].text[|r[0].text| - 1])
  {
    if IsBlank(input) then todos else [Todo(id, Trim(input), false, now)] + todos
  }

  /** Flips `completed` on the todos carrying `id`; every other field, every other
      todo, the length and the order stay as they were. */
  function ToggleTodo(todos: seq<Todo>, id: string): (r: seq<Todo>)
    ensures |r| == |todos|
    ensures forall i :: 0 <= i < |todos| ==>
      && r[i].id == todos[i].id && r[i].text == todos[i].text
      && r[i].createdAt == todos[i].createdAt
      && r[i].completed == (todos[i].completed != (todos[i].id == id))
  {
    UpdateKey(TodoId, todos, id, Flip)
  }

  /** Drops every todo carrying `id` and keeps the others. */
  function DeleteTodo(todos: seq<Todo>, id: string): (r: seq<Todo>)
    ensures forall t :: t in r <==> t in todos && t.id != id
  {
    RemoveKey(TodoId, todos, id)
  }

  /** `todos.filter((t) => !t.completed)` */
  function ClearCompleted(todos: seq<Todo>): (r: seq<Todo>)
    ensures |r| <= |todos|
    ensures forall t :: t in r <==> t in todos && !t.completed
  {
    if todos == [] then []
    else if IsActive(todos[0]) then [todos[0]] + ClearCompleted(todos[1..])
    else ClearCompleted(todos[1..])
  }

  /** `todos.filter((t) => t.completed).length` */
  function CompletedCount(todos: seq<Todo>): (n: nat)
    ensures n <= |todos|
    ensures n == 0 <==> forall t :: t in todos ==> !t.completed
    ensures n == |todos| <==> forall t :: t in todos ==> t.completed
  {
    if todos == [] then 0
    else (if todos[0].completed then 1 else 0) + CompletedCount(todos[1..])
  }

  const EmptyStatus: string := "No tasks yet. Add something!"

  /** The status line above the list. */
  function StatusText(todos: seq<Todo>): (r: string)
    ensures r == EmptyStatus <==> |todos| == 0
    ensures |todos| > 0 ==>
      r == NatToString(CompletedCount(todos)) + "/" + NatToString(|todos|) + " completed"
  {
    if |todos| == 0 then EmptyStatus
    else
      var r := NatToString(CompletedCount(todos)) + "/" + NatToString(|todos|) + " completed";
      assert r[0] != EmptyStatus[0];
      r
  }

  /** Adding a todo under a fresh id and then deleting that id restores the list. */
  lemma AddThenDelete(todos: seq<Todo>, input: string, id: string, now: int)
    requires !IsBlank(input)
    requires forall i :: 0 <= i < |todos| ==> todos[i].id != id
    ensures DeleteTodo(AddTodo(todos, input, id, now), id) == todos
  {
    var t := Todo(id, Trim(input), false, now);
    RemoveKeyConcat(TodoId, [t], todos, id);
    RemoveAbsentKey(TodoId, todos, id);
  }

  /** Adding under a fresh id keeps the ids unique. */
  lemma AddKeepsIdsUnique(todos: seq<Todo>, input: string, id: string, now: int)
    requires UniqueKeys(TodoId, todos)
    requires forall i :: 0 <= i < |todos| ==> todos[i].id != id
    ensures UniqueKeys(TodoId, AddTodo(todos, input, id, now))
  {
    var r := AddTodo(todos, input, id, now);
    if !IsBlank(input) {
      forall i, j | 0 <= i < j < |r| ensures TodoId(r[i]) != TodoId(r[j]) {
        assert r[j] == todos[j - 1];
        if i > 0 { assert r[i] == todos[i - 1]; }
      }
    }
  }

  /** Toggling the same id twice restores the original list. */
  lemma ToggleTwice(todos: seq<Todo>, id: string)
    ensures ToggleTodo(ToggleTodo(todos, id), id) == todos
  {
    UpdateKeyTwice(TodoId, todos, id, Flip);
  }

  /** Toggling never changes the ids, so their uniqueness is kept. */
  lemma ToggleKeepsIdsUnique(todos: seq<Todo>, id: string)
    requires UniqueKeys(TodoId, todos)
    ensures UniqueKeys(TodoId, ToggleTodo(todos, id))
  {
    var r := ToggleTodo(todos, id);
    forall i, j | 0 <= i < j < |r| ensures TodoId(r[i]) != TodoId(r[j]) {
      assert TodoId(todos[i]) != TodoId(todos[j]);
    }
  }

  /** With unique ids, toggling the todo at `k` moves the completed count by one. */
  lemma {:induction false} ToggleCount(todos: seq<Todo>, id: string, k: nat)
    requires UniqueKeys(TodoId, todos)
    requires k < |todos| && todos[k].id == id
    ensures CompletedCount(ToggleTodo(todos, id)) ==
      if todos[k].completed then CompletedCount(todos) - 1 else CompletedCount(todos) + 1
  {
    var r := ToggleTodo(todos, id);
    assert r[1..] == ToggleTodo(todos[1..], id);
    if k == 0 {
      assert forall i :: 0 <= i < |todos[1..]| ==> todos[1..][i].id != id by {
        forall i | 0 <= i < |todos[1..]| ensures todos[1..][i].id != id {
          assert TodoId(todos[0]) != TodoId(todos[i + 1]);
        }
      }
      ToggleAbsent(todos[1..], id);
    } else {
      assert todos[0].id != id by { assert TodoId(todos[0]) != TodoId(todos[k]); }
      assert UniqueKeys(TodoId, todos[1..]) by {
        forall i, j | 0 <= i < j < |todos[1..]|
          ensures TodoId(todos[1..][i]) != TodoId(todos[1..][j])
        {
          assert TodoId(todos[i + 1]) != TodoId(todos[j + 1]);
        }
      }
      ToggleCount(todos[1..], id, k - 1);
    }
  }

  /** Toggling an id that no todo carries changes nothing. */
  lemma ToggleAbsent(todos: seq<Todo>, id: string)
    requires forall i :: 0 <= i < |todos| ==> todos[i].id != id
    ensures ToggleTodo(todos, id) == todos
  {
    var r := ToggleTodo(todos, id);
    assert forall i :: 0 <= i < |todos| ==> r[i] == todos[i];
  }

  /** Deleting an id that no todo carries is a no-op. */
  lemma DeleteAbsent(todos: seq<Todo>, id: string)
    requires forall i :: 0 <= i < |todos| ==> todos[i].id != id
    ensures DeleteTodo(todos, id) == todos
  {
    RemoveAbsentKey(TodoId, todos, id);
  }

  /** Deleting keeps the survivors in their relative order: it distributes over
      any split of the list. */
  lemma DeleteKeepsOrder(front: seq<Todo>, back: seq<Todo>, id: string)
    ensures DeleteTodo(front + back, id) == DeleteTodo(front, id) + DeleteTodo(back, id)
  {
    RemoveKeyConcat(TodoId, front, back, id);
  }

  /** Clearing keeps the uncompleted todos in their relative order. */
  lemma {:induction false} ClearCompletedKeepsOrder(front: seq<Todo>, back: seq<Todo>)
    ensures ClearCompleted(front + back) == ClearCompleted(front) + ClearCompleted(back)
  {
    if front == [] {
      assert front + back == back;
    } else {
      assert (front + back)[0] == front[0];
      assert (front + back)[1..] == front[1..] + back;
      ClearCompletedKeepsOrder(front[1..], back);
    }
  }

  /** Clearing removes exactly the completed todos: none is left, and the count
      drops by the number that were completed. */
  lemma {:induction false} ClearCompletedCount(todos: seq<Todo>)
    ensures CompletedCount(ClearCompleted(todos)) == 0
    ensures |ClearCompleted(todos)| == |todos| - CompletedCount(todos)
  {
    if todos != [] {
      ClearCompletedCount(todos[1..]);
    }
  }

  /** The two walk-throughs of src/components/TodoSection.test.tsx, run on one
      todo: add it ("0/1 completed"), toggle it ("1/1 completed"), delete it
      (the empty-list status again). */
  lemma StatusWalkThrough(id: string, now: int)
    ensures var added := AddTodo([], "Buy milk", id, now);
      && StatusText([]) == EmptyStatus
      && StatusText(added) == "0/1 completed"
      && StatusText(ToggleTodo(added, id)) == "1/1 completed"
      && StatusText(DeleteTodo(ToggleTodo(added, id), id)) == EmptyStatus
  {
    var input: string := "Buy milk";
    BuyMilkIsTrimmed();
    var added := AddTodo([], input, id, now);
    assert added == [Todo(id, input, false, now)];
    var toggled := ToggleTodo(added, id);
    assert toggled == [Todo(id, input, true, now)];
    assert CompletedCount(added) == 0 && CompletedCount(toggled) == 1;
    SmallDigits();
    assert StatusText(added) == "0" + "/" + "1" + " completed";
    assert StatusText(toggled) == "1" + "/" + "1" + " completed";
  }

  lemma BuyMilkIsTrimmed()
    ensures !IsBlank("Buy milk") && Trim("Buy milk") == "Buy milk"
  {
    var input: string := "Buy milk";
    assert !IsWhitespace(input[0]);
    assert TrimStart(input) == input;
    assert !IsWhitespace(input[|input| - 1]);
    assert TrimEnd(input) == input;
  }

  lemma SmallDigits()
    ensures NatToString(0) == "0" && NatToString(1) == "1"
  {
  }

  /** The todo state of one component: the list and the text input. */
  class TodoStore {
    var todos: seq<Todo>
    var inputValue: string
    var isLoaded: bool

    constructor ()
      ensures todos == [] && inputValue == "" && !isLoaded
    {
      todos, inputValue, isLoaded := [], "", false;
    }

    /** The mount effect: adopt the todos read back from local storage, if any
        were stored, then mark the component loaded. */
    method Hydrate(stored: Option<seq<Todo>>)
      modifies this`todos, this`isLoaded
      ensures todos == (if stored.Some? then stored.value else old(todos))
      ensures isLoaded && inputValue == old(inputValue)
    {
      if stored.Some? {
        todos := stored.value;
      }
      isLoaded := true;
    }

    /** Typing into the input. */
    method SetInput(value: string)
      modifies this`inputValue
      ensures inputValue == value
    {
      inputValue := value;
    }

    /** `addTodo`; `newId` and `now` stand for `crypto.randomUUID()` and `Date.now()`. */
    method Add(newId: string, now: int)
      modifies this`todos, this`inputValue
      ensures todos == AddTodo(old(todos), old(inputValue), newId, now)
      ensures inputValue == if IsBlank(old(inputValue)) then old(inputValue) else ""
    {
      if IsBlank(inputValue) {
        return;
      }
      var newTodo := Todo(newId, Trim(inputValue), false, now);
      todos := [newTodo] + todos;
      inputValue := "";
    }

    /** `toggleTodo` */
    method Toggle(id: string)
      modifies this`todos
      ensures todos == ToggleTodo(old(todos), id)
    {
      todos := ToggleTodo(todos, id);
    }

    /** `deleteTodo` */
    method Delete(id: string)
      modifies this`todos
      ensures todos == DeleteTodo(old(todos), id)
    {
      todos := DeleteTodo(todos, id);
    }

    /** The "Clear completed" button. */
    method ClearCompletedTodos()
      modifies this`todos
      ensures todos == ClearCompleted(old(todos))
      ensures CompletedCount(todos) == 0
    {
      todos := ClearCompleted(todos);
      ClearCompletedCount(old(todos));
    }

    /** `completedCount`, `totalCount` and the status line they feed. */
    function Status(): (r: string)
      reads this
      ensures r == EmptyStatus <==> todos == []
    {
      StatusText(todos)
    }
  }
}
