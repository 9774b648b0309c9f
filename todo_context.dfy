/** The list state kept by `TodoProvider` (TodoMobile/app/contexts/TodoContext.tsx): the local
    copy of the todos, a loading flag and an error string, updated from the results of the todo
    service. Each provider operation receives the settled result of its service call. */
module TodoContext {
  import opened Wrappers
  import opened Types

  /** A value a rejected promise carried: an `Error` (with its message) or anything else. */
  datatype Thrown = ErrorObject(message: string) | OtherValue

  /** How an awaited service call settled. */
  datatype Settled<T> = Resolved(value: T) | Rejected(thrown: Thrown)

  /** `err instanceof Error ? err.message : fallback`. */
  function ErrorText(thrown: Thrown, fallback: string): string {
    match thrown
    case ErrorObject(message) => message
    case OtherValue => fallback
  }

  /** `todos.map(t => t.id === id ? updated : t)`. */
  function ReplaceById(todos: seq<Todo>, id: int, updated: Todo): (r: seq<Todo>)
    ensures |r| == |todos|
    ensures forall i :: 0 <= i < |r| ==> r[i] == if todos[i].id == id then updated else todos[i]
  {
    if todos == [] then []
    else [if todos[0].id == id then updated else todos[0]] + ReplaceById(todos[1..], id, updated)
  }

  /** `todos.filter(t => t.id !== id)`. */
  function RemoveById(todos: seq<Todo>, id: int): (r: seq<Todo>)
    ensures |r| <= |todos|
    ensures forall i :: 0 <= i < |r| ==> r[i].id != id && r[i] in todos
  {
    if todos == [] then []
    else if todos[0].id == id then RemoveById(todos[1..], id)
    else [todos[0]] + RemoveById(todos[1..], id)
  }

  /** Number of todos carrying `id`. */
  function CountId(todos: seq<Todo>, id: int): nat {
    if todos == [] then 0 else (if todos[0].id == id then 1 else 0) + CountId(todos[1..], id)
  }

  /** Replacing by an id nobody has changes nothing. */
  lemma {:induction false} ReplaceAbsentId(todos: seq<Todo>, id: int, updated: Todo)
    requires CountId(todos, id) == 0
    ensures ReplaceById(todos, id, updated) == todos
  {
    if todos != [] {
      ReplaceAbsentId(todos[1..], id, updated);
    }
  }

  /** Removal drops exactly the todos with that id: everything else survives, and the length
      shrinks by the number of matches. */
  lemma {:induction false} RemoveByIdExact(todos: seq<Todo>, id: int, t: Todo)
    ensures t in RemoveById(todos, id) <==> t in todos && t.id != id
    ensures |RemoveById(todos, id)| == |todos| - CountId(todos, id)
  {
    if todos != [] {
      RemoveByIdExact(todos[1..], id, t);
      assert todos == [todos[0]] + todos[1..];
    }
  }

  /** Removal commutes with concatenation, so the survivors keep their order. */
  lemma {:induction false} RemoveByIdAppend(a: seq<Todo>, b: seq<Todo>, id: int)
    ensures RemoveById(a + b, id) == RemoveById(a, id) + RemoveById(b, id)
  {
    if a == [] {
      assert a + b == b;
    } else {
      assert (a + b)[1..] == a[1..] + b;
      RemoveByIdAppend(a[1..], b, id);
    }
  }

  class TodoProvider {
    var todos: seq<Todo>
    var loading: bool
    var error: string

    /** `useState([])`, `useState(false)`, `useState('')`. */
    constructor ()
      ensures todos == [] && !loading && error == ""
    {
      todos, loading, error := [], false, "";
    }

    /** `fetchTodos`: on success the list becomes the server's list and the error is cleared; on
        failure the list is kept and the error set. Loading is off afterwards either way. */
    method FetchTodos(settled: Settled<seq<Todo>>)
      modifies this
      ensures !loading
      ensures settled.Resolved? ==> todos == settled.value && error == ""
      ensures settled.Rejected? ==>
        todos == old(todos) && error == ErrorText(settled.thrown, "Failed to fetch todos")
    {
      loading := true;
      match settled {
        case Resolved(data) =>
          todos := data;
          error := "";
        case Rejected(thrown) =>
          error := ErrorText(thrown, "Failed to fetch todos");
      }
      loading := false;
    }

    /** `createTodo`: appends the server's todo at the end; a failure sets the error and is rethrown. */
    method CreateTodo(settled: Settled<Todo>) returns (rethrown: Option<Thrown>)
      modifies this
      ensures loading == old(loading)
      ensures settled.Resolved? ==> todos == old(todos) + [settled.value] && error == "" && rethrown == None
      ensures settled.Rejected? ==>
        todos == old(todos) && rethrown == Some(settled.thrown) && error == ErrorText(settled.thrown, "Failed to create todo")
    {
      match settled {
        case Resolved(newTodo) =>
          todos := todos + [newTodo];
          error := "";
          rethrown := None;
        case Rejected(thrown) =>
          error := ErrorText(thrown, "Failed to create todo");
          rethrown := Some(thrown);
      }
    }

    /** `updateTodo`: every todo with that id becomes the server's version, the others and the
        length stay; a failure sets the error and is rethrown. */
    method UpdateTodo(id: int, settled: Settled<Todo>) returns (rethrown: Option<Thrown>)
      modifies this
      ensures loading == old(loading)
      ensures settled.Resolved? ==> todos == ReplaceById(old(todos), id, settled.value) && error == "" && rethrown == None
      ensures settled.Rejected? ==>
        todos == old(todos) && rethrown == Some(settled.thrown) && error == ErrorText(settled.thrown, "Failed to update todo")
    {
      match settled {
        case Resolved(updatedTodo) =>
          todos := ReplaceById(todos, id, updatedTodo);
          error := "";
          rethrown := None;
        case Rejected(thrown) =>
          error := ErrorText(thrown, "Failed to update todo");
          rethrown := Some(thrown);
      }
    }

    /** `deleteTodo`: drops exactly the todos with that id; a failure sets the error and is rethrown. */
    method DeleteTodo(id: int, settled: Settled<()>) returns (rethrown: Option<Thrown>)
      modifies this
      ensures loading == old(loading)
      ensures settled.Resolved? ==> todos == RemoveById(old(todos), id) && error == "" && rethrown == None
      ensures settled.Rejected? ==>
        todos == old(todos) && rethrown == Some(settled.thrown) && error == ErrorText(settled.thrown, "Failed to delete todo")
    {
      match settled {
        case Resolved(_) =>
          todos := RemoveById(todos, id);
          error := "";
          rethrown := None;
        case Rejected(thrown) =>
          error := ErrorText(thrown, "Failed to delete todo");
          rethrown := Some(thrown);
      }
    }
  }
}
