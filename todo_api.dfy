/**
 * The REST route table of the todo endpoints (src/apis/TodoApi.js): each helper
 * turns its arguments into one call on the shared axios instance. An id is
 * placed in the path through a template literal, that is, as String(id).
 */
module TodoApi {
  import opened Wrappers
  import opened JsValues
  import opened Http
  import Decimal

  function ItemPath(id: JsValue): string {
    "/todo/" + ToStr(id)
  }

  function GetTodos(filter: JsValue): Call {
    Call(GET, "/todo", filter, Undefined)
  }

  function CreateTodo(data: JsValue): Call {
    Call(POST, "/todo", Undefined, data)
  }

  function UpdateTodo(id: JsValue, data: JsValue): Call {
    Call(PUT, ItemPath(id), Undefined, data)
  }

  function DeleteTodo(id: JsValue): Call {
    Call(DELETE, ItemPath(id), Undefined, Undefined)
  }

  function GetByUserId(id: JsValue, filter: JsValue): Call {
    Call(GET, "/Todo/GetToDosByUserId/" + ToStr(id), filter, Undefined)
  }

  function GetById(id: JsValue): Call {
    Call(GET, ItemPath(id), Undefined, Undefined)
  }

  /** The endpoint a call reaches, as the server distinguishes them, with the id as text. */
  datatype Endpoint =
    | ListTodos(params: JsValue)
    | AddTodo(body: JsValue)
    | ChangeTodo(id: string, body: JsValue)
    | RemoveTodo(id: string)
    | ListUserTodos(userId: string, params: JsValue)
    | ReadTodo(id: string)

  /** What follows prefix in s, when s starts with it. */
  function After(prefix: string, s: string): (r: Option<string>)
    ensures r.Some? <==> |prefix| <= |s| && s[..|prefix|] == prefix
    ensures r.Some? ==> s == prefix + r.value
  {
    if |prefix| <= |s| && s[..|prefix|] == prefix then
      assert s == s[..|prefix|] + s[|prefix|..];
      Some(s[|prefix|..])
    else None
  }

  lemma AfterPrefix(prefix: string, x: string)
    ensures After(prefix, prefix + x) == Some(x)
  {
    assert (prefix + x)[..|prefix|] == prefix;
    assert (prefix + x)[|prefix|..] == x;
  }

  /** The server side of the table: which endpoint a call names, if any. */
  function Recognize(c: Call): Option<Endpoint> {
    match c.verb
    case GET =>
      if c.path == "/todo" then Some(ListTodos(c.params))
      else if After("/todo/", c.path).Some? then Some(ReadTodo(After("/todo/", c.path).value))
      else if After("/Todo/GetToDosByUserId/", c.path).Some? then
        Some(ListUserTodos(After("/Todo/GetToDosByUserId/", c.path).value, c.params))
      else None
    case POST =>
      if c.path == "/todo" then Some(AddTodo(c.body)) else None
    case PUT =>
      if After("/todo/", c.path).Some? then Some(ChangeTodo(After("/todo/", c.path).value, c.body)) else None
    case DELETE =>
      if After("/todo/", c.path).Some? then Some(RemoveTodo(After("/todo/", c.path).value)) else None
  }

  lemma GetTodosRoute(filter: JsValue)
    ensures Recognize(GetTodos(filter)) == Some(ListTodos(filter))
    ensures GetTodos(filter).body.Undefined?
  {
  }

  lemma CreateTodoRoute(data: JsValue)
    ensures Recognize(CreateTodo(data)) == Some(AddTodo(data))
    ensures CreateTodo(data).params.Undefined?
  {
  }

  lemma UpdateTodoRoute(id: JsValue, data: JsValue)
    ensures Recognize(UpdateTodo(id, data)) == Some(ChangeTodo(ToStr(id), data))
  {
    AfterPrefix("/todo/", ToStr(id));
  }

  lemma DeleteTodoRoute(id: JsValue)
    ensures Recognize(DeleteTodo(id)) == Some(RemoveTodo(ToStr(id)))
    ensures DeleteTodo(id).body.Undefined?
  {
    AfterPrefix("/todo/", ToStr(id));
  }

  lemma GetByIdRoute(id: JsValue)
    ensures Recognize(GetById(id)) == Some(ReadTodo(ToStr(id)))
  {
    AfterPrefix("/todo/", ToStr(id));
    assert |ItemPath(id)| > |"/todo"|;
  }

  lemma GetByUserIdRoute(id: JsValue, filter: JsValue)
    ensures Recognize(GetByUserId(id, filter)) == Some(ListUserTodos(ToStr(id), filter))
  {
    var path := "/Todo/GetToDosByUserId/" + ToStr(id);
    AfterPrefix("/Todo/GetToDosByUserId/", ToStr(id));
    assert path[1] == 'T';
    assert After("/todo/", path).None?;
  }

  /** Reading, updating and deleting one todo address the same resource. */
  lemma ItemRoutesAgree(id: JsValue, data: JsValue)
    ensures GetById(id).path == UpdateTodo(id, data).path == DeleteTodo(id).path == ItemPath(id)
  {
  }

  /** Numeric ids name distinct resources: the path determines the id. */
  lemma ItemPathInjective(a: int, b: int)
    requires ItemPath(Num(a)) == ItemPath(Num(b))
    ensures a == b
  {
    AfterPrefix("/todo/", ToStr(Num(a)));
    AfterPrefix("/todo/", ToStr(Num(b)));
    Decimal.IntToStringRoundTrip(a);
    Decimal.IntToStringRoundTrip(b);
  }
}
