/**
 * EditTodoForm (src/components/forms/EditForm.jsx): the stored user's id, the
 * load of a todo into the form, the update request and its answer, and which
 * controls the view/edit mode shows. The status table and the date formatter
 * the file imports from TodoForm.jsx are parameters; the schema it imports is
 * TodoForm's schema.
 */
module EditForm {
  import opened Wrappers
  import opened JsValues
  import opened Http
  import Decimal
  import Zod
  import LoginApi
  import TodoApi
  import TodoForm
  import Ui
  import WebStorage

  const LoadError := "Error getting todo. Please try again."
  const UpdateError := "Error updating todo. Please try again."

  /** const { id } = loginApi.getUser(): destructuring null, with no stored user, throws. */
  function UserId(storage: map<string, string>): (r: Result<JsValue, Error>)
    ensures LoginApi.GetUser(storage) == Success(Null) ==> r.Failure? && r.error.TypeError?
    ensures LoginApi.GetUser(storage).Success? && r.Success? ==> Get(LoginApi.GetUser(storage).value, "id") == Success(r.value)
  {
    match LoginApi.GetUser(storage)
    case Failure(e) => Failure(e)
    case Success(u) =>
      match Get(u, "id")
      case Failure(m) => Failure(TypeError(m))
      case Success(id) => Success(id)
  }

  /** The default values, with now the ISO text of the current time. */
  function Defaults(now: string, id: JsValue): seq<Prop> {
    [ Prop("title", Str("")), Prop("description", Str("")), Prop("status", Num(0)), Prop("priority", Num(0)),
      Prop("startDate", Str(now)), Prop("endDate", Str(now)), Prop("star", Bool(false)), Prop("isActive", Bool(true)),
      Prop("userId", id) ]
  }

  /** The effect's guard todoId !== null || !id, and the request it makes. */
  function LoadRequest(todoId: JsValue, id: JsValue): (r: Option<Call>)
    ensures r.Some? <==> !todoId.Null? || !Truthy(id)
    ensures r.Some? ==> r.value == TodoApi.GetById(todoId)
  {
    if !StrictEquals(todoId, Null) || !Truthy(id) then Some(TodoApi.GetById(todoId)) else None
  }

  /** lodash findKey(table, val => val === v): the first key whose value is v. */
  function FindKey(table: seq<Prop>, v: JsValue): (r: Option<string>)
    ensures r.None? <==> forall i :: 0 <= i < |table| ==> !StrictEquals(table[i].value, v)
    ensures r.Some? ==> exists i :: 0 <= i < |table| && table[i].key == r.value && StrictEquals(table[i].value, v)
                                    && forall j :: 0 <= j < i ==> !StrictEquals(table[j].value, v)
  {
    if table == [] then None
    else if StrictEquals(table[0].value, v) then Some(table[0].key)
    else
      var r := FindKey(table[1..], v);
      assert forall i :: 1 <= i < |table| ==> table[i] == table[1..][i - 1];
      if r.Some? then
        var i :| 0 <= i < |table[1..]| && table[1..][i].key == r.value && StrictEquals(table[1..][i].value, v)
                 && forall j :: 0 <= j < i ==> !StrictEquals(table[1..][j].value, v);
        assert table[i + 1].key == r.value && StrictEquals(table[i + 1].value, v);
        r
      else r
  }

  /** Number(key): Number(undefined) is NaN, a decimal integer text its value. */
  function KeyNumber(key: Option<string>): JsValue {
    match key
    case None => NaN
    case Some(k) =>
      match Decimal.StringToNumber(k)
      case Some(n) => Num(n)
      case None => NaN
  }

  /**
   * The values reset(...) receives for a loaded todo: its own fields, with
   * startDate and endDate formatted and status replaced by the table's key for it.
   * Reading a field of a null or undefined todo throws.
   */
  function ResetValues(data: JsValue, table: seq<Prop>, formatDate: JsValue -> JsValue): (r: Result<seq<Prop>, Error>)
    ensures r.Failure? <==> data.Null? || data.Undefined?
  {
    match Get(data, "status")
    case Failure(m) => Failure(TypeError(m))
    case Success(status) =>
      var start := formatDate(Get(data, "startDate").value);
      var end := formatDate(Get(data, "endDate").value);
      Success(Put(Put(Put(OwnProps(data), "startDate", start), "endDate", end), "status", KeyNumber(FindKey(table, status))))
  }

  datatype Loaded = Loaded(values: seq<Prop>, toast: Option<Ui.Effect>)

  /** The then-, catch- and finally-callbacks of the load: reset on success, one error notification otherwise. */
  function LoadStep(values: seq<Prop>, outcome: Settled<Response>, table: seq<Prop>, formatDate: JsValue -> JsValue): (r: Loaded)
    ensures r.toast.None? || r.toast == Some(Ui.ToastError(Str(LoadError)))
    ensures r.toast.Some? ==> r.values == values
  {
    var failed := Loaded(values, Some(Ui.ToastError(Str(LoadError))));
    match outcome
    case Rejected(_) => failed
    case Resolved(res) =>
      match Get(res.data, "data")
      case Failure(_) => failed
      case Success(data) =>
        match ResetValues(data, table, formatDate)
        case Failure(_) => failed
        case Success(v) => Loaded(v, None)
  }

  /** handleSubmit(handleOnSubmit): the update request for values that pass TodoForm's schema. */
  function Submit(todoId: JsValue, values: seq<Prop>): Result<Call, seq<Zod.Issue>> {
    match Zod.ParseObject(TodoForm.TodoSchema(), values)
    case Success(parsed) => Success(TodoApi.UpdateTodo(todoId, Obj(parsed)))
    case Failure(issues) => Failure(issues)
  }

  /** The then- and catch-callbacks of the update; a throw in then ends in catch. */
  function UpdateEffects(outcome: Settled<Response>): seq<Ui.Effect> {
    var failed := [Ui.ToastError(Str(UpdateError))];
    match outcome
    case Rejected(_) => failed
    case Resolved(res) =>
      match ReadEnvelope(res)
      case Failure(_) => failed
      case Success(env) =>
        if !Truthy(env.success) then [Ui.ToastError(env.message)]
        else [Ui.ToastSuccess(env.message), Ui.CallOnSuccess, Ui.CloseDialog]
  }

  /** The controls the dialog shows: its title, whether each of the six inputs is disabled, and the submit button. */
  datatype View = View(title: string, disabled: seq<bool>, submitButton: Option<string>)

  function Render(isEdit: bool): View {
    View(if isEdit then "Edit Todo" else "Todo detail", seq(6, _ => !isEdit), if isEdit then Some("Edit") else None)
  }

  class EditTodoForm {
    var values: seq<Prop>
    var isLoading: bool

    /** Rendering the form: the user id comes from the stored user, whose absence throws (UserId). */
    constructor (now: string, storage: map<string, string>)
      requires UserId(storage).Success?
      ensures values == Defaults(now, UserId(storage).value) && !isLoading
    {
      values := Defaults(now, UserId(storage).value);
      isLoading := false;
    }

    /** The effect on mount and on every change of todoId; outcome is how the request settled. */
    method Load(todoId: JsValue, id: JsValue, outcome: Settled<Response>, table: seq<Prop>, formatDate: JsValue -> JsValue)
      returns (request: Option<Call>, toast: Option<Ui.Effect>)
      modifies this
      ensures request == LoadRequest(todoId, id)
      ensures request.None? ==> values == old(values) && isLoading == old(isLoading) && toast.None?
      ensures request.Some? ==> Loaded(values, toast) == LoadStep(old(values), outcome, table, formatDate) && !isLoading
    {
      request := LoadRequest(todoId, id);
      toast := None;
      if request.Some? {
        var r := LoadStep(values, outcome, table, formatDate);
        values := r.values;
        toast := r.toast;
        isLoading := false;
      }
    }
  }

  // ---------------------------------------------------------------- properties of the load

  /** Without a stored user the form cannot even be built. */
  lemma NoUserNoForm(storage: map<string, string>)
    requires WebStorage.UserKey !in storage
    ensures UserId(storage).Failure?
  {
  }

  /** A null todoId still loads when there is no user id, from the path "/todo/null". */
  lemma NullIdLoads()
    ensures LoadRequest(Null, Undefined) == Some(Call(GET, "/todo/null", Undefined, Undefined))
    ensures forall id :: Truthy(id) ==> LoadRequest(Null, id).None?
  {
    assert TodoApi.ItemPath(Null) == "/todo/" + "null" == "/todo/null";
  }

  /** The reset keeps every field of the todo but the three it rewrites. */
  lemma ResetFields(data: JsValue, table: seq<Prop>, formatDate: JsValue -> JsValue, k: string)
    requires data.Obj?
    ensures var r := ResetValues(data, table, formatDate).value;
      Lookup(r, k) == (if k == "status" then Some(KeyNumber(FindKey(table, Get(data, "status").value)))
                       else if k == "endDate" then Some(formatDate(Get(data, "endDate").value))
                       else if k == "startDate" then Some(formatDate(Get(data, "startDate").value))
                       else Lookup(data.props, k))
  {
    var start := formatDate(Get(data, "startDate").value);
    var end := formatDate(Get(data, "endDate").value);
    var p1 := Put(data.props, "startDate", start);
    var p2 := Put(p1, "endDate", end);
    PutLookup(data.props, "startDate", start, k);
    PutLookup(p1, "endDate", end, k);
    PutLookup(p2, "status", KeyNumber(FindKey(table, Get(data, "status").value)), k);
  }

  /** A status found under the key String(n) becomes the number n, the value of that menu item. */
  lemma StatusFromTable(table: seq<Prop>, status: JsValue, n: int)
    requires FindKey(table, status) == Some(Decimal.IntToString(n))
    ensures KeyNumber(FindKey(table, status)) == Num(n)
  {
    Decimal.IntToStringRoundTrip(n);
  }

  /** A NaN status is refused by the schema, so the update is not sent. */
  lemma NaNStatusRefused(todoId: JsValue, values: seq<Prop>)
    requires Lookup(values, "status") == Some(NaN)
    ensures Zod.Issue("status", "Expected number, received nan") in Zod.Issues(TodoForm.TodoSchema(), values)
    ensures Submit(todoId, values).Failure?
  {
    var shape := TodoForm.TodoSchema();
    assert shape[2] == Zod.Field("status", Zod.ZNumber, true);
    assert Zod.Member(values, "status") == NaN;
    Zod.NaNIsNoNumber(shape[2]);
    Zod.IssueReported(shape, values, 2);
  }

  /** A status missing from the table becomes NaN: such a todo cannot be saved without choosing a status. */
  lemma UnknownStatusBlocksUpdate(todoId: JsValue, data: JsValue, table: seq<Prop>, formatDate: JsValue -> JsValue)
    requires data.Obj? && FindKey(table, Get(data, "status").value).None?
    ensures Submit(todoId, ResetValues(data, table, formatDate).value).Failure?
  {
    ResetFields(data, table, formatDate, "status");
    NaNStatusRefused(todoId, ResetValues(data, table, formatDate).value);
  }

  /** Every way the load can fail shows exactly one error and keeps the values; a success shows nothing. */
  lemma LoadOutcomes(values: seq<Prop>, outcome: Settled<Response>, table: seq<Prop>, formatDate: JsValue -> JsValue)
    ensures var r := LoadStep(values, outcome, table, formatDate);
      r.toast.None? <==> outcome.Resolved? && Get(outcome.value.data, "data").Success?
                         && ResetValues(Get(outcome.value.data, "data").value, table, formatDate).Success?
    ensures var r := LoadStep(values, outcome, table, formatDate);
      r.toast.None? ==> r.values == ResetValues(Get(outcome.value.data, "data").value, table, formatDate).value
  {
  }

  // ---------------------------------------------------------------- properties of the update

  /** What is sent holds only schema fields: startDate and userId, which the form carries, are dropped. */
  lemma UpdateStripsUnknown(todoId: JsValue, values: seq<Prop>, k: string)
    requires Submit(todoId, values).Success?
    ensures Submit(todoId, values).value == TodoApi.UpdateTodo(todoId, Submit(todoId, values).value.body)
    ensures Submit(todoId, values).value.body.Obj?
    ensures Lookup(Submit(todoId, values).value.body.props, k) == if k in Zod.Names(TodoForm.TodoSchema()) then Lookup(values, k) else None
    ensures Lookup(Submit(todoId, values).value.body.props, "startDate") == None
    ensures Lookup(Submit(todoId, values).value.body.props, "userId") == None
  {
    var shape := TodoForm.TodoSchema();
    TodoForm.SchemaDistinct();
    assert Zod.ParseObject(shape, values).Success?;
    Zod.ParsedLookup(shape, values, k);
    Zod.ParsedLookup(shape, values, "startDate");
    Zod.ParsedLookup(shape, values, "userId");
    TodoForm.StartDateUnnamed();
    TodoForm.UserIdUnnamed();
  }

  /** success false: exactly the server's message, and neither callback runs. */
  lemma UpdateRefused(res: Response)
    requires ReadEnvelope(res).Success? && !Truthy(ReadEnvelope(res).value.success)
    ensures UpdateEffects(Resolved(res)) == [Ui.ToastError(ReadEnvelope(res).value.message)]
  {
  }

  /** success true: the message, then onSuccess, then closeDialog. */
  lemma UpdateSaved(res: Response)
    requires ReadEnvelope(res).Success? && Truthy(ReadEnvelope(res).value.success)
    ensures UpdateEffects(Resolved(res)) == [Ui.ToastSuccess(ReadEnvelope(res).value.message), Ui.CallOnSuccess, Ui.CloseDialog]
  {
  }

  /** A rejected update, or an answer without an envelope, gives the one generic error. */
  lemma UpdateFailed(outcome: Settled<Response>)
    requires outcome.Rejected? || ReadEnvelope(outcome.value).Failure?
    ensures UpdateEffects(outcome) == [Ui.ToastError(Str(UpdateError))]
  {
  }

  /** Every update ends in exactly one notification; the callbacks run together, exactly on success. */
  lemma UpdateOneToast(outcome: Settled<Response>)
    ensures Ui.ToastCount(UpdateEffects(outcome)) == 1
    ensures Ui.CallOnSuccess in UpdateEffects(outcome) <==> Ui.CloseDialog in UpdateEffects(outcome)
    ensures Ui.CloseDialog in UpdateEffects(outcome) <==>
      outcome.Resolved? && ReadEnvelope(outcome.value).Success? && Truthy(ReadEnvelope(outcome.value).value.success)
  {
    var e := UpdateEffects(outcome);
    if |e| == 3 {
      assert e[1..][1..][1..] == [];
      assert Ui.ToastCount(e[1..][1..]) == 0;
      assert Ui.ToastCount(e[1..]) == 0;
    } else {
      assert e[1..] == [];
    }
  }

  // ---------------------------------------------------------------- the view

  /** Every input is disabled exactly when the form is not in edit mode, which is also when there is no submit button. */
  lemma ViewGating(isEdit: bool)
    ensures forall i :: 0 <= i < |Render(isEdit).disabled| ==> Render(isEdit).disabled[i] == !isEdit
    ensures |Render(isEdit).disabled| == 6
    ensures Render(isEdit).submitButton.Some? <==> isEdit
    ensures Render(isEdit).title == (if isEdit then "Edit Todo" else "Todo detail")
  {
  }
}
