/**
 * TodoForm (src/components/forms/TodoForm.jsx): the todo schema, the form's
 * defaults, and what a create request's answer does to the dialog. The date
 * default new Date().toISOString() is a parameter.
 */
module TodoForm {
  import opened Wrappers
  import opened JsValues
  import opened Http
  import Zod
  import TodoApi
  import Ui

  /** TodoSchema: a required string title and seven optional typed fields. */
  function TodoSchema(): seq<Zod.Field> {
    [ Zod.Field("title", Zod.ZString, false),
      Zod.Field("description", Zod.ZString, true),
      Zod.Field("status", Zod.ZNumber, true),
      Zod.Field("priority", Zod.ZNumber, true),
      Zod.Field("createdDate", Zod.ZString, true),
      Zod.Field("endDate", Zod.ZString, true),
      Zod.Field("star", Zod.ZBoolean, true),
      Zod.Field("isActive", Zod.ZBoolean, true) ]
  }

  /** The default values, with now the ISO text of the current time. */
  function Defaults(now: string): seq<Prop> {
    [ Prop("title", Str("")), Prop("description", Str("")), Prop("status", Num(0)), Prop("priority", Num(0)),
      Prop("createdDate", Str(now)), Prop("endDate", Str(now)), Prop("star", Bool(false)), Prop("isActive", Bool(true)) ]
  }

  /** handleSubmit(handleOnSubmit): the create request for valid values, the field errors otherwise. */
  function Submit(values: seq<Prop>): Result<Call, seq<Zod.Issue>> {
    match Zod.ParseObject(TodoSchema(), values)
    case Success(parsed) => Success(TodoApi.CreateTodo(Obj(parsed)))
    case Failure(issues) => Failure(issues)
  }

  /**
   * The then-callback of the create request. A rejected request, or an answer
   * without an envelope (the destructuring throws), is not caught: nothing happens.
   */
  function CreateEffects(outcome: Settled<Response>): seq<Ui.Effect> {
    match outcome
    case Rejected(_) => []
    case Resolved(res) =>
      match ReadEnvelope(res)
      case Failure(_) => []
      case Success(env) =>
        if !Truthy(env.success) then [Ui.ToastError(env.message)]
        else [Ui.ToastSuccess(env.message), Ui.CloseDialog]
  }

  function DialogTitle(isEditing: bool): string {
    if isEditing then "Edit Todo" else "Add New Todo"
  }

  function SubmitLabel(isEditing: bool): string {
    if isEditing then "Update" else "Add"
  }

  // ---------------------------------------------------------------- properties of the schema

  lemma SchemaNames()
    ensures Zod.Names(TodoSchema()) == ["title", "description", "status", "priority", "createdDate", "endDate", "star", "isActive"]
  {
  }

  lemma SchemaDistinct()
    ensures Zod.DistinctNames(TodoSchema())
  {
  }

  /** The form's startDate input is no field of the schema. */
  lemma StartDateUnnamed()
    ensures "startDate" !in Zod.Names(TodoSchema())
  {
    SchemaNames();
  }

  /** Nor is the userId that the edit form carries. */
  lemma UserIdUnnamed()
    ensures "userId" !in Zod.Names(TodoSchema())
  {
    SchemaNames();
  }

  /** title is the one required field; each other field is optional with a fixed type. */
  lemma SchemaFields()
    ensures TodoSchema()[0] == Zod.Field("title", Zod.ZString, false)
    ensures forall i :: 1 <= i < |TodoSchema()| ==> TodoSchema()[i].optional
  {
  }

  /** The empty title passes: there is no minimum length. A missing title is "Required". */
  lemma TitleRules(values: seq<Prop>)
    ensures Zod.FieldIssue(TodoSchema()[0], Str("")).None?
    ensures "title" !in Keys(values) ==> Zod.Issue("title", "Required") in Zod.Issues(TodoSchema(), values)
  {
    if "title" !in Keys(values) {
      assert Zod.Member(values, "title") == Undefined;
    }
  }

  /** Each default sits at its field's position, with its field's type. */
  lemma DefaultsTyped(now: string)
    ensures |Defaults(now)| == |TodoSchema()|
    ensures forall i :: 0 <= i < |Defaults(now)| ==>
      Defaults(now)[i].key == TodoSchema()[i].name && Zod.HasType(TodoSchema()[i].ztype, Defaults(now)[i].value)
  {
  }

  /** The defaults pass the schema and are submitted as they are. */
  lemma DefaultsValid(now: string)
    ensures Zod.ParseObject(TodoSchema(), Defaults(now)) == Success(Defaults(now))
    ensures Submit(Defaults(now)) == Success(TodoApi.CreateTodo(Obj(Defaults(now))))
  {
    SchemaDistinct();
    DefaultsTyped(now);
    Zod.ParseMatching(TodoSchema(), Defaults(now));
  }

  /**
   * What is posted holds the schema's fields as the form had them and nothing
   * else: the form's startDate input, which the schema does not name, is dropped.
   */
  lemma SubmitStripsUnknown(values: seq<Prop>, k: string)
    requires Submit(values).Success?
    ensures Submit(values).value.verb == POST && Submit(values).value.body.Obj?
    ensures Lookup(Submit(values).value.body.props, k) == if k in Zod.Names(TodoSchema()) then Lookup(values, k) else None
    ensures Lookup(Submit(values).value.body.props, "startDate") == None
  {
    var shape := TodoSchema();
    SchemaDistinct();
    assert Zod.ParseObject(shape, values).Success?;
    Zod.ParsedLookup(shape, values, k);
    Zod.ParsedLookup(shape, values, "startDate");
    StartDateUnnamed();
  }

  // ---------------------------------------------------------------- properties of the answer

  /** success false: exactly the message, as an error, and the dialog stays open. */
  lemma CreateRefused(res: Response)
    requires ReadEnvelope(res).Success? && !Truthy(ReadEnvelope(res).value.success)
    ensures CreateEffects(Resolved(res)) == [Ui.ToastError(ReadEnvelope(res).value.message)]
    ensures Ui.CloseDialog !in CreateEffects(Resolved(res))
  {
  }

  /** success true: the message as a success, then the dialog closes. */
  lemma CreateSaved(res: Response)
    requires ReadEnvelope(res).Success? && Truthy(ReadEnvelope(res).value.success)
    ensures CreateEffects(Resolved(res)) == [Ui.ToastSuccess(ReadEnvelope(res).value.message), Ui.CloseDialog]
  {
  }

  /** Every outcome shows at most one notification, and the dialog closes exactly on a truthy success. */
  lemma CreateOutcomes(outcome: Settled<Response>)
    ensures Ui.ToastCount(CreateEffects(outcome)) <= 1
    ensures Ui.CloseDialog in CreateEffects(outcome) <==>
      outcome.Resolved? && ReadEnvelope(outcome.value).Success? && Truthy(ReadEnvelope(outcome.value).value.success)
    ensures CreateEffects(outcome) == [] <==> outcome.Rejected? || ReadEnvelope(outcome.value).Failure?
  {
    var e := CreateEffects(outcome);
    if |e| == 2 {
      assert e[1..][1..] == [];
      assert Ui.ToastCount(e) == 1 + Ui.ToastCount(e[1..]);
    }
  }

  /** The title and the button always name the same mode. */
  lemma LabelsAgree(isEditing: bool)
    ensures DialogTitle(isEditing) == "Edit Todo" <==> SubmitLabel(isEditing) == "Update"
    ensures DialogTitle(isEditing) == "Add New Todo" <==> SubmitLabel(isEditing) == "Add"
  {
  }
}
