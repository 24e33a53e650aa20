/**
 * The part of zod's object schemas the forms use, as zod's resolver reports it
 * to react-hook-form: a field's type check, optional fields, the "Required"
 * message for a missing value, and the stripping of keys the shape does not name.
 */
module Zod {
  import opened Wrappers
  import opened JsValues

  datatype ZType = ZString | ZNumber | ZBoolean

  /** One entry of a z.object shape: z.string(), z.number().optional(), ... */
  datatype Field = Field(name: string, ztype: ZType, optional: bool)

  /** The first error reported for a field. */
  datatype Issue = Issue(path: string, message: string)

  function TypeLabel(t: ZType): string {
    match t
    case ZString => "string"
    case ZNumber => "number"
    case ZBoolean => "boolean"
  }

  /** zod's name for the type of a value; NaN is "nan". */
  function ParsedType(v: JsValue): string {
    match v
    case Undefined => "undefined"
    case Null => "null"
    case Bool(_) => "boolean"
    case Num(_) => "number"
    case NaN => "nan"
    case Str(_) => "string"
    case Arr(_) => "array"
    case Obj(_) => "object"
  }

  predicate HasType(t: ZType, v: JsValue) {
    match t
    case ZString => v.Str?
    case ZNumber => v.Num?
    case ZBoolean => v.Bool?
  }

  /** What the field's schema reports about the value: nothing, "Required", or a type mismatch. */
  function FieldIssue(f: Field, v: JsValue): (r: Option<string>)
    ensures r.None? <==> HasType(f.ztype, v) || (v.Undefined? && f.optional)
    ensures r == Some("Required") <==> v.Undefined? && !f.optional
  {
    if v.Undefined? then (if f.optional then None else Some("Required"))
    else if HasType(f.ztype, v) then None
    else Some("Expected " + TypeLabel(f.ztype) + ", received " + ParsedType(v))
  }

  /** data[key] on the form values. */
  function Member(data: seq<Prop>, key: string): JsValue {
    Lookup(data, key).GetOr(Undefined)
  }

  function Names(shape: seq<Field>): (ns: seq<string>)
    ensures |ns| == |shape|
    ensures forall i :: 0 <= i < |shape| ==> ns[i] == shape[i].name
  {
    if shape == [] then [] else [shape[0].name] + Names(shape[1..])
  }

  /** The issues of all fields, in the order of the shape. */
  function Issues(shape: seq<Field>, data: seq<Prop>): (r: seq<Issue>)
    ensures r == [] <==> forall i :: 0 <= i < |shape| ==> FieldIssue(shape[i], Member(data, shape[i].name)).None?
  {
    if shape == [] then []
    else
      var rest := Issues(shape[1..], data);
      assert forall i :: 1 <= i < |shape| ==> shape[i] == shape[1..][i - 1];
      match FieldIssue(shape[0], Member(data, shape[0].name))
      case None => rest
      case Some(m) => [Issue(shape[0].name, m)] + rest
  }

  /** The parsed object: the shape's keys that the data has, in the shape's order; other keys are stripped. */
  function Output(shape: seq<Field>, data: seq<Prop>): (r: seq<Prop>)
    ensures forall i :: 0 <= i < |r| ==> r[i].key in Names(shape) && r[i].key in Keys(data)
  {
    if shape == [] then []
    else
      var rest := Output(shape[1..], data);
      assert Names(shape) == [shape[0].name] + Names(shape[1..]);
      if shape[0].name in Keys(data) then [Prop(shape[0].name, Member(data, shape[0].name))] + rest else rest
  }

  function ParseObject(shape: seq<Field>, data: seq<Prop>): Result<seq<Prop>, seq<Issue>> {
    var issues := Issues(shape, data);
    if issues == [] then Success(Output(shape, data)) else Failure(issues)
  }

  predicate DistinctNames(shape: seq<Field>) {
    forall i, j :: 0 <= i < j < |shape| ==> shape[i].name != shape[j].name
  }

  /** A parsed field holds the value it had in the data; a key outside the shape, or missing, is absent. */
  lemma {:induction false} OutputLookup(shape: seq<Field>, data: seq<Prop>, k: string)
    requires DistinctNames(shape)
    ensures Lookup(Output(shape, data), k) == if k in Names(shape) && k in Keys(data) then Lookup(data, k) else None
  {
    if shape != [] {
      assert DistinctNames(shape[1..]);
      assert Names(shape) == [shape[0].name] + Names(shape[1..]);
      OutputLookup(shape[1..], data, k);
      if shape[0].name == k {
        assert k !in Names(shape[1..]);
        assert k !in Keys(Output(shape[1..], data));
      }
    }
  }

  /** Data that holds exactly the shape's fields, in its order and of its types, parses to itself. */
  lemma ParseMatching(shape: seq<Field>, data: seq<Prop>)
    requires DistinctNames(shape) && |data| == |shape|
    requires forall i :: 0 <= i < |data| ==> data[i].key == shape[i].name && HasType(shape[i].ztype, data[i].value)
    ensures ParseObject(shape, data) == Success(data)
  {
    assert DistinctKeys(data);
    forall i | 0 <= i < |shape| ensures Lookup(data, data[i].key) == Some(data[i].value) {
      LookupAt(data, i);
    }
    OutputRows(shape, data, data);
  }

  /** The output is rows when each field, in order, finds its row's value in the data. */
  lemma {:induction false} OutputRows(shape: seq<Field>, rows: seq<Prop>, data: seq<Prop>)
    requires |rows| == |shape|
    requires forall i :: 0 <= i < |shape| ==> rows[i].key == shape[i].name && Lookup(data, rows[i].key) == Some(rows[i].value)
    ensures Output(shape, data) == rows
  {
    if shape != [] {
      assert rows[0].key in Keys(data);
      OutputRows(shape[1..], rows[1..], data);
      assert rows == [rows[0]] + rows[1..];
    }
  }

  /** A successful parse keeps the value of every shape field and drops every other key. */
  lemma ParsedLookup(shape: seq<Field>, data: seq<Prop>, k: string)
    requires DistinctNames(shape) && ParseObject(shape, data).Success?
    ensures Lookup(ParseObject(shape, data).value, k) == if k in Names(shape) then Lookup(data, k) else None
  {
    OutputLookup(shape, data, k);
  }

  /** Every field whose value fails its schema is reported, under its own name. */
  lemma {:induction false} IssueReported(shape: seq<Field>, data: seq<Prop>, i: nat)
    requires i < |shape| && FieldIssue(shape[i], Member(data, shape[i].name)).Some?
    ensures Issue(shape[i].name, FieldIssue(shape[i], Member(data, shape[i].name)).value) in Issues(shape, data)
  {
    if i > 0 {
      var tail := shape[1..];
      assert tail[i - 1] == shape[i];
      IssueReported(tail, data, i - 1);
      var rest := Issues(tail, data);
      var first := FieldIssue(shape[0], Member(data, shape[0].name));
      assert Issues(shape, data) == if first.None? then rest else [Issue(shape[0].name, first.value)] + rest;
    }
  }

  /** NaN is no number to zod. */
  lemma NaNIsNoNumber(f: Field)
    requires f.ztype == ZNumber
    ensures FieldIssue(f, NaN) == Some("Expected number, received nan")
  {
    assert TypeLabel(f.ztype) == "number" && ParsedType(NaN) == "nan";
    assert "Expected " + "number" + ", received " + "nan" == "Expected number, received nan";
  }
}
