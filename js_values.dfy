/**
 * The JavaScript values the client passes around: form data, filters, request
 * bodies, parsed responses and the stored user. Numbers are integral (or NaN);
 * an object is the ordered list of its own enumerable properties.
 */
module JsValues {
  import opened Wrappers
  import Decimal

  datatype JsValue =
    | Undefined
    | Null
    | Bool(b: bool)
    | Num(n: int)
    | NaN
    | Str(s: string)
    | Arr(items: seq<JsValue>)
    | Obj(props: seq<Prop>)

  datatype Prop = Prop(key: string, value: JsValue)

  /** The property names of an object, in enumeration order. */
  function Keys(props: seq<Prop>): (ks: seq<string>)
    ensures |ks| == |props|
    ensures forall i :: 0 <= i < |props| ==> ks[i] == props[i].key
  {
    if props == [] then [] else [props[0].key] + Keys(props[1..])
  }

  /** A real JavaScript object never holds two properties with one name. */
  predicate DistinctKeys(props: seq<Prop>) {
    forall i, j :: 0 <= i < j < |props| ==> props[i].key != props[j].key
  }

  /** The value stored under k, if the object has that property. */
  function Lookup(props: seq<Prop>, k: string): (r: Option<JsValue>)
    ensures r.None? <==> k !in Keys(props)
    ensures r.Some? ==> exists i :: 0 <= i < |props| && props[i] == Prop(k, r.value)
  {
    if props == [] then None
    else if props[0].key == k then Some(props[0].value)
    else
      var r := Lookup(props[1..], k);
      assert Keys(props) == [props[0].key] + Keys(props[1..]);
      assert r.Some? ==> exists i :: 0 <= i < |props[1..]| && props[1..][i] == Prop(k, r.value);
      r
  }

  /** With distinct keys, looking up a property's key finds that property's value. */
  lemma LookupAt(props: seq<Prop>, i: nat)
    requires DistinctKeys(props) && i < |props|
    ensures Lookup(props, props[i].key) == Some(props[i].value)
  {
    assert props[i].key in Keys(props);
  }

  /**
   * Property assignment o[k] = v: an existing property keeps its position and
   * takes the new value; a new one is appended after the others.
   */
  function Put(props: seq<Prop>, k: string, v: JsValue): (r: seq<Prop>)
    ensures Keys(r) == if k in Keys(props) then Keys(props) else Keys(props) + [k]
  {
    if props == [] then [Prop(k, v)]
    else if props[0].key == k then [Prop(k, v)] + props[1..]
    else
      assert Keys(props) == [props[0].key] + Keys(props[1..]);
      [props[0]] + Put(props[1..], k, v)
  }

  lemma {:induction false} PutLookup(props: seq<Prop>, k: string, v: JsValue, k': string)
    ensures Lookup(Put(props, k, v), k') == if k' == k then Some(v) else Lookup(props, k')
  {
    if props != [] && props[0].key != k {
      PutLookup(props[1..], k, v, k');
      assert Put(props, k, v)[1..] == Put(props[1..], k, v);
    }
  }

  lemma {:induction false} PutAbsent(props: seq<Prop>, k: string, v: JsValue)
    requires k !in Keys(props)
    ensures Put(props, k, v) == props + [Prop(k, v)]
  {
    if props != [] {
      assert Keys(props) == [props[0].key] + Keys(props[1..]);
      PutAbsent(props[1..], k, v);
    }
  }

  lemma PutKeepsDistinct(props: seq<Prop>, k: string, v: JsValue)
    requires DistinctKeys(props)
    ensures DistinctKeys(Put(props, k, v))
  {
    var r := Put(props, k, v);
    forall i, j | 0 <= i < j < |r| ensures r[i].key != r[j].key {
      assert Keys(r)[i] != Keys(r)[j];
    }
  }

  /** Reading o.key: a TypeError on null and undefined, undefined for a missing property. */
  function Get(o: JsValue, key: string): (r: Result<JsValue, string>)
    ensures r.Failure? <==> o.Undefined? || o.Null?
    ensures o.Obj? && key in Keys(o.props) ==> r.Success? && Some(r.value) == Lookup(o.props, key)
  {
    match o
    case Undefined => Failure("Cannot read properties of undefined")
    case Null => Failure("Cannot read properties of null")
    case Obj(props) => Success(Lookup(props, key).GetOr(Undefined))
    case _ => Success(Undefined)
  }

  /** The properties {...o} copies. */
  function OwnProps(o: JsValue): seq<Prop> {
    if o.Obj? then o.props else []
  }

  /** JavaScript truthiness: false, 0, NaN, "", null and undefined are falsy. */
  predicate Truthy(v: JsValue) {
    match v
    case Undefined => false
    case Null => false
    case Bool(b) => b
    case Num(n) => n != 0
    case NaN => false
    case Str(s) => s != ""
    case Arr(_) => true
    case Obj(_) => true
  }

  /** String(v), also what a template literal and localStorage.setItem produce. */
  function ToStr(v: JsValue): string {
    match v
    case Undefined => "undefined"
    case Null => "null"
    case Bool(b) => if b then "true" else "false"
    case Num(n) => Decimal.IntToString(n)
    case NaN => "NaN"
    case Str(s) => s
    case Arr(items) => JoinItems(items)
    case Obj(_) => "[object Object]"
  }

  /** Array.prototype.join(","), where null and undefined elements become "". */
  function JoinItems(items: seq<JsValue>): string {
    if items == [] then ""
    else
      var first := if items[0].Null? || items[0].Undefined? then "" else ToStr(items[0]);
      if |items| == 1 then first else first + "," + JoinItems(items[1..])
  }

  lemma TruthyToStrNonEmpty(v: JsValue)
    requires Truthy(v) && !v.Arr?
    ensures ToStr(v) != ""
  {
  }

  /** Strict equality ===. Arrays and objects are distinct references here, so never equal. */
  predicate StrictEquals(a: JsValue, b: JsValue) {
    match a
    case Undefined => b.Undefined?
    case Null => b.Null?
    case Bool(x) => b.Bool? && b.b == x
    case Num(x) => b.Num? && b.n == x
    case Str(x) => b.Str? && b.s == x
    case _ => false
  }

  /** The length of s in UTF-16 code units, JavaScript's String length. */
  function Utf16Length(s: string): (n: nat)
    ensures n >= |s|
  {
    if s == [] then 0 else (if s[0] as int > 0xFFFF then 2 else 1) + Utf16Length(s[1..])
  }
}
