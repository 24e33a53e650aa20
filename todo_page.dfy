/**
 * TodoPage (src/pages/TodoPage.jsx): the list of todos, the add/edit dialog
 * flags and the filter the list is requested with.
 */
module TodoPage {
  import opened Wrappers
  import opened JsValues
  import opened Http
  import TodoApi
  import FilterBox
  import Ui

  /** value !== "" && value !== null && value !== undefined */
  predicate Kept(v: JsValue) {
    !StrictEquals(v, Str("")) && !StrictEquals(v, Null) && !StrictEquals(v, Undefined)
  }

  /** Object.entries(filter).filter(...) */
  function KeepDefined(entries: seq<Prop>): (r: seq<Prop>)
    ensures |r| <= |entries|
    ensures forall i :: 0 <= i < |r| ==> Kept(r[i].value)
  {
    if entries == [] then []
    else if Kept(entries[0].value) then [entries[0]] + KeepDefined(entries[1..])
    else KeepDefined(entries[1..])
  }

  /** Object.fromEntries: each entry is assigned in turn. */
  function FromEntries(entries: seq<Prop>): seq<Prop>
    decreases |entries|
  {
    if entries == [] then [] else Put(FromEntries(entries[..|entries| - 1]), entries[|entries| - 1].key, entries[|entries| - 1].value)
  }

  /** handleFilter's cleaning of the filter object with own properties `filter`. */
  function CleanFilter(filter: seq<Prop>): seq<Prop> {
    FromEntries(KeepDefined(filter))
  }

  /** a is b with some elements left out, in the same order. */
  predicate IsSubsequence<T(==)>(a: seq<T>, b: seq<T>)
    decreases |b|
  {
    if a == [] then true
    else if b == [] then false
    else if a[0] == b[0] then IsSubsequence(a[1..], b[1..])
    else IsSubsequence(a, b[1..])
  }

  // ---------------------------------------------------------------- cleaning

  lemma {:induction false} KeepDefinedSubsequence(entries: seq<Prop>)
    ensures IsSubsequence(Keys(KeepDefined(entries)), Keys(entries))
  {
    if entries != [] {
      KeepDefinedSubsequence(entries[1..]);
      var r := KeepDefined(entries[1..]);
      assert Keys(entries)[1..] == Keys(entries[1..]);
      if Kept(entries[0].value) {
        assert Keys([entries[0]] + r)[1..] == Keys(r);
      } else {
        SubsequenceDropHead(Keys(r), Keys(entries));
      }
    }
  }

  lemma {:induction false} SubsequenceDropHead<T>(a: seq<T>, b: seq<T>)
    requires b != [] && IsSubsequence(a, b[1..])
    ensures IsSubsequence(a, b)
    decreases |b|, |a|
  {
    if a != [] && a[0] == b[0] {
      SubsequenceTail(a, b[1..]);
    }
  }

  /** Dropping the first element of a subsequence keeps it a subsequence. */
  lemma {:induction false} SubsequenceTail<T>(a: seq<T>, b: seq<T>)
    requires a != [] && IsSubsequence(a, b)
    ensures IsSubsequence(a[1..], b)
    decreases |b|, |a|
  {
    if a[0] == b[0] {
      if a[1..] != [] {
        SubsequenceDropHead(a[1..], b);
      }
    } else {
      SubsequenceTail(a, b[1..]);
      if a[1..] != [] {
        SubsequenceDropHead(a[1..], b);
      }
    }
  }

  lemma {:induction false} KeepDefinedKeys(entries: seq<Prop>, k: string)
    requires k !in Keys(entries)
    ensures k !in Keys(KeepDefined(entries))
  {
    if entries != [] {
      assert Keys(entries) == [entries[0].key] + Keys(entries[1..]);
      KeepDefinedKeys(entries[1..], k);
    }
  }

  lemma {:induction false} KeepDefinedDistinct(entries: seq<Prop>)
    requires DistinctKeys(entries)
    ensures DistinctKeys(KeepDefined(entries))
  {
    if entries != [] {
      assert DistinctKeys(entries[1..]);
      KeepDefinedDistinct(entries[1..]);
      if Kept(entries[0].value) {
        var r := KeepDefined(entries[1..]);
        assert entries[0].key !in Keys(entries[1..]);
        KeepDefinedKeys(entries[1..], entries[0].key);
        forall j | 0 <= j < |r| ensures r[j].key != entries[0].key {
          assert Keys(r)[j] == r[j].key;
        }
      }
    }
  }

  /** Object.fromEntries of entries with distinct names rebuilds them in order. */
  lemma {:induction false} FromEntriesDistinct(entries: seq<Prop>)
    requires DistinctKeys(entries)
    ensures FromEntries(entries) == entries
    decreases |entries|
  {
    if entries != [] {
      var init := entries[..|entries| - 1];
      var last := entries[|entries| - 1];
      FromEntriesDistinct(init);
      forall i | 0 <= i < |init| ensures Keys(init)[i] != last.key {
        assert entries[i] == init[i];
      }
      PutAbsent(init, last.key, last.value);
      assert init + [last] == entries;
    }
  }

  lemma CleanIsKeepDefined(filter: seq<Prop>)
    requires DistinctKeys(filter)
    ensures CleanFilter(filter) == KeepDefined(filter)
  {
    KeepDefinedDistinct(filter);
    FromEntriesDistinct(KeepDefined(filter));
  }

  /** No entry of the cleaned filter is "", null or undefined. */
  lemma CleanedHasNoBlank(filter: seq<Prop>)
    requires DistinctKeys(filter)
    ensures forall i :: 0 <= i < |CleanFilter(filter)| ==> Kept(CleanFilter(filter)[i].value)
  {
    CleanIsKeepDefined(filter);
  }

  lemma {:induction false} KeepDefinedLookup(entries: seq<Prop>, k: string)
    requires DistinctKeys(entries)
    ensures Lookup(KeepDefined(entries), k) == if Lookup(entries, k).Some? && Kept(Lookup(entries, k).value) then Lookup(entries, k) else None
  {
    if entries != [] {
      assert DistinctKeys(entries[1..]);
      KeepDefinedLookup(entries[1..], k);
      if entries[0].key == k {
        assert k !in Keys(entries[1..]);
        KeepDefinedKeys(entries[1..], k);
      }
    }
  }

  /**
   * Cleaning keeps exactly the entries whose value is not "", null or undefined,
   * with their names and values; in particular status 0 and star false stay.
   */
  lemma CleanLookup(filter: seq<Prop>, k: string)
    requires DistinctKeys(filter)
    ensures Lookup(CleanFilter(filter), k) == if Lookup(filter, k).Some? && Kept(Lookup(filter, k).value) then Lookup(filter, k) else None
  {
    CleanIsKeepDefined(filter);
    KeepDefinedLookup(filter, k);
  }

  /** Cleaning only removes entries: the names that remain keep their order. */
  lemma CleanKeysSubsequence(filter: seq<Prop>)
    requires DistinctKeys(filter)
    ensures IsSubsequence(Keys(CleanFilter(filter)), Keys(filter))
  {
    CleanIsKeepDefined(filter);
    KeepDefinedSubsequence(filter);
  }

  lemma {:induction false} KeepDefinedIdempotent(entries: seq<Prop>)
    requires forall i :: 0 <= i < |entries| ==> Kept(entries[i].value)
    ensures KeepDefined(entries) == entries
  {
    if entries != [] {
      KeepDefinedIdempotent(entries[1..]);
    }
  }

  lemma CleanIdempotent(filter: seq<Prop>)
    requires DistinctKeys(filter)
    ensures CleanFilter(CleanFilter(filter)) == CleanFilter(filter)
  {
    CleanIsKeepDefined(filter);
    KeepDefinedDistinct(filter);
    var c := KeepDefined(filter);
    CleanIsKeepDefined(c);
    KeepDefinedIdempotent(c);
  }

  lemma KeepCons(p: Prop, rest: seq<Prop>)
    ensures KeepDefined([p] + rest) == if Kept(p.value) then [p] + KeepDefined(rest) else KeepDefined(rest)
  {
    assert ([p] + rest)[1..] == rest;
  }

  /** KeepDefined on a record shaped like the box's: two blanks, three kept values, two blanks. */
  lemma KeepDefinedSeven(p1: Prop, p2: Prop, p3: Prop, p4: Prop, p5: Prop, p6: Prop, p7: Prop)
    requires !Kept(p1.value) && !Kept(p2.value) && Kept(p3.value) && Kept(p4.value) && Kept(p5.value)
    requires !Kept(p6.value) && !Kept(p7.value)
    ensures KeepDefined([p1, p2, p3, p4, p5, p6, p7]) == [p3, p4, p5]
  {
    var s7 := [p7];
    KeepCons(p7, []);
    var s6 := [p6] + s7;
    KeepCons(p6, s7);
    var s5 := [p5] + s6;
    KeepCons(p5, s6);
    var s4 := [p4] + s5;
    KeepCons(p4, s5);
    assert KeepDefined(s4) == [p4, p5];
    var s3 := [p3] + s4;
    KeepCons(p3, s4);
    assert KeepDefined(s3) == [p3, p4, p5];
    var s2 := [p2] + s3;
    KeepCons(p2, s3);
    KeepCons(p1, s2);
    assert [p1] + s2 == [p1, p2, p3, p4, p5, p6, p7];
  }

  lemma CleanWhenKept(f: seq<Prop>, kept: seq<Prop>)
    requires KeepDefined(f) == kept && DistinctKeys(kept)
    ensures CleanFilter(f) == kept
  {
    FromEntriesDistinct(kept);
  }

  /** The box's initial record loses title, priority and both dates, and keeps status, star and isActive. */
  lemma CleanInitialFilter()
    ensures CleanFilter(FilterBox.InitialFilter()) == [Prop("status", Num(0)), Prop("star", Bool(false)), Prop("isActive", Bool(true))]
  {
    var f := FilterBox.InitialFilter();
    KeepDefinedSeven(f[0], f[1], f[2], f[3], f[4], f[5], f[6]);
    assert f == [f[0], f[1], f[2], f[3], f[4], f[5], f[6]];
    CleanWhenKept(f, [f[2], f[3], f[4]]);
  }

  // ---------------------------------------------------------------- the list

  /** What the list effect makes of a settled getTodos: the new list and the toast shown. */
  datatype ListResult = ListResult(todos: JsValue, toast: Option<Ui.Effect>)

  function ListStep(todos: JsValue, outcome: Settled<Response>): (r: ListResult)
    ensures r.todos == todos || (outcome.Resolved? && ReadEnvelope(outcome.value).Success? && r.todos == ReadEnvelope(outcome.value).value.data)
  {
    match outcome
    case Rejected(_) => ListResult(todos, None)
    case Resolved(res) =>
      match ReadEnvelope(res)
      case Failure(_) => ListResult(todos, None)
      case Success(env) =>
        if !Truthy(env.success) then ListResult(todos, Some(Ui.ToastError(env.message)))
        else ListResult(env.data, None)
  }

  /** lodash isEmpty on the value the page renders. */
  predicate IsEmpty(v: JsValue) {
    match v
    case Arr(items) => items == []
    case Str(s) => s == ""
    case Obj(props) => props == []
    case _ => true
  }

  class Page {
    var todos: JsValue
    var openDialog: bool
    var currentTodo: JsValue
    var isEditing: bool
    var filter: JsValue

    constructor ()
      ensures todos == Arr([]) && !openDialog && currentTodo == Obj([]) && !isEditing && filter == Undefined
    {
      todos := Arr([]);
      openDialog := false;
      currentTodo := Obj([]);
      isEditing := false;
      filter := Undefined;
    }

    /** The list effect's request, made after the first render and after every change of filter. */
    method ListRequest() returns (c: Call)
      ensures c == TodoApi.GetTodos(filter)
    {
      c := TodoApi.GetTodos(filter);
    }

    /** handleFilter: stores the cleaned filter, a new object, so the list effect runs again. */
    method HandleFilter(raw: seq<Prop>) returns (c: Call)
      modifies this
      ensures filter == Obj(CleanFilter(raw)) && c == TodoApi.GetTodos(filter)
      ensures todos == old(todos) && openDialog == old(openDialog) && currentTodo == old(currentTodo) && isEditing == old(isEditing)
    {
      filter := Obj(CleanFilter(raw));
      c := ListRequest();
    }

    /** The then-callback of the list request. */
    method ReceiveList(outcome: Settled<Response>) returns (toast: Option<Ui.Effect>)
      modifies this
      ensures ListResult(todos, toast) == ListStep(old(todos), outcome)
      ensures filter == old(filter) && openDialog == old(openDialog) && currentTodo == old(currentTodo) && isEditing == old(isEditing)
    {
      var r := ListStep(todos, outcome);
      todos := r.todos;
      toast := r.toast;
    }

    method HandleCloseDialog()
      modifies this
      ensures !openDialog && currentTodo == Obj([]) && !isEditing
      ensures todos == old(todos) && filter == old(filter)
    {
      openDialog := false;
      currentTodo := Obj([]);
      isEditing := false;
    }

    /** The "Add Todo" button. */
    method OpenAddDialog()
      modifies this
      ensures openDialog && !isEditing
      ensures todos == old(todos) && filter == old(filter) && currentTodo == old(currentTodo)
    {
      openDialog := true;
      isEditing := false;
    }

    predicate ShowsNoTodos()
      reads this
    {
      IsEmpty(todos)
    }
  }

  // ---------------------------------------------------------------- list outcomes

  /** success false: the list stays and exactly the server's message is shown as an error. */
  lemma ListFailureKeepsTodos(todos: JsValue, res: Response)
    requires ReadEnvelope(res).Success? && !Truthy(ReadEnvelope(res).value.success)
    ensures ListStep(todos, Resolved(res)) == ListResult(todos, Some(Ui.ToastError(ReadEnvelope(res).value.message)))
  {
  }

  /** success true: the list becomes data as it came, with nothing kept from before. */
  lemma ListSuccessReplaces(todos: JsValue, res: Response)
    requires ReadEnvelope(res).Success? && Truthy(ReadEnvelope(res).value.success)
    ensures ListStep(todos, Resolved(res)) == ListResult(ReadEnvelope(res).value.data, None)
  {
  }

  /** A rejected request, or a body with no envelope, changes nothing and shows nothing. */
  lemma ListErrorIgnored(todos: JsValue, outcome: Settled<Response>)
    requires outcome.Rejected? || ReadEnvelope(outcome.value).Failure?
    ensures ListStep(todos, outcome) == ListResult(todos, None)
  {
  }

  /** "No todo found" shows after a successful list exactly when the server sent no todos. */
  lemma EmptyMessageAfterList(todos: JsValue, res: Response, items: seq<JsValue>)
    requires ReadEnvelope(res).Success? && Truthy(ReadEnvelope(res).value.success) && ReadEnvelope(res).value.data == Arr(items)
    ensures IsEmpty(ListStep(todos, Resolved(res)).todos) <==> items == []
  {
  }

  /** Clearing the box asks for the unfiltered list; applying the initial record asks for status, star and isActive only. */
  lemma FilterBoxRequests()
    ensures TodoApi.GetTodos(Obj(CleanFilter([]))) == Call(GET, "/todo", Obj([]), Undefined)
    ensures TodoApi.GetTodos(Obj(CleanFilter(FilterBox.InitialFilter())))
         == Call(GET, "/todo", Obj([Prop("status", Num(0)), Prop("star", Bool(false)), Prop("isActive", Bool(true))]), Undefined)
  {
    CleanInitialFilter();
  }
}
