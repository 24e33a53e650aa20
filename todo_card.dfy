/**
 * TodoCard (src/components/card/todo-card.jsx): what a card shows for a todo
 * record, and what its buttons call.
 */
module TodoCard {
  import opened Wrappers
  import opened JsValues
  import opened Http
  import Decimal

  const PriorityColors: seq<string> := ["success", "warning", "error", "error", "error", "error"]
  const PriorityLabels: seq<string> := ["Low", "Medium", "High", "Urgent", "Critical", "Immediate"]

  /** A canonical array index: the decimal text of a natural number, with no leading zero. */
  predicate IsIndex(s: string) {
    s != [] && Decimal.AllDigits(s) && Decimal.NatToString(Decimal.DigitsValue(s)) == s
  }

  /** arr[key] on an array of strings: the key is converted to a string; "length" is the length. */
  function ArrayElement(arr: seq<string>, key: JsValue): (r: JsValue)
    ensures r.Str? ==> exists i :: 0 <= i < |arr| && r == Str(arr[i])
  {
    var s := ToStr(key);
    if s == "length" then Num(|arr|)
    else if IsIndex(s) && Decimal.DigitsValue(s) < |arr| then Str(arr[Decimal.DigitsValue(s)])
    else Undefined
  }

  /** The card's visible content. */
  datatype CardView = CardView(
    title: JsValue, description: JsValue,
    starFilled: bool,
    activeLabel: string, activeColor: string,
    priorityLabel: JsValue, priorityColor: JsValue,
    statusLabel: JsValue)

  /** Rendering a card; destructuring a null or undefined todo throws. */
  function Card(todo: JsValue): (r: Result<CardView, Error>)
    ensures r.Failure? <==> todo.Null? || todo.Undefined?
    ensures r.Success? ==> (r.value.starFilled <==> Truthy(Get(todo, "star").value))
    ensures r.Success? ==> r.value.activeLabel == (if Truthy(Get(todo, "isActive").value) then "Active" else "Inactive")
    ensures r.Success? ==> r.value.activeColor == (if Truthy(Get(todo, "isActive").value) then "success" else "default")
    ensures r.Success? ==> r.value.statusLabel == Get(todo, "status").value
  {
    match Get(todo, "title")
    case Failure(m) => Failure(TypeError(m))
    case Success(title) =>
      var active := Truthy(Get(todo, "isActive").value);
      var priority := Get(todo, "priority").value;
      Success(CardView(
        title, Get(todo, "description").value,
        Truthy(Get(todo, "star").value),
        if active then "Active" else "Inactive", if active then "success" else "default",
        ArrayElement(PriorityLabels, priority), ArrayElement(PriorityColors, priority),
        Get(todo, "status").value))
  }

  datatype Button = EditButton | DeleteButton | ArchiveButton

  /** Which parent callback a click reaches, and with what. */
  datatype Invocation = OnEdit(todo: JsValue) | OnDelete(id: JsValue)

  /** A click; calling a handler the parent did not pass throws. */
  function Click(b: Button, todo: JsValue, hasOnEdit: bool, hasOnDelete: bool): (r: Result<Invocation, Error>)
    requires !todo.Null? && !todo.Undefined?
    ensures r.Failure? <==> (if b.EditButton? then !hasOnEdit else !hasOnDelete)
  {
    match b
    case EditButton => if hasOnEdit then Success(OnEdit(todo)) else Failure(TypeError("onEdit is not a function"))
    case _ => if hasOnDelete then Success(OnDelete(Get(todo, "id").value)) else Failure(TypeError("onDelete is not a function"))
  }

  // ---------------------------------------------------------------- properties

  lemma NumberIndex(n: nat)
    ensures IsIndex(ToStr(Num(n))) && Decimal.DigitsValue(ToStr(Num(n))) == n
  {
    assert ToStr(Num(n)) == Decimal.NatToString(n);
    Decimal.NatToStringRoundTrip(n);
  }

  /** Priorities 0 to 5 have their label and colour at the same position. */
  lemma PriorityTable(n: int)
    requires 0 <= n < 6
    ensures ArrayElement(PriorityLabels, Num(n)) == Str(PriorityLabels[n])
    ensures ArrayElement(PriorityColors, Num(n)) == Str(PriorityColors[n])
  {
    NumberIndex(n);
  }

  /** Low is success, Medium warning, everything from High on error. */
  lemma PriorityColours(n: int)
    requires 0 <= n < 6
    ensures ArrayElement(PriorityColors, Num(n)) == Str(if n == 0 then "success" else if n == 1 then "warning" else "error")
  {
    PriorityTable(n);
  }

  /** A number outside 0 to 5, null or undefined has neither label nor colour. */
  lemma PriorityOutOfRange(p: JsValue)
    requires (p.Num? && (p.n < 0 || p.n >= 6)) || p.Null? || p.Undefined?
    ensures ArrayElement(PriorityLabels, p) == Undefined && ArrayElement(PriorityColors, p) == Undefined
  {
    if p.Num? {
      if p.n >= 6 {
        NumberIndex(p.n);
      } else {
        assert ToStr(p)[0] == '-';
      }
    }
  }

  /** Edit hands over the whole record; delete and archive both hand over its id. */
  lemma ClickTargets(todo: JsValue)
    requires !todo.Null? && !todo.Undefined?
    ensures Click(EditButton, todo, true, true) == Success(OnEdit(todo))
    ensures Click(DeleteButton, todo, true, true) == Click(ArchiveButton, todo, true, true) == Success(OnDelete(Get(todo, "id").value))
  {
  }

  /** The todo page renders cards without handlers, so every button throws there. */
  lemma PageCardsInert(b: Button, todo: JsValue)
    requires !todo.Null? && !todo.Undefined?
    ensures Click(b, todo, false, false).Failure? && Click(b, todo, false, false).error.TypeError?
  {
  }
}
