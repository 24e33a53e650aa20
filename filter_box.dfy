/**
 * FilterBox (src/components/FilterBox.jsx): the filter record being edited and
 * the popover's anchor element.
 */
module FilterBox {
  import opened Wrappers
  import opened JsValues

  /** anchorEl: null, or the element that opened the popover. */
  datatype Anchor = NoAnchor | Element(id: nat)

  /** The fields of e.target an input change reads. */
  datatype Target = Target(name: string, value: JsValue, kind: string, checked: bool)

  /** The filter the box starts with, and the one Clear restores. */
  function InitialFilter(): seq<Prop> {
    [ Prop("title", Str("")), Prop("priority", Null), Prop("status", Num(0)), Prop("star", Bool(false)),
      Prop("isActive", Bool(true)), Prop("startDate", Str("")), Prop("endDate", Str("")) ]
  }

  /** A checkbox reports checked, every other input its value. */
  function InputValue(t: Target): JsValue {
    if t.kind == "checkbox" then Bool(t.checked) else t.value
  }

  /** { ...prev, [name]: value } */
  function Changed(filter: seq<Prop>, t: Target): seq<Prop> {
    Put(filter, t.name, InputValue(t))
  }

  /** handleChange sets the named field to the input's value and leaves every other field as it was. */
  lemma ChangedFields(filter: seq<Prop>, t: Target, k: string)
    ensures Lookup(Changed(filter, t), k) == if k == t.name then Some(InputValue(t)) else Lookup(filter, k)
  {
    PutLookup(filter, t.name, InputValue(t), k);
  }

  /** Changing a field that exists keeps the names and their order, and never duplicates a name. */
  lemma ChangedShape(filter: seq<Prop>, t: Target)
    ensures t.name in Keys(filter) ==> Keys(Changed(filter, t)) == Keys(filter)
    ensures DistinctKeys(filter) ==> DistinctKeys(Changed(filter, t))
  {
    if DistinctKeys(filter) {
      PutKeepsDistinct(filter, t.name, InputValue(t));
    }
  }

  class FilterBox {
    var filter: seq<Prop>
    var anchor: Anchor

    constructor ()
      ensures filter == InitialFilter() && anchor == NoAnchor
    {
      filter := InitialFilter();
      anchor := NoAnchor;
    }

    /** open = Boolean(anchorEl) */
    predicate IsOpen()
      reads this
    {
      anchor.Element?
    }

    method HandleOpen(currentTarget: nat)
      modifies this
      ensures anchor == Element(currentTarget) && filter == old(filter)
    {
      anchor := Element(currentTarget);
    }

    method HandleClose()
      modifies this
      ensures anchor == NoAnchor && filter == old(filter)
    {
      anchor := NoAnchor;
    }

    method HandleChange(t: Target)
      modifies this
      ensures filter == Changed(old(filter), t) && anchor == old(anchor)
    {
      filter := Changed(filter, t);
    }

    /** Passes the current filter to onFilter, then closes the popover. */
    method HandleApplyFilter() returns (passed: seq<Prop>)
      modifies this
      ensures passed == old(filter) && filter == old(filter) && anchor == NoAnchor
    {
      passed := filter;
      HandleClose();
    }

    /** Restores the initial filter and passes {} to onFilter; the popover stays as it is. */
    method HandleClearFilter() returns (passed: seq<Prop>)
      modifies this
      ensures passed == [] && filter == InitialFilter() && anchor == old(anchor)
    {
      filter := InitialFilter();
      passed := [];
    }
  }

  lemma InitialFilterDistinct()
    ensures DistinctKeys(InitialFilter())
    ensures Keys(InitialFilter()) == ["title", "priority", "status", "star", "isActive", "startDate", "endDate"]
  {
  }
}
