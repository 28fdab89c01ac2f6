/** The settings page's list manager, used for both the business-unit and the
    category list: append a trimmed value, remove by position after a
    confirmation. The new list is handed to the application, which replaces
    the taxonomy wholesale. */
module Settings {
  import opened Common
  import opened Text

  /** `items.filter((_, i) => i !== index)`: the list without the entry at
      `index`; an index past the end removes nothing. */
  function RemoveAt(items: seq<string>, index: nat): (r: seq<string>)
    ensures index < |items| ==> |r| == |items| - 1
    ensures index >= |items| ==> r == items
    ensures forall k :: 0 <= k < index && k < |r| ==> r[k] == items[k]
    ensures forall k :: index <= k < |r| ==> r[k] == items[k + 1]
  {
    if index < |items| then items[..index] + items[index + 1..] else items
  }

  /** Removal by position: the removed entry is the one at the index, and the
      others keep their multiplicity, so an equal entry elsewhere survives. */
  lemma RemoveAtByPosition(items: seq<string>, index: nat)
    requires index < |items|
    ensures multiset(RemoveAt(items, index)) + multiset{items[index]} == multiset(items)
    ensures forall j :: 0 <= j < |items| && j != index && items[j] == items[index] ==> items[index] in RemoveAt(items, index)
  {
    assert items == items[..index] + [items[index]] + items[index + 1..];
    forall j | 0 <= j < |items| && j != index && items[j] == items[index]
      ensures items[index] in RemoveAt(items, index)
    {
      if j < index {
        assert RemoveAt(items, index)[j] == items[j];
      } else {
        assert RemoveAt(items, index)[j - 1] == items[j];
      }
    }
  }

  /** `handleDelete`: with the confirmation accepted, the list without the
      entry; declined, no update at all. */
  function HandleDelete(items: seq<string>, index: nat, confirmed: bool): (r: Option<seq<string>>)
    ensures r.Some? <==> confirmed
    ensures r.Some? ==> r.value == RemoveAt(items, index)
    ensures r.Some? && index < |items| ==> |r.value| == |items| - 1 && multiset(r.value) + multiset{items[index]} == multiset(items)
  {
    if !confirmed then None
    else if index < |items| then
      RemoveAtByPosition(items, index);
      Some(RemoveAt(items, index))
    else Some(RemoveAt(items, index))
  }

  /** The input box of one list manager. */
  class ListManager {
    var newValue: string

    constructor()
      ensures newValue == ""
    {
      newValue := "";
    }

    /** Typing into the box. */
    method SetNewValue(v: string)
      modifies this
      ensures newValue == v
    {
      newValue := v;
    }

    /** `handleAdd`: a value that is not blank once trimmed is appended, trimmed,
        at the end (even when the list already holds it), and the box is
        cleared; a blank value changes nothing. */
    method HandleAdd(items: seq<string>) returns (update: Option<seq<string>>)
      modifies this
      ensures update.Some? <==> !AllSpace(old(newValue))
      ensures update.Some? ==> update.value == items + [Trim(old(newValue))] && newValue == ""
      ensures update.Some? ==> var added := update.value[|items|]; added != "" && Trim(added) == added
      ensures update.None? ==> newValue == old(newValue)
    {
      var t := Trim(newValue);
      TrimEmptyIff(newValue);
      if t != "" {
        TrimIdempotent(newValue);
        update := Some(items + [t]);
        newValue := "";
      } else {
        update := None;
      }
    }
  }
}
