/** The multi-select rules shared by the reports table and the review queue:
    toggling one id, the select-all-or-clear button, and turning a bulk
    action on the current selection into a command for the lifecycle. */
module Selection {
  import opened Common
  import opened Types

  /** `toggleSelection`: the id's membership flips, no other id changes. */
  function Toggle(sel: set<string>, id: string): (r: set<string>)
    ensures id in r <==> id !in sel
    ensures forall other :: other != id ==> (other in r <==> other in sel)
  {
    if id in sel then sel - {id} else sel + {id}
  }

  /** Toggling the same id twice restores the selection. */
  lemma ToggleTwice(sel: set<string>, id: string)
    ensures Toggle(Toggle(sel, id), id) == sel
  {
  }

  /** `handleSelectAll`: clears when the selection is as large as the visible
      list, otherwise selects exactly the visible ids. */
  function SelectAllOrClear(sel: set<string>, visible: seq<Expense>): (r: set<string>)
    ensures |sel| == |visible| ==> r == {}
    ensures |sel| != |visible| ==> r == IdSet(visible)
  {
    if |sel| == |visible| then {} else IdSet(visible)
  }

  /** A subset of a finite set with the same size is the whole set. */
  lemma SubsetSameSize(a: set<string>, b: set<string>)
    requires a <= b && |a| == |b|
    ensures a == b
  {
    if a != b {
      var x :| x in b && x !in a;
      assert a <= b - {x};
      assert |b - {x}| == |b| - 1;
      SubsetSize(a, b - {x});
    }
  }

  lemma {:induction false} SubsetSize(a: set<string>, b: set<string>)
    requires a <= b
    ensures |a| <= |b|
  {
    if a != {} {
      var x :| x in a;
      SubsetSize(a - {x}, b - {x});
    }
  }

  /** When every selected id is visible and the visible ids are unique, the
      size comparison in select-all is exactly "everything is selected":
      the button clears a full selection and completes any partial one. */
  lemma SelectAllDecidesOnFullSelection(sel: set<string>, visible: seq<Expense>)
    requires UniqueIds(visible) && sel <= IdSet(visible)
    ensures |sel| == |visible| <==> sel == IdSet(visible)
    ensures sel == IdSet(visible) ==> SelectAllOrClear(sel, visible) == {}
    ensures sel != IdSet(visible) ==> SelectAllOrClear(sel, visible) == IdSet(visible)
  {
    IdSetSize(visible);
    if |sel| == |visible| {
      SubsetSameSize(sel, IdSet(visible));
    }
  }

  /** Pressing select-all on a non-empty list of unique ids alternates between
      everything selected and nothing selected. */
  lemma SelectAllTwice(sel: set<string>, visible: seq<Expense>)
    requires UniqueIds(visible) && |visible| > 0
    ensures var once := SelectAllOrClear(sel, visible);
            SelectAllOrClear(once, visible) == (if once == {} then IdSet(visible) else {})
  {
    IdSetSize(visible);
  }

  /** With a repeated id among the visible records, the selected set can never
      reach the list's length, so select-all never clears once it has selected. */
  lemma SelectAllWithRepeatedIds(visible: seq<Expense>, sel: set<string>)
    requires !UniqueIds(visible) && sel <= IdSet(visible)
    ensures SelectAllOrClear(sel, visible) == IdSet(visible)
  {
    IdSetSize(visible);
    SubsetSize(sel, IdSet(visible));
  }

  /** The three buttons of the floating action bar. */
  datatype BulkAction = Approve | Reject | Delete

  /** What a bulk action asks the lifecycle to do with the selected ids. */
  datatype BulkCommand =
    | BulkStatusChange(ids: set<string>, status: ExpenseStatus)
    | BulkDelete(ids: set<string>)

  /** `executeBulkAction`: nothing on an empty selection; approve and reject
      become a status change to Approved or Rejected; delete goes through only
      when the confirmation is accepted. */
  function Execute(sel: set<string>, action: BulkAction, confirmed: bool): (r: Option<BulkCommand>)
    ensures r.Some? <==> sel != {} && (action == Delete ==> confirmed)
    ensures r.Some? ==> r.value.ids == sel
    ensures r.Some? ==> (r.value.BulkDelete? <==> action == Delete)
    ensures r.Some? && action == Approve ==> r.value == BulkStatusChange(sel, Approved)
    ensures r.Some? && action == Reject ==> r.value == BulkStatusChange(sel, Rejected)
  {
    if |sel| == 0 then None
    else match action
      case Delete => if confirmed then Some(BulkDelete(sel)) else None
      case Approve => Some(BulkStatusChange(sel, Approved))
      case Reject => Some(BulkStatusChange(sel, Rejected))
  }
}
