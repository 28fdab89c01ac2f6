/** The review queue: the pending records, and the select mode with its
    selection and bulk actions. */
module ReviewQueue {
  import opened Common
  import opened Types
  import opened Selection
  import opened StatsCards

  /** `pendingExpenses`: exactly the Pending Review records, in list order. */
  function PendingExpenses(xs: seq<Expense>): (r: seq<Expense>)
    ensures forall i :: 0 <= i < |r| ==> r[i] in xs && r[i].status == PendingReview
    ensures forall i :: 0 <= i < |xs| && xs[i].status == PendingReview ==> xs[i] in r
    ensures |r| == PendingCount(xs)
  {
    Filter(IsPending, xs)
  }

  /** The queue keeps list order: the queue of a concatenation is the
      concatenation of the queues. */
  lemma PendingConcat(a: seq<Expense>, b: seq<Expense>)
    ensures PendingExpenses(a + b) == PendingExpenses(a) + PendingExpenses(b)
  {
    FilterConcat(IsPending, a, b);
  }

  /** The page's own state: select mode and the selected ids. */
  class ReviewQueueView {
    var isSelectMode: bool
    var selectedIds: set<string>

    constructor()
      ensures !isSelectMode && selectedIds == {}
    {
      isSelectMode := false;
      selectedIds := {};
    }

    /** The select-mode button is offered only while something is pending. */
    static predicate ShowSelectButton(xs: seq<Expense>) {
      |PendingExpenses(xs)| > 0
    }

    /** The floating action bar needs select mode and a non-empty selection. */
    predicate ShowActionBar()
      reads this
    {
      isSelectMode && |selectedIds| > 0
    }

    /** The select-mode button flips the mode and empties the selection. */
    method ToggleSelectMode()
      modifies this
      ensures isSelectMode == !old(isSelectMode) && selectedIds == {}
      ensures !ShowActionBar()
    {
      isSelectMode := !isSelectMode;
      selectedIds := {};
    }

    /** `toggleSelection` on a copy of the set. */
    method ToggleSelection(id: string)
      modifies this
      ensures selectedIds == Toggle(old(selectedIds), id)
      ensures isSelectMode == old(isSelectMode)
    {
      var next := selectedIds;
      if id in next {
        next := next - {id};
      } else {
        next := next + {id};
      }
      selectedIds := next;
    }

    /** `handleSelectAll` over the pending records. */
    method SelectAll(xs: seq<Expense>)
      modifies this
      ensures selectedIds == SelectAllOrClear(old(selectedIds), PendingExpenses(xs))
      ensures isSelectMode == old(isSelectMode)
    {
      var pending := PendingExpenses(xs);
      if |selectedIds| == |pending| {
        selectedIds := {};
      } else {
        selectedIds := IdSet(pending);
      }
    }

    /** `executeBulkAction`: a command issued clears the selection and leaves
        select mode; otherwise nothing changes. */
    method ExecuteBulkAction(action: BulkAction, confirmed: bool) returns (cmd: Option<BulkCommand>)
      modifies this
      ensures cmd == Execute(old(selectedIds), action, confirmed)
      ensures cmd.Some? ==> selectedIds == {} && !isSelectMode && !ShowActionBar()
      ensures cmd.None? ==> selectedIds == old(selectedIds) && isSelectMode == old(isSelectMode)
    {
      cmd := Execute(selectedIds, action, confirmed);
      if cmd.Some? {
        selectedIds := {};
        isSelectMode := false;
      }
    }
  }
}
