/** The expense card: the image source of an attached receipt, what a click on
    the card does, and which buttons the card offers. The card holds no state;
    its handlers are modelled as the values they hand to their callbacks. */
module ExpenseCard {
  import opened Common
  import opened Text
  import opened Types
  import opened StatsCards
  import Lifecycle

  const DATA_PREFIX: string := "data:"
  const JPEG_PREFIX: string := "data:image/jpeg;base64,"

  /** `receiptSrc`: a non-empty stored image that already is a data URL is
      used as it is, any other non-empty stored image is taken as JPEG data;
      without a stored image, the receipt URL (possibly absent). */
  function ReceiptSrc(e: Expense): (r: Option<string>)
    ensures e.receiptBase64.Some? && e.receiptBase64.value != "" ==>
              r.Some? && StartsWith(r.value, DATA_PREFIX) &&
              (r.value == e.receiptBase64.value || r.value == JPEG_PREFIX + e.receiptBase64.value)
    ensures e.receiptBase64.Some? && StartsWith(e.receiptBase64.value, DATA_PREFIX) ==> r == e.receiptBase64
    ensures (e.receiptBase64.None? || e.receiptBase64.value == "") ==> r == e.receiptUrl
  {
    match e.receiptBase64
    case Some(b) =>
      if b != "" then
        if StartsWith(b, DATA_PREFIX) then Some(b)
        else
          assert (JPEG_PREFIX + b)[..|DATA_PREFIX|] == DATA_PREFIX;
          Some(JPEG_PREFIX + b)
      else e.receiptUrl
    case None => e.receiptUrl
  }

  /** The source is stable: storing the computed source as the image gives the same source. */
  lemma ReceiptSrcIdempotent(e: Expense)
    requires e.receiptBase64.Some? && e.receiptBase64.value != ""
    ensures ReceiptSrc(e.(receiptBase64 := ReceiptSrc(e))) == ReceiptSrc(e)
  {
  }

  /** Whether the card shows a receipt thumbnail: the source is a non-empty string. */
  predicate ShowsReceipt(e: Expense) {
    var src := ReceiptSrc(e);
    src.Some? && src.value != ""
  }

  /** The thumbnail shows exactly when the record has a non-empty stored image or a non-empty URL. */
  lemma ShowsReceiptIff(e: Expense)
    ensures ShowsReceipt(e) <==>
              (e.receiptBase64.Some? && e.receiptBase64.value != "") || (e.receiptUrl.Some? && e.receiptUrl.value != "")
  {
    if e.receiptBase64.Some? && e.receiptBase64.value != "" {
      assert |ReceiptSrc(e).value| >= |DATA_PREFIX|;
    }
  }

  /** What a click on the card does. */
  datatype CardClick = ToggleSelect(id: string) | OpenRecord | NoAction

  /** The card's click handler: in select mode with a toggle handler the click
      toggles this record's id; otherwise the click handler is called when
      one is supplied. */
  function Click(e: Expense, isSelectMode: bool, hasToggle: bool, hasOnClick: bool): (r: CardClick)
    ensures r.ToggleSelect? <==> isSelectMode && hasToggle
    ensures r.ToggleSelect? ==> r.id == e.id
    ensures r.OpenRecord? <==> !(isSelectMode && hasToggle) && hasOnClick
  {
    if isSelectMode && hasToggle then ToggleSelect(e.id)
    else if hasOnClick then OpenRecord
    else NoAction
  }

  /** The edit button is hidden in select mode and needs an edit handler. */
  predicate ShowEditButton(isSelectMode: bool, hasOnEdit: bool) {
    !isSelectMode && hasOnEdit
  }

  /** The approve and reject buttons: outside select mode, on a record still
      pending review, with a status handler. */
  predicate ShowReviewButtons(e: Expense, isSelectMode: bool, hasOnStatusChange: bool) {
    !isSelectMode && e.status == PendingReview && hasOnStatusChange
  }

  /** The approve button's call: this card's id with Approved. */
  function ApprovePayload(e: Expense): (r: (string, ExpenseStatus))
    ensures r.0 == e.id && r.1 == Approved
  {
    (e.id, Approved)
  }

  /** The reject button's call: this card's id with Rejected. */
  function RejectPayload(e: Expense): (r: (string, ExpenseStatus))
    ensures r.0 == e.id && r.1 == Rejected
  {
    (e.id, Rejected)
  }

  /** On a list whose ids are distinct, a test that only the record at `k`
      can pass and that it does pass selects exactly one record. */
  lemma {:induction false} OnlyRecordWithId(xs: seq<Expense>, k: nat, p: Expense -> bool)
    requires k < |xs| && UniqueIds(xs) && p(xs[k])
    requires forall i :: 0 <= i < |xs| && p(xs[i]) ==> xs[i].id == xs[k].id
    ensures |Filter(p, xs)| == 1
  {
    if k == 0 {
      forall i | 0 <= i < |xs[1..]| ensures !p(xs[1..][i]) {
        assert xs[1..][i] == xs[i + 1];
      }
      FilterDropsAll(p, xs[1..]);
    } else {
      forall i | 0 <= i < |xs[1..]| && p(xs[1..][i]) ensures xs[1..][i].id == xs[1..][k - 1].id {
        assert xs[1..][i] == xs[i + 1];
      }
      OnlyRecordWithId(xs[1..], k - 1, p);
    }
  }

  /** Approving a record from its card, on a list whose ids are distinct,
      takes it out of the pending count and into the approved count. */
  lemma ApproveFromCard(xs: seq<Expense>, k: nat, isSelectMode: bool)
    requires k < |xs| && UniqueIds(xs)
    requires ShowReviewButtons(xs[k], isSelectMode, true)
    ensures var ys := Lifecycle.UpdateStatus(xs, ApprovePayload(xs[k]).0, ApprovePayload(xs[k]).1);
            PendingCount(ys) == PendingCount(xs) - 1 &&
            ApprovedCount(ys) == ApprovedCount(xs) + 1
  {
    var id := xs[k].id;
    var ys := Lifecycle.SetStatusWhere(xs, {id}, Approved);
    OnlyRecordWithId(xs, k, Lifecycle.InIdsWith({id}, PendingReview));
    OnlyRecordWithId(xs, k, Lifecycle.InIdsWithout({id}, Approved));
    Lifecycle.StatusChangeCounts(xs, {id}, Approved, PendingReview);
    Lifecycle.StatusChangeCounts(xs, {id}, Approved, Approved);
    FilterSameOn(IsPending, Lifecycle.WithStatus(PendingReview), xs);
    FilterSameOn(IsPending, Lifecycle.WithStatus(PendingReview), ys);
    FilterSameOn(IsApproved, Lifecycle.WithStatus(Approved), xs);
    FilterSameOn(IsApproved, Lifecycle.WithStatus(Approved), ys);
  }

  /** Rejecting a record from its card, on a list whose ids are distinct,
      takes it out of the pending count and into the rejected count. */
  lemma RejectFromCard(xs: seq<Expense>, k: nat, isSelectMode: bool)
    requires k < |xs| && UniqueIds(xs)
    requires ShowReviewButtons(xs[k], isSelectMode, true)
    ensures var ys := Lifecycle.UpdateStatus(xs, RejectPayload(xs[k]).0, RejectPayload(xs[k]).1);
            PendingCount(ys) == PendingCount(xs) - 1 &&
            RejectedCount(ys) == RejectedCount(xs) + 1
  {
    var id := xs[k].id;
    var ys := Lifecycle.SetStatusWhere(xs, {id}, Rejected);
    OnlyRecordWithId(xs, k, Lifecycle.InIdsWith({id}, PendingReview));
    OnlyRecordWithId(xs, k, Lifecycle.InIdsWithout({id}, Rejected));
    Lifecycle.StatusChangeCounts(xs, {id}, Rejected, PendingReview);
    Lifecycle.StatusChangeCounts(xs, {id}, Rejected, Rejected);
    FilterSameOn(IsPending, Lifecycle.WithStatus(PendingReview), xs);
    FilterSameOn(IsPending, Lifecycle.WithStatus(PendingReview), ys);
    FilterSameOn(IsRejected, Lifecycle.WithStatus(Rejected), xs);
    FilterSameOn(IsRejected, Lifecycle.WithStatus(Rejected), ys);
  }

  /** In select mode a card offers no buttons, and a click with a toggle
      handler toggles this record instead of opening it. */
  lemma SelectModeCard(e: Expense, hasToggle: bool, hasOnClick: bool, hasOnEdit: bool, hasOnStatusChange: bool)
    ensures !ShowEditButton(true, hasOnEdit) && !ShowReviewButtons(e, true, hasOnStatusChange)
    ensures hasToggle ==> Click(e, true, hasToggle, hasOnClick) == ToggleSelect(e.id)
    ensures !hasToggle && hasOnClick ==> Click(e, true, hasToggle, hasOnClick) == OpenRecord
  {
  }
}
