/** The edit dialog: its form is a copy of the record being edited, each
    control writes one field, and saving hands the whole edited record back;
    deleting hands back the record's id. The id and the submission fields
    have no control, so an edit never changes them. */
module EditExpenseModal {
  import opened Common
  import opened Types
  import opened Forms
  import ExpenseCard

  /** The editable field of a record in a slot; the reference is optional on a record. */
  function Get(e: Expense, slot: nat): FieldValue
    requires slot < SLOTS
  {
    match slot
    case 0 => Number(e.amount)
    case 1 => Text(e.date)
    case 2 => Text(e.merchant)
    case 3 => Text(e.businessUnit)
    case 4 => Text(e.category)
    case 5 => Method(e.paymentMethod)
    case 6 => Reference(e.referenceNumber)
    case _ => Text(e.description)
  }

  /** The value a control writes into a record: the reference text becomes a
      present reference, every other control writes its own value. */
  function EditValue(f: FieldInput): FieldValue {
    if f.ReferenceNumberInput? then Reference(Some(f.reference)) else f.Value()
  }

  /** `handleInputChange`: the named field takes the control's value, every
      other editable field stays, and the fields without a control stay. */
  function ApplyEdit(e: Expense, f: FieldInput): (r: Expense)
    ensures Get(r, f.Slot()) == EditValue(f)
    ensures forall s :: 0 <= s < SLOTS && s != f.Slot() ==> Get(r, s) == Get(e, s)
    ensures r.id == e.id && r.status == e.status && r.submittedBy == e.submittedBy
    ensures r.submittedById == e.submittedById && r.submittedAt == e.submittedAt
    ensures r.receiptUrl == e.receiptUrl && r.receiptBase64 == e.receiptBase64 && r.reviewNote == e.reviewNote
  {
    match f
    case AmountInput(p) => e.(amount := AmountValue(p))
    case DateInput(t) => e.(date := t)
    case MerchantInput(t) => e.(merchant := t)
    case BusinessUnitInput(t) => e.(businessUnit := t)
    case CategoryInput(t) => e.(category := t)
    case PaymentMethodInput(m) => e.(paymentMethod := m)
    case ReferenceNumberInput(t) => e.(referenceNumber := Some(t))
    case DescriptionInput(t) => e.(description := t)
  }

  /** Two changes of the same field: the later one wins. */
  lemma ApplyEditLastWins(e: Expense, f: FieldInput, g: FieldInput)
    requires f.Slot() == g.Slot()
    ensures ApplyEdit(ApplyEdit(e, f), g) == ApplyEdit(e, g)
  {
  }

  /** Changes of two different fields do not interfere: their order does not matter. */
  lemma ApplyEditCommute(e: Expense, f: FieldInput, g: FieldInput)
    requires f.Slot() != g.Slot()
    ensures ApplyEdit(ApplyEdit(e, f), g) == ApplyEdit(ApplyEdit(e, g), f)
  {
  }

  /** The dialog shows the wider layout when the record has a non-empty stored
      image or a non-empty receipt URL, which is exactly when the receipt
      source the dialog and the card both compute is a non-empty string. */
  predicate HasReceipt(e: Expense) {
    (e.receiptBase64.Some? && e.receiptBase64.value != "") || (e.receiptUrl.Some? && e.receiptUrl.value != "")
  }

  lemma HasReceiptIffSource(e: Expense)
    ensures HasReceipt(e) <==> ExpenseCard.ShowsReceipt(e)
  {
    ExpenseCard.ShowsReceiptIff(e);
  }

  /** The dialog: its two props and its form. `formData` none stands for the
      empty form the dialog starts with before any record was supplied. */
  class EditModal {
    var isOpen: bool
    var expense: Option<Expense>
    var formData: Option<Expense>

    /** Once a record was supplied, the form holds a copy of some version of
        it with the same id. */
    predicate Valid()
      reads this
    {
      expense.Some? ==> formData.Some? && formData.value.id == expense.value.id
    }

    /** The first render; the effect copies the supplied record into the form. */
    constructor(open: bool, e: Option<Expense>)
      ensures Valid()
      ensures isOpen == open && expense == e && formData == e
    {
      isOpen := open;
      expense := e;
      formData := e;
    }

    /** New props; the effect copies the record into the form whenever a
        different record is supplied, and keeps the form otherwise. */
    method SetProps(open: bool, e: Option<Expense>)
      requires Valid()
      modifies this
      ensures Valid()
      ensures isOpen == open && expense == e
      ensures formData == if e.Some? && e != old(expense) then e else old(formData)
    {
      if e.Some? && e != expense {
        formData := e;
      }
      isOpen := open;
      expense := e;
    }

    /** The dialog renders only when open and given a record. */
    predicate Renders()
      reads this
    {
      isOpen && expense.Some?
    }

    /** A control changed: only the named field of the form changes. */
    method InputChange(f: FieldInput)
      requires Valid() && Renders()
      modifies this
      ensures Valid() && Renders()
      ensures formData == Some(ApplyEdit(old(formData.value), f))
      ensures isOpen == old(isOpen) && expense == old(expense)
    {
      formData := Some(ApplyEdit(formData.value, f));
    }

    /** `handleSubmit`: the edited record, which keeps the supplied record's id. */
    method Submit() returns (saved: Expense)
      requires Valid() && Renders()
      ensures saved == formData.value && saved.id == expense.value.id
    {
      saved := formData.value;
    }

    /** `handleDelete`: the supplied record's id, when a delete handler was given. */
    method Delete(hasHandler: bool) returns (deleted: Option<string>)
      requires Renders()
      ensures hasHandler ==> deleted == Some(expense.value.id)
      ensures !hasHandler ==> deleted.None?
    {
      if hasHandler {
        deleted := Some(expense.value.id);
      } else {
        deleted := None;
      }
    }
  }

  /** Any sequence of control changes keeps the id and the submission fields,
      so a save replaces the record it was opened for. */
  function ApplyEdits(e: Expense, fs: seq<FieldInput>): (r: Expense)
    ensures r.id == e.id && r.status == e.status && r.submittedBy == e.submittedBy
    ensures r.submittedById == e.submittedById && r.submittedAt == e.submittedAt
    ensures r.receiptUrl == e.receiptUrl && r.receiptBase64 == e.receiptBase64 && r.reviewNote == e.reviewNote
    decreases |fs|
  {
    if fs == [] then e else ApplyEdits(ApplyEdit(e, fs[0]), fs[1..])
  }
}
