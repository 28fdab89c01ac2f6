/** The receipt form: its initial contents, the merge of a classification
    result into it (a suggested value fills a field only when it is truthy),
    the handling of a chosen image, the control changes, submission with the
    reset that follows it, and the removal of the image. */
module ReceiptUploader {
  import opened Common
  import opened Types
  import opened Forms
  import opened GeminiService

  /** The form's contents: the part of a record the form edits. */
  datatype Draft = Draft(
    date: string,
    businessUnit: string,
    category: string,
    paymentMethod: PaymentMethod,
    status: ExpenseStatus,
    amount: real,
    merchant: string,
    description: string,
    referenceNumber: string)

  /** The message shown when an image could not be read or classified. */
  const SCAN_FAILED: string := "Could not auto-scan receipt. Please enter details manually."

  /** The initial form, and the form after a submission: today's date, the
      first unit and category, UPI, Pending Review, and empty values. */
  function InitialDraft(today: string, units: seq<string>, categories: seq<string>): Draft {
    Draft(today, FirstOrBlank(units), FirstOrBlank(categories), Upi, PendingReview, 0.0, "", "", "")
  }

  /** The initial form proposes entries of the lists offered and starts pending, at zero, with no text. */
  lemma InitialDraftDefaults(today: string, units: seq<string>, categories: seq<string>)
    ensures var d := InitialDraft(today, units, categories);
            d.status == PendingReview && d.paymentMethod == Upi && d.amount == 0.0 &&
            d.merchant == "" && d.description == "" && d.referenceNumber == "" &&
            (|units| > 0 ==> d.businessUnit in units) && (|categories| > 0 ==> d.category in categories)
  {
  }

  /** A suggested text is truthy when present and not empty. */
  predicate Truthy(suggested: Option<string>) {
    suggested.Some? && suggested.value != ""
  }

  /** A suggested amount is truthy when present and not zero. */
  predicate TruthyAmount(suggested: Option<real>) {
    suggested.Some? && suggested.value != 0.0
  }

  /** A field after a merge: a truthy suggestion is taken, otherwise the field keeps its value. */
  predicate Merged<T(==)>(suggested: Option<T>, truthy: bool, previous: T, now: T) {
    (truthy ==> suggested.Some? && now == suggested.value) && (!truthy ==> now == previous)
  }

  /** `suggested || previous` for an optional text: absent and empty suggestions are falsy. */
  function Pick(suggested: Option<string>, previous: string): (r: string)
    ensures Merged(suggested, Truthy(suggested), previous, r)
    ensures r == "" ==> !Truthy(suggested) && previous == ""
  {
    if suggested.Some? && suggested.value != "" then suggested.value else previous
  }

  /** `suggested || previous` for an optional amount: absent and zero are falsy. */
  function PickAmount(suggested: Option<real>, previous: real): (r: real)
    ensures Merged(suggested, TruthyAmount(suggested), previous, r)
    ensures r == 0.0 ==> !TruthyAmount(suggested) && previous == 0.0
  {
    if suggested.Some? && suggested.value != 0.0 then suggested.value else previous
  }

  /** The merge of a classification result into the form: each of the seven
      suggested fields takes the suggestion when it is truthy and otherwise
      keeps its value; status and payment method are never touched. */
  function Merge(prev: Draft, r: AnalysisResult): (d: Draft)
    ensures Merged(r.amount, TruthyAmount(r.amount), prev.amount, d.amount)
    ensures Merged(r.date, Truthy(r.date), prev.date, d.date)
    ensures Merged(r.merchant, Truthy(r.merchant), prev.merchant, d.merchant)
    ensures Merged(r.description, Truthy(r.description), prev.description, d.description)
    ensures Merged(r.category, Truthy(r.category), prev.category, d.category)
    ensures Merged(r.businessUnit, Truthy(r.businessUnit), prev.businessUnit, d.businessUnit)
    ensures Merged(r.referenceNumber, Truthy(r.referenceNumber), prev.referenceNumber, d.referenceNumber)
    ensures d.status == prev.status && d.paymentMethod == prev.paymentMethod
  {
    prev.(amount := PickAmount(r.amount, prev.amount),
          date := Pick(r.date, prev.date),
          merchant := Pick(r.merchant, prev.merchant),
          description := Pick(r.description, prev.description),
          category := Pick(r.category, prev.category),
          businessUnit := Pick(r.businessUnit, prev.businessUnit),
          referenceNumber := Pick(r.referenceNumber, prev.referenceNumber))
  }

  /** Merging the same result twice is merging it once. */
  lemma MergeIdempotent(prev: Draft, r: AnalysisResult)
    ensures Merge(Merge(prev, r), r) == Merge(prev, r)
  {
  }

  /** A result without a single truthy suggestion leaves the form as it was. */
  lemma MergeNothing(prev: Draft, r: AnalysisResult)
    requires r.amount.None? || r.amount.value == 0.0
    requires r.date.None? || r.date.value == ""
    requires r.merchant.None? || r.merchant.value == ""
    requires r.description.None? || r.description.value == ""
    requires r.category.None? || r.category.value == ""
    requires r.businessUnit.None? || r.businessUnit.value == ""
    requires r.referenceNumber.None? || r.referenceNumber.value == ""
    ensures Merge(prev, r) == prev
  {
  }

  /** After a service answer, the form's category is an offered one, "Other",
      or the one it had; its unit is an offered one or the one it had. */
  lemma MergeAfterClamp(prev: Draft, raw: RawResponse, categories: seq<string>, businesses: seq<string>)
    ensures var d := Merge(prev, Clamp(raw, categories, businesses));
            (d.category in categories || d.category == FALLBACK_CATEGORY || d.category == prev.category) &&
            (d.businessUnit in businesses || d.businessUnit == prev.businessUnit)
  {
  }

  /** Without a key the fixed answer fills amount, merchant, description,
      reference and category, whatever the form held. */
  lemma MergeMock(prev: Draft, today: string, categories: seq<string>, businesses: seq<string>)
    ensures var d := Merge(prev, MockResult(today, categories, businesses));
            d.amount == 1234.5 && d.merchant == "Demo Merchant (No API Key)" &&
            d.description == "Auto-detected from receipt (Mock)" && d.referenceNumber == "UPI-1234567890" &&
            d.category == OrElse(FirstOrBlank(categories), "Materials") &&
            d.businessUnit == OrElse(FirstOrBlank(businesses), "Head Office")
  {
  }

  /** The editable field of the form in a slot. */
  function Get(d: Draft, slot: nat): FieldValue
    requires slot < SLOTS
  {
    match slot
    case 0 => Number(d.amount)
    case 1 => Text(d.date)
    case 2 => Text(d.merchant)
    case 3 => Text(d.businessUnit)
    case 4 => Text(d.category)
    case 5 => Method(d.paymentMethod)
    case 6 => Text(d.referenceNumber)
    case _ => Text(d.description)
  }

  /** Two forms that agree on every slot and on the status are the same form. */
  lemma SameSlots(d: Draft, e: Draft)
    requires d.status == e.status
    requires forall s :: 0 <= s < SLOTS ==> Get(d, s) == Get(e, s)
    ensures d == e
  {
    assert Get(d, 0) == Get(e, 0) && Get(d, 1) == Get(e, 1) && Get(d, 2) == Get(e, 2) && Get(d, 3) == Get(e, 3);
    assert Get(d, 4) == Get(e, 4) && Get(d, 5) == Get(e, 5) && Get(d, 6) == Get(e, 6) && Get(d, 7) == Get(e, 7);
  }

  /** `handleInputChange` on the receipt form (and the payment buttons): the
      named field takes the control's value and every other field stays. */
  function ApplyToDraft(d: Draft, f: FieldInput): (r: Draft)
    ensures Get(r, f.Slot()) == f.Value()
    ensures forall s :: 0 <= s < SLOTS && s != f.Slot() ==> Get(r, s) == Get(d, s)
    ensures r.status == d.status
  {
    match f
    case AmountInput(p) => d.(amount := AmountValue(p))
    case DateInput(t) => d.(date := t)
    case MerchantInput(t) => d.(merchant := t)
    case BusinessUnitInput(t) => d.(businessUnit := t)
    case CategoryInput(t) => d.(category := t)
    case PaymentMethodInput(m) => d.(paymentMethod := m)
    case ReferenceNumberInput(t) => d.(referenceNumber := t)
    case DescriptionInput(t) => d.(description := t)
  }

  /** Changes of two different fields do not interfere, and of the same field the later wins. */
  lemma ApplyToDraftFields(d: Draft, f: FieldInput, g: FieldInput)
    ensures f.Slot() != g.Slot() ==> ApplyToDraft(ApplyToDraft(d, f), g) == ApplyToDraft(ApplyToDraft(d, g), f)
    ensures f.Slot() == g.Slot() ==> ApplyToDraft(ApplyToDraft(d, f), g) == ApplyToDraft(d, g)
  {
  }

  /** The preview of a chosen image: a data URL of its type and encoded content. */
  function DataUrl(mimeType: string, data: string): string {
    "data:" + mimeType + ";base64," + data
  }

  /** `imagePreview || undefined`: the preview when there is a non-empty one. */
  function StoredImage(preview: Option<string>): (r: Option<string>)
    ensures Truthy(preview) ==> r == preview
    ensures !Truthy(preview) ==> r.None?
  {
    if preview.Some? && preview.value != "" then preview else None
  }

  /** The record a submission builds: the form's fields, a new id, the
      submitter, the time, and the preview as the stored image. */
  function ToExpense(d: Draft, preview: Option<string>, freshId: string, user: User, now: string): (e: Expense)
    ensures e.id == freshId && e.submittedBy == user.name && e.submittedById == user.id && e.submittedAt == now
    ensures e.status == d.status && e.amount == d.amount && e.businessUnit == d.businessUnit && e.category == d.category
    ensures e.date == d.date && e.merchant == d.merchant && e.paymentMethod == d.paymentMethod
    ensures e.description == d.description && e.referenceNumber == Some(d.referenceNumber)
    ensures e.receiptBase64 == StoredImage(preview) && e.receiptUrl.None? && e.reviewNote.None?
  {
    Expense(freshId, d.date, d.amount, d.merchant, d.businessUnit, d.category, d.paymentMethod,
            d.description, Some(d.referenceNumber), None, StoredImage(preview), d.status,
            user.name, user.id, now, None)
  }

  /** The form component's state. */
  class ReceiptForm {
    var formData: Draft
    var imagePreview: Option<string>
    var isAnalyzing: bool
    var analysisError: Option<string>

    /** No control edits the status, so the form stays Pending Review; between
        two events no analysis is running. */
    predicate Valid()
      reads this
    {
      formData.status == PendingReview && !isAnalyzing
    }

    constructor(today: string, units: seq<string>, categories: seq<string>)
      ensures Valid()
      ensures formData == InitialDraft(today, units, categories)
      ensures imagePreview.None? && analysisError.None?
    {
      formData := InitialDraft(today, units, categories);
      imagePreview := None;
      isAnalyzing := false;
      analysisError := None;
    }

    /** `handleFileChange`. `mimeType` is the chosen file's type (none when no
        file was chosen), `encoded` the outcome of resizing and encoding it,
        and the remaining parameters feed the classification call. */
    method HandleFileChange(mimeType: Option<string>, encoded: Result<string>, apiKey: Option<string>,
                            today: string, categories: seq<string>, businesses: seq<string>,
                            response: Result<RawResponse>)
      requires Valid()
      modifies this
      ensures Valid()
      ensures mimeType.None? ==>
                formData == old(formData) && imagePreview == old(imagePreview) && analysisError == old(analysisError)
      ensures mimeType.Some? && encoded.Err? ==>
                formData == old(formData) && imagePreview == old(imagePreview) && analysisError == Some(SCAN_FAILED)
      ensures mimeType.Some? && encoded.Ok? ==> imagePreview == Some(DataUrl(mimeType.value, encoded.value))
      ensures mimeType.Some? && encoded.Ok? ==>
                var result := AnalyzeReceiptImage(apiKey, today, categories, businesses, response);
                (result.Ok? ==> formData == Merge(old(formData), result.value) && analysisError.None?) &&
                (result.Err? ==> formData == old(formData) && analysisError == Some(SCAN_FAILED))
    {
      if mimeType.None? {
        return;
      }
      analysisError := None;
      isAnalyzing := true;
      match encoded {
        case Err(_) =>
          analysisError := Some(SCAN_FAILED);
        case Ok(data) =>
          imagePreview := Some(DataUrl(mimeType.value, data));
          var result := AnalyzeReceiptImage(apiKey, today, categories, businesses, response);
          match result {
            case Ok(r) =>
              formData := Merge(formData, r);
            case Err(_) =>
              analysisError := Some(SCAN_FAILED);
          }
      }
      isAnalyzing := false;
    }

    /** `handleInputChange`, and a payment button: only the named field changes. */
    method InputChange(f: FieldInput)
      requires Valid()
      modifies this
      ensures Valid()
      ensures formData == ApplyToDraft(old(formData), f)
      ensures imagePreview == old(imagePreview) && analysisError == old(analysisError)
    {
      formData := ApplyToDraft(formData, f);
    }

    /** `handleSubmit`: builds the new record for the list, then resets the
        form to its initial contents and drops the preview. */
    method Submit(freshId: string, user: User, now: string, today: string,
                  units: seq<string>, categories: seq<string>) returns (e: Expense)
      requires Valid()
      modifies this
      ensures Valid()
      ensures e == ToExpense(old(formData), old(imagePreview), freshId, user, now)
      ensures e.status == PendingReview && e.id == freshId
      ensures formData == InitialDraft(today, units, categories) && imagePreview.None?
      ensures analysisError == old(analysisError)
    {
      e := ToExpense(formData, imagePreview, freshId, user, now);
      imagePreview := None;
      formData := InitialDraft(today, units, categories);
    }

    /** The remove-image button: the preview goes, and so do the four values
        a scan may have filled; the other fields stay. */
    method RemoveImage()
      requires Valid()
      modifies this
      ensures Valid()
      ensures imagePreview.None?
      ensures formData == old(formData).(amount := 0.0, merchant := "", description := "", referenceNumber := "")
      ensures analysisError == old(analysisError)
    {
      imagePreview := None;
      formData := formData.(amount := 0.0, merchant := "", description := "", referenceNumber := "");
    }
  }
}
