/** The change events shared by the two expense forms (the receipt form and
    the edit dialog): each control is identified by the record field it
    names, and the amount control's text goes through `parseFloat`. */
module Forms {
  import opened Common
  import opened Types

  /** One change event, by the name of the control. The amount control
      carries what `parseFloat` made of the typed text, none standing for NaN. */
  datatype FieldInput =
    | AmountInput(parsed: Option<real>)
    | DateInput(date: string)
    | MerchantInput(merchant: string)
    | BusinessUnitInput(unit: string)
    | CategoryInput(category: string)
    | PaymentMethodInput(choice: PaymentMethod)
    | ReferenceNumberInput(reference: string)
    | DescriptionInput(description: string)
  {
    /** The field the control writes; two events write the same field exactly
        when their slots agree. */
    function Slot(): (r: nat)
      ensures r < SLOTS
    {
      match this
      case AmountInput(_) => 0
      case DateInput(_) => 1
      case MerchantInput(_) => 2
      case BusinessUnitInput(_) => 3
      case CategoryInput(_) => 4
      case PaymentMethodInput(_) => 5
      case ReferenceNumberInput(_) => 6
      case DescriptionInput(_) => 7
    }

    /** The value the control writes into its field. */
    function Value(): FieldValue {
      match this
      case AmountInput(p) => Number(AmountValue(p))
      case DateInput(t) => Text(t)
      case MerchantInput(t) => Text(t)
      case BusinessUnitInput(t) => Text(t)
      case CategoryInput(t) => Text(t)
      case PaymentMethodInput(m) => Method(m)
      case ReferenceNumberInput(t) => Text(t)
      case DescriptionInput(t) => Text(t)
    }
  }

  /** The number of editable fields the two forms share. */
  const SLOTS: nat := 8

  /** The content of one editable field, whatever its type. */
  datatype FieldValue = Number(amount: real) | Text(text: string) | Method(choice: PaymentMethod) | Reference(reference: Option<string>)

  /** `parseFloat(value) || 0`: text that is not a number (NaN) and zero both give 0. */
  function AmountValue(parsed: Option<real>): (r: real)
    ensures parsed.None? ==> r == 0.0
    ensures parsed.Some? ==> r == parsed.value
  {
    if parsed.Some? && parsed.value != 0.0 then parsed.value else 0.0
  }
}
