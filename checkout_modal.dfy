/**
 * The checkout form (`CheckoutModal`): ten required text fields, an error
 * message per empty field, and a submit that goes ahead only when no field
 * is empty.
 */
module CheckoutModal {

  /** The keys of `CheckoutFormData`. */
  datatype Field = FullName | Email | Phone | Address | City | State | ZipCode | CardNumber | ExpiryDate | Cvv

  /** `errorsMap`: the message shown under an empty field. */
  function Message(f: Field): (r: string)
    ensures |r| > 0 && r[|r| - 1] == '.'
  {
    match f
    case FullName => "Full Name is required."
    case Email => "Email Address is required."
    case Phone => "Phone Number is required."
    case Address => "Street Address is required."
    case City => "City is required."
    case State => "State is required."
    case ZipCode => "ZIP Code is required."
    case CardNumber => "Card Number is required."
    case ExpiryDate => "Expiry Date is required."
    case Cvv => "CVV is required."
  }

  /** Every field has a message of its own. */
  lemma MessagesDistinct(f: Field, g: Field)
    requires f != g
    ensures Message(f) != Message(g)
  {
  }

  /** A form that holds a value for every field. */
  predicate Complete(data: map<Field, string>) {
    forall f: Field :: f in data
  }

  /** The errors `validateForm` collects: the message of every empty field, and nothing else. */
  function RequiredErrors(data: map<Field, string>): (errors: map<Field, string>)
    ensures forall f :: f in errors <==> f in data && data[f] == ""
    ensures forall f :: f in errors ==> errors[f] == Message(f)
  {
    map f | f in data && data[f] == "" :: Message(f)
  }

  /** The form validates exactly when every field is filled in. */
  lemma ValidIffAllFilled(data: map<Field, string>)
    requires Complete(data)
    ensures RequiredErrors(data) == map[] <==> forall f :: data[f] != ""
  {
    if RequiredErrors(data) != map[] {
      var f :| f in RequiredErrors(data);
      assert data[f] == "";
    }
  }

  /** The initial `formData`: every field empty. */
  function EmptyForm(): map<Field, string> {
    map[FullName := "", Email := "", Phone := "", Address := "", City := "", State := "",
        ZipCode := "", CardNumber := "", ExpiryDate := "", Cvv := ""]
  }

  lemma EmptyFormIsBlank()
    ensures Complete(EmptyForm()) && forall f :: EmptyForm()[f] == ""
  {
    forall f: Field ensures f in EmptyForm() && EmptyForm()[f] == "" {
      match f
      case FullName =>
      case Email =>
      case Phone =>
      case Address =>
      case City =>
      case State =>
      case ZipCode =>
      case CardNumber =>
      case ExpiryDate =>
      case Cvv =>
    }
  }

  class CheckoutForm {
    var data: map<Field, string>
    var errors: map<Field, string>
    var isSubmitting: bool

    predicate Valid()
      reads this
    {
      Complete(data)
    }

    /** Every field empty, no errors, not submitting. */
    constructor ()
      ensures Valid() && errors == map[] && !isSubmitting
      ensures forall f :: data[f] == ""
    {
      data := EmptyForm();
      EmptyFormIsBlank();
      errors := map[];
      isSubmitting := false;
    }

    /** `validateForm`: replaces the errors and reports whether there are none. */
    method ValidateForm() returns (ok: bool)
      modifies this
      ensures errors == RequiredErrors(data)
      ensures ok <==> errors == map[]
      ensures data == old(data) && isSubmitting == old(isSubmitting)
    {
      errors := RequiredErrors(data);
      ok := errors == map[];
    }

    /** `handleChange(field, value)`: stores the value and blanks the field's error if it had one. */
    method HandleChange(field: Field, value: string)
      modifies this
      ensures data == old(data)[field := value]
      ensures field in old(errors) && old(errors)[field] != "" ==> errors == old(errors)[field := ""]
      ensures !(field in old(errors) && old(errors)[field] != "") ==> errors == old(errors)
      ensures isSubmitting == old(isSubmitting)
      ensures old(Valid()) ==> Valid()
    {
      data := data[field := value];
      if field in errors && errors[field] != "" {
        errors := errors[field := ""];
      }
    }

    /**
     * `handleSubmit`: validates; when every field is filled the order is
     * placed (the alert and `onClose`) and the submitting flag ends cleared.
     */
    method HandleSubmit() returns (placed: bool)
      modifies this
      ensures errors == RequiredErrors(old(data))
      ensures placed <==> RequiredErrors(old(data)) == map[]
      ensures data == old(data)
      ensures placed ==> !isSubmitting
      ensures !placed ==> isSubmitting == old(isSubmitting)
    {
      var ok := ValidateForm();
      if !ok {
        return false;
      }
      isSubmitting := true;
      placed := true;
      isSubmitting := false;
    }
  }

  /** After typing a non-empty value, the next validation reports no error for that field. */
  lemma ChangeThenValidateClearsField(data: map<Field, string>, field: Field, value: string)
    requires value != ""
    ensures field !in RequiredErrors(data[field := value])
  {
  }

  /** A fresh form fails validation with all ten messages. */
  lemma EmptyFormReportsEveryField(data: map<Field, string>)
    requires Complete(data) && forall f :: data[f] == ""
    ensures forall f :: f in RequiredErrors(data) && RequiredErrors(data)[f] == Message(f)
  {
  }
}
