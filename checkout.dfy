// The checkout form: its change handler, the early-return validation chain
// with fixed message order, and the gate in front of payment and order
// placement.
module Checkout {
  import opened JsText

  /** What a form field holds: the text of an input, or a checkbox's state. */
  datatype FieldValue = Text(text: string) | Checked(on: bool)

  /** `formData`: any name the change handler is given can be written, and a
      name never written is `undefined`. */
  type CheckoutForm = map<string, FieldValue>

  const InitialForm: CheckoutForm := map[
    "firstName" := Text(""), "lastName" := Text(""), "email" := Text(""), "phone" := Text(""),
    "address" := Text(""), "city" := Text(""), "state" := Text(""), "zipCode" := Text(""),
    "country" := Text("Australia"), "paymentMethod" := Text("card"),
    "cardNumber" := Text(""), "expiryDate" := Text(""), "cvv" := Text(""), "nameOnCard" := Text(""),
    "saveInfo" := Checked(false)]

  /** `!!formData[name]`: a missing field, the empty string and an unchecked box are falsy. */
  predicate Truthy(form: CheckoutForm, name: string) {
    name in form && match form[name]
      case Text(s) => s != ""
      case Checked(b) => b
  }

  // ---------------------------------------------------------------------------
  // handleInputChange

  /** `handleInputChange`: a checkbox stores its `checked` state, every other
      input its `value`. */
  function HandleInputChange(form: CheckoutForm, name: string, inputType: string, value: string, checked: bool): (r: CheckoutForm)
    ensures name in r && r.Keys == form.Keys + {name}
    ensures r[name] == if inputType == "checkbox" then Checked(checked) else Text(value)
    ensures forall n :: n in form && n != name ==> r[n] == form[n]
  {
    form[name := if inputType == "checkbox" then Checked(checked) else Text(value)]
  }

  /** The only checkbox on the page is `saveInfo`; every other field holds text. */
  predicate WellTyped(form: CheckoutForm) {
    forall n :: n in form && form[n].Checked? ==> n == "saveInfo"
  }

  /** The initial form is well typed, and an edit through an input of the page
      (only `saveInfo` is a checkbox) keeps it so. */
  lemma HandleInputChangeKeepsWellTyped(form: CheckoutForm, name: string, inputType: string, value: string, checked: bool)
    requires WellTyped(form)
    requires inputType == "checkbox" ==> name == "saveInfo"
    ensures WellTyped(HandleInputChange(form, name, inputType, value, checked))
    ensures WellTyped(InitialForm)
  {
  }

  // ---------------------------------------------------------------------------
  // validateForm

  const FillRequired := "Please fill in all required fields"
  const CompleteAddress := "Please complete your shipping address"
  const CompletePayment := "Please complete your payment information"
  const InvalidCardNumber := "Please enter a valid 16-digit card number"

  /** The outcome of `validateForm`: `null`, a message, or the TypeError that
      `.replace` on a checkbox value `true` in `cardNumber` would raise. */
  datatype Verdict = Valid | Invalid(message: string) | TypeError

  const CustomerFields := ["firstName", "lastName", "email", "phone"]
  const AddressFields := ["address", "city", "zipCode"]
  const CardFields := ["cardNumber", "expiryDate", "cvv", "nameOnCard"]

  predicate PaysByCard(form: CheckoutForm) {
    "paymentMethod" in form && form["paymentMethod"] == Text("card")
  }

  /** `validateForm`: the first failing check's message, in source order;
      card fields are looked at only when paying by card. */
  function ValidateForm(form: CheckoutForm): (v: Verdict)
    ensures v.Invalid? ==> v.message in {FillRequired, CompleteAddress, CompletePayment, InvalidCardNumber}
    ensures v == TypeError ==> PaysByCard(form) && "cardNumber" in form && form["cardNumber"] == Checked(true)
  {
    if !Truthy(form, "firstName") || !Truthy(form, "lastName") || !Truthy(form, "email") || !Truthy(form, "phone") then
      Invalid(FillRequired)
    else if !Truthy(form, "address") || !Truthy(form, "city") || !Truthy(form, "zipCode") then
      Invalid(CompleteAddress)
    else if PaysByCard(form) then
      if !Truthy(form, "cardNumber") || !Truthy(form, "expiryDate") || !Truthy(form, "cvv") || !Truthy(form, "nameOnCard") then
        Invalid(CompletePayment)
      else if form["cardNumber"].Checked? then
        TypeError
      else if |RemoveSpaces(form["cardNumber"].text)| != 16 then
        Invalid(InvalidCardNumber)
      else
        Valid
    else
      Valid
  }

  /** Every field of the group is filled in. */
  predicate AllFilled(form: CheckoutForm, names: seq<string>) {
    forall i :: 0 <= i < |names| ==> Truthy(form, names[i])
  }

  /** The card number, spaces removed, has exactly 16 characters; what they are is not checked. */
  predicate CardNumberHas16(form: CheckoutForm) {
    "cardNumber" in form && form["cardNumber"].Text? && |RemoveSpaces(form["cardNumber"].text)| == 16
  }

  /** Every check of the form passes. */
  predicate ChecksPass(form: CheckoutForm) {
    && AllFilled(form, CustomerFields)
    && AllFilled(form, AddressFields)
    && (PaysByCard(form) ==> AllFilled(form, CardFields) && CardNumberHas16(form))
  }

  lemma AllFilledFour(form: CheckoutForm, names: seq<string>)
    requires |names| == 4
    ensures AllFilled(form, names) <==>
      Truthy(form, names[0]) && Truthy(form, names[1]) && Truthy(form, names[2]) && Truthy(form, names[3])
  {
  }

  lemma AllFilledThree(form: CheckoutForm, names: seq<string>)
    requires |names| == 3
    ensures AllFilled(form, names) <==> Truthy(form, names[0]) && Truthy(form, names[1]) && Truthy(form, names[2])
  {
  }

  /** The verdict names the first group with a missing field, then a card
      number of the wrong length; it is `null` exactly when every check passes. */
  lemma ValidateFormMeaning(form: CheckoutForm)
    ensures ValidateForm(form) == Invalid(FillRequired) <==> !AllFilled(form, CustomerFields)
    ensures ValidateForm(form) == Invalid(CompleteAddress) <==>
      AllFilled(form, CustomerFields) && !AllFilled(form, AddressFields)
    ensures ValidateForm(form) == Invalid(CompletePayment) <==>
      AllFilled(form, CustomerFields) && AllFilled(form, AddressFields) && PaysByCard(form) && !AllFilled(form, CardFields)
    ensures ValidateForm(form) == Invalid(InvalidCardNumber) <==>
      && AllFilled(form, CustomerFields) && AllFilled(form, AddressFields) && PaysByCard(form) && AllFilled(form, CardFields)
      && form["cardNumber"].Text? && |RemoveSpaces(form["cardNumber"].text)| != 16
    ensures ValidateForm(form) == Valid <==> ChecksPass(form)
  {
    AllFilledFour(form, CustomerFields);
    AllFilledThree(form, AddressFields);
    AllFilledFour(form, CardFields);
  }

  /** On a well-typed form validation never throws. */
  lemma WellTypedNeverThrows(form: CheckoutForm)
    requires WellTyped(form)
    ensures ValidateForm(form) != TypeError
  {
  }

  /** The untouched form fails on the first group. */
  lemma InitialFormNeedsCustomer()
    ensures ValidateForm(InitialForm) == Invalid(FillRequired)
  {
    assert !Truthy(InitialForm, "firstName");
  }

  /** The two forms hold the same (or no) value under each of the names. */
  predicate AgreeOn(f: CheckoutForm, g: CheckoutForm, names: set<string>) {
    forall n :: n in names ==> (n in f <==> n in g) && (n in f ==> f[n] == g[n])
  }

  /** The fields `validateForm` reads: the customer, address and card fields
      and the payment method. */
  const Inspected := {"firstName", "lastName", "email", "phone", "address", "city", "zipCode",
                      "paymentMethod", "cardNumber", "expiryDate", "cvv", "nameOnCard"}

  /** The verdict depends on the inspected fields only; when not paying by
      card, not even on the card fields. */
  lemma VerdictReadsInspectedFields(f: CheckoutForm, g: CheckoutForm)
    requires AgreeOn(f, g, Inspected - (if PaysByCard(f) then {} else {"cardNumber", "expiryDate", "cvv", "nameOnCard"}))
    ensures ValidateForm(f) == ValidateForm(g)
  {
    var s := Inspected - (if PaysByCard(f) then {} else {"cardNumber", "expiryDate", "cvv", "nameOnCard"});
    assert "paymentMethod" in s;
    assert PaysByCard(f) <==> PaysByCard(g);
    forall n | n in {"firstName", "lastName", "email", "phone", "address", "city", "zipCode"}
      ensures Truthy(f, n) <==> Truthy(g, n)
    {
      assert n in s;
    }
    if PaysByCard(f) {
      forall n | n in {"cardNumber", "expiryDate", "cvv", "nameOnCard"}
        ensures Truthy(f, n) <==> Truthy(g, n)
      {
        assert n in s;
      }
      assert "cardNumber" in s;
    }
  }

  /** A field outside the chain (`state`, `country`, `saveInfo`, or any other
      name) never changes the verdict. */
  lemma UncheckedFields(form: CheckoutForm, name: string, value: FieldValue)
    requires name !in Inspected
    ensures ValidateForm(form[name := value]) == ValidateForm(form)
  {
    VerdictReadsInspectedFields(form[name := value], form);
  }

  /** When not paying by card ('cod'), no card field is inspected. */
  lemma CashIgnoresCard(form: CheckoutForm, name: string, value: FieldValue)
    requires name in {"cardNumber", "expiryDate", "cvv", "nameOnCard"}
    requires !PaysByCard(form)
    ensures ValidateForm(form[name := value]) == ValidateForm(form)
  {
    assert !PaysByCard(form[name := value]);
    VerdictReadsInspectedFields(form[name := value], form);
  }

  // ---------------------------------------------------------------------------
  // The validation gate of handleSubmit

  /** What `handleSubmit` does after validating: show the message and stop,
      or go on to payment (by card only) and then order placement. */
  datatype SubmitStep = ShowError(message: string) | PayThenOrder | OrderOnly | Thrown

  function SubmitGate(form: CheckoutForm): (step: SubmitStep)
    ensures step.ShowError? <==> ValidateForm(form).Invalid?
    ensures step.ShowError? ==> step.message == ValidateForm(form).message
    ensures step == PayThenOrder <==> ValidateForm(form) == Valid && PaysByCard(form)
    ensures step == OrderOnly <==> ValidateForm(form) == Valid && !PaysByCard(form)
  {
    match ValidateForm(form)
    case Invalid(message) => ShowError(message)
    case TypeError => Thrown
    case Valid => if PaysByCard(form) then PayThenOrder else OrderOnly
  }

  /** Payment or an order is attempted only for a form whose every check passes. */
  lemma GateStopsInvalidForms(form: CheckoutForm)
    ensures SubmitGate(form) in {PayThenOrder, OrderOnly} <==> ChecksPass(form)
    ensures SubmitGate(form) == PayThenOrder ==> CardNumberHas16(form)
  {
    ValidateFormMeaning(form);
  }
}
