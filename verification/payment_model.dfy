/** The server-side payment record (server/src/models/paymentModel.js): the
    object built by its constructor and the chain of checks in `validate()`.
    The object is never mutated after construction, so it is a value here. */
module PaymentModel {
  import opened JsValues

  /** The `payment_details` object, read through its five known keys; a key
      the object does not have reads as `Undefined`. */
  datatype Details = Details(card_holder: Val, card_number: Val, expiry_date: Val, cvv: Val, upi_id: Val)

  const AllUndefined := Details(Undefined, Undefined, Undefined, Undefined, Undefined)

  /** A payment record. `payment_details` is `None` when the field is falsy
      (absent or null); any other value is an object read through its keys. */
  datatype Payment = Payment(
    user_id: Val,
    property_id: Val,
    total_price: Val,
    amount_paid: Val,
    payment_method: Val,
    payment_details: Option<Details>,
    status: Val,
    payment_date: Val,
    invoice_number: Val)

  const MsgRequired := "All payment fields are required"
  const MsgMethod := "Only credit card and UPI payments are accepted"
  const MsgCard := "All credit card details are required"
  const MsgUpi := "UPI ID is required for UPI payments"

  /** The six fields `validate()` insists on, all truthy. */
  predicate HasRequired(p: Payment)
  {
    Truthy(p.user_id) && Truthy(p.property_id) && Truthy(p.amount_paid)
    && Truthy(p.payment_method) && p.payment_details.Some? && Truthy(p.status)
  }

  /** The four card fields, all truthy. */
  predicate CardComplete(d: Details)
  {
    Truthy(d.card_holder) && Truthy(d.card_number) && Truthy(d.expiry_date) && Truthy(d.cvv)
  }

  /** The constructor: copies every field verbatim and stamps the current
      time as `payment_date` only when the given one is falsy. */
  function New(input: Payment, now: int): (p: Payment)
    ensures Truthy(p.payment_date)
    ensures Truthy(input.payment_date) ==> p == input
    ensures p.(payment_date := input.payment_date) == input
    ensures !Truthy(input.payment_date) ==> p.payment_date == Date(now)
  {
    input.(payment_date := if Truthy(input.payment_date) then input.payment_date else Date(now))
  }

  /** `validate()`: required fields first, then the method, then the
      details for that method; the first failing check's message wins. */
  function Validate(p: Payment): (v: Verdict)
    ensures !HasRequired(p) ==> v == Invalid(MsgRequired)
    ensures HasRequired(p) && p.payment_method != Str("credit_card") && p.payment_method != Str("upi")
            ==> v == Invalid(MsgMethod)
    ensures HasRequired(p) && p.payment_method == Str("credit_card") && !CardComplete(p.payment_details.value)
            ==> v == Invalid(MsgCard)
    ensures HasRequired(p) && p.payment_method == Str("upi") && !Truthy(p.payment_details.value.upi_id)
            ==> v == Invalid(MsgUpi)
    ensures v == Valid <==>
              HasRequired(p)
              && ((p.payment_method == Str("credit_card") && CardComplete(p.payment_details.value))
                  || (p.payment_method == Str("upi") && Truthy(p.payment_details.value.upi_id)))
  {
    if !HasRequired(p) then Invalid(MsgRequired)
    else if p.payment_method != Str("credit_card") && p.payment_method != Str("upi") then Invalid(MsgMethod)
    else if p.payment_method == Str("credit_card") then
      if !CardComplete(p.payment_details.value) then Invalid(MsgCard) else Valid
    else
      if !Truthy(p.payment_details.value.upi_id) then Invalid(MsgUpi) else Valid
  }

  /** The legacy alias "card" never passes this layer, whatever the details. */
  lemma CardAliasRejected(p: Payment)
    requires p.payment_method == Str("card")
    ensures Validate(p) == (if HasRequired(p) then Invalid(MsgMethod) else Invalid(MsgRequired))
  {
  }

  /** The UPI check is presence only: any truthy id passes, whether or
      not it contains "@". */
  lemma UpiNeedsNoAtSign(p: Payment)
    requires HasRequired(p) && p.payment_method == Str("upi")
    requires Truthy(p.payment_details.value.upi_id)
    ensures Validate(p) == Valid
  {
  }
}
