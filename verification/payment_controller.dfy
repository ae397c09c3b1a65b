/** `createPayment` and `checkPayment` of
    server/src/controllers/paymentController.js: the request checks, the
    normalisation of the method, the sanitised details and the responses.
    The payment service (`createMyPayment`, `getPyamentData`) is not part of
    this model: its answer is a parameter. */
module PaymentController {
  import opened JsValues
  import opened Http
  import opened PaymentModel

  /** The fields `createPayment` reads from the request body. */
  datatype PaymentRequest = PaymentRequest(
    user_id: Val,
    property_id: Val,
    total_price: Val,
    amount_paid: Val,
    payment_method: Val,
    payment_details: Option<Details>,
    status: Val,
    invoice_number: Val)

  /** What the payment service answers when it stores a record. */
  datatype ServiceResult = ServiceResult(success: bool, message: string)

  /** The figures of a payment summary, as the summary service computes them
      and as an invoice shows them. */
  datatype Figures = Figures(
    full_property_price: int,
    deposit_amount: int,
    total_paid: int,
    pending_amount: int,
    percentage_paid: int)

  /** What `getPyamentData` returns when it finds payments for the pair;
      `payment_summary` is `None` when the object lacks that key. */
  datatype PaymentData = PaymentData(payment_summary: Option<Figures>)

  /** The outcome of `createPayment`: the response and the record handed to
      the payment service, if any was. */
  datatype CreateOutcome = CreateOutcome(response: Response<ServiceResult>, submitted: Option<Payment>)

  const ValidMethods := {Str("credit_card"), Str("card"), Str("upi")}

  predicate IsCardMethod(m: Val)
  {
    m == Str("credit_card") || m == Str("card")
  }

  /** The method and detail checks both controllers run after their own
      required-field check: a method from the accepted list, and the fields
      that method needs. "card" is accepted here as a card method. */
  function CheckMethodAndDetails(m: Val, d: Details): (v: Verdict)
    ensures m !in ValidMethods ==> v == Invalid(MsgMethod)
    ensures IsCardMethod(m) && !CardComplete(d) ==> v == Invalid(MsgCard)
    ensures m == Str("upi") && !Truthy(d.upi_id) ==> v == Invalid(MsgUpi)
    ensures v == Valid <==> (IsCardMethod(m) && CardComplete(d)) || (m == Str("upi") && Truthy(d.upi_id))
  {
    if m !in ValidMethods then Invalid(MsgMethod)
    else if IsCardMethod(m) then
      if !CardComplete(d) then Invalid(MsgCard) else Valid
    else if m == Str("upi") then
      if !Truthy(d.upi_id) then Invalid(MsgUpi) else Valid
    else Valid
  }

  predicate HasRequiredFields(r: PaymentRequest)
  {
    Truthy(r.user_id) && Truthy(r.property_id) && Truthy(r.amount_paid)
    && Truthy(r.payment_method) && r.payment_details.Some? && Truthy(r.status)
  }

  /** The checks `createPayment` runs before it builds anything. */
  function ValidateRequest(r: PaymentRequest): (v: Verdict)
    ensures !HasRequiredFields(r) ==> v == Invalid(MsgRequired)
    ensures HasRequiredFields(r) ==> v == CheckMethodAndDetails(r.payment_method, r.payment_details.value)
  {
    if !HasRequiredFields(r) then Invalid(MsgRequired)
    else CheckMethodAndDetails(r.payment_method, r.payment_details.value)
  }

  /** "card" becomes "credit_card"; every other method is kept as it is. */
  function StandardMethod(m: Val): (r: Val)
    ensures r != Str("card")
    ensures m != Str("card") ==> r == m
    ensures IsCardMethod(m) <==> r == Str("credit_card")
  {
    if m == Str("card") then Str("credit_card") else m
  }

  /** The sanitised details: exactly the five known keys, each truthy value
      kept and each falsy one replaced by null. */
  function Sanitize(d: Details): (s: Details)
    ensures Truthy(d.card_holder) ==> s.card_holder == d.card_holder
    ensures Truthy(d.card_number) ==> s.card_number == d.card_number
    ensures Truthy(d.expiry_date) ==> s.expiry_date == d.expiry_date
    ensures Truthy(d.cvv) ==> s.cvv == d.cvv
    ensures Truthy(d.upi_id) ==> s.upi_id == d.upi_id
    ensures !Truthy(d.card_holder) ==> s.card_holder == Null
    ensures !Truthy(d.card_number) ==> s.card_number == Null
    ensures !Truthy(d.expiry_date) ==> s.expiry_date == Null
    ensures !Truthy(d.cvv) ==> s.cvv == Null
    ensures !Truthy(d.upi_id) ==> s.upi_id == Null
    ensures CardComplete(s) <==> CardComplete(d)
    ensures Truthy(s.upi_id) <==> Truthy(d.upi_id)
  {
    Details(Or(d.card_holder, Null), Or(d.card_number, Null), Or(d.expiry_date, Null),
            Or(d.cvv, Null), Or(d.upi_id, Null))
  }

  /** The record `createPayment` hands to `createMyPayment` for a request
      that passed its checks. */
  function BuildRecord(r: PaymentRequest, now: int): (p: Payment)
    requires r.payment_details.Some?
    ensures p.user_id == r.user_id && p.property_id == r.property_id
    ensures p.amount_paid == r.amount_paid && p.status == r.status
    ensures p.payment_method == StandardMethod(r.payment_method)
    ensures p.payment_details == Some(Sanitize(r.payment_details.value))
    ensures p.total_price == (if Truthy(r.total_price) then r.total_price else Null)
    ensures p.invoice_number == (if Truthy(r.invoice_number) then r.invoice_number else Null)
    ensures p.payment_date == Date(now)
  {
    New(Payment(r.user_id, r.property_id, Or(r.total_price, Null), r.amount_paid,
                StandardMethod(r.payment_method), Some(Sanitize(r.payment_details.value)),
                r.status, Date(now), Or(r.invoice_number, Null)), now)
  }

  /** `createPayment`: reject with 400 and a specific message before
      anything is stored, otherwise store the normalised record and answer
      200 or 400 according to the service, or 500 if it throws. */
  function CreatePayment(r: PaymentRequest, now: int, service: Payment -> Call<ServiceResult>): (o: CreateOutcome)
    ensures ValidateRequest(r).Invalid? <==> o.submitted.None?
    ensures ValidateRequest(r).Invalid? ==> o.response == Response(400, Message(ValidateRequest(r).message))
    ensures o.submitted.Some? ==> o.submitted.value == BuildRecord(r, now)
    ensures o.submitted.Some? ==>
              match service(o.submitted.value)
              case Returned(res) => o.response == Response(if res.success then 200 else 400, Data(res))
              case Threw(_) => o.response.status == 500
  {
    match ValidateRequest(r)
    case Invalid(m) => CreateOutcome(Response(400, Message(m)), None)
    case Valid =>
      var record := BuildRecord(r, now);
      var response := match service(record)
        case Returned(res) => Response(if res.success then 200 else 400, Data(res))
        case Threw(_) => Response(500, Message("Server error while processing payment"));
      CreateOutcome(response, Some(record))
  }

  /** Every record the controller builds passes the model's own
      `validate()`, although the model rejects the alias "card" that the
      controller accepts. */
  lemma BuiltRecordPassesModel(r: PaymentRequest, now: int)
    requires ValidateRequest(r) == Valid
    ensures Validate(BuildRecord(r, now)) == Valid
  {
    var p := BuildRecord(r, now);
    assert HasRequired(p);
  }

  /** The controller's checks and the model's checks on the raw request
      agree, except that the controller also admits "card" with complete
      card details. */
  lemma ControllerAcceptsIff(r: PaymentRequest, now: int)
    ensures ValidateRequest(r) == Valid <==>
              (Validate(Raw(r, now)) == Valid
               || (r.payment_method == Str("card") && Validate(Raw(r, now).(payment_method := Str("credit_card"))) == Valid))
  {
  }

  /** The request as the model would see it without any normalisation. */
  function Raw(r: PaymentRequest, now: int): Payment
  {
    Payment(r.user_id, r.property_id, r.total_price, r.amount_paid, r.payment_method,
            r.payment_details, r.status, Date(now), r.invoice_number)
  }

  /** `checkPayment`: 400 when either parameter is missing, otherwise the
      summary service's answer decides between 200 with its data, 404 when
      it finds nothing, and 500 when it throws. */
  function CheckPayment(user_id: Val, property_id: Val, lookup: Call<Option<PaymentData>>): (resp: Response<PaymentData>)
    ensures !Truthy(user_id) || !Truthy(property_id) <==> resp.status == 400
    ensures resp.status == 200 <==> Truthy(user_id) && Truthy(property_id) && lookup.Returned? && lookup.value.Some?
    ensures resp.status == 200 ==> resp.body == Data(lookup.value.value)
    ensures resp.status == 404 <==> Truthy(user_id) && Truthy(property_id) && lookup == Returned(None)
    ensures resp.status == 500 <==> Truthy(user_id) && Truthy(property_id) && lookup.Threw?
  {
    if !Truthy(user_id) || !Truthy(property_id) then Response(400, Message("Missing user_id or property_id"))
    else match lookup
      case Returned(Some(d)) => Response(200, Data(d))
      case Returned(None) => Response(404, Message("No payment found"))
      case Threw(_) => Response(500, Message("Server error while checking payment"))
  }
}
