/** client/src/components/PropertyComponents/PaymentForm.jsx: the form's
    validator, the payload it posts and the state changes of a submission.
    The HTTP round trip is a parameter: the reply the server gave. */
module PaymentForm {
  import opened JsValues
  import opened PaymentModel
  import PaymentController
  import ApartmentController

  /** The detail inputs; every one is a text field. */
  datatype FormDetails = FormDetails(card_holder: string, card_number: string, expiry_date: string, cvv: string, upi_id: string)

  /** `formData`: the amount input's text, the chosen radio and the details. */
  datatype FormData = FormData(amount_paid: string, payment_method: string, payment_details: FormDetails)

  /** The component's props. */
  datatype Props = Props(propertyId: Val, userId: Val, propertyPrice: Val, propertyName: Val, isApartment: bool, unitId: Val)

  /** The object posted to the server. */
  datatype Payload = Payload(
    user_id: Val,
    property_id: Val,
    total_price: Val,
    amount_paid: Val,
    payment_method: Val,
    payment_details: Details,
    status: Val,
    is_apartment: bool,
    unit_id: Val,
    property_name: Val)

  datatype Post = Post(endpoint: string, payload: Payload)

  /** What `axios.post` did: resolved with the server's `success` and
      `message`, or threw with `err.response?.data?.message` (undefined
      when there was no response). */
  datatype Reply = Answered(success: bool, message: Val) | Rejected(message: Val)

  const InitialForm := FormData("", "credit_card", FormDetails("", "", "", "", ""))

  const MsgAmount := "Please enter a valid payment amount"
  const MsgHolder := "Card holder name is required"
  const MsgNumber := "Please enter a valid card number"
  const MsgExpiry := "Please enter a valid expiry date (MM/YY)"
  const MsgCvv := "Please enter a valid CVV"
  const MsgUpiId := "Please enter a valid UPI ID"
  const MsgFailed := "Payment failed. Please try again."
  const MsgUnreachable := "Payment processing failed. Please try again later."
  const BookingsUrl := "http://localhost:3000/api/apartments/bookings"
  const PaymentUrl := "http://localhost:3000/api/payment"

  /** `parseFloat(x) <= 0`; NaN compares false. */
  predicate NotPositive(v: Val)
  {
    v.Num? && v.n <= 0
  }

  /** The amount check: present, and not a number at or below zero. */
  predicate AmountOk(f: FormData, parse: string -> Val)
  {
    f.amount_paid != "" && !NotPositive(parse(f.amount_paid))
  }

  predicate CardOk(d: FormDetails)
  {
    && !AllSpace(d.card_holder)
    && !AllSpace(d.card_number) && CodeUnits(d.card_number) >= 16
    && !AllSpace(d.expiry_date) && '/' in d.expiry_date
    && !AllSpace(d.cvv) && CodeUnits(d.cvv) >= 3
  }

  predicate UpiOk(d: FormDetails)
  {
    !AllSpace(d.upi_id) && '@' in d.upi_id
  }

  /** `validateForm`: the amount first, then the chosen method's fields in
      order; a method other than the two radios needs only the amount.
      `parse` stands for `parseFloat`. */
  function ValidateForm(f: FormData, parse: string -> Val): (v: Verdict)
    ensures !AmountOk(f, parse) <==> v == Invalid(MsgAmount)
    ensures AmountOk(f, parse) && f.payment_method == "credit_card" ==>
              var d := f.payment_details;
              && (AllSpace(d.card_holder) <==> v == Invalid(MsgHolder))
              && (!AllSpace(d.card_holder) && (AllSpace(d.card_number) || CodeUnits(d.card_number) < 16) <==> v == Invalid(MsgNumber))
              && (v == Invalid(MsgExpiry) <==>
                    !AllSpace(d.card_holder) && !AllSpace(d.card_number) && CodeUnits(d.card_number) >= 16
                    && (AllSpace(d.expiry_date) || '/' !in d.expiry_date))
              && (v == Invalid(MsgCvv) <==>
                    !AllSpace(d.card_holder) && !AllSpace(d.card_number) && CodeUnits(d.card_number) >= 16
                    && !AllSpace(d.expiry_date) && '/' in d.expiry_date && (AllSpace(d.cvv) || CodeUnits(d.cvv) < 3))
    ensures AmountOk(f, parse) && f.payment_method == "upi" ==> (!UpiOk(f.payment_details) <==> v == Invalid(MsgUpiId))
    ensures v == Valid <==>
              && AmountOk(f, parse)
              && (f.payment_method == "credit_card" ==> CardOk(f.payment_details))
              && (f.payment_method == "upi" ==> UpiOk(f.payment_details))
  {
    var d := f.payment_details;
    TrimEmptyIff(d.card_holder);
    TrimEmptyIff(d.card_number);
    TrimEmptyIff(d.expiry_date);
    TrimEmptyIff(d.cvv);
    TrimEmptyIff(d.upi_id);
    if f.amount_paid == "" || NotPositive(parse(f.amount_paid)) then Invalid(MsgAmount)
    else if f.payment_method == "credit_card" then
      if Trim(d.card_holder) == [] then Invalid(MsgHolder)
      else if Trim(d.card_number) == [] || CodeUnits(d.card_number) < 16 then Invalid(MsgNumber)
      else if Trim(d.expiry_date) == [] || '/' !in d.expiry_date then Invalid(MsgExpiry)
      else if Trim(d.cvv) == [] || CodeUnits(d.cvv) < 3 then Invalid(MsgCvv)
      else Valid
    else if f.payment_method == "upi" then
      if Trim(d.upi_id) == [] || '@' !in d.upi_id then Invalid(MsgUpiId)
      else Valid
    else Valid
  }

  /** `paymentDetailsToSend`: all five keys, null except the fields of the
      chosen method, which carry the form's text. */
  function DetailsToSend(f: FormData): (d: Details)
    ensures f.payment_method == "credit_card" <==> d.card_holder != Null
    ensures f.payment_method == "credit_card" <==> d.card_number != Null
    ensures f.payment_method == "credit_card" <==> d.expiry_date != Null
    ensures f.payment_method == "credit_card" <==> d.cvv != Null
    ensures f.payment_method == "upi" <==> d.upi_id != Null
    ensures f.payment_method == "credit_card" ==>
              d == Details(Str(f.payment_details.card_holder), Str(f.payment_details.card_number),
                           Str(f.payment_details.expiry_date), Str(f.payment_details.cvv), Null)
    ensures f.payment_method == "upi" ==> d == Details(Null, Null, Null, Null, Str(f.payment_details.upi_id))
  {
    if f.payment_method == "credit_card" then
      Details(Str(f.payment_details.card_holder), Str(f.payment_details.card_number),
              Str(f.payment_details.expiry_date), Str(f.payment_details.cvv), Null)
    else if f.payment_method == "upi" then Details(Null, Null, Null, Null, Str(f.payment_details.upi_id))
    else Details(Null, Null, Null, Null, Null)
  }

  /** `paymentData` */
  function BuildPayload(f: FormData, props: Props, parse: string -> Val): Payload
  {
    Payload(props.userId, props.propertyId, props.propertyPrice, parse(f.amount_paid), Str(f.payment_method),
            DetailsToSend(f), Str("completed"), props.isApartment, props.unitId, props.propertyName)
  }

  function Endpoint(isApartment: bool): string
  {
    if isApartment then BookingsUrl else PaymentUrl
  }

  function JsonDetails(d: Details): Details
  {
    Details(Json(d.card_holder), Json(d.card_number), Json(d.expiry_date), Json(d.cvv), Json(d.upi_id))
  }

  /** The body `createPayment` receives for a payload. */
  function AsPaymentRequest(p: Payload): PaymentController.PaymentRequest
  {
    PaymentController.PaymentRequest(Json(p.user_id), Json(p.property_id), Json(p.total_price), Json(p.amount_paid),
                                     Json(p.payment_method), Some(JsonDetails(p.payment_details)), Json(p.status), Undefined)
  }

  /** The body `bookApartment` receives for a payload. */
  function AsBookingRequest(p: Payload): ApartmentController.BookingRequest
  {
    ApartmentController.BookingRequest(Json(p.user_id), Json(p.property_id), Json(p.unit_id), Json(p.total_price),
                                       Json(p.amount_paid), Json(p.payment_method), Some(JsonDetails(p.payment_details)))
  }

  /** A form that passes its validator, for one of its two methods and an
      amount the number input parsed, yields a body the server accepts:
      `createPayment` always, and `bookApartment` when a unit is given. */
  lemma ValidFormAcceptedByServer(f: FormData, props: Props, parse: string -> Val)
    requires ValidateForm(f, parse) == Valid
    requires f.payment_method in {"credit_card", "upi"}
    requires parse(f.amount_paid).Num?
    requires Truthy(props.userId) && Truthy(props.propertyId)
    ensures PaymentController.ValidateRequest(AsPaymentRequest(BuildPayload(f, props, parse))) == Valid
    ensures Truthy(props.unitId) ==>
              ApartmentController.ValidateBooking(AsBookingRequest(BuildPayload(f, props, parse))) == Valid
  {
    JsonKeepsTruthiness(props.userId);
    JsonKeepsTruthiness(props.propertyId);
    JsonKeepsTruthiness(props.unitId);
    var d := f.payment_details;
    if f.payment_method == "credit_card" {
      assert d.card_holder != [] && d.card_number != [] && d.expiry_date != [] && d.cvv != [];
    } else {
      assert d.upi_id != [];
    }
  }

  /** A non-numeric amount passes the form's amount check, since NaN is
      not at or below zero, but travels as null and is refused by
      `createPayment` as a missing field. */
  lemma NaNAmountPassesFormOnly(f: FormData, props: Props, parse: string -> Val)
    requires f.amount_paid != "" && parse(f.amount_paid) == NaN
    ensures ValidateForm(f, parse) != Invalid(MsgAmount)
    ensures PaymentController.ValidateRequest(AsPaymentRequest(BuildPayload(f, props, parse)))
            == Invalid(MsgRequired)
  {
  }

  /** A text input of the details block (`handleDetailsChange`'s `name`). */
  datatype DetailField = CardHolder | CardNumber | ExpiryDate | Cvv | UpiId

  function SetDetail(d: FormDetails, field: DetailField, value: string): (r: FormDetails)
  {
    match field
    case CardHolder => d.(card_holder := value)
    case CardNumber => d.(card_number := value)
    case ExpiryDate => d.(expiry_date := value)
    case Cvv => d.(cvv := value)
    case UpiId => d.(upi_id := value)
  }

  /** The state of one `PaymentForm`. */
  class PaymentFormState {
    var formData: FormData
    var error: Val
    var success: bool
    var loading: bool

    constructor ()
      ensures formData == InitialForm && error == Null && !success && !loading
    {
      formData := InitialForm;
      error := Null;
      success := false;
      loading := false;
    }

    /** The effect on `propertyPrice`: a truthy price becomes the amount. */
    method ApplyPropertyPrice(propertyPrice: Val)
      modifies this`formData
      ensures formData == if Truthy(propertyPrice) then old(formData).(amount_paid := Text(propertyPrice)) else old(formData)
    {
      if Truthy(propertyPrice) {
        formData := formData.(amount_paid := Text(propertyPrice));
      }
    }

    /** `handleChange` on the amount input. */
    method ChangeAmount(value: string)
      modifies this`formData
      ensures formData == old(formData).(amount_paid := value)
    {
      formData := formData.(amount_paid := value);
    }

    /** `handleChange` on a method radio. */
    method ChangeMethod(value: string)
      modifies this`formData
      ensures formData == old(formData).(payment_method := value)
    {
      formData := formData.(payment_method := value);
    }

    /** `handleDetailsChange`: one detail input changes, the rest stay. */
    method ChangeDetail(field: DetailField, value: string)
      modifies this`formData
      ensures formData.amount_paid == old(formData).amount_paid
      ensures formData.payment_method == old(formData).payment_method
      ensures formData.payment_details == SetDetail(old(formData).payment_details, field, value)
    {
      formData := formData.(payment_details := SetDetail(formData.payment_details, field, value));
    }

    /** Builds `paymentDetailsToSend` as the component does: five nulls,
        then the chosen method's fields one by one. */
    method BuildDetails() returns (d: Details)
      ensures d == DetailsToSend(formData)
    {
      d := Details(Null, Null, Null, Null, Null);
      if formData.payment_method == "credit_card" {
        d := d.(card_holder := Str(formData.payment_details.card_holder));
        d := d.(card_number := Str(formData.payment_details.card_number));
        d := d.(expiry_date := Str(formData.payment_details.expiry_date));
        d := d.(cvv := Str(formData.payment_details.cvv));
      } else if formData.payment_method == "upi" {
        d := d.(upi_id := Str(formData.payment_details.upi_id));
      }
    }

    /** `handleSubmit`: an invalid form only sets the error; a valid one is
        posted, and a reply with `success` resets the form, while any other
        reply sets the error to the server's message or a default. The
        result is what was posted, if anything. */
    method HandleSubmit(props: Props, parse: string -> Val, reply: Reply) returns (sent: Option<Post>)
      modifies this
      ensures ValidateForm(old(formData), parse).Invalid? ==>
                && sent == None && error == Str(ValidateForm(old(formData), parse).message)
                && formData == old(formData) && success == old(success) && loading == old(loading)
      ensures ValidateForm(old(formData), parse) == Valid ==>
                && sent == Some(Post(Endpoint(props.isApartment), BuildPayload(old(formData), props, parse)))
                && !loading
                && match reply
                   case Answered(true, _) => success && formData == InitialForm && error == Null
                   case Answered(false, m) => error == Or(m, Str(MsgFailed)) && formData == old(formData) && success == old(success)
                   case Rejected(m) => error == Or(m, Str(MsgUnreachable)) && formData == old(formData) && success == old(success)
    {
      error := Null;
      var v := ValidateForm(formData, parse);
      if v.Invalid? {
        error := Str(v.message);
        return None;
      }
      loading := true;
      var details := BuildDetails();
      var payload := Payload(props.userId, props.propertyId, props.propertyPrice, parse(formData.amount_paid),
                             Str(formData.payment_method), details, Str("completed"), props.isApartment,
                             props.unitId, props.propertyName);
      sent := Some(Post(if props.isApartment then BookingsUrl else PaymentUrl, payload));
      match reply {
        case Answered(true, _) =>
          success := true;
          formData := InitialForm;
        case Answered(false, m) =>
          error := Or(m, Str(MsgFailed));
        case Rejected(m) =>
          error := Or(m, Str(MsgUnreachable));
      }
      loading := false;
    }
  }

  /** The payload's fixed parts: status "completed", the bookings endpoint
      exactly for an apartment, and the details of the chosen method only. */
  lemma PayloadShape(f: FormData, props: Props, parse: string -> Val)
    ensures BuildPayload(f, props, parse).status == Str("completed")
    ensures Endpoint(props.isApartment) == BookingsUrl <==> props.isApartment
    ensures BuildPayload(f, props, parse).amount_paid == parse(f.amount_paid)
    ensures BuildPayload(f, props, parse).payment_details == DetailsToSend(f)
  {
  }
}
