/** client/src/dashboard/components/PropertyPropertyCard.jsx: the image
    carousel and the deposit payment dialog of a property card. Fetching is
    a parameter: the images the server returned and the reply to a post. */
module PropertyCard {
  import opened JsValues
  import opened PaymentModel
  import PaymentController

  /** The dialog's `form`: a key is absent until its input is typed in. */
  datatype CardForm = CardForm(
    cardHolder: Option<string>,
    cardNumber: Option<string>,
    expiry: Option<string>,
    cvv: Option<string>,
    upiId: Option<string>)

  const EmptyForm := CardForm(None, None, None, None, None)

  /** An entry of the card's image list. */
  datatype Image = Image(image_path: string, is_primary: bool)

  /** The object posted to `/api/payment`. */
  datatype CardPayload = CardPayload(
    user_id: Val,
    property_id: Val,
    amount_paid: Val,
    payment_method: Val,
    payment_details: Details,
    status: Val)

  /** What `fetch` did: a parsed JSON body with `success` and `message`, or a
      thrown error. */
  datatype CardReply = Responded(success: bool, message: Val) | NetworkError

  const MsgCardDetails := "Please fill all card details."
  const MsgUpiId := "Please enter a valid UPI ID."
  const MsgPaymentFailed := "Payment failed"
  const MsgNetwork := "Network error during payment"
  const MsgPaid := "Payment successful \U{1F389}"
  const DefaultHolder := "Card Holder"
  const ServerBase := "http://localhost:3000/"
  const MaxImages := 5

  /** A form key that is present and non-empty, which is what `!form.x`
      rules out. */
  predicate Filled(x: Option<string>)
  {
    x.Some? && x.value != ""
  }

  /** The value a form key sends: its text, or undefined if never typed. */
  function Sent(x: Option<string>): Val
  {
    if x.Some? then Str(x.value) else Undefined
  }

  /** The checks of `handleSubmit`: number, expiry and CVV for a card, an
      id containing "@" for UPI; the holder is optional. */
  function ValidateCard(m: string, form: CardForm): (v: Verdict)
    ensures m == "card" ==> (v == Valid <==> Filled(form.cardNumber) && Filled(form.expiry) && Filled(form.cvv))
    ensures m == "card" && v.Invalid? ==> v.message == MsgCardDetails
    ensures m == "upi" ==> (v == Valid <==> Filled(form.upiId) && '@' in form.upiId.value)
    ensures m == "upi" && v.Invalid? ==> v.message == MsgUpiId
    ensures m != "card" && m != "upi" ==> v == Valid
  {
    if m == "card" then
      if !Filled(form.cardNumber) || !Filled(form.expiry) || !Filled(form.cvv) then Invalid(MsgCardDetails) else Valid
    else if m == "upi" then
      if !Filled(form.upiId) || '@' !in form.upiId.value then Invalid(MsgUpiId) else Valid
    else Valid
  }

  /** `paymentDetails`: five keys, null except the chosen method's; a
      missing holder becomes "Card Holder". */
  function CardDetails(m: string, form: CardForm): (d: Details)
    ensures m == "card" ==>
              && d.card_holder == (if Filled(form.cardHolder) then Str(form.cardHolder.value) else Str(DefaultHolder))
              && d.card_number == Sent(form.cardNumber) && d.expiry_date == Sent(form.expiry) && d.cvv == Sent(form.cvv)
              && d.upi_id == Null
    ensures m == "upi" ==> d == Details(Null, Null, Null, Null, Sent(form.upiId))
    ensures m != "card" && m != "upi" ==> d == Details(Null, Null, Null, Null, Null)
    ensures m == "card" ==> Truthy(d.card_holder)
  {
    if m == "card" then
      Details(Or(Sent(form.cardHolder), Str(DefaultHolder)), Sent(form.cardNumber), Sent(form.expiry), Sent(form.cvv), Null)
    else if m == "upi" then Details(Null, Null, Null, Null, Sent(form.upiId))
    else Details(Null, Null, Null, Null, Null)
  }

  /** `Math.round(price * 0.1)`, exactly: a tenth of the price, halves
      rounded up. */
  function Deposit(price: int): (r: int)
    ensures 10 * r - 5 <= price < 10 * r + 5
  {
    (price + 5) / 10
  }

  /** `paymentData` */
  function BuildCardPayload(userId: Val, propertyId: Val, price: int, m: string, form: CardForm): CardPayload
  {
    CardPayload(userId, propertyId, Num(Deposit(price)), Str(m), CardDetails(m, form), Str("paid"))
  }

  /** The body `createPayment` receives for a payload. */
  function AsPaymentRequest(p: CardPayload): PaymentController.PaymentRequest
  {
    var d := p.payment_details;
    PaymentController.PaymentRequest(
      Json(p.user_id), Json(p.property_id), Undefined, Json(p.amount_paid), Json(p.payment_method),
      Some(Details(Json(d.card_holder), Json(d.card_number), Json(d.expiry_date), Json(d.cvv), Json(d.upi_id))),
      Json(p.status), Undefined)
  }

  /** A dialog that passes its checks posts a body `createPayment` accepts
      whenever the user and property are known and the price is at least 5,
      and the record it stores then passes the payment model's checks. */
  lemma ValidCardFormAccepted(userId: Val, propertyId: Val, price: int, m: string, form: CardForm, now: int)
    requires ValidateCard(m, form) == Valid && m in {"card", "upi"}
    requires Truthy(userId) && Truthy(propertyId) && price >= 5
    ensures PaymentController.ValidateRequest(AsPaymentRequest(BuildCardPayload(userId, propertyId, price, m, form))) == Valid
    ensures Validate(PaymentController.BuildRecord(AsPaymentRequest(BuildCardPayload(userId, propertyId, price, m, form)), now)) == Valid
  {
    JsonKeepsTruthiness(userId);
    JsonKeepsTruthiness(propertyId);
    var r := AsPaymentRequest(BuildCardPayload(userId, propertyId, price, m, form));
    assert Deposit(price) >= 1;
    if m == "card" {
      JsonKeepsTruthiness(CardDetails(m, form).card_holder);
    }
    PaymentController.BuiltRecordPassesModel(r, now);
  }

  /** Below a price of 5 the deposit rounds to 0, which `createPayment`
      refuses as a missing amount. */
  lemma SmallPriceRefused(userId: Val, propertyId: Val, price: int, m: string, form: CardForm)
    requires 0 <= price < 5
    ensures PaymentController.ValidateRequest(AsPaymentRequest(BuildCardPayload(userId, propertyId, price, m, form)))
            == Invalid(MsgRequired)
  {
    assert Deposit(price) == 0;
  }

  /** `getImageUrl`: nothing for a missing path, a full URL as it is, and
      any other path under the server's base URL. */
  function GetImageUrl(path: Option<string>): (r: Option<string>)
    ensures !Filled(path) <==> r == None
    ensures Filled(path) && StartsWith(path.value, "http") ==> r == path
    ensures Filled(path) && !StartsWith(path.value, "http") ==> r == Some(ServerBase + path.value)
  {
    if !Filled(path) then None
    else if StartsWith(path.value, "http") then path
    else Some(ServerBase + path.value)
  }

  /** An image URL is already a full URL: resolving it again changes
      nothing. */
  lemma GetImageUrlIdempotent(path: Option<string>)
    ensures GetImageUrl(GetImageUrl(path)) == GetImageUrl(path)
  {
    if Filled(path) && !StartsWith(path.value, "http") {
      var s := ServerBase + path.value;
      assert s[..4] == "http";
    }
  }

  /** `getAllImages`: the fetched images if there are any, otherwise the
      primary image if there is one, at most five. */
  function GetAllImages(fetched: seq<Image>, primary: Option<string>): (r: seq<Image>)
    ensures |r| <= MaxImages
    ensures fetched != [] ==> |r| == (if |fetched| < MaxImages then |fetched| else MaxImages) && r == fetched[..|r|]
    ensures fetched == [] && Filled(primary) ==> r == [Image(primary.value, true)]
    ensures r == [] <==> fetched == [] && !Filled(primary)
  {
    var images := if fetched != [] then fetched
                  else if Filled(primary) then [Image(primary.value, true)]
                  else [];
    if |images| <= MaxImages then images else images[..MaxImages]
  }

  /** `nextImage` on `n` images: wraps from the last to the first, and does
      nothing when there are none. */
  function NextIndex(i: int, n: nat): (r: int)
    ensures n == 0 ==> r == i
    ensures 0 <= i < n ==> 0 <= r < n && r == (i + 1) % n
  {
    if n > 0 then (if i == n - 1 then 0 else i + 1) else i
  }

  /** `prevImage` on `n` images: wraps from the first to the last, and does
      nothing when there are none. */
  function PrevIndex(i: int, n: nat): (r: int)
    ensures n == 0 ==> r == i
    ensures 0 <= i < n ==> 0 <= r < n && r == (i + n - 1) % n
  {
    if n > 0 then (if i == 0 then n - 1 else i - 1) else i
  }

  /** Next and previous undo each other. */
  lemma NextPrevInverse(i: int, n: nat)
    requires 0 <= i < n
    ensures PrevIndex(NextIndex(i, n), n) == i
    ensures NextIndex(PrevIndex(i, n), n) == i
  {
  }

  /** `k` presses of the next arrow. */
  function Advance(i: int, n: nat, k: nat): int
  {
    if k == 0 then i else NextIndex(Advance(i, n, k - 1), n)
  }

  /** Pressing next `k <= n` times moves `k` places, wrapping past the
      last image. */
  lemma {:induction false} AdvanceWraps(i: int, n: nat, k: nat)
    requires 0 <= i < n && k <= n
    ensures Advance(i, n, k) == if i + k < n then i + k else i + k - n
  {
    if k > 0 {
      AdvanceWraps(i, n, k - 1);
    }
  }

  /** Pressing next once per image comes back to the image shown. */
  lemma FullCycle(i: int, n: nat)
    requires 0 <= i < n
    ensures Advance(i, n, n) == i
  {
    AdvanceWraps(i, n, n);
  }

  /** The state of one property card. */
  class CardState {
    const primaryImage: Option<string>
    var showPayment: bool
    var payMethod: string
    var form: CardForm
    var error: Val
    var success: string
    var isPaid: bool
    var propertyImages: seq<Image>
    var currentImageIndex: int

    constructor (primary: Option<string>)
      ensures primaryImage == primary && !showPayment && payMethod == "card" && form == EmptyForm
      ensures error == Str("") && success == "" && !isPaid && propertyImages == [] && currentImageIndex == 0
    {
      primaryImage := primary;
      showPayment := false;
      payMethod := "card";
      form := EmptyForm;
      error := Str("");
      success := "";
      isPaid := false;
      propertyImages := [];
      currentImageIndex := 0;
    }

    function Images(): seq<Image>
      reads this
    {
      GetAllImages(propertyImages, primaryImage)
    }

    /** `getCurrentImage`: the URL of the image at the index, if the index
        is within the list. What it shows is always a full URL. */
    function CurrentImage(): (r: Option<string>)
      reads this
      ensures Images() == [] ==> r == None
      ensures 0 <= currentImageIndex < |Images()| ==> r == GetImageUrl(Some(Images()[currentImageIndex].image_path))
      ensures 0 <= currentImageIndex < |Images()| && Images()[currentImageIndex].image_path != "" ==>
                r.Some? && (r.value == Images()[currentImageIndex].image_path
                            || r.value == ServerBase + Images()[currentImageIndex].image_path)
      ensures r.Some? ==> StartsWith(r.value, "http") && GetImageUrl(r) == r
    {
      if 0 <= currentImageIndex < |Images()| then
        var path := Some(Images()[currentImageIndex].image_path);
        GetImageUrlIdempotent(path);
        GetImageUrl(path)
      else None
    }

    /** `fetchPropertyImages`: a successful reply with an array replaces the
        list; anything else leaves it. */
    method ImagesFetched(ok: bool, data: Option<seq<Image>>)
      modifies this`propertyImages
      ensures propertyImages == if ok && data.Some? then data.value else old(propertyImages)
    {
      if ok && data.Some? {
        propertyImages := data.value;
      }
    }

    method NextImage()
      modifies this`currentImageIndex
      ensures currentImageIndex == NextIndex(old(currentImageIndex), |Images()|)
      ensures 0 <= old(currentImageIndex) < |Images()| ==> 0 <= currentImageIndex < |Images()|
    {
      var n := |Images()|;
      if n > 0 {
        currentImageIndex := if currentImageIndex == n - 1 then 0 else currentImageIndex + 1;
      }
    }

    method PrevImage()
      modifies this`currentImageIndex
      ensures currentImageIndex == PrevIndex(old(currentImageIndex), |Images()|)
      ensures 0 <= old(currentImageIndex) < |Images()| ==> 0 <= currentImageIndex < |Images()|
    {
      var n := |Images()|;
      if n > 0 {
        currentImageIndex := if currentImageIndex == 0 then n - 1 else currentImageIndex - 1;
      }
    }

    /** `handlePayment`: opens the dialog on an empty card form. */
    method OpenPayment()
      modifies this`showPayment, this`payMethod, this`form, this`error, this`success
      ensures showPayment && payMethod == "card" && form == EmptyForm && error == Str("") && success == ""
    {
      showPayment := true;
      payMethod := "card";
      form := EmptyForm;
      error := Str("");
      success := "";
    }

    /** A method button: switches method and clears the form. */
    method ChooseMethod(m: string)
      modifies this`payMethod, this`form, this`error, this`success
      ensures payMethod == m && form == EmptyForm && error == Str("") && success == ""
    {
      payMethod := m;
      form := EmptyForm;
      error := Str("");
      success := "";
    }

    /** Builds `paymentDetails` as the component does: five nulls, then the
        chosen method's fields one by one. */
    method BuildDetails() returns (d: Details)
      ensures d == CardDetails(payMethod, form)
    {
      d := Details(Null, Null, Null, Null, Null);
      if payMethod == "card" {
        d := d.(card_number := Sent(form.cardNumber));
        d := d.(expiry_date := Sent(form.expiry));
        d := d.(cvv := Sent(form.cvv));
        d := d.(card_holder := Or(Sent(form.cardHolder), Str(DefaultHolder)));
      } else if payMethod == "upi" {
        d := d.(upi_id := Sent(form.upiId));
      }
    }

    /** `handleSubmit`: an invalid dialog only sets the error; a valid one
        posts the deposit, and a successful reply marks the property paid
        and closes the dialog. The result is what was posted, if anything. */
    method HandleSubmit(userId: Val, propertyId: Val, price: int, reply: CardReply) returns (sent: Option<CardPayload>)
      modifies this`error, this`success, this`isPaid, this`showPayment
      ensures ValidateCard(payMethod, form).Invalid? ==>
                && sent == None && error == Str(ValidateCard(payMethod, form).message) && success == ""
                && isPaid == old(isPaid) && showPayment == old(showPayment)
      ensures ValidateCard(payMethod, form) == Valid ==>
                && sent == Some(BuildCardPayload(userId, propertyId, price, payMethod, form))
                && match reply
                   case Responded(true, _) => success == MsgPaid && isPaid && !showPayment && error == Str("")
                   case Responded(false, m) =>
                     error == Or(m, Str(MsgPaymentFailed)) && success == "" && isPaid == old(isPaid) && showPayment == old(showPayment)
                   case NetworkError =>
                     error == Str(MsgNetwork) && success == "" && isPaid == old(isPaid) && showPayment == old(showPayment)
    {
      error := Str("");
      success := "";
      var v := ValidateCard(payMethod, form);
      if v.Invalid? {
        error := Str(v.message);
        return None;
      }
      var details := BuildDetails();
      var payload := CardPayload(userId, propertyId, Num((price + 5) / 10), Str(payMethod), details, Str("paid"));
      sent := Some(payload);
      match reply {
        case Responded(true, _) =>
          success := MsgPaid;
          isPaid := true;
          showPayment := false;
        case Responded(false, m) =>
          error := Or(m, Str(MsgPaymentFailed));
        case NetworkError =>
          error := Str(MsgNetwork);
      }
    }
  }
}
