/** `generateInvoice` of server/src/controllers/paymentController.js: find
    the payment among property payments first and among apartment bookings
    second, then compose the figures. */
module InvoiceComposer {
  import opened JsValues
  import opened Http
  import opened Tables
  import opened PaymentController

  datatype PaymentType = PropertyType | ApartmentType

  /** One row of either lookup: the payment, its type tag and the joined
      columns. `booking` and `unit` are set only by the apartment join. */
  datatype InvoiceRow = InvoiceRow(
    payment: PaymentRow,
    payment_type: PaymentType,
    property_name: Option<string>,
    location: Option<string>,
    user_name: Option<string>,
    email: Option<string>,
    booking: Option<BookingRow>,
    unit: Option<UnitDetails>)

  datatype InvoiceView = InvoiceView(row: InvoiceRow, figures: Figures, unit_details: Option<UnitDetails>)

  /** The response and the lookups performed, in order. */
  datatype InvoiceOutcome = InvoiceOutcome(response: Response<InvoiceView>, queried: seq<Query>)

  /** `payment p LEFT JOIN properties LEFT JOIN users WHERE p.id = ?` */
  function PropertyRows(ps: seq<PaymentRow>, db: Db, id: string): (rs: seq<InvoiceRow>)
    ensures forall r :: r in rs ==> r.payment_type == PropertyType && r.payment in ps && IntToString(r.payment.id) == id
    ensures rs == [] <==> forall i :: 0 <= i < |ps| ==> IntToString(ps[i].id) != id
  {
    if ps == [] then []
    else
      var p := ps[0];
      var here := if IntToString(p.id) == id then
        var pr := Lookup(db.properties, p.property_id);
        var u := Lookup(db.users, p.user_id);
        [InvoiceRow(p, PropertyType,
                    if pr.Some? then Some(pr.value.name) else None,
                    if pr.Some? then Some(pr.value.location) else None,
                    UserName(u), if u.Some? then Some(u.value.email) else None, None, None)]
      else [];
      var rest := PropertyRows(ps[1..], db, id);
      assert forall i :: 1 <= i < |ps| ==> ps[i] == ps[1..][i - 1];
      here + rest
  }

  /** The bookings of `bs` that complete the apartment join for payment `p`. */
  function BookingJoins(p: PaymentRow, bs: seq<BookingRow>, db: Db): (rs: seq<InvoiceRow>)
    requires p.user_id in db.users
    ensures forall r :: r in rs ==>
              && r.payment == p && r.payment_type == ApartmentType
              && r.booking.Some? && r.booking.value in bs && r.booking.value.payment_id == p.id
              && r.booking.value.unit_id in db.units
              && r.unit == Some(db.units[r.booking.value.unit_id].details)
    ensures forall j :: 0 <= j < |bs| && Joins(p, bs[j], db) ==> exists r :: r in rs && r.booking == Some(bs[j])
    ensures rs == [] <==> forall j :: 0 <= j < |bs| ==> !Joins(p, bs[j], db)
  {
    if bs == [] then []
    else
      var b := bs[0];
      var here := if Joins(p, b, db) then
        var apt := db.apartments[b.apartment_id];
        var u := db.users[p.user_id];
        [InvoiceRow(p, ApartmentType, Some(apt.name), Some(apt.location), UserName(Some(u)),
                    Some(u.email), Some(b), Some(db.units[b.unit_id].details))]
      else [];
      var rest := BookingJoins(p, bs[1..], db);
      assert forall j :: 1 <= j < |bs| ==> bs[j] == bs[1..][j - 1];
      here + rest
  }

  /** Payment `p` is one the apartment lookup for `id` finds. */
  predicate ApartmentMatch(p: PaymentRow, db: Db, id: string)
  {
    IntToString(p.id) == id && p.user_id in db.users && HasBooking(p, db)
  }

  /** `payments p JOIN apartment_bookings JOIN apartments JOIN
      apartment_units JOIN users WHERE p.id = ?` */
  function ApartmentRows(ps: seq<PaymentRow>, db: Db, id: string): (rs: seq<InvoiceRow>)
    ensures forall r :: r in rs ==>
              && r.payment_type == ApartmentType && r.payment in ps && IntToString(r.payment.id) == id
              && r.booking.Some? && r.booking.value in db.bookings && r.booking.value.payment_id == r.payment.id
              && r.booking.value.unit_id in db.units
              && r.unit == Some(db.units[r.booking.value.unit_id].details)
  {
    if ps == [] then []
    else
      var p := ps[0];
      var here := if IntToString(p.id) == id && p.user_id in db.users then BookingJoins(p, db.bookings, db) else [];
      here + ApartmentRows(ps[1..], db, id)
  }

  /** The apartment lookup misses no payment: every matching payment has a
      row, so the lookup is empty exactly when no payment matches. */
  lemma {:induction false} ApartmentRowsComplete(ps: seq<PaymentRow>, db: Db, id: string)
    ensures forall i :: 0 <= i < |ps| && ApartmentMatch(ps[i], db, id) ==>
              exists r :: r in ApartmentRows(ps, db, id) && r.payment == ps[i]
    ensures ApartmentRows(ps, db, id) == [] <==> forall i :: 0 <= i < |ps| ==> !ApartmentMatch(ps[i], db, id)
  {
    if ps != [] {
      var p := ps[0];
      ApartmentRowsComplete(ps[1..], db, id);
      assert forall i :: 1 <= i < |ps| ==> ps[i] == ps[1..][i - 1];
      var here := if IntToString(p.id) == id && p.user_id in db.users then BookingJoins(p, db.bookings, db) else [];
      assert ApartmentRows(ps, db, id) == here + ApartmentRows(ps[1..], db, id);
      assert here == [] <==> !ApartmentMatch(p, db, id);
      if ApartmentMatch(p, db, id) {
        assert here[0] in ApartmentRows(ps, db, id) && here[0].payment == p;
      }
    }
  }

  /** `Math.round(x)` of `x = a / p * 100`, exactly: the nearest integer,
      halves rounded up. */
  function RoundPercent(a: int, p: int): (r: int)
    requires p > 0
    ensures p * (2 * r - 1) <= 200 * a < p * (2 * r + 1)
  {
    var q := (200 * a + p) / (2 * p);
    assert 200 * a + p == 2 * p * q + (200 * a + p) % (2 * p);
    q
  }

  lemma MulMonotone(p: int, x: int, y: int)
    requires p > 0 && x <= y
    ensures p * x <= p * y
  {
    assert p * y - p * x == p * (y - x);
  }

  lemma PercentageWithinRange(a: int, p: int)
    requires p > 0 && 0 <= a <= p
    ensures 0 <= RoundPercent(a, p) <= 100
    ensures a == p ==> RoundPercent(a, p) == 100
    ensures a == 0 ==> RoundPercent(a, p) == 0
  {
    var r := RoundPercent(a, p);
    if r < 0 {
      MulMonotone(p, 2 * r + 1, -1);
      assert false;
    }
    if r > 100 {
      MulMonotone(p, 201, 2 * r - 1);
      MulMonotone(p, a, p);
      assert false;
    }
    if a == p && r < 100 {
      MulMonotone(p, 2 * r + 1, 199);
      assert false;
    }
    if a == 0 && r > 0 {
      MulMonotone(p, 1, 2 * r - 1);
      assert false;
    }
  }

  /** Nothing clamps an overpayment: paying at least 100.5% of the price
      shows more than 100 percent. */
  lemma OverpaymentAbove100(a: int, p: int)
    requires p > 0 && 200 * a >= 201 * p
    ensures RoundPercent(a, p) > 100
  {
    var r := RoundPercent(a, p);
    if r <= 100 {
      MulMonotone(p, 2 * r + 1, 201);
      assert false;
    }
  }

  /** The figures a property invoice falls back to when no summary is
      available. */
  function PropertyFallback(p: PaymentRow): (f: Figures)
    ensures f.total_paid == OrZero(p.amount_paid) && f.deposit_amount == OrZero(p.total_price)
    ensures f.pending_amount == OrZero(p.price) - OrZero(p.amount_paid)
    ensures f.full_property_price == OrZero(p.price)
    ensures p.price.Some? && p.price.value > 0 ==>
              p.price.value * (2 * f.percentage_paid - 1) <= 200 * OrZero(p.amount_paid) < p.price.value * (2 * f.percentage_paid + 1)
    ensures !(p.price.Some? && p.price.value > 0) ==> f.percentage_paid == 0
  {
    Figures(OrZero(p.price), OrZero(p.total_price), OrZero(p.amount_paid),
            OrZero(p.price) - OrZero(p.amount_paid),
            if p.price.Some? && p.price.value > 0 then RoundPercent(OrZero(p.amount_paid), p.price.value) else 0)
  }

  /** The fixed figures of an apartment invoice: fully paid. */
  function ApartmentFigures(p: PaymentRow): (f: Figures)
    ensures f.pending_amount == 0 && f.percentage_paid == 100
    ensures f.total_paid == OrZero(p.amount_paid) && f.deposit_amount == OrZero(p.amount_paid)
    ensures f.full_property_price == if p.total_price.Some? && p.total_price.value != 0 then p.total_price.value else OrZero(p.amount_paid)
  {
    Figures(if p.total_price.Some? && p.total_price.value != 0 then p.total_price.value else OrZero(p.amount_paid),
            OrZero(p.amount_paid), OrZero(p.amount_paid), 0, 100)
  }

  /** The figures for a property payment, given what the summary service
      returned: its summary when it has one, the fallback otherwise. */
  function SummaryOrFallback(data: Option<PaymentData>, p: PaymentRow): Figures
  {
    if data.Some? && data.value.payment_summary.Some? then data.value.payment_summary.value
    else PropertyFallback(p)
  }

  const ServerError: Response<InvoiceView> := Response(500, Message("Server error while generating invoice"))

  /** `generateInvoice`. `failing` names the queries that throw; `summary`
      stands for `getPyamentData`. */
  function GenerateInvoice(payment_id: string, db: Db, failing: set<Query>,
                           summary: (string, string) -> Call<Option<PaymentData>>): (o: InvoiceOutcome)
    ensures o.response.status == 400 <==> payment_id == ""
    ensures o.queried == [] <==> payment_id == ""
    ensures o.queried != [] ==> o.queried[0] == PropertyQuery
    ensures ApartmentQuery in o.queried <==>
              payment_id != "" && PropertyQuery !in failing && PropertyRows(db.payment, db, payment_id) == []
    ensures o.response.status == 404 <==>
              && payment_id != "" && PropertyQuery !in failing && ApartmentQuery !in failing
              && PropertyRows(db.payment, db, payment_id) == [] && ApartmentRows(db.payments, db, payment_id) == []
    ensures o.response.status == 200 ==> o.response.body.Data?
    ensures o.response.status == 200 && o.response.body.value.row.payment_type == PropertyType ==>
              var v := o.response.body.value;
              && PropertyRows(db.payment, db, payment_id) != []
              && v.row == PropertyRows(db.payment, db, payment_id)[0]
              && summary(v.row.payment.user_id, v.row.payment.property_id).Returned?
              && v.figures == SummaryOrFallback(summary(v.row.payment.user_id, v.row.payment.property_id).value, v.row.payment)
              && v.unit_details == None
    ensures o.response.status == 200 && o.response.body.value.row.payment_type == ApartmentType ==>
              var v := o.response.body.value;
              && PropertyRows(db.payment, db, payment_id) == []
              && ApartmentRows(db.payments, db, payment_id) != []
              && v.row == ApartmentRows(db.payments, db, payment_id)[0]
              && v.figures == ApartmentFigures(v.row.payment)
              && v.unit_details == v.row.unit
              && v.row.booking.Some? && v.row.booking.value.unit_id in db.units
              && v.unit_details == Some(db.units[v.row.booking.value.unit_id].details)
    ensures o.response.status in {200, 400, 404, 500}
  {
    if payment_id == "" then
      InvoiceOutcome(Response(400, Message("Payment ID is required")), [])
    else if PropertyQuery in failing then
      InvoiceOutcome(ServerError, [PropertyQuery])
    else
      var first := PropertyRows(db.payment, db, payment_id);
      if first != [] then
        var row := first[0];
        var response := match summary(row.payment.user_id, row.payment.property_id)
          case Threw(_) => ServerError
          case Returned(data) => Response(200, Data(InvoiceView(row, SummaryOrFallback(data, row.payment), None)));
        InvoiceOutcome(response, [PropertyQuery])
      else if ApartmentQuery in failing then
        InvoiceOutcome(ServerError, [PropertyQuery, ApartmentQuery])
      else
        var second := ApartmentRows(db.payments, db, payment_id);
        if second == [] then
          InvoiceOutcome(Response(404, Message("Payment not found")), [PropertyQuery, ApartmentQuery])
        else
          var row := second[0];
          assert row in second;
          InvoiceOutcome(Response(200, Data(InvoiceView(row, ApartmentFigures(row.payment), row.unit))),
                         [PropertyQuery, ApartmentQuery])
  }

  /** With no failing query, a payment found in either table is answered
      with 200, except a property payment whose summary lookup throws; an
      apartment invoice is fully paid. */
  lemma FoundAnswers200(payment_id: string, db: Db, summary: (string, string) -> Call<Option<PaymentData>>)
    requires payment_id != ""
    ensures var rows := PropertyRows(db.payment, db, payment_id);
            var o := GenerateInvoice(payment_id, db, {}, summary);
            o.response.status == 200 <==>
              || (rows != [] && summary(rows[0].payment.user_id, rows[0].payment.property_id).Returned?)
              || (rows == [] && ApartmentRows(db.payments, db, payment_id) != [])
    ensures var o := GenerateInvoice(payment_id, db, {}, summary);
            o.response.status == 200 && o.response.body.value.row.payment_type == ApartmentType ==>
              && o.response.body.value.figures.pending_amount == 0
              && o.response.body.value.figures.percentage_paid == 100
              && o.response.body.value.figures.deposit_amount == OrZero(o.response.body.value.row.payment.amount_paid)
  {
  }

  /** A summary lookup that throws is rethrown: the invoice of a property
      payment then answers 500 rather than falling back to the figures of
      the payment row. */
  lemma SummaryThrowAnswers500(payment_id: string, db: Db, failing: set<Query>,
                               summary: (string, string) -> Call<Option<PaymentData>>)
    requires payment_id != "" && PropertyQuery !in failing
    requires var rows := PropertyRows(db.payment, db, payment_id);
             rows != [] && summary(rows[0].payment.user_id, rows[0].payment.property_id).Threw?
    ensures GenerateInvoice(payment_id, db, failing, summary).response == ServerError
    ensures GenerateInvoice(payment_id, db, failing, summary).queried == [PropertyQuery]
  {
  }

  /** "Payment not found" means exactly that neither lookup has a payment
      with the id: none among property payments, and none among apartment
      payments with a known user and a joinable booking. */
  lemma NotFoundIff(payment_id: string, db: Db, failing: set<Query>,
                    summary: (string, string) -> Call<Option<PaymentData>>)
    requires payment_id != "" && failing == {}
    ensures GenerateInvoice(payment_id, db, failing, summary).response.status == 404 <==>
              && (forall i :: 0 <= i < |db.payment| ==> IntToString(db.payment[i].id) != payment_id)
              && (forall i :: 0 <= i < |db.payments| ==> !ApartmentMatch(db.payments[i], db, payment_id))
  {
    ApartmentRowsComplete(db.payments, db, payment_id);
  }

  /** A payment id present in both tables resolves to the property payment:
      the apartment join is never consulted. */
  lemma PropertyTableWins(payment_id: string, db: Db, failing: set<Query>,
                          summary: (string, string) -> Call<Option<PaymentData>>, i: nat)
    requires payment_id != "" && PropertyQuery !in failing
    requires i < |db.payment| && IntToString(db.payment[i].id) == payment_id
    ensures GenerateInvoice(payment_id, db, failing, summary).queried == [PropertyQuery]
    ensures GenerateInvoice(payment_id, db, failing, summary).response.status in {200, 500}
    ensures GenerateInvoice(payment_id, db, failing, summary).response.status == 200 ==>
              GenerateInvoice(payment_id, db, failing, summary).response.body.value.row.payment_type == PropertyType
  {
    assert PropertyRows(db.payment, db, payment_id) != [];
  }
}
