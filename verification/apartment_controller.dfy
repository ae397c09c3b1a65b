/** server/src/controllers/apartmentController.js: the booking transaction of
    `bookApartment` over the `payments`, `apartment_bookings` and
    `apartment_units` tables, and the ownership rules of `createApartment`
    and `updateApartment`. */
module ApartmentController {
  import opened JsValues
  import opened Http
  import opened PaymentModel
  import PaymentController
  import opened Tables

  /** The fields `bookApartment` reads from the request body. */
  datatype BookingRequest = BookingRequest(
    user_id: Val,
    property_id: Val,
    unit_id: Val,
    total_price: Val,
    amount_paid: Val,
    payment_method: Val,
    payment_details: Option<Details>)

  const MsgBookingRequired := "All booking fields are required"
  const MsgUnavailable := "Unit is not available for booking"
  const MsgTransaction := "Failed to process booking"
  const MsgServer := "Server error while processing apartment booking"
  const FallbackPrefix := "fallback-"
  const DemoNote := "Demo booking - Unit is a fallback demo unit"

  predicate HasBookingFields(r: BookingRequest)
  {
    Truthy(r.user_id) && Truthy(r.property_id) && Truthy(r.unit_id) && Truthy(r.amount_paid)
    && Truthy(r.payment_method) && r.payment_details.Some?
  }

  /** The checks run before any connection is taken: required fields, then
      the method, then the details that method needs. */
  function ValidateBooking(r: BookingRequest): (v: Verdict)
    ensures !HasBookingFields(r) ==> v == Invalid(MsgBookingRequired)
    ensures HasBookingFields(r) ==> v == PaymentController.CheckMethodAndDetails(r.payment_method, r.payment_details.value)
    ensures v == Valid ==> r.payment_method in PaymentController.ValidMethods
  {
    if !HasBookingFields(r) then Invalid(MsgBookingRequired)
    else PaymentController.CheckMethodAndDetails(r.payment_method, r.payment_details.value)
  }


  /** The operations the booking performs on its connection. */
  datatype Step =
    | Acquire | Begin | InsertPayment | SelectUnit | InsertBooking | UpdateUnit
    | StampInvoice | Commit | Rollback | Release

  /** The statements run between taking the connection and ending the
      transaction. */
  predicate Statement(s: Step)
  {
    s in {Begin, InsertPayment, SelectUnit, InsertBooking, UpdateUnit, StampInvoice}
  }

  /** How a call leaves the connection: never taken, rolled back, or
      committed; in the last two cases it is released afterwards. */
  datatype Ending = NoConnection | RolledBack | Committed

  /** The three tables the booking writes. */
  datatype Rows = Rows(payments: seq<PaymentRow>, bookings: seq<BookingRow>, units: map<string, UnitRow>)

  /** The next AUTO_INCREMENT ids of `payments` and `apartment_bookings`;
      a rollback does not give them back. */
  datatype Counters = Counters(payment: nat, booking: nat)

  /** `NOW()` of the database and `Date.now()` of the server, in ms. */
  datatype Clock = Clock(dbNow: int, nowMs: nat)

  datatype Booked = Booked(payment_id: nat, invoice_number: string)

  /** What one call does: its response, the tables and counters afterwards,
      the statements it ran and how it left the connection. */
  datatype Outcome = Outcome(response: Response<Booked>, rows: Rows, counters: Counters, work: seq<Step>, ending: Ending)

  /** Every operation on the connection, in order. */
  function Trace(o: Outcome): seq<Step>
  {
    match o.ending
    case NoConnection => []
    case RolledBack => [Acquire] + o.work + [Rollback, Release]
    case Committed => [Acquire] + o.work + [Commit, Release]
  }

  /** `unit_id.toString().startsWith("fallback-")` */
  predicate IsFallback(r: BookingRequest)
  {
    StartsWith(Text(r.unit_id), FallbackPrefix)
  }

  /** A unit the availability query finds. */
  predicate UnitAvailable(units: map<string, UnitRow>, key: string)
  {
    key in units && units[key].status == "available"
  }

  function InvoiceNumber(property_id: Val, nowMs: nat): string
  {
    "APT-" + Text(property_id) + "-" + NatToString(nowMs / 1000)
  }

  /** The invoice number ends with the server's clock in whole seconds,
      which reads back from it; so two bookings of one property get the
      same invoice number exactly when they fall in the same second. */
  lemma InvoiceNumberEncodesSeconds(property_id: Val, t1: nat, t2: nat)
    ensures var head := "APT-" + Text(property_id) + "-";
            var inv := InvoiceNumber(property_id, t1);
            && |head| < |inv| && inv[..|head|] == head
            && (forall i :: |head| <= i < |inv| ==> '0' <= inv[i] <= '9')
            && DigitsValue(inv[|head|..]) == t1 / 1000
    ensures InvoiceNumber(property_id, t1) == InvoiceNumber(property_id, t2) <==> t1 / 1000 == t2 / 1000
  {
    var head := "APT-" + Text(property_id) + "-";
    var inv := InvoiceNumber(property_id, t1);
    assert inv[|head|..] == NatToString(t1 / 1000);
    NatToStringRoundTrip(t1 / 1000);
    if InvoiceNumber(property_id, t1) == InvoiceNumber(property_id, t2) {
      assert InvoiceNumber(property_id, t2)[|head|..] == NatToString(t2 / 1000);
      NatToStringRoundTrip(t2 / 1000);
    }
  }

  /** The row inserted into `payments`. */
  function NewPayment(r: BookingRequest, id: nat, clock: Clock): (p: PaymentRow)
    requires r.payment_details.Some?
    ensures p.id == id && p.status == "completed" && p.invoice_number == None && p.payment_date == clock.dbNow
    ensures ValidateBooking(r) == Valid ==> p.payment_method in {"credit_card", "upi"}
    ensures ValidateBooking(r) == Valid && r.payment_method != Str("card") ==> p.payment_method == Text(r.payment_method)
  {
    PaymentRow(id, Text(r.user_id), Text(r.property_id), Column(Or(r.total_price, r.amount_paid)),
               Column(r.amount_paid), None, Text(PaymentController.StandardMethod(r.payment_method)),
               r.payment_details.value, "completed", clock.dbNow, None)
  }

  /** The row inserted into `apartment_bookings`; a demo unit's id loses its
      prefix and the row carries a note. */
  function NewBooking(r: BookingRequest, id: nat, paymentId: nat, clock: Clock): (b: BookingRow)
    ensures b.id == id && b.payment_id == paymentId && b.status == "confirmed" && b.booking_date == clock.dbNow
    ensures IsFallback(r) <==> b.notes == Some(DemoNote)
    ensures IsFallback(r) ==> Text(r.unit_id) == FallbackPrefix + b.unit_id
    ensures !IsFallback(r) ==> b.unit_id == Text(r.unit_id)
  {
    var unit := Text(r.unit_id);
    assert IsFallback(r) ==> unit == unit[..|FallbackPrefix|] + unit[|FallbackPrefix|..];
    if IsFallback(r) then
      BookingRow(id, Text(r.user_id), Text(r.property_id), unit[|FallbackPrefix|..], paymentId,
                 clock.dbNow, Column(r.amount_paid), "confirmed", Some(DemoNote))
    else
      BookingRow(id, Text(r.user_id), Text(r.property_id), unit, paymentId,
                 clock.dbNow, Column(r.amount_paid), "confirmed", None)
  }

  /** `UPDATE payments SET invoice_number = ? WHERE id = ?` */
  function Stamp(ps: seq<PaymentRow>, id: nat, invoice: string): (r: seq<PaymentRow>)
    ensures |r| == |ps|
    ensures forall i :: 0 <= i < |ps| ==> r[i].id == ps[i].id
    ensures forall i :: 0 <= i < |ps| && ps[i].id != id ==> r[i] == ps[i]
    ensures forall i :: 0 <= i < |ps| && ps[i].id == id ==> r[i] == ps[i].(invoice_number := Some(invoice))
  {
    seq(|ps|, i requires 0 <= i < |ps| =>
      if ps[i].id == id then ps[i].(invoice_number := Some(invoice)) else ps[i])
  }

  /** `UPDATE apartment_units SET status = 'booked' WHERE id = ?` */
  function MarkBooked(units: map<string, UnitRow>, key: string): (u: map<string, UnitRow>)
    ensures u.Keys == units.Keys
    ensures key in units ==> u[key].status == "booked"
    ensures forall k :: k in units && k != key ==> u[k] == units[k]
  {
    if key in units then units[key := units[key].(status := "booked")] else units
  }

  /** A failure inside the transaction: roll back to `before`, release,
      answer 500. */
  function Aborted(before: Rows, c: Counters, work: seq<Step>): (o: Outcome)
    ensures o.response.status == 500 && o.rows == before && o.counters == c && o.ending == RolledBack && o.work == work
  {
    Outcome(Response(500, Message(MsgTransaction)), before, c, work, RolledBack)
  }

  /** The common tail of both paths: stamp the invoice number, commit. */
  function Finish(before: Rows, after: Rows, c: Counters, work: seq<Step>, pid: nat, invoice: string,
                  fault: Option<Step>): (o: Outcome)
    ensures o.response.status in {200, 500} && o.ending != NoConnection && o.counters == c
    ensures o.response.status != 200 ==> o.rows == before
    ensures o.response.status == 200 <==> o.ending == Committed
    ensures (forall s :: s in work ==> Statement(s)) ==> forall s :: s in o.work ==> Statement(s)
  {
    if fault == Some(StampInvoice) then Aborted(before, c, work)
    else if fault == Some(Commit) then Aborted(before, c, work + [StampInvoice])
    else Outcome(Response(200, Data(Booked(pid, invoice))), after.(payments := Stamp(after.payments, pid, invoice)),
                 c, work + [StampInvoice], Committed)
  }

  /** After the payment row: the booking row for a demo unit. */
  function DemoUnitPath(before: Rows, paid: Rows, c: Counters, r: BookingRequest, clock: Clock, fault: Option<Step>): (o: Outcome)
    requires c.payment > 0
    ensures o.response.status in {200, 500} && o.ending != NoConnection
    ensures o.response.status != 200 ==> o.rows == before
    ensures o.response.status == 200 <==> o.ending == Committed
    ensures o.counters.payment == c.payment && o.counters.booking >= c.booking
    ensures forall s :: s in o.work ==> Statement(s)
  {
    var pid := c.payment - 1;
    var work := [Begin, InsertPayment];
    if fault == Some(InsertBooking) then Aborted(before, c, work)
    else Finish(before, paid.(bookings := paid.bookings + [NewBooking(r, c.booking, pid, clock)]),
                c.(booking := c.booking + 1), work + [InsertBooking], pid,
                InvoiceNumber(r.property_id, clock.nowMs), fault)
  }

  /** After the payment row: check the unit, book it and mark it booked. */
  function RealUnitPath(before: Rows, paid: Rows, c: Counters, r: BookingRequest, clock: Clock, fault: Option<Step>): (o: Outcome)
    requires c.payment > 0
    ensures o.response.status in {200, 400, 500} && o.ending != NoConnection
    ensures o.response.status != 200 ==> o.rows == before
    ensures o.response.status == 200 <==> o.ending == Committed
    ensures o.counters.payment == c.payment && o.counters.booking >= c.booking
    ensures forall s :: s in o.work ==> Statement(s)
  {
    var pid := c.payment - 1;
    var key := Text(r.unit_id);
    var work := [Begin, InsertPayment];
    if fault == Some(SelectUnit) then Aborted(before, c, work)
    else if !UnitAvailable(before.units, key) then
      Outcome(Response(400, Message(MsgUnavailable)), before, c, work + [SelectUnit], RolledBack)
    else if fault == Some(InsertBooking) then Aborted(before, c, work + [SelectUnit])
    else if fault == Some(UpdateUnit) then
      Aborted(before, c.(booking := c.booking + 1), work + [SelectUnit, InsertBooking])
    else
      Finish(before, Rows(paid.payments, paid.bookings + [NewBooking(r, c.booking, pid, clock)], MarkBooked(paid.units, key)),
             c.(booking := c.booking + 1), work + [SelectUnit, InsertBooking, UpdateUnit], pid,
             InvoiceNumber(r.property_id, clock.nowMs), fault)
  }

  /** `bookApartment` as a function of the tables before the call. `fault`
      names the one database operation that throws, if any. */
  function Book(rows: Rows, c: Counters, r: BookingRequest, clock: Clock, fault: Option<Step>): (o: Outcome)
    ensures ValidateBooking(r).Invalid? ==>
              o == Outcome(Response(400, Message(ValidateBooking(r).message)), rows, c, [], NoConnection)
    ensures o.response.status in {200, 400, 500}
    ensures o.response.status != 200 ==> o.rows == rows
    ensures o.response.status == 200 <==> o.ending == Committed
    ensures o.ending == NoConnection ==> o.work == []
    ensures o.counters.payment >= c.payment && o.counters.booking >= c.booking
    ensures forall s :: s in o.work ==> Statement(s)
  {
    match ValidateBooking(r)
    case Invalid(m) => Outcome(Response(400, Message(m)), rows, c, [], NoConnection)
    case Valid =>
      if fault == Some(Acquire) then Outcome(Response(500, Message(MsgServer)), rows, c, [], NoConnection)
      else if fault == Some(Begin) then Aborted(rows, c, [])
      else if fault == Some(InsertPayment) then Aborted(rows, c, [Begin])
      else
        var paid := rows.(payments := rows.payments + [NewPayment(r, c.payment, clock)]);
        var c1 := c.(payment := c.payment + 1);
        if IsFallback(r) then DemoUnitPath(rows, paid, c1, r, clock, fault)
        else RealUnitPath(rows, paid, c1, r, clock, fault)
  }

  /** The operations inside the transaction that a valid request reaches
      when nothing throws: a demo unit skips the unit query and update, and
      an unavailable real unit stops after the query. */
  predicate Executes(r: BookingRequest, units: map<string, UnitRow>, s: Step)
  {
    || s in {Begin, InsertPayment}
    || (s == SelectUnit && !IsFallback(r))
    || (s == UpdateUnit && !IsFallback(r) && UnitAvailable(units, Text(r.unit_id)))
    || (s in {InsertBooking, StampInvoice, Commit} && (IsFallback(r) || UnitAvailable(units, Text(r.unit_id))))
  }

  /** Any error inside the transaction rolls it back and answers 500 with
      the tables as they were; an error taking the connection answers 500
      without one. */
  lemma FaultAborts(rows: Rows, c: Counters, r: BookingRequest, clock: Clock, s: Step)
    requires ValidateBooking(r) == Valid
    requires s == Acquire || Executes(r, rows.units, s)
    ensures var o := Book(rows, c, r, clock, Some(s));
            && o.response.status == 500 && o.rows == rows
            && o.ending == (if s == Acquire then NoConnection else RolledBack)
            && o.response.body == Message(if s == Acquire then MsgServer else MsgTransaction)
  {
  }

  /** Without an error, a valid request for a demo unit or an available
      real unit is committed. */
  lemma FaultFreeCommits(rows: Rows, c: Counters, r: BookingRequest, clock: Clock)
    requires ValidateBooking(r) == Valid
    requires IsFallback(r) || UnitAvailable(rows.units, Text(r.unit_id))
    ensures var o := Book(rows, c, r, clock, None);
            o.response.status == 200 && o.ending == Committed
  {
  }

  /** An error on an operation the request never reaches changes nothing:
      the call ends as it would without it. */
  lemma UnreachedFaultIgnored(rows: Rows, c: Counters, r: BookingRequest, clock: Clock, s: Step)
    requires s !in {Acquire, Rollback, Release} && !Executes(r, rows.units, s)
    ensures Book(rows, c, r, clock, Some(s)) == Book(rows, c, r, clock, None)
  {
  }

  /** Every call that takes the connection releases it exactly once, as its
      last operation, after exactly one of commit and rollback. */
  lemma ConnectionReleasedOnce(rows: Rows, c: Counters, r: BookingRequest, clock: Clock, fault: Option<Step>)
    ensures var o := Book(rows, c, r, clock, fault);
            var t := Trace(o);
            && (t == [] <==> o.ending == NoConnection)
            && (t != [] ==> t[0] == Acquire && t[|t| - 1] == Release)
            && (t != [] ==> multiset(t)[Acquire] == 1 && multiset(t)[Release] == 1)
            && (t != [] ==> multiset(t)[Commit] + multiset(t)[Rollback] == 1)
            && (Commit in t <==> o.response.status == 200)
  {
    var o := Book(rows, c, r, clock, fault);
    var w := o.work;
    assert Acquire !in w && Release !in w && Commit !in w && Rollback !in w;
    match o.ending
    case NoConnection =>
    case RolledBack =>
      assert Trace(o) == [Acquire] + w + [Rollback, Release];
      assert multiset(Trace(o)) == multiset([Acquire]) + multiset(w) + multiset([Rollback, Release]);
    case Committed =>
      assert Trace(o) == [Acquire] + w + [Commit, Release];
      assert multiset(Trace(o)) == multiset([Acquire]) + multiset(w) + multiset([Commit, Release]);
  }

  /** A valid request for a real unit that is not available is refused
      with 400 once the availability query runs; the tables are rolled back
      but the payment id it drew stays used. */
  lemma UnavailableUnitRefused(rows: Rows, c: Counters, r: BookingRequest, clock: Clock, fault: Option<Step>)
    requires ValidateBooking(r) == Valid && !IsFallback(r) && !UnitAvailable(rows.units, Text(r.unit_id))
    requires fault !in {Some(Acquire), Some(Begin), Some(InsertPayment), Some(SelectUnit)}
    ensures var o := Book(rows, c, r, clock, fault);
            && o.response == Response(400, Message(MsgUnavailable))
            && o.rows == rows && o.ending == RolledBack
            && o.counters == c.(payment := c.payment + 1)
  {
  }

  /** What a committed booking does: one payment row under the next payment
      id, carrying the invoice number; one booking row under the next
      booking id that refers to it; a real unit marked booked. */
  lemma CommittedBooking(rows: Rows, c: Counters, r: BookingRequest, clock: Clock, fault: Option<Step>)
    requires Book(rows, c, r, clock, fault).response.status == 200
    ensures var o := Book(rows, c, r, clock, fault);
            var invoice := InvoiceNumber(r.property_id, clock.nowMs);
            && ValidateBooking(r) == Valid
            && o.response.body == Data(Booked(c.payment, invoice))
            && o.counters == Counters(c.payment + 1, c.booking + 1)
            && o.rows.payments == Stamp(rows.payments + [NewPayment(r, c.payment, clock)], c.payment, invoice)
            && o.rows.bookings == rows.bookings + [NewBooking(r, c.booking, c.payment, clock)]
            && (IsFallback(r) ==> o.rows.units == rows.units)
            && (!IsFallback(r) ==> UnitAvailable(rows.units, Text(r.unit_id))
                                   && o.rows.units == MarkBooked(rows.units, Text(r.unit_id)))
  {
  }

  function PaymentIds(ps: seq<PaymentRow>): set<nat>
  {
    set i | 0 <= i < |ps| :: ps[i].id
  }

  /** The store's invariant: ids below their counters and distinct, and
      every booking refers to a payment that exists. */
  predicate Consistent(rows: Rows, c: Counters)
  {
    && (forall i :: 0 <= i < |rows.payments| ==> rows.payments[i].id < c.payment)
    && (forall i, j :: 0 <= i < j < |rows.payments| ==> rows.payments[i].id != rows.payments[j].id)
    && (forall i :: 0 <= i < |rows.bookings| ==> rows.bookings[i].id < c.booking)
    && (forall i, j :: 0 <= i < j < |rows.bookings| ==> rows.bookings[i].id != rows.bookings[j].id)
    && (forall i :: 0 <= i < |rows.bookings| ==> rows.bookings[i].payment_id in PaymentIds(rows.payments))
  }

  /** Appending a payment under the next payment id and a booking of it
      under the next booking id, then stamping the payment, keeps a store
      consistent. */
  lemma CommitKeepsConsistent(rows: Rows, c: Counters, pay: PaymentRow, booking: BookingRow,
                              invoice: string, units: map<string, UnitRow>)
    requires Consistent(rows, c)
    requires pay.id == c.payment && booking.id == c.booking && booking.payment_id == c.payment
    ensures Consistent(Rows(Stamp(rows.payments + [pay], c.payment, invoice), rows.bookings + [booking], units),
                       Counters(c.payment + 1, c.booking + 1))
  {
    var paid := rows.payments + [pay];
    var stamped := Stamp(paid, c.payment, invoice);
    assert PaymentIds(stamped) == PaymentIds(paid) by {
      forall x | x in PaymentIds(paid) ensures x in PaymentIds(stamped) {
        var i :| 0 <= i < |paid| && paid[i].id == x;
        assert stamped[i].id == x;
      }
    }
    assert PaymentIds(rows.payments) <= PaymentIds(paid) by {
      forall x | x in PaymentIds(rows.payments) ensures x in PaymentIds(paid) {
        var i :| 0 <= i < |rows.payments| && rows.payments[i].id == x;
        assert paid[i].id == x;
      }
    }
    assert c.payment in PaymentIds(paid) by {
      assert paid[|rows.payments|].id == c.payment;
    }
  }

  /** A booking keeps the store consistent, whatever happens in it. */
  lemma BookKeepsConsistent(rows: Rows, c: Counters, r: BookingRequest, clock: Clock, fault: Option<Step>)
    requires Consistent(rows, c)
    ensures var o := Book(rows, c, r, clock, fault); Consistent(o.rows, o.counters)
  {
    var o := Book(rows, c, r, clock, fault);
    if o.response.status == 200 {
      CommittedBooking(rows, c, r, clock, fault);
      CommitKeepsConsistent(rows, c, NewPayment(r, c.payment, clock), NewBooking(r, c.booking, c.payment, clock),
                            InvoiceNumber(r.property_id, clock.nowMs), o.rows.units);
    }
  }

  /** In a consistent store, a committed booking appends one payment row
      and one booking row, linked by the new payment id, and leaves the
      earlier payments as they were. */
  lemma CommittedBookingIsLinked(rows: Rows, c: Counters, r: BookingRequest, clock: Clock, fault: Option<Step>)
    requires Consistent(rows, c)
    requires Book(rows, c, r, clock, fault).response.status == 200
    ensures var o := Book(rows, c, r, clock, fault);
            var n := |rows.payments|;
            var b := o.rows.bookings[|rows.bookings|];
            && |o.rows.payments| == n + 1 && |o.rows.bookings| == |rows.bookings| + 1
            && o.rows.payments[..n] == rows.payments
            && o.rows.payments[n].status == "completed"
            && o.rows.payments[n].payment_method == Text(PaymentController.StandardMethod(r.payment_method))
            && o.rows.payments[n].total_price == Column(if Truthy(r.total_price) then r.total_price else r.amount_paid)
            && o.rows.payments[n].amount_paid == Column(r.amount_paid)
            && o.rows.payments[n].invoice_number == Some(o.response.body.value.invoice_number)
            && o.rows.payments[n].id == o.response.body.value.payment_id == b.payment_id
            && b.amount == Column(r.amount_paid) && b.status == "confirmed"
            && b.user_id == Text(r.user_id) && b.apartment_id == Text(r.property_id)
  {
    CommittedBooking(rows, c, r, clock, fault);
    var o := Book(rows, c, r, clock, fault);
    var n := |rows.payments|;
    var paid := rows.payments + [NewPayment(r, c.payment, clock)];
    forall i | 0 <= i < n ensures o.rows.payments[i] == rows.payments[i] {
      assert paid[i] == rows.payments[i];
    }
    assert paid[n].id == c.payment;
  }

  /** A demo unit is booked without reading or touching `apartment_units`:
      its booking stores the id without the prefix and carries the note. */
  lemma DemoBookingLeavesUnits(rows: Rows, c: Counters, r: BookingRequest, clock: Clock, fault: Option<Step>)
    requires IsFallback(r)
    requires Book(rows, c, r, clock, fault).response.status == 200
    ensures var o := Book(rows, c, r, clock, fault);
            && o.rows.units == rows.units
            && SelectUnit !in o.work && UpdateUnit !in o.work
            && Text(r.unit_id) == FallbackPrefix + o.rows.bookings[|rows.bookings|].unit_id
            && o.rows.bookings[|rows.bookings|].notes == Some(DemoNote)
  {
    CommittedBooking(rows, c, r, clock, fault);
    var t := Text(r.unit_id);
    assert t == t[..|FallbackPrefix|] + t[|FallbackPrefix|..];
  }

  /** A numeric unit id always names a real unit. */
  lemma NumericUnitIsReal(r: BookingRequest, n: int)
    requires r.unit_id == Num(n)
    ensures !IsFallback(r)
  {
    NumberTextStartsWithDigitOrSign(n, FallbackPrefix);
  }

  /** Once a real unit is booked, a later booking of the same unit that gets
      as far as the availability query is refused with 400 and changes no
      row. */
  lemma SecondBookingOfUnitRefused(rows: Rows, c: Counters, r1: BookingRequest, clock1: Clock, fault1: Option<Step>,
                                   r2: BookingRequest, clock2: Clock, fault2: Option<Step>)
    requires !IsFallback(r1) && Text(r2.unit_id) == Text(r1.unit_id)
    requires Book(rows, c, r1, clock1, fault1).response.status == 200
    requires ValidateBooking(r2) == Valid
    requires fault2 !in {Some(Acquire), Some(Begin), Some(InsertPayment), Some(SelectUnit)}
    ensures var o1 := Book(rows, c, r1, clock1, fault1);
            var o2 := Book(o1.rows, o1.counters, r2, clock2, fault2);
            o2.response == Response(400, Message(MsgUnavailable)) && o2.rows == o1.rows
  {
    CommittedBooking(rows, c, r1, clock1, fault1);
    var o1 := Book(rows, c, r1, clock1, fault1);
    assert !IsFallback(r2);
    UnavailableUnitRefused(o1.rows, o1.counters, r2, clock2, fault2);
  }

  /** The connection and the three tables of `bookApartment`. A transaction
      keeps a before-image of the tables (`savepoint`) that a rollback
      restores; `log` records every operation on the connection. */
  class Store {
    var payments: seq<PaymentRow>
    var bookings: seq<BookingRow>
    var units: map<string, UnitRow>
    var counters: Counters
    var log: seq<Step>
    var savepoint: Option<Rows>

    function State(): Rows
      reads this
    {
      Rows(payments, bookings, units)
    }

    constructor (rows: Rows, c: Counters)
      ensures State() == rows && counters == c && log == [] && savepoint == None
    {
      payments, bookings, units := rows.payments, rows.bookings, rows.units;
      counters := c;
      log := [];
      savepoint := None;
    }

    /** `pool.getConnection()` */
    method AcquireConnection()
      modifies this`log
      ensures log == old(log) + [Acquire]
    {
      log := log + [Acquire];
    }

    /** `connection.release()` */
    method ReleaseConnection()
      modifies this`log
      ensures log == old(log) + [Release]
    {
      log := log + [Release];
    }

    method BeginTransaction()
      requires savepoint == None
      modifies this`savepoint, this`log
      ensures savepoint == Some(State()) && log == old(log) + [Begin]
    {
      savepoint := Some(State());
      log := log + [Begin];
    }

    /** Restores the before-image of the open transaction, if there is one;
        the counters keep the ids already drawn. */
    method RollbackTransaction()
      modifies this
      ensures savepoint == None && counters == old(counters) && log == old(log) + [Rollback]
      ensures State() == if old(savepoint).Some? then old(savepoint).value else old(State())
    {
      if savepoint.Some? {
        payments, bookings, units := savepoint.value.payments, savepoint.value.bookings, savepoint.value.units;
      }
      savepoint := None;
      log := log + [Rollback];
    }

    method CommitTransaction()
      modifies this`savepoint, this`log
      ensures savepoint == None && log == old(log) + [Commit]
    {
      savepoint := None;
      log := log + [Commit];
    }

    /** Inserts `row` under the next payment id and returns that id. */
    method InsertPaymentRow(row: PaymentRow) returns (id: nat)
      modifies this`payments, this`counters, this`log
      ensures id == old(counters.payment) && counters == old(counters).(payment := id + 1)
      ensures payments == old(payments) + [row.(id := id)] && log == old(log) + [InsertPayment]
    {
      id := counters.payment;
      payments := payments + [row.(id := id)];
      counters := counters.(payment := id + 1);
      log := log + [InsertPayment];
    }

    /** Inserts `row` under the next booking id and returns that id. */
    method InsertBookingRow(row: BookingRow) returns (id: nat)
      modifies this`bookings, this`counters, this`log
      ensures id == old(counters.booking) && counters == old(counters).(booking := id + 1)
      ensures bookings == old(bookings) + [row.(id := id)] && log == old(log) + [InsertBooking]
    {
      id := counters.booking;
      bookings := bookings + [row.(id := id)];
      counters := counters.(booking := id + 1);
      log := log + [InsertBooking];
    }

    /** `SELECT * FROM apartment_units WHERE id = ? AND status = 'available'`
        found a row. */
    method SelectAvailableUnit(key: string) returns (found: bool)
      modifies this`log
      ensures found == UnitAvailable(units, key) && log == old(log) + [SelectUnit]
    {
      found := UnitAvailable(units, key);
      log := log + [SelectUnit];
    }

    method UpdateUnitStatus(key: string)
      modifies this`units, this`log
      ensures units == MarkBooked(old(units), key) && log == old(log) + [UpdateUnit]
    {
      units := MarkBooked(units, key);
      log := log + [UpdateUnit];
    }

    method StampInvoiceNumber(id: nat, invoice: string)
      modifies this`payments, this`log
      ensures payments == Stamp(old(payments), id, invoice) && log == old(log) + [StampInvoice]
    {
      payments := Stamp(payments, id, invoice);
      log := log + [StampInvoice];
    }

    /** The `catch` of the transaction: roll back to `before`, release,
        answer 500. `prefix` is the log before the connection was taken and
        `work` what the transaction has run so far. */
    method FailTransaction(ghost prefix: seq<Step>, ghost before: Rows, ghost work: seq<Step>)
      returns (resp: Response<Booked>)
      requires savepoint == Some(before) && log == prefix + [Acquire] + work
      modifies this
      ensures var o := Aborted(before, old(counters), work);
              resp == o.response && State() == o.rows && counters == o.counters && log == prefix + Trace(o)
      ensures savepoint == None
    {
      RollbackTransaction();
      ReleaseConnection();
      resp := Response(500, Message(MsgTransaction));
    }

    /** Stamps the invoice number on payment `pid` and commits. */
    method FinishBooking(ghost prefix: seq<Step>, ghost before: Rows, ghost work: seq<Step>,
                         pid: nat, invoice: string, fault: Option<Step>) returns (resp: Response<Booked>)
      requires savepoint == Some(before) && log == prefix + [Acquire] + work
      modifies this
      ensures var o := Finish(before, old(State()), old(counters), work, pid, invoice, fault);
              resp == o.response && State() == o.rows && counters == o.counters && log == prefix + Trace(o)
      ensures savepoint == None
    {
      if fault == Some(StampInvoice) {
        resp := FailTransaction(prefix, before, work);
        return;
      }
      StampInvoiceNumber(pid, invoice);
      if fault == Some(Commit) {
        resp := FailTransaction(prefix, before, work + [StampInvoice]);
        return;
      }
      CommitTransaction();
      ReleaseConnection();
      resp := Response(200, Data(Booked(pid, invoice)));
    }

    /** The booking of a demo unit, once the payment row is in. */
    method BookDemoUnit(ghost prefix: seq<Step>, ghost before: Rows, r: BookingRequest, clock: Clock,
                        fault: Option<Step>, pid: nat) returns (resp: Response<Booked>)
      requires savepoint == Some(before) && log == prefix + [Acquire, Begin, InsertPayment]
      requires counters.payment == pid + 1
      modifies this
      ensures var o := DemoUnitPath(before, old(State()), old(counters), r, clock, fault);
              resp == o.response && State() == o.rows && counters == o.counters && log == prefix + Trace(o)
      ensures savepoint == None
    {
      var work := [Begin, InsertPayment];
      if fault == Some(InsertBooking) {
        resp := FailTransaction(prefix, before, work);
        return;
      }
      var _ := InsertBookingRow(NewBooking(r, 0, pid, clock));
      resp := FinishBooking(prefix, before, work + [InsertBooking], pid, InvoiceNumber(r.property_id, clock.nowMs), fault);
    }

    /** The booking of a real unit, once the payment row is in: check that
        it is available, book it and mark it booked. */
    method BookRealUnit(ghost prefix: seq<Step>, ghost before: Rows, r: BookingRequest, clock: Clock,
                        fault: Option<Step>, pid: nat) returns (resp: Response<Booked>)
      requires savepoint == Some(before) && log == prefix + [Acquire, Begin, InsertPayment]
      requires counters.payment == pid + 1 && units == before.units
      modifies this
      ensures var o := RealUnitPath(before, old(State()), old(counters), r, clock, fault);
              resp == o.response && State() == o.rows && counters == o.counters && log == prefix + Trace(o)
      ensures savepoint == None
    {
      var work := [Begin, InsertPayment];
      var key := Text(r.unit_id);
      if fault == Some(SelectUnit) {
        resp := FailTransaction(prefix, before, work);
        return;
      }
      var available := SelectAvailableUnit(key);
      if !available {
        RollbackTransaction();
        ReleaseConnection();
        return Response(400, Message(MsgUnavailable));
      }
      if fault == Some(InsertBooking) {
        resp := FailTransaction(prefix, before, work + [SelectUnit]);
        return;
      }
      var _ := InsertBookingRow(NewBooking(r, 0, pid, clock));
      if fault == Some(UpdateUnit) {
        resp := FailTransaction(prefix, before, work + [SelectUnit, InsertBooking]);
        return;
      }
      UpdateUnitStatus(key);
      resp := FinishBooking(prefix, before, work + [SelectUnit, InsertBooking, UpdateUnit], pid,
                            InvoiceNumber(r.property_id, clock.nowMs), fault);
    }

    /** `bookApartment`: validate, then insert the payment, check and book
        the unit (or take the demo path), stamp the invoice number and
        commit; every failure after the connection is taken rolls back and
        every exit after it releases the connection. */
    method BookApartment(r: BookingRequest, clock: Clock, fault: Option<Step>) returns (resp: Response<Booked>)
      requires savepoint == None
      modifies this
      ensures var o := Book(old(State()), old(counters), r, clock, fault);
              resp == o.response && State() == o.rows && counters == o.counters && log == old(log) + Trace(o)
      ensures savepoint == None
    {
      var v := ValidateBooking(r);
      if v.Invalid? {
        return Response(400, Message(v.message));
      }
      if fault == Some(Acquire) {
        return Response(500, Message(MsgServer));
      }
      ghost var prefix := log;
      ghost var before := State();
      AcquireConnection();
      if fault == Some(Begin) {
        RollbackTransaction();
        ReleaseConnection();
        return Response(500, Message(MsgTransaction));
      }
      BeginTransaction();
      if fault == Some(InsertPayment) {
        resp := FailTransaction(prefix, before, [Begin]);
        return;
      }
      var pid := InsertPaymentRow(NewPayment(r, 0, clock));
      if IsFallback(r) {
        resp := BookDemoUnit(prefix, before, r, clock, fault, pid);
      } else {
        resp := BookRealUnit(prefix, before, r, clock, fault, pid);
      }
    }
  }

  /** An authenticated user as the auth middleware sets `req.user`. */
  datatype User = User(id: int, role: string)

  /** `owner_id` (null when unknown) and `owner_type` of an apartment. */
  datatype Owner = Owner(owner_id: Option<int>, owner_type: string)

  /** The owner `createApartment` records: the user, typed "seller" for a
      seller and "admin" for any other role; nobody, typed "admin", for an
      anonymous request. */
  function CreationOwner(user: Option<User>): (o: Owner)
    ensures user.None? ==> o == Owner(None, "admin")
    ensures user.Some? ==> o.owner_id == Some(user.value.id)
    ensures o.owner_type == "seller" <==> user.Some? && user.value.role == "seller"
    ensures o.owner_type in {"seller", "admin"}
  {
    if user.Some? then Owner(Some(user.value.id), if user.value.role == "seller" then "seller" else "admin")
    else Owner(None, "admin")
  }

  function OwnerFields(body: map<string, Val>, o: Owner): map<string, Val>
  {
    body["owner_id" := if o.owner_id.Some? then Num(o.owner_id.value) else Null]["owner_type" := Str(o.owner_type)]
  }

  /** The data `createApartment` stores: the body, with whatever owner it
      claims replaced by the requesting user. */
  function CreationData(body: map<string, Val>, user: Option<User>): (d: map<string, Val>)
    ensures d.Keys == body.Keys + {"owner_id", "owner_type"}
    ensures forall k :: k in body && k != "owner_id" && k != "owner_type" ==> d[k] == body[k]
    ensures d["owner_id"] == (if user.Some? then Num(user.value.id) else Null)
    ensures d["owner_type"] == Str(if user.Some? && user.value.role == "seller" then "seller" else "admin")
  {
    OwnerFields(body, CreationOwner(user))
  }

  /** What `updateApartment` does before writing: refuse, or write the body
      with the stored owner. */
  datatype UpdatePlan = Refuse(status: nat, message: string) | Write(data: map<string, Val>)

  /** `updateApartment`: 404 for an unknown apartment, 403 for an
      authenticated non-admin who does not own it; otherwise the body is
      written with `owner_id` and `owner_type` taken from the stored row,
      whatever the body said. */
  function PlanUpdate(existing: Option<Owner>, user: Option<User>, body: map<string, Val>): (p: UpdatePlan)
    ensures existing.None? <==> p == Refuse(404, "Apartment not found")
    ensures p.Refuse? && p.status == 403 <==>
              existing.Some? && user.Some? && user.value.role != "admin" && existing.value.owner_id != Some(user.value.id)
    ensures p.Write? ==>
              && p.data.Keys == body.Keys + {"owner_id", "owner_type"}
              && (forall k :: k in body && k != "owner_id" && k != "owner_type" ==> p.data[k] == body[k])
              && p.data["owner_type"] == Str(existing.value.owner_type)
              && p.data["owner_id"] == (if existing.value.owner_id.Some? then Num(existing.value.owner_id.value) else Null)
  {
    if existing.None? then Refuse(404, "Apartment not found")
    else if user.Some? && user.value.role != "admin" && existing.value.owner_id != Some(user.value.id) then
      Refuse(403, "You don't have permission to modify this apartment")
    else Write(OwnerFields(body, existing.value))
  }

  /** An apartment created by an authenticated user may be updated by that
      user and by any admin, by no other authenticated user, and an update
      leaves its owner as creation set it. */
  lemma CreatorKeepsControl(creator: User, other: User, body: map<string, Val>)
    ensures var owner := CreationOwner(Some(creator));
            && PlanUpdate(Some(owner), Some(creator), body).Write?
            && PlanUpdate(Some(owner), Some(creator), body).data["owner_id"] == Num(creator.id)
            && (PlanUpdate(Some(owner), Some(other), body).Write? <==> other.role == "admin" || other.id == creator.id)
  {
  }
}
