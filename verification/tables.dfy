/** The relational store as abstract tables. SQL joins are modelled as
    lookups over these tables; ids that a request supplies are kept as their
    text, which is how a SQL `=` against a parameter compares them. */
module Tables {
  import opened JsValues
  import opened PaymentModel

  /** A row of `payment` (payments for properties) or of `payments` (the
      table the apartment booking writes). NULL-able numeric columns are
      options; `price` is `None` for a table without that column. */
  datatype PaymentRow = PaymentRow(
    id: nat,
    user_id: string,
    property_id: string,
    total_price: Option<int>,
    amount_paid: Option<int>,
    price: Option<int>,
    payment_method: string,
    payment_details: Details,
    status: string,
    payment_date: int,
    invoice_number: Option<string>)

  /** A row of `apartment_bookings`. */
  datatype BookingRow = BookingRow(
    id: nat,
    user_id: string,
    apartment_id: string,
    unit_id: string,
    payment_id: nat,
    booking_date: int,
    amount: Option<int>,
    status: string,
    notes: Option<string>)

  /** The unit columns an invoice copies. */
  datatype UnitDetails = UnitDetails(unit_number: string, floor_number: int, bedrooms: int, bathrooms: int, area: int)

  /** A row of `apartment_units`; `status` is "available" or "booked". */
  datatype UnitRow = UnitRow(apartment_id: string, details: UnitDetails, price: int, status: string)

  datatype ApartmentRow = ApartmentRow(name: string, location: string)

  datatype PropertyRow = PropertyRow(name: string, location: string, price: Option<int>)

  datatype UserRow = UserRow(first_name: string, last_name: string, email: string)

  /** Everything the read-only controllers query. `units`, `apartments`,
      `properties` and `users` are keyed by the text of their id. */
  datatype Db = Db(
    payment: seq<PaymentRow>,
    payments: seq<PaymentRow>,
    bookings: seq<BookingRow>,
    units: map<string, UnitRow>,
    apartments: map<string, ApartmentRow>,
    properties: map<string, PropertyRow>,
    users: map<string, UserRow>)

  /** The two queries of the invoice and history controllers: the one over
      `payment` and the join starting from `payments`. */
  datatype Query = PropertyQuery | ApartmentQuery

  /** The value a numeric column stores for a request field. */
  function Column(v: Val): Option<int>
  {
    match v
    case Num(n) => Some(n)
    case Bool(b) => Some(if b then 1 else 0)
    case _ => None
  }

  /** `x || 0` on a numeric column. */
  function OrZero(x: Option<int>): int
  {
    if x.Some? then x.value else 0
  }

  /** `CONCAT(u.first_name, ' ', u.last_name)` over a LEFT JOIN. */
  function UserName(u: Option<UserRow>): Option<string>
  {
    if u.Some? then Some(u.value.first_name + " " + u.value.last_name) else None
  }

  /** Booking `b` completes the inner join of `payments`,
      `apartment_bookings`, `apartments` and `apartment_units` for payment
      `p`. */
  predicate Joins(p: PaymentRow, b: BookingRow, db: Db)
  {
    b.payment_id == p.id && b.apartment_id in db.apartments && b.unit_id in db.units
  }

  /** Payment `p` has at least one booking that completes the join. */
  predicate HasBooking(p: PaymentRow, db: Db)
  {
    exists j :: 0 <= j < |db.bookings| && Joins(p, db.bookings[j], db)
  }

  function Lookup<K, V>(m: map<K, V>, k: K): Option<V>
  {
    if k in m then Some(m[k]) else None
  }
}
