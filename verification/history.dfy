/** `getAllUserPaymentsController` of
    server/src/controllers/paymentController.js: both payment families of a
    user, concatenated and sorted in place by payment date, most recent
    first. */
module PaymentHistory {
  import opened JsValues
  import opened Http
  import opened Tables

  datatype Family = Property | Apartment

  /** One entry of the merged history: the payment and the columns its
      family's query adds. */
  datatype HistoryEntry = HistoryEntry(
    payment_type: Family,
    payment: PaymentRow,
    property_name: Option<string>,
    location: Option<string>,
    price: Option<int>,
    booking_id: Option<nat>,
    unit_number: Option<string>)

  function When(e: HistoryEntry): int
  {
    e.payment.payment_date
  }

  /** Most recent first. */
  predicate SortedDesc(s: seq<HistoryEntry>)
  {
    forall i, j :: 0 <= i < j < |s| ==> When(s[i]) >= When(s[j])
  }

  /** `payment p LEFT JOIN properties WHERE p.user_id = ?` */
  function PropertyHistory(ps: seq<PaymentRow>, db: Db, user: string): (rs: seq<HistoryEntry>)
    ensures forall e :: e in rs ==> e.payment_type == Property && e.payment in ps && e.payment.user_id == user
    ensures forall i :: 0 <= i < |ps| && ps[i].user_id == user ==> exists e :: e in rs && e.payment == ps[i]
    ensures |rs| <= |ps|
  {
    if ps == [] then []
    else
      var p := ps[0];
      var here := if p.user_id == user then
        var pr := Lookup(db.properties, p.property_id);
        [HistoryEntry(Property, p,
                      if pr.Some? then Some(pr.value.name) else None,
                      if pr.Some? then Some(pr.value.location) else None,
                      if pr.Some? then pr.value.price else None,
                      None, None)]
      else [];
      var rest := PropertyHistory(ps[1..], db, user);
      assert forall i :: 1 <= i < |ps| ==> ps[i] == ps[1..][i - 1];
      here + rest
  }

  /** The bookings of `bs` that complete the apartment join for payment `p`. */
  function BookingEntries(p: PaymentRow, bs: seq<BookingRow>, db: Db): (rs: seq<HistoryEntry>)
    ensures forall e :: e in rs ==> e.payment == p && e.payment_type == Apartment && e.booking_id.Some?
    ensures forall j :: 0 <= j < |bs| && Joins(p, bs[j], db) ==> exists e :: e in rs && e.booking_id == Some(bs[j].id)
    ensures rs == [] <==> forall j :: 0 <= j < |bs| ==> !Joins(p, bs[j], db)
  {
    if bs == [] then []
    else
      var b := bs[0];
      var here := if Joins(p, b, db) then
        var apt := db.apartments[b.apartment_id];
        var unit := db.units[b.unit_id];
        [HistoryEntry(Apartment, p, Some(apt.name), Some(apt.location), Some(unit.price),
                      Some(b.id), Some(unit.details.unit_number))]
      else [];
      var rest := BookingEntries(p, bs[1..], db);
      assert forall j :: 1 <= j < |bs| ==> bs[j] == bs[1..][j - 1];
      here + rest
  }

  /** `payments p JOIN apartment_bookings JOIN apartments JOIN
      apartment_units WHERE p.user_id = ?` */
  function ApartmentHistory(ps: seq<PaymentRow>, db: Db, user: string): (rs: seq<HistoryEntry>)
    ensures forall e :: e in rs ==> e.payment_type == Apartment && e.payment in ps && e.payment.user_id == user
    ensures forall i :: 0 <= i < |ps| && ps[i].user_id == user && HasBooking(ps[i], db) ==>
              exists e :: e in rs && e.payment == ps[i]
  {
    if ps == [] then []
    else
      var p := ps[0];
      var here := if p.user_id == user then BookingEntries(p, db.bookings, db) else [];
      var rest := ApartmentHistory(ps[1..], db, user);
      assert forall i :: 1 <= i < |ps| ==> ps[i] == ps[1..][i - 1];
      assert p.user_id == user && HasBooking(p, db) ==> here != [] && here[0] in here;
      here + rest
  }

  method Swap(a: array<HistoryEntry>, i: nat, j: nat)
    requires i < j < a.Length
    modifies a
    ensures a[i] == old(a[j]) && a[j] == old(a[i])
    ensures forall k :: 0 <= k < a.Length && k != i && k != j ==> a[k] == old(a[k])
    ensures multiset(a[..]) == old(multiset(a[..]))
  {
    a[i], a[j] := a[j], a[i];
  }

  /** One insertion step: moves `a[i]` left past every entry older than
      it, so that `a[..i + 1]` is sorted; an entry never passes one of the
      same date. */
  method InsertStep(a: array<HistoryEntry>, i: nat)
    requires i < a.Length && SortedDesc(a[..i])
    modifies a
    ensures SortedDesc(a[..i + 1])
    ensures multiset(a[..]) == old(multiset(a[..]))
    ensures a[i + 1..] == old(a[i + 1..])
  {
    var j := i;
    while j > 0 && When(a[j - 1]) < When(a[j])
      invariant 0 <= j <= i
      invariant multiset(a[..]) == old(multiset(a[..]))
      invariant a[i + 1..] == old(a[i + 1..])
      invariant forall k, l :: 0 <= k < l <= i && k != j && l != j ==> When(a[k]) >= When(a[l])
      invariant forall k, l :: 0 <= k < j < l <= i ==> When(a[k]) >= When(a[l])
      invariant forall l :: j < l <= i ==> When(a[j]) >= When(a[l])
    {
      Swap(a, j - 1, j);
      j := j - 1;
    }
  }

  /** `allPayments.sort((a, b) => b.payment_date - a.payment_date)`, as an
      insertion sort by adjacent swaps. */
  method SortByDateDesc(a: array<HistoryEntry>)
    modifies a
    ensures SortedDesc(a[..])
    ensures multiset(a[..]) == old(multiset(a[..]))
  {
    var i := 0;
    while i < a.Length
      invariant 0 <= i <= a.Length
      invariant SortedDesc(a[..i])
      invariant multiset(a[..]) == old(multiset(a[..]))
    {
      InsertStep(a, i);
      i := i + 1;
    }
    assert a[..] == a[..a.Length];
  }

  /** `getAllUserPaymentsController`. `failing` names the queries that throw. */
  method GetAllUserPayments(user_id: string, db: Db, failing: set<Query>) returns (resp: Response<seq<HistoryEntry>>)
    ensures resp.status == 400 <==> user_id == ""
    ensures resp.status == 500 <==> user_id != "" && failing != {}
    ensures resp.status == 200 <==> user_id != "" && failing == {}
    ensures resp.status == 200 ==>
              var props := PropertyHistory(db.payment, db, user_id);
              var apts := ApartmentHistory(db.payments, db, user_id);
              && resp.body.Data?
              && |resp.body.value| == |props| + |apts|
              && multiset(resp.body.value) == multiset(props + apts)
              && SortedDesc(resp.body.value)
  {
    if user_id == "" {
      return Response(400, Message("User ID is required"));
    }
    if failing != {} {
      return Response(500, Message("Server error while fetching payment history"));
    }
    var all := PropertyHistory(db.payment, db, user_id) + ApartmentHistory(db.payments, db, user_id);
    var a := new HistoryEntry[|all|](k requires 0 <= k < |all| => all[k]);
    assert a[..] == all;
    SortByDateDesc(a);
    assert |a[..]| == |multiset(a[..])| == |multiset(all)| == |all|;
    resp := Response(200, Data(a[..]));
  }
}
