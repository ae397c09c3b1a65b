# Payments and apartment bookings of a property platform

This project models the payment and booking core of a property listing
platform in Dafny, with proofs about that model. It covers the Express
controllers that record property payments, book apartment units inside a
database transaction, compose invoices and merge a user's payment
history. It also covers the two React components that collect payments.

- `js_values.dfy` (`JsValues`): JavaScript values with their truthiness,
  `||`, `String()`, `trim()`, `startsWith` and JSON transport.
- `http.dfy` (`Http`): a response status with either a data body or a
  message.
- `payment_model.dfy` (`PaymentModel`): the `paymentModel` record and its
  `validate()`.
- `payment_controller.dfy` (`PaymentController`): `createPayment` and
  `checkPayment`.
- `tables.dfy` (`Tables`): the relational tables as sequences and maps.
- `invoice.dfy` (`InvoiceComposer`): `generateInvoice`.
- `history.dfy` (`PaymentHistory`): `getAllUserPaymentsController`. It
  sorts in place with an insertion sort on an array.
- `apartment_controller.dfy` (`ApartmentController`) covers two things:
  - `bookApartment`: the spec function `Book` and the `Store` class, whose
    `BookApartment` method is proved equal to `Book`.
  - The ownership rules of `createApartment` and `updateApartment`.
- `payment_form.dfy` (`PaymentForm`): the `PaymentForm` component's
  validator, payload and submission state.
- `property_card.dfy` (`PropertyCard`): the property card's carousel,
  image list and deposit dialog.

The payment service (`createMyPayment`, `getPyamentData`) is not part of
this model, and neither is the database driver. What they return is a
parameter: a function, a `Call` that returns or throws, or an
`Option<Step>` or `set<Query>` naming the one database operation that
throws. The database clock and the server clock are parameters too.

Two behaviours of the code worth noting:

- If `getPyamentData` throws, `generateInvoice` rethrows, so the call
  answers 500 (`paymentController.js:282-285`). It does not fall back to
  approximate figures.
- `bookApartment` checks availability with a plain `SELECT` and takes no
  row lock. So no claim is made about two bookings that interleave. The
  model proves the sequential property instead: once a unit is booked,
  a later booking of it is refused.

## Model

| member | source | states |
|---|---|---|
| JsValues.NatToStringRoundTrip | server/src/controllers/apartmentController.js:413-415 | the decimal seconds in an invoice number read back as the number they came from |
| JsValues.CodeUnits | client/src/components/PropertyComponents/PaymentForm.jsx:99-113 | `s.length` counts UTF-16 code units: between the number of characters and twice it, and exactly that number when no character lies outside the Basic Multilingual Plane |
| JsValues.NumberTextStartsWithDigitOrSign | server/src/controllers/apartmentController.js:349 | `String(n)` of a number never starts with a prefix that begins with something other than a digit or '-' |
| JsValues.TrimEmptyIff | client/src/components/PropertyComponents/PaymentForm.jsx:93 | `s.trim()` is empty exactly when every character of `s` is white space |
| JsValues.JsonKeepsTruthiness | client/src/components/PropertyComponents/PaymentForm.jsx:181 | a field is truthy after JSON transport exactly when it was truthy before |
| PaymentModel.New | server/src/models/paymentModel.js:2-12 | every field is copied; a falsy `payment_date` becomes the current date, so the date is always truthy |
| PaymentModel.Validate | server/src/models/paymentModel.js:15-60 | the first failing check's message: required fields, then method in {credit_card, upi}, then that method's details; valid exactly when all hold |
| PaymentModel.CardAliasRejected | server/src/models/paymentModel.js:31-37 | the model rejects the method "card" |
| PaymentModel.UpiNeedsNoAtSign | server/src/models/paymentModel.js:49-56 | any truthy UPI id passes the model, whether or not it contains "@" |
| PaymentController.CheckMethodAndDetails | server/src/controllers/paymentController.js:49-77 | a method outside {credit_card, card, upi}, incomplete card details or a missing UPI id each give their own message; valid exactly when the chosen method's fields are present |
| PaymentController.ValidateRequest | server/src/controllers/paymentController.js:25-77 | a missing required field gives "All payment fields are required" before the method checks run |
| PaymentController.StandardMethod | server/src/controllers/paymentController.js:80-81 | "card" becomes "credit_card" and nothing else changes; the result is "credit_card" exactly for the two card spellings |
| PaymentController.Sanitize | server/src/controllers/paymentController.js:84-90 | the five known keys: truthy values kept, falsy ones null; card completeness and UPI presence unchanged |
| PaymentController.BuildRecord | server/src/controllers/paymentController.js:92-102 | the record has the normalised method, the sanitised details, null defaults for a falsy total price and invoice number, and the current date |
| PaymentController.CreatePayment | server/src/controllers/paymentController.js:10-116 | nothing is submitted exactly when validation fails (400 with its message); otherwise the built record is submitted and the status is 200/400 from the service's `success`, or 500 if the service throws |
| PaymentController.BuiltRecordPassesModel | server/src/controllers/paymentController.js:92-104 | every record built from a request the controller accepts passes the model's `validate()` |
| PaymentController.ControllerAcceptsIff | server/src/controllers/paymentController.js:49-77 | the controller accepts exactly what the model accepts, plus "card" with complete card details |
| PaymentController.CheckPayment | server/src/controllers/paymentController.js:118-138 | 400 exactly when a parameter is missing; then 200 with the data, 404 when the service finds nothing, 500 when it throws |
| InvoiceComposer.PropertyRows | server/src/controllers/paymentController.js:198-207 | only property payments with the requested id; empty exactly when no row has that id |
| InvoiceComposer.BookingJoins | server/src/controllers/paymentController.js:225-230 | each joined row carries a booking of that payment and the details of the booked unit; every booking that completes the join has a row; empty exactly when none does |
| InvoiceComposer.ApartmentRows | server/src/controllers/paymentController.js:211-232 | only apartment payments with the requested id, each joined to a booking of it and that booking's unit |
| InvoiceComposer.ApartmentRowsComplete | server/src/controllers/paymentController.js:211-232 | every apartment payment with the id, a known user and a joinable booking has a row, so the lookup is empty exactly when no payment matches |
| InvoiceComposer.RoundPercent | server/src/controllers/paymentController.js:278 | `Math.round(a / p * 100)`: the integer nearest `100a/p`, halves rounded up |
| InvoiceComposer.PercentageWithinRange | server/src/controllers/paymentController.js:276-279 | for a payment no larger than the price the percentage lies in [0, 100]; full payment gives 100 and none gives 0 |
| InvoiceComposer.OverpaymentAbove100 | server/src/controllers/paymentController.js:276-279 | the percentage is not clamped: at least 100.5% paid shows above 100 |
| InvoiceComposer.SummaryOrFallback | server/src/controllers/paymentController.js:268-280 | the summary's figures when the service returned one, the fallback figures otherwise |
| InvoiceComposer.PropertyFallback | server/src/controllers/paymentController.js:271-280 | the fallback figures: price, deposit and paid amount (0 when null), pending = price - paid, percentage rounded or 0 for a non-positive price |
| InvoiceComposer.ApartmentFigures | server/src/controllers/paymentController.js:288-302 | apartment invoices show pending 0 and 100 percent, with the paid amount as deposit and total |
| InvoiceComposer.GenerateInvoice | server/src/controllers/paymentController.js:184-318 | 400 without an id; the property table is queried first and the apartment join only when it has no row; 404 exactly when neither has one; property figures come from the summary or the fallback; apartment figures are exactly `ApartmentFigures` of the payment (fully paid, the full price from the total or else the paid amount) and carry the booked unit's details |
| InvoiceComposer.NotFoundIff | server/src/controllers/paymentController.js:242-247 | with no query failing, "Payment not found" exactly when no property payment has the id and no apartment payment with the id has a known user and a joinable booking |
| InvoiceComposer.FoundAnswers200 | server/src/controllers/paymentController.js:184-318 | with no failing query, 200 exactly when a property payment has the id and its summary lookup returns, or no property payment has it and the apartment lookup finds one; an apartment invoice then shows pending 0, 100 percent and the paid amount as deposit |
| InvoiceComposer.SummaryThrowAnswers500 | server/src/controllers/paymentController.js:257-316 | a summary lookup that throws for a found property payment is rethrown: the answer is 500 "Server error while generating invoice" and the apartment join is never queried |
| InvoiceComposer.PropertyTableWins | server/src/controllers/paymentController.js:209-233 | an id present among property payments never reaches the apartment join and yields a property invoice |
| PaymentHistory.PropertyHistory | server/src/controllers/paymentController.js:350-357 | every entry is a property payment of the user, and every property payment of the user has an entry |
| PaymentHistory.BookingEntries | server/src/controllers/paymentController.js:366-371 | every entry is an apartment entry of the given payment with its booking id; every booking that completes the join has an entry; empty exactly when none does |
| PaymentHistory.ApartmentHistory | server/src/controllers/paymentController.js:360-374 | every entry is an apartment payment of the user, and every apartment payment of the user with a joinable booking has an entry |
| PaymentHistory.InsertStep | server/src/controllers/paymentController.js:380-382 | one insertion step extends the sorted prefix, permutes the array and leaves the rest alone |
| PaymentHistory.SortByDateDesc | server/src/controllers/paymentController.js:380-382 | the array ends sorted most recent first and is a permutation of what it held |
| PaymentHistory.GetAllUserPayments | server/src/controllers/paymentController.js:335-400 | 400 without a user, 500 when a query throws, otherwise 200 with exactly the entries of both families, most recent first |
| ApartmentController.ValidateBooking | server/src/controllers/apartmentController.js:264-316 | a missing required field gives "All booking fields are required", otherwise the shared method and detail checks decide |
| ApartmentController.IsFallback | server/src/controllers/apartmentController.js:349 | defines a demo unit: the text of the unit id starts with "fallback-" |
| ApartmentController.UnitAvailable | server/src/controllers/apartmentController.js:378-381 | defines what the availability query finds: the unit exists with status "available" |
| ApartmentController.InvoiceNumber | server/src/controllers/apartmentController.js:413-415 | defines the invoice number "APT-", the property id, "-", and the server clock in whole seconds |
| ApartmentController.InvoiceNumberEncodesSeconds | server/src/controllers/apartmentController.js:413-415 | the invoice number is the "APT-<property>-" head followed by decimal digits that read back as the seconds; two numbers for one property are equal exactly when the seconds are |
| ApartmentController.NewPayment | server/src/controllers/apartmentController.js:324-345 | the payment row has the new id, status "completed", no invoice number and the database time; for a valid request its method is "credit_card" or "upi", the request's own method unless it was "card" |
| ApartmentController.NewBooking | server/src/controllers/apartmentController.js:351-403 | the booking row has the new id, refers to the payment, is "confirmed" at the database time; it carries the demo note exactly for a demo unit, whose stored id is the request's without "fallback-"; a real unit keeps its id |
| ApartmentController.Stamp | server/src/controllers/apartmentController.js:418-421 | only the payment with the given id gets the invoice number; ids and every other row unchanged |
| ApartmentController.MarkBooked | server/src/controllers/apartmentController.js:406-409 | the unit becomes "booked" and every other unit is unchanged |
| ApartmentController.Aborted | server/src/controllers/apartmentController.js:433-441 | a failed transaction answers 500 with the tables as before it began |
| ApartmentController.Finish | server/src/controllers/apartmentController.js:412-431 | stamping and commit: 200 exactly when committed, otherwise rolled back to the before-image |
| ApartmentController.DemoUnitPath | server/src/controllers/apartmentController.js:351-375 | the demo path never answers 400; a failure leaves the tables as before |
| ApartmentController.RealUnitPath | server/src/controllers/apartmentController.js:376-410 | the real-unit path leaves the tables as before unless it commits |
| ApartmentController.Book | server/src/controllers/apartmentController.js:247-451 | invalid requests answer 400 before a connection is taken; the tables change only on 200; 200 exactly when committed; counters never decrease |
| ApartmentController.FaultAborts | server/src/controllers/apartmentController.js:318-451 | for a valid request, an error taking the connection answers 500 "Server error while processing apartment booking" without one; an error on any statement the request reaches, or on commit, rolls back and answers 500 "Failed to process booking"; either way the tables are unchanged |
| ApartmentController.FaultFreeCommits | server/src/controllers/apartmentController.js:318-431 | with no error, a valid request for a demo unit or an available real unit commits and answers 200 |
| ApartmentController.UnreachedFaultIgnored | server/src/controllers/apartmentController.js:349-410 | an error on a statement the request never reaches (the unit query for a demo unit, the booking writes for an unavailable unit) does not change the outcome |
| ApartmentController.ConnectionReleasedOnce | server/src/controllers/apartmentController.js:318-443 | a taken connection is acquired once, released once as the last step, and ended by exactly one of commit and rollback; commit happens exactly on 200 |
| ApartmentController.UnavailableUnitRefused | server/src/controllers/apartmentController.js:378-389 | a real unit that is not available gives 400 "Unit is not available for booking", a rollback and unchanged tables, but the payment id drawn stays used |
| ApartmentController.CommittedBooking | server/src/controllers/apartmentController.js:321-431 | a committed booking appends one payment and one booking under the next ids, stamps the invoice number "APT-<property>-<seconds>", and marks a real unit booked |
| ApartmentController.CommitKeepsConsistent | server/src/controllers/apartmentController.js:325-421 | appending a payment and a booking of it under the next ids and stamping keeps ids distinct and bookings pointing at payments |
| ApartmentController.BookKeepsConsistent | server/src/controllers/apartmentController.js:318-443 | every booking, whatever fails in it, keeps the tables consistent |
| ApartmentController.CommittedBookingIsLinked | server/src/controllers/apartmentController.js:325-405 | the new payment is "completed" with the normalised method and the total price, or the amount when the total is falsy; the new booking is "confirmed", carries the amount and refers to the new payment; earlier payments unchanged |
| ApartmentController.DemoBookingLeavesUnits | server/src/controllers/apartmentController.js:349-374 | a "fallback-" unit is booked without querying or changing units; the booking stores the id without the prefix and the demo note |
| ApartmentController.NumericUnitIsReal | server/src/controllers/apartmentController.js:349 | a numeric unit id is never taken for a demo unit |
| ApartmentController.SecondBookingOfUnitRefused | server/src/controllers/apartmentController.js:378-409 | after a real unit is booked, a later valid booking of it is refused with 400 and changes no row |
| ApartmentController.Store.constructor | server/src/controllers/apartmentController.js:318 | a store holding the given tables and counters, no transaction open and an empty log |
| ApartmentController.Store.AcquireConnection | server/src/controllers/apartmentController.js:318 | logs taking the connection and changes no table |
| ApartmentController.Store.ReleaseConnection | server/src/controllers/apartmentController.js:441-443 | logs releasing the connection and changes no table |
| ApartmentController.Store.BeginTransaction | server/src/controllers/apartmentController.js:321 | records the tables as the before-image of the new transaction and logs the start |
| ApartmentController.Store.CommitTransaction | server/src/controllers/apartmentController.js:423 | keeps the tables, drops the before-image and logs the commit |
| ApartmentController.Store.RollbackTransaction | server/src/controllers/apartmentController.js:384 | restores the tables to the before-image of the open transaction and keeps the counters |
| ApartmentController.Store.InsertPaymentRow | server/src/controllers/apartmentController.js:324-347 | appends the row under the next payment id and returns that id |
| ApartmentController.Store.InsertBookingRow | server/src/controllers/apartmentController.js:392-403 | appends the row under the next booking id and returns that id |
| ApartmentController.Store.SelectAvailableUnit | server/src/controllers/apartmentController.js:378-381 | found exactly when the unit exists with status "available" |
| ApartmentController.Store.UpdateUnitStatus | server/src/controllers/apartmentController.js:406-409 | the unit table becomes `MarkBooked` of what it was |
| ApartmentController.Store.StampInvoiceNumber | server/src/controllers/apartmentController.js:418-421 | the payments become `Stamp` of what they were |
| ApartmentController.Store.FailTransaction | server/src/controllers/apartmentController.js:433-443 | rolls back, releases and answers 500 as `Aborted` describes |
| ApartmentController.Store.FinishBooking | server/src/controllers/apartmentController.js:412-431 | stamps and commits as `Finish` describes |
| ApartmentController.Store.BookDemoUnit | server/src/controllers/apartmentController.js:351-375 | runs the demo path as `DemoUnitPath` describes |
| ApartmentController.Store.BookRealUnit | server/src/controllers/apartmentController.js:376-410 | runs the real-unit path as `RealUnitPath` describes |
| ApartmentController.Store.BookApartment | server/src/controllers/apartmentController.js:247-451 | response, tables, counters and connection log are exactly those of `Book` on the state before the call |
| ApartmentController.CreationOwner | server/src/controllers/apartmentController.js:98-108 | the owner is the user, typed "seller" exactly for a seller and "admin" otherwise; no user gives a null owner typed "admin" |
| ApartmentController.CreationData | server/src/controllers/apartmentController.js:98-108 | the stored data is the body with its owner fields overwritten by the requesting user |
| ApartmentController.PlanUpdate | server/src/controllers/apartmentController.js:142-168 | 404 exactly for an unknown apartment; 403 exactly for an authenticated non-admin who is not the owner; otherwise the body is written with the stored owner |
| ApartmentController.CreatorKeepsControl | server/src/controllers/apartmentController.js:155-168 | the creator and admins may update an apartment, no other authenticated user may, and the owner stays the creator |
| PaymentForm.ValidateForm | client/src/components/PropertyComponents/PaymentForm.jsx:85-129 | the amount check first, then for credit_card the holder, number (16+ UTF-16 code units), expiry (with "/") and CVV (3+ code units) in order, for upi an id with "@"; valid exactly when all the chosen method's checks hold |
| PaymentForm.DetailsToSend | client/src/components/PropertyComponents/PaymentForm.jsx:145-160 | all five keys, non-null exactly for the chosen method's fields |
| PaymentForm.ValidFormAcceptedByServer | client/src/components/PropertyComponents/PaymentForm.jsx:131-181 | a valid form for either radio with a parsed amount posts a body that `createPayment` accepts, and that `bookApartment` accepts when a unit is given |
| PaymentForm.NaNAmountPassesFormOnly | client/src/components/PropertyComponents/PaymentForm.jsx:86 | a non-numeric amount passes the form's amount check but is refused by `createPayment` as a missing field |
| PaymentForm.BuildPayload | client/src/components/PropertyComponents/PaymentForm.jsx:162-173 | defines the posted body: the props' ids and price, the parsed amount, the method, the details to send and status "completed" |
| PaymentForm.Endpoint | client/src/components/PropertyComponents/PaymentForm.jsx:177-179 | defines the target: the bookings URL for an apartment, the payment URL otherwise |
| PaymentForm.PayloadShape | client/src/components/PropertyComponents/PaymentForm.jsx:162-179 | status is always "completed" and the bookings endpoint is used exactly for an apartment |
| PaymentForm.PaymentFormState.constructor | client/src/components/PropertyComponents/PaymentForm.jsx:20-35 | the initial empty credit_card form, no error, not loading |
| PaymentForm.PaymentFormState.ApplyPropertyPrice | client/src/components/PropertyComponents/PaymentForm.jsx:38-45 | a truthy price becomes the amount text, otherwise nothing changes |
| PaymentForm.PaymentFormState.ChangeAmount | client/src/components/PropertyComponents/PaymentForm.jsx:68-71 | only the amount changes |
| PaymentForm.PaymentFormState.ChangeMethod | client/src/components/PropertyComponents/PaymentForm.jsx:68-71 | only the method changes |
| PaymentForm.PaymentFormState.ChangeDetail | client/src/components/PropertyComponents/PaymentForm.jsx:73-82 | only the named detail changes |
| PaymentForm.PaymentFormState.BuildDetails | client/src/components/PropertyComponents/PaymentForm.jsx:145-160 | the field-by-field construction yields `DetailsToSend` |
| PaymentForm.PaymentFormState.HandleSubmit | client/src/components/PropertyComponents/PaymentForm.jsx:131-230 | an invalid form only sets the error; a valid one posts the payload to the endpoint, a successful reply resets the form to the initial one, any other reply sets the server's message or the default; loading ends false |
| PropertyCard.ValidateCard | client/src/dashboard/components/PropertyPropertyCard.jsx:157-165 | card needs number, expiry and CVV (holder optional); upi needs an id with "@"; any other method passes |
| PropertyCard.CardDetails | client/src/dashboard/components/PropertyPropertyCard.jsx:169-184 | five keys, null except the chosen method's; a missing holder becomes "Card Holder" |
| PropertyCard.Deposit | client/src/dashboard/components/PropertyPropertyCard.jsx:40 | the deposit is a tenth of the price rounded to the nearest integer |
| PropertyCard.BuildCardPayload | client/src/dashboard/components/PropertyPropertyCard.jsx:186-193 | defines the posted body: the ids, the deposit as the amount, the raw method, the card details and status "paid" |
| PropertyCard.ValidCardFormAccepted | client/src/dashboard/components/PropertyPropertyCard.jsx:186-200 | a valid dialog with a known user and property and a price of at least 5 posts a body `createPayment` accepts, whose record the payment model also accepts |
| PropertyCard.SmallPriceRefused | client/src/dashboard/components/PropertyPropertyCard.jsx:40 | a price below 5 gives a zero deposit, which `createPayment` refuses |
| PropertyCard.GetImageUrl | client/src/dashboard/components/PropertyPropertyCard.jsx:91-101 | null for a missing path, a URL starting "http" unchanged, anything else under the server base |
| PropertyCard.GetImageUrlIdempotent | client/src/dashboard/components/PropertyPropertyCard.jsx:95-100 | resolving a resolved URL changes nothing, which is why the shown image is always a full URL |
| PropertyCard.GetAllImages | client/src/dashboard/components/PropertyPropertyCard.jsx:104-121 | at most five; the fetched images' prefix when there are any, else the primary image, empty exactly when neither exists |
| PropertyCard.NextIndex | client/src/dashboard/components/PropertyPropertyCard.jsx:123-130 | no change without images; otherwise stays in range and is `(i + 1) mod n` |
| PropertyCard.PrevIndex | client/src/dashboard/components/PropertyPropertyCard.jsx:132-139 | no change without images; otherwise stays in range and is `(i - 1) mod n` |
| PropertyCard.NextPrevInverse | client/src/dashboard/components/PropertyPropertyCard.jsx:123-139 | next and previous undo each other |
| PropertyCard.AdvanceWraps | client/src/dashboard/components/PropertyPropertyCard.jsx:123-130 | k presses of next move k places, wrapping past the last image |
| PropertyCard.FullCycle | client/src/dashboard/components/PropertyPropertyCard.jsx:123-130 | n presses of next return to the image shown |
| PropertyCard.CardState.constructor | client/src/dashboard/components/PropertyPropertyCard.jsx:28-35 | the initial state: dialog closed, method "card", empty form, index 0 |
| PropertyCard.CardState.CurrentImage | client/src/dashboard/components/PropertyPropertyCard.jsx:142-149 | no image without images; for an index in range the URL of that image: its path itself or the path under the server base; whatever is shown is a full "http" URL |
| PropertyCard.CardState.ImagesFetched | client/src/dashboard/components/PropertyPropertyCard.jsx:65-78 | the list is replaced only by a successful array reply |
| PropertyCard.CardState.NextImage | client/src/dashboard/components/PropertyPropertyCard.jsx:123-130 | the index becomes `NextIndex` of the old one and stays in range |
| PropertyCard.CardState.PrevImage | client/src/dashboard/components/PropertyPropertyCard.jsx:132-139 | the index becomes `PrevIndex` of the old one and stays in range |
| PropertyCard.CardState.OpenPayment | client/src/dashboard/components/PropertyPropertyCard.jsx:82-88 | the dialog opens on method "card" with an empty form and no messages |
| PropertyCard.CardState.ChooseMethod | client/src/dashboard/components/PropertyPropertyCard.jsx:326-333 | the method changes and the form and messages clear |
| PropertyCard.CardState.BuildDetails | client/src/dashboard/components/PropertyPropertyCard.jsx:169-184 | the field-by-field construction yields `CardDetails` |
| PropertyCard.CardState.HandleSubmit | client/src/dashboard/components/PropertyPropertyCard.jsx:151-215 | an invalid dialog only sets the error; a valid one posts the deposit with the raw method and status "paid"; success marks the property paid and closes the dialog, a refusal shows the server's message or "Payment failed", a network error its own message |

## Left out

- Concurrency: every call runs alone. `bookApartment` takes no lock on the
  unit row, so two interleaved bookings of one unit are not modelled.
  `ApartmentController.SecondBookingOfUnitRefused` covers only a booking
  that starts after the first one committed.
- PaymentHistory.SortByDateDesc: does not prove that entries with equal
  dates keep their order. `Array.prototype.sort` is stable; the insertion
  sort also never swaps equal dates, but the contract states only "sorted
  and a permutation".
- PaymentHistory.GetAllUserPayments: for the same reason, the relative
  order of entries with equal dates is not stated.
- Floating point: amounts are integers.
  - `parseFloat` is a parameter.
  - `Math.round(a / p * 100)` and `Math.round(price * 0.1)` are computed
    exactly, without binary rounding error.
- Tables.Column: a request field that is not a number is stored as NULL.
  MySQL's own coercion of strings to numbers is not modelled.
- Ids are compared as their decimal text. MySQL's numeric comparison of
  strings such as "007" is not modelled.
- Dates are integer timestamps; `new Date(...)` parsing and date text are
  abstracted.
- `payment_details` is modelled as its five known keys. Extra keys and a
  truthy non-object value are not modelled.
- Faults: at most one database operation throws per booking. A failing
  rollback or release is not modelled. An insert that throws is assumed
  not to consume an AUTO_INCREMENT id.
- `createApartment` and `updateApartment` are modelled only for their
  ownership rules. Not modelled:
  - the multi-unit `floorProperties` parsing;
  - the `Apartment` model calls;
  - the image uploads;
  - the 201/200/500 responses.
- Not modelled because they pass queries through or do file I/O:
  `getUserPaymentHistory`, `getAllPaymentsController`,
  `getUserBookedApartments`, `getAllApartments`, `getApartmentById`,
  `deleteApartment`, and multer/fs upload handling and image deletion.
- The payment service functions (`createMyPayment`, `getPyamentData`)
  are not visible, so their results are parameters. The 10% deposit
  summary they compute is not modelled.
- `server/src/routes/paymentRoutes.js` is route wiring only.
  `ApartmentPropertyCard.jsx` is presentation only.
- Client side, not modelled: network calls, the payment-summary fetch and
  its refresh after success, the `onSuccess` callback, the redirect timer,
  `localStorage`, the mount-time paid check, currency formatting, JSX,
  the dialog's close button and the card dialog's per-input `setForm`
  handlers.
- PaymentForm.PaymentFormState.HandleSubmit: `loading` is stated only at
  the end of the call, when it is false again. Its `true` value during the
  post is not observable in this model.
- PropertyCard.CardState.CurrentImage: gives no image for an index
  outside the list. In the same situation the component would throw.
