/**
 * The reservation and payment bookkeeping of the resort's API server
 * (backend/server.py), stated on values.
 *
 * The three document collections (villas, bookings, payment transactions)
 * form one `Db` value. Every request handler that writes to them is a
 * step function from the old `Db` to the new one and the HTTP reply; the
 * class `ReservationStore.Store` runs the same steps in place.
 *
 * Dates are day numbers: the server compares ISO date strings as text in
 * its availability query and subtracts parsed dates for the price. For
 * midnights at one fixed UTC offset, written in one ISO format, the two
 * agree with integer order and subtraction. Prices are whole dollars.
 *
 * As a modelling assumption, a document lookup (`find_one`) and a
 * single-document update (`update_one`) act on the FIRST document, in
 * insertion order, that matches the filter: `FirstWhere` below. The store
 * promises no order without a sort; the choice matters only when two
 * documents share an id, which the model does not exclude.
 */
module Reservations {
  import opened Wrappers

  /** A calendar date, as a day number. */
  type Day = int

  datatype Villa = Villa(
    id: string,
    name: string,
    description: string,
    maxGuests: int,
    pricePerNight: int,
    amenities: seq<string>,
    imageUrl: string)

  /** The three values the server's booking documents use for `status`. */
  datatype BookingStatus = Pending | Confirmed | Cancelled

  /** The body of a booking request. */
  datatype BookingRequest = BookingRequest(
    villaId: string,
    guestName: string,
    email: string,
    phone: string,
    checkIn: Day,
    checkOut: Day,
    guests: int)

  datatype Booking = Booking(
    id: string,
    villaId: string,
    villaName: string,
    guestName: string,
    email: string,
    phone: string,
    checkIn: Day,
    checkOut: Day,
    guests: int,
    totalPrice: int,
    status: BookingStatus,
    paymentSessionId: Option<string>)

  /**
   * A payment transaction. `status` and `paymentStatus` are free text:
   * besides the server's own "initiated", "pending" and "completed" they
   * receive whatever the payment gateway reports.
   */
  datatype Transaction = Transaction(
    id: string,
    sessionId: string,
    bookingId: string,
    amount: int,
    currency: string,
    status: string,
    paymentStatus: string,
    metadata: map<string, string>)

  datatype Db = Db(villas: seq<Villa>, bookings: seq<Booking>, transactions: seq<Transaction>)

  const EmptyDb: Db := Db([], [], [])

  datatype HttpError = HttpError(code: int, detail: string)

  const NotAvailable := HttpError(400, "Villa not available for selected dates")
  const VillaNotFound := HttpError(404, "Villa not found")
  const BookingNotFound := HttpError(404, "Booking not found")
  const AlreadyConfirmed := HttpError(400, "Booking already confirmed")
  const TransactionNotFound := HttpError(404, "Transaction not found")

  /** The answer to a request whose call into the payment gateway raised. */
  const GatewayFailed := HttpError(500, "Internal Server Error")

  /**
   * What the payment gateway answers when a checkout session is created.
   * Where a handler calls the gateway, the answer is an `Option`: `None`
   * is a call that raised (the gateway refused the session, or the
   * network failed), which the server answers with 500 before writing.
   */
  datatype CheckoutSession = CheckoutSession(sessionId: string, url: string)

  /** What the payment gateway reports when asked about a session. */
  datatype GatewayStatus = GatewayStatus(status: string, paymentStatus: string)

  /** The part of a verified gateway webhook event the server reads. */
  datatype WebhookEvent = WebhookEvent(sessionId: string, paymentStatus: string)

  /** What the server sends to the payment gateway to open a checkout session. */
  datatype SessionRequest = SessionRequest(
    webhookUrl: string,
    amount: int,
    currency: string,
    successUrl: string,
    cancelUrl: string,
    metadata: map<string, string>)

  datatype AvailabilityReply = AvailabilityReply(available: bool, villaId: string)

  /** A checkout reply (`url`, `session_id`) and the gateway request behind it. */
  datatype CheckoutOutcome = CheckoutOutcome(url: string, sessionId: string, sent: SessionRequest)

  datatype StatusReply = StatusReply(status: string, paymentStatus: string, bookingId: string)

  /** Queries read at most this many documents (`to_list(100)`). */
  const QueryLimit := 100

  // ---------------------------------------------------------------------
  // Document lookup
  // ---------------------------------------------------------------------

  /** The position of the first element satisfying `p`, as `find_one` picks it. */
  function FirstWhere<T>(s: seq<T>, p: T -> bool): (r: Option<nat>)
    ensures r.Some? ==> r.value < |s| && p(s[r.value])
    ensures r.Some? ==> forall j :: 0 <= j < r.value ==> !p(s[j])
    ensures r.None? <==> forall j :: 0 <= j < |s| ==> !p(s[j])
  {
    if s == [] then None
    else if p(s[0]) then Some(0)
    else match FirstWhere(s[1..], p)
      case None => None
      case Some(k) => Some(k + 1)
  }

  /** The lookup depends only on which elements pass the test. */
  lemma {:induction false} FirstWhereSameVerdicts<T>(s: seq<T>, s': seq<T>, p: T -> bool)
    requires |s| == |s'|
    requires forall j :: 0 <= j < |s| ==> p(s[j]) == p(s'[j])
    ensures FirstWhere(s, p) == FirstWhere(s', p)
  {
    if s != [] {
      FirstWhereSameVerdicts(s[1..], s'[1..], p);
    }
  }

  function HasVillaId(id: string): Villa -> bool { (v: Villa) => v.id == id }
  function HasBookingId(id: string): Booking -> bool { (b: Booking) => b.id == id }
  function HasSessionId(id: string): Transaction -> bool { (t: Transaction) => t.sessionId == id }

  function VillaIndex(villas: seq<Villa>, id: string): Option<nat> { FirstWhere(villas, HasVillaId(id)) }
  function BookingIndex(bookings: seq<Booking>, id: string): Option<nat> { FirstWhere(bookings, HasBookingId(id)) }
  function TransactionIndex(txs: seq<Transaction>, sessionId: string): Option<nat> { FirstWhere(txs, HasSessionId(sessionId)) }

  // ---------------------------------------------------------------------
  // Availability (server.py:127-140)
  // ---------------------------------------------------------------------

  predicate IsActive(b: Booking)
  {
    b.status == Pending || b.status == Confirmed
  }

  /** The filter of the availability query. */
  predicate Clashes(b: Booking, villaId: string, checkIn: Day, checkOut: Day)
  {
    b.villaId == villaId && IsActive(b) && b.checkIn < checkOut && b.checkOut > checkIn
  }

  /** The documents the availability query finds, in collection order. */
  function Matching(bookings: seq<Booking>, villaId: string, checkIn: Day, checkOut: Day): (r: seq<Booking>)
    ensures |r| <= |bookings|
    ensures forall k :: 0 <= k < |r| ==> r[k] in bookings && Clashes(r[k], villaId, checkIn, checkOut)
    ensures forall i :: 0 <= i < |bookings| && Clashes(bookings[i], villaId, checkIn, checkOut) ==> bookings[i] in r
  {
    if bookings == [] then []
    else
      var rest := Matching(bookings[1..], villaId, checkIn, checkOut);
      if Clashes(bookings[0], villaId, checkIn, checkOut) then [bookings[0]] + rest else rest
  }

  /** Free exactly when no pending or confirmed booking of the villa overlaps the range. */
  function Available(bookings: seq<Booking>, villaId: string, checkIn: Day, checkOut: Day): (r: bool)
    ensures r <==> forall i :: 0 <= i < |bookings| ==> !Clashes(bookings[i], villaId, checkIn, checkOut)
  {
    var found := Matching(bookings, villaId, checkIn, checkOut);
    var page := found[..Min(|found|, QueryLimit)];
    assert |page| == 0 <==> |found| == 0;
    assert |found| > 0 ==> found[0] in bookings && Clashes(found[0], villaId, checkIn, checkOut);
    |page| == 0
  }

  // ---------------------------------------------------------------------
  // Booking creation (server.py:142-178)
  // ---------------------------------------------------------------------

  /** Nights between two dates, as the server counts them; negative for a reversed range. */
  function StayNights(checkIn: Day, checkOut: Day): (n: int)
    ensures checkIn + n == checkOut
  {
    checkOut - checkIn
  }

  function CreateBooking(db: Db, req: BookingRequest, newId: string): (out: (Db, Result<Booking, HttpError>))
    ensures !Available(db.bookings, req.villaId, req.checkIn, req.checkOut) ==>
      out == (db, Failure(NotAvailable))
    ensures (Available(db.bookings, req.villaId, req.checkIn, req.checkOut)
             && forall v :: v in db.villas ==> v.id != req.villaId) ==>
      out == (db, Failure(VillaNotFound))
    ensures (Available(db.bookings, req.villaId, req.checkIn, req.checkOut)
             && VillaIndex(db.villas, req.villaId).Some?) ==> out.1.Success?
    ensures out.1.Success? ==>
      && VillaIndex(db.villas, req.villaId).Some?
      && var v := db.villas[VillaIndex(db.villas, req.villaId).value];
      && out.1.value.villaName == v.name
      && out.1.value.totalPrice == StayNights(req.checkIn, req.checkOut) * v.pricePerNight
    ensures out.1.Success? ==>
      && out.0 == db.(bookings := db.bookings + [out.1.value])
      && out.1.value.id == newId
      && out.1.value.status == Pending
      && out.1.value.paymentSessionId == None
      && out.1.value.villaId == req.villaId
      && out.1.value.guestName == req.guestName
      && out.1.value.email == req.email
      && out.1.value.phone == req.phone
      && out.1.value.checkIn == req.checkIn
      && out.1.value.checkOut == req.checkOut
      && out.1.value.guests == req.guests
  {
    if !Available(db.bookings, req.villaId, req.checkIn, req.checkOut) then
      (db, Failure(NotAvailable))
    else
      match VillaIndex(db.villas, req.villaId)
      case None => (db, Failure(VillaNotFound))
      case Some(i) =>
        var villa := db.villas[i];
        var total := StayNights(req.checkIn, req.checkOut) * villa.pricePerNight;
        var b := Booking(newId, req.villaId, villa.name, req.guestName, req.email, req.phone,
                         req.checkIn, req.checkOut, req.guests, total, Pending, None);
        (db.(bookings := db.bookings + [b]), Success(b))
  }

  // ---------------------------------------------------------------------
  // Payment checkout (server.py:191-245)
  // ---------------------------------------------------------------------

  /** The session the server asks the gateway to open for a booking. */
  function SessionRequestFor(b: Booking, bookingId: string, originUrl: string): (r: SessionRequest)
    ensures r.amount == b.totalPrice && r.currency == "usd"
    ensures r.metadata.Keys == {"booking_id", "villa_name", "guest_email"}
    ensures r.metadata["booking_id"] == bookingId && r.metadata["villa_name"] == b.villaName
    ensures r.metadata["guest_email"] == b.email
    ensures r.successUrl == originUrl + "/booking-success?session_id={CHECKOUT_SESSION_ID}"
    ensures r.cancelUrl == originUrl + "/booking" && r.webhookUrl == originUrl + "/api/webhook/stripe"
  {
    SessionRequest(
      originUrl + "/api/webhook/stripe",
      b.totalPrice,
      "usd",
      originUrl + "/booking-success?session_id={CHECKOUT_SESSION_ID}",
      originUrl + "/booking",
      map["booking_id" := bookingId, "villa_name" := b.villaName, "guest_email" := b.email])
  }

  function CreatePaymentCheckout(db: Db, bookingId: string, originUrl: string, txId: string,
                                 session: Option<CheckoutSession>): (out: (Db, Result<CheckoutOutcome, HttpError>))
    ensures (forall b :: b in db.bookings ==> b.id != bookingId) ==> out == (db, Failure(BookingNotFound))
    ensures BookingIndex(db.bookings, bookingId).Some? ==>
      var i := BookingIndex(db.bookings, bookingId).value;
      if db.bookings[i].status == Confirmed then
        out == (db, Failure(AlreadyConfirmed))
      else if session.None? then
        out == (db, Failure(GatewayFailed))
      else
        && out.1 == Success(CheckoutOutcome(session.value.url, session.value.sessionId,
                                            SessionRequestFor(db.bookings[i], bookingId, originUrl)))
        && out.0.villas == db.villas
        && out.0.transactions == db.transactions + [Transaction(
             txId, session.value.sessionId, bookingId, db.bookings[i].totalPrice, "usd",
             "initiated", "pending", out.1.value.sent.metadata)]
        && out.0.bookings == db.bookings[i := db.bookings[i].(paymentSessionId := Some(session.value.sessionId))]
  {
    match BookingIndex(db.bookings, bookingId)
    case None => (db, Failure(BookingNotFound))
    case Some(i) =>
      var b := db.bookings[i];
      if b.status == Confirmed then (db, Failure(AlreadyConfirmed))
      else
        var sent := SessionRequestFor(b, bookingId, originUrl);
        match session
        case None => (db, Failure(GatewayFailed))
        case Some(created) =>
          var tx := Transaction(txId, created.sessionId, bookingId, b.totalPrice, "usd",
                                "initiated", "pending", sent.metadata);
          var bookings' := db.bookings[i := b.(paymentSessionId := Some(created.sessionId))];
          (Db(db.villas, bookings', db.transactions + [tx]),
           Success(CheckoutOutcome(created.url, created.sessionId, sent)))
  }

  // ---------------------------------------------------------------------
  // Payment confirmation (server.py:247-328)
  // ---------------------------------------------------------------------

  /** `update_one` on the first booking with this id, setting its status to confirmed. */
  function ConfirmBooking(bookings: seq<Booking>, id: string): (r: seq<Booking>)
    ensures |r| == |bookings|
    ensures forall k :: 0 <= k < |r| ==>
      r[k] == if BookingIndex(bookings, id) == Some(k) then bookings[k].(status := Confirmed) else bookings[k]
    ensures (forall k :: 0 <= k < |bookings| ==> bookings[k].id != id) ==> r == bookings
  {
    match BookingIndex(bookings, id)
    case None => bookings
    case Some(i) => bookings[i := bookings[i].(status := Confirmed)]
  }

  predicate IsSettled(t: Transaction)
  {
    t.status == "completed" && t.paymentStatus == "paid"
  }

  function GetPaymentStatus(db: Db, sessionId: string, gateway: Option<GatewayStatus>): (out: (Db, Result<StatusReply, HttpError>))
    ensures (forall t :: t in db.transactions ==> t.sessionId != sessionId) ==>
      out == (db, Failure(TransactionNotFound))
    ensures TransactionIndex(db.transactions, sessionId).Some? ==>
      var k := TransactionIndex(db.transactions, sessionId).value;
      var tx := db.transactions[k];
      if IsSettled(tx) then
        out == (db, Success(StatusReply(tx.status, tx.paymentStatus, tx.bookingId)))
      else if gateway.None? then
        out == (db, Failure(GatewayFailed))
      else
        var g := gateway.value;
        && out.1 == Success(StatusReply(g.status, g.paymentStatus, tx.bookingId))
        && out.0.villas == db.villas
        && if g.paymentStatus == "paid" && tx.status != "completed" then
             && out.0.bookings == ConfirmBooking(db.bookings, tx.bookingId)
             && out.0.transactions == db.transactions[k := tx.(status := "completed", paymentStatus := g.paymentStatus)]
           else
             && out.0.bookings == db.bookings
             && out.0.transactions == db.transactions[k := tx.(status := g.status, paymentStatus := g.paymentStatus)]
  {
    match TransactionIndex(db.transactions, sessionId)
    case None => (db, Failure(TransactionNotFound))
    case Some(k) =>
      var tx := db.transactions[k];
      if IsSettled(tx) then
        (db, Success(StatusReply(tx.status, tx.paymentStatus, tx.bookingId)))
      else
        match gateway
        case None => (db, Failure(GatewayFailed))
        case Some(g) =>
          var txs := db.transactions[k := tx.(status := g.status, paymentStatus := g.paymentStatus)];
          var reply := Success(StatusReply(g.status, g.paymentStatus, tx.bookingId));
          if g.paymentStatus == "paid" && tx.status != "completed" then
            (Db(db.villas, ConfirmBooking(db.bookings, tx.bookingId), txs[k := txs[k].(status := "completed")]), reply)
          else
            (db.(transactions := txs), reply)
  }

  function StripeWebhook(db: Db, event: WebhookEvent): (db': Db)
    ensures event.paymentStatus != "paid" ==> db' == db
    ensures (forall t :: t in db.transactions ==> t.sessionId != event.sessionId) ==> db' == db
    ensures TransactionIndex(db.transactions, event.sessionId).Some? && event.paymentStatus == "paid" ==>
      var k := TransactionIndex(db.transactions, event.sessionId).value;
      var tx := db.transactions[k];
      if tx.status == "completed" then db' == db
      else
        && db'.villas == db.villas
        && db'.bookings == ConfirmBooking(db.bookings, tx.bookingId)
        && db'.transactions == db.transactions[k := tx.(status := "completed", paymentStatus := "paid")]
  {
    if event.paymentStatus != "paid" then db
    else
      match TransactionIndex(db.transactions, event.sessionId)
      case None => db
      case Some(k) =>
        var tx := db.transactions[k];
        if tx.status == "completed" then db
        else
          Db(db.villas, ConfirmBooking(db.bookings, tx.bookingId),
             db.transactions[k := tx.(status := "completed", paymentStatus := "paid")])
  }

  // ---------------------------------------------------------------------
  // Seeding the catalogue (server.py:417-514)
  // ---------------------------------------------------------------------

  const SeedVillas: seq<Villa> := [
    Villa("villa-1", "Apollo's Sanctuary",
      "Grand neoclassical estate with marble columns, classical statues, and private reflecting pool surrounded by manicured gardens.",
      2, 850, ["Private Pool", "Marble Bath", "Garden View", "Classical Statues"],
      "https://images.unsplash.com/photo-1689853912773-1cf88e58629d"),
    Villa("villa-2", "Diana's Haven",
      "Elegant villa with manicured lawns, neoclassical facade, and serene garden pathways leading to the wellness complex.",
      2, 850, ["Garden Pathway", "Private Terrace", "Spa Bath", "Lawn Views"],
      "https://images.unsplash.com/photo-1689853910685-117066769bff"),
    Villa("villa-3", "Athena's Retreat",
      "Classical villa featuring symmetrical architecture, long tree-lined driveway, and views of the orchard.",
      2, 850, ["Orchard View", "Classical Design", "Luxury Bath", "Tree-Lined Drive"],
      "https://images.unsplash.com/photo-1689853910671-7683814c3fb3"),
    Villa("villa-4", "Neptune's Oasis",
      "Waterside villa with classical statue focal point, direct access to the pond and wellness facility nearby.",
      2, 950, ["Pond Access", "Wellness Access", "Classical Art", "Water View"],
      "https://images.unsplash.com/photo-1689853915785-53c92d8444b6"),
    Villa("villa-5", "Venus Garden Villa",
      "Romantic hideaway with grand columns, surrounded by blooming gardens and fragrant herb gardens.",
      2, 850, ["Column Design", "Herb Garden", "Butterfly Garden", "Grand Entrance"],
      "https://images.pexels.com/photos/7174109/pexels-photo-7174109.jpeg"),
    Villa("villa-6", "Mercury's Flight",
      "Modern luxury villa with classical touches, clean lines, and panoramic garden views.",
      2, 850, ["Panoramic Views", "Modern Luxury", "Private Pool", "Contemporary Design"],
      "https://images.pexels.com/photos/20768156/pexels-photo-20768156.jpeg"),
    Villa("villa-7", "Jupiter's Estate",
      "Grand villa with expansive colonnades, multiple balconies, and direct pathway to the Roman bath complex.",
      4, 1200, ["Bath Access", "Colonnade", "4 Guests", "Multiple Balconies"],
      "https://images.unsplash.com/photo-1696574555247-a5bc88f681ed"),
    Villa("villa-8", "Mars' Hideaway",
      "Private villa with impressive residential architecture, classical columns, and secluded garden sanctuary.",
      2, 850, ["Classical Columns", "Garden Sanctuary", "Private Path", "Secluded"],
      "https://images.pexels.com/photos/53610/large-home-residential-house-architecture-53610.jpeg"),
    Villa("villa-9", "Minerva's Wisdom",
      "Thoughtfully designed villa with colonnade hallway, classical architectural elements, and tranquil reflecting pool.",
      2, 850, ["Colonnade Hall", "Reflecting Pool", "Classical Elements", "Quiet Zone"],
      "https://images.unsplash.com/photo-1714486729607-d8408bb25b42"),
    Villa("villa-10", "Bacchus' Vineyard Villa",
      "Luxury villa with elegant interiors, surrounded by orchard trees with wine-tasting terrace and garden access.",
      2, 950, ["Vineyard Views", "Wine Terrace", "Orchard Access", "Elegant Interior"],
      "https://images.pexels.com/photos/6957083/pexels-photo-6957083.jpeg")
  ]

  /** The seed catalogue: ten villas with distinct ids, positive prices and room for at least two. */
  lemma SeedCatalogue()
    ensures |SeedVillas| == 10
    ensures forall i, j :: 0 <= i < j < |SeedVillas| ==> SeedVillas[i].id != SeedVillas[j].id
    ensures forall i :: 0 <= i < |SeedVillas| ==> SeedVillas[i].pricePerNight > 0 && SeedVillas[i].maxGuests >= 2
  {
  }

  /** Seeds the catalogue only when it is empty. */
  function InitVillas(db: Db): (db': Db)
    ensures db'.bookings == db.bookings && db'.transactions == db.transactions
    ensures |db.villas| == 0 ==> |db'.villas| == 10 && db'.villas == SeedVillas
    ensures |db.villas| != 0 ==> db' == db
  {
    if |db.villas| == 0 then db.(villas := SeedVillas) else db
  }

  // ---------------------------------------------------------------------
  // The store's invariant and how bookings evolve
  // ---------------------------------------------------------------------

  /** Two active bookings of one villa whose ranges meet by the availability query's test. */
  predicate Conflict(a: Booking, b: Booking)
  {
    IsActive(a) && Clashes(b, a.villaId, a.checkIn, a.checkOut)
  }

  lemma ConflictSymmetric(a: Booking, b: Booking)
    ensures Conflict(a, b) <==> Conflict(b, a)
  {
  }

  /** No two distinct active bookings of a villa overlap. */
  predicate NoDoubleBooking(bs: seq<Booking>)
  {
    forall i, j :: 0 <= i < |bs| && 0 <= j < |bs| && i != j ==> !Conflict(bs[i], bs[j])
  }

  /** Nothing in the server ever cancels a booking. */
  predicate NoneCancelled(bs: seq<Booking>)
  {
    forall i :: 0 <= i < |bs| ==> bs[i].status != Cancelled
  }

  predicate ValidDb(db: Db)
  {
    NoDoubleBooking(db.bookings) && NoneCancelled(db.bookings)
  }

  /** `b` is `a` with at most its status and payment session changed. */
  predicate SameReservation(a: Booking, b: Booking)
  {
    b == a.(status := b.status, paymentSessionId := b.paymentSessionId)
  }

  /**
   * How the booking collection may evolve: existing bookings keep their
   * place and their reservation data, a status either stays or becomes
   * confirmed (so confirmed is never left and cancelled never entered),
   * and bookings added at the end are not cancelled.
   */
  predicate Evolves(before: seq<Booking>, after: seq<Booking>)
  {
    && |before| <= |after|
    && (forall i :: 0 <= i < |before| ==> SameReservation(before[i], after[i]))
    && (forall i :: 0 <= i < |before| ==>
          after[i].status == before[i].status || after[i].status == Confirmed)
    && (forall j :: |before| <= j < |after| ==> after[j].status != Cancelled)
  }

  lemma EvolvesTransitive(a: seq<Booking>, b: seq<Booking>, c: seq<Booking>)
    requires Evolves(a, b) && Evolves(b, c)
    ensures Evolves(a, c)
  {
    forall i | 0 <= i < |a|
      ensures SameReservation(a[i], c[i])
    {
      assert SameReservation(a[i], b[i]) && SameReservation(b[i], c[i]);
    }
  }

  lemma ConfirmBookingKeepsValid(bs: seq<Booking>, id: string)
    requires NoDoubleBooking(bs) && NoneCancelled(bs)
    ensures NoDoubleBooking(ConfirmBooking(bs, id)) && NoneCancelled(ConfirmBooking(bs, id))
    ensures Evolves(bs, ConfirmBooking(bs, id))
  {
    var r := ConfirmBooking(bs, id);
    forall i, j | 0 <= i < |r| && 0 <= j < |r| && i != j
      ensures !Conflict(r[i], r[j])
    {
      assert Conflict(r[i], r[j]) == Conflict(bs[i], bs[j]);
    }
  }

  lemma CreateBookingKeepsValid(db: Db, req: BookingRequest, newId: string)
    requires ValidDb(db)
    ensures ValidDb(CreateBooking(db, req, newId).0)
    ensures Evolves(db.bookings, CreateBooking(db, req, newId).0.bookings)
    ensures var bs := CreateBooking(db, req, newId).0.bookings;
      |db.bookings| <= |bs| <= |db.bookings| + 1 && bs[..|db.bookings|] == db.bookings
  {
    var out := CreateBooking(db, req, newId);
    if out.1.Success? {
      var bs := out.0.bookings;
      var n := |db.bookings|;
      var b := out.1.value;
      assert bs == db.bookings + [b];
      forall i, j | 0 <= i < |bs| && 0 <= j < |bs| && i != j
        ensures !Conflict(bs[i], bs[j])
      {
        if i == n {
          assert !Clashes(bs[j], req.villaId, req.checkIn, req.checkOut);
        } else if j == n {
          assert !Clashes(bs[i], req.villaId, req.checkIn, req.checkOut);
          ConflictSymmetric(bs[i], bs[j]);
        }
      }
    }
  }

  lemma CheckoutKeepsValid(db: Db, bookingId: string, originUrl: string, txId: string, session: Option<CheckoutSession>)
    requires ValidDb(db)
    ensures ValidDb(CreatePaymentCheckout(db, bookingId, originUrl, txId, session).0)
    ensures Evolves(db.bookings, CreatePaymentCheckout(db, bookingId, originUrl, txId, session).0.bookings)
    ensures var bs := CreatePaymentCheckout(db, bookingId, originUrl, txId, session).0.bookings;
      |bs| == |db.bookings| && forall i :: 0 <= i < |bs| ==> bs[i] == db.bookings[i].(paymentSessionId := bs[i].paymentSessionId)
  {
    var out := CreatePaymentCheckout(db, bookingId, originUrl, txId, session);
    var bs := out.0.bookings;
    forall i, j | 0 <= i < |bs| && 0 <= j < |bs| && i != j
      ensures !Conflict(bs[i], bs[j])
    {
      assert Conflict(bs[i], bs[j]) == Conflict(db.bookings[i], db.bookings[j]);
    }
  }

  lemma StatusKeepsValid(db: Db, sessionId: string, gateway: Option<GatewayStatus>)
    requires ValidDb(db)
    ensures ValidDb(GetPaymentStatus(db, sessionId, gateway).0)
    ensures Evolves(db.bookings, GetPaymentStatus(db, sessionId, gateway).0.bookings)
  {
    var k := TransactionIndex(db.transactions, sessionId);
    if k.Some? {
      ConfirmBookingKeepsValid(db.bookings, db.transactions[k.value].bookingId);
    }
  }

  lemma WebhookKeepsValid(db: Db, event: WebhookEvent)
    requires ValidDb(db)
    ensures ValidDb(StripeWebhook(db, event))
    ensures Evolves(db.bookings, StripeWebhook(db, event).bookings)
  {
    var k := TransactionIndex(db.transactions, event.sessionId);
    if k.Some? {
      ConfirmBookingKeepsValid(db.bookings, db.transactions[k.value].bookingId);
    }
  }

  // ---------------------------------------------------------------------
  // Sequences of requests
  // ---------------------------------------------------------------------

  /** The requests that write to the store; fresh ids and gateway answers are their inputs. */
  datatype Op =
    | SeedVillasOp
    | CreateBookingOp(req: BookingRequest, newId: string)
    | CheckoutOp(bookingId: string, originUrl: string, txId: string, session: Option<CheckoutSession>)
    | PaymentStatusOp(sessionId: string, gateway: Option<GatewayStatus>)
    | WebhookOp(event: WebhookEvent)

  function Apply(db: Db, op: Op): Db
  {
    match op
    case SeedVillasOp => InitVillas(db)
    case CreateBookingOp(req, newId) => CreateBooking(db, req, newId).0
    case CheckoutOp(bookingId, originUrl, txId, session) => CreatePaymentCheckout(db, bookingId, originUrl, txId, session).0
    case PaymentStatusOp(sessionId, gateway) => GetPaymentStatus(db, sessionId, gateway).0
    case WebhookOp(event) => StripeWebhook(db, event)
  }

  /** The store after handling the requests one after another. */
  function Run(db: Db, ops: seq<Op>): Db
    decreases |ops|
  {
    if ops == [] then db else Run(Apply(db, ops[0]), ops[1..])
  }

  lemma ApplyKeepsValid(db: Db, op: Op)
    requires ValidDb(db)
    ensures ValidDb(Apply(db, op)) && Evolves(db.bookings, Apply(db, op).bookings)
  {
    match op
    case SeedVillasOp =>
    case CreateBookingOp(req, newId) => CreateBookingKeepsValid(db, req, newId);
    case CheckoutOp(bookingId, originUrl, txId, session) => CheckoutKeepsValid(db, bookingId, originUrl, txId, session);
    case PaymentStatusOp(sessionId, gateway) => StatusKeepsValid(db, sessionId, gateway);
    case WebhookOp(event) => WebhookKeepsValid(db, event);
  }

  /**
   * Handled one at a time, every sequence of requests keeps the store free
   * of double bookings, and every booking only ever moves towards confirmed.
   */
  lemma {:induction false} RunKeepsValid(db: Db, ops: seq<Op>)
    requires ValidDb(db)
    ensures ValidDb(Run(db, ops))
    ensures Evolves(db.bookings, Run(db, ops).bookings)
    decreases |ops|
  {
    if ops == [] {
      assert Run(db, ops) == db;
    } else {
      var next := Apply(db, ops[0]);
      ApplyKeepsValid(db, ops[0]);
      RunKeepsValid(next, ops[1..]);
      EvolvesTransitive(db.bookings, next.bookings, Run(next, ops[1..]).bookings);
    }
  }

  /**
   * From an empty store, two different bookings of one villa that are both
   * confirmed never share a night.
   */
  lemma AtMostOneConfirmedPerNight(ops: seq<Op>, i: nat, j: nat)
    requires var bs := Run(EmptyDb, ops).bookings;
      i < |bs| && j < |bs| && i != j && bs[i].status == Confirmed && bs[j].status == Confirmed
      && bs[i].villaId == bs[j].villaId
    ensures var bs := Run(EmptyDb, ops).bookings;
      !(bs[i].checkIn < bs[j].checkOut && bs[j].checkIn < bs[i].checkOut)
  {
    RunKeepsValid(EmptyDb, ops);
    var bs := Run(EmptyDb, ops).bookings;
    assert !Conflict(bs[i], bs[j]);
  }

  // ---------------------------------------------------------------------
  // Idempotence of payment confirmation
  // ---------------------------------------------------------------------

  /** Re-delivering a webhook event has no further effect. */
  lemma WebhookIdempotent(db: Db, event: WebhookEvent)
    ensures StripeWebhook(StripeWebhook(db, event), event) == StripeWebhook(db, event)
  {
    var once := StripeWebhook(db, event);
    var k := TransactionIndex(db.transactions, event.sessionId);
    if event.paymentStatus == "paid" && k.Some? && db.transactions[k.value].status != "completed" {
      FirstWhereSameVerdicts(db.transactions, once.transactions, HasSessionId(event.sessionId));
      assert once.transactions[k.value].status == "completed";
    }
  }

  /**
   * Once a status request has seen a paid report for an unfinished
   * transaction, every later status request for that session is answered
   * from the stored record and changes nothing, whatever the gateway says
   * and even when the gateway cannot be reached.
   */
  lemma StatusSettlesOnPaid(db: Db, sessionId: string, paid: GatewayStatus, later: Option<GatewayStatus>)
    requires TransactionIndex(db.transactions, sessionId).Some?
    requires db.transactions[TransactionIndex(db.transactions, sessionId).value].status != "completed"
    requires paid.paymentStatus == "paid"
    ensures var once := GetPaymentStatus(db, sessionId, Some(paid)).0;
      && GetPaymentStatus(once, sessionId, later).0 == once
      && GetPaymentStatus(once, sessionId, later).1
         == Success(StatusReply("completed", "paid", db.transactions[TransactionIndex(db.transactions, sessionId).value].bookingId))
  {
    var once := GetPaymentStatus(db, sessionId, Some(paid)).0;
    var k := TransactionIndex(db.transactions, sessionId).value;
    FirstWhereSameVerdicts(db.transactions, once.transactions, HasSessionId(sessionId));
    assert IsSettled(once.transactions[k]);
  }

  /** After a paid webhook for a known session, a status request is answered from the stored record. */
  lemma WebhookThenStatusIsCached(db: Db, event: WebhookEvent, gateway: Option<GatewayStatus>)
    requires event.paymentStatus == "paid"
    requires TransactionIndex(db.transactions, event.sessionId).Some?
    requires db.transactions[TransactionIndex(db.transactions, event.sessionId).value].status != "completed"
    ensures var after := StripeWebhook(db, event);
      GetPaymentStatus(after, event.sessionId, gateway).0 == after
  {
    var after := StripeWebhook(db, event);
    var k := TransactionIndex(db.transactions, event.sessionId).value;
    FirstWhereSameVerdicts(db.transactions, after.transactions, HasSessionId(event.sessionId));
    assert IsSettled(after.transactions[k]);
  }
}
