/**
 * The API server's document store as a mutable object: the three
 * collections are fields, and each request handler is a method that
 * updates them in place, in the order the handler issues its inserts and
 * updates. Each method's new state and reply are those of the matching
 * step function in `Reservations`, so the lemmas proved there (no double
 * booking, monotone booking status, idempotent confirmation) hold of it.
 */
module ReservationStore {
  import opened Wrappers
  import opened Reservations

  class Store {
    var villas: seq<Villa>
    var bookings: seq<Booking>
    var transactions: seq<Transaction>

    /** The collections as one value. */
    function State(): Db
      reads this
    {
      Db(villas, bookings, transactions)
    }

    ghost predicate Valid()
      reads this
    {
      ValidDb(State())
    }

    constructor ()
      ensures State() == EmptyDb && Valid()
    {
      villas, bookings, transactions := [], [], [];
    }

    /** Startup hook: seed the catalogue when it holds no villa. */
    method InitVillas()
      requires Valid()
      modifies this
      ensures State() == Reservations.InitVillas(old(State())) && Valid()
    {
      if |villas| == 0 {
        villas := SeedVillas;
      }
    }

    /** `GET /villas`: the catalogue, cut at the query limit. */
    method GetVillas() returns (r: seq<Villa>)
      ensures |r| <= QueryLimit && r <= villas
      ensures |villas| <= QueryLimit ==> r == villas
    {
      r := villas[..Min(|villas|, QueryLimit)];
    }

    /** `GET /villas/{villa_id}`: the first villa with that id, or 404. */
    method GetVilla(id: string) returns (r: Result<Villa, HttpError>)
      ensures r.Failure? <==> forall v :: v in villas ==> v.id != id
      ensures r.Failure? ==> r.error == VillaNotFound
      ensures r.Success? ==> r.value in villas && r.value.id == id
      ensures r.Success? ==> r.value == villas[VillaIndex(villas, id).value]
    {
      var i := VillaIndex(villas, id);
      if i.None? {
        r := Failure(VillaNotFound);
      } else {
        r := Success(villas[i.value]);
      }
    }

    /** `GET /bookings/availability`. */
    method CheckAvailability(villaId: string, checkIn: Day, checkOut: Day) returns (r: AvailabilityReply)
      ensures r.villaId == villaId
      ensures r.available <==>
        forall i :: 0 <= i < |bookings| ==> !Clashes(bookings[i], villaId, checkIn, checkOut)
    {
      r := AvailabilityReply(Available(bookings, villaId, checkIn, checkOut), villaId);
    }

    /** `POST /bookings`. */
    method CreateBooking(req: BookingRequest, newId: string) returns (r: Result<Booking, HttpError>)
      requires Valid()
      modifies this
      ensures (State(), r) == Reservations.CreateBooking(old(State()), req, newId)
      ensures Valid()
    {
      var availability := CheckAvailability(req.villaId, req.checkIn, req.checkOut);
      if !availability.available {
        return Failure(NotAvailable);
      }
      var i := VillaIndex(villas, req.villaId);
      if i.None? {
        return Failure(VillaNotFound);
      }
      var villa := villas[i.value];
      var nights := StayNights(req.checkIn, req.checkOut);
      var b := Booking(newId, req.villaId, villa.name, req.guestName, req.email, req.phone,
                       req.checkIn, req.checkOut, req.guests, nights * villa.pricePerNight, Pending, None);
      bookings := bookings + [b];
      r := Success(b);
      CreateBookingKeepsValid(old(State()), req, newId);
    }

    /** `GET /bookings/{booking_id}`: the first booking with that id, or 404. */
    method GetBooking(id: string) returns (r: Result<Booking, HttpError>)
      ensures r.Failure? <==> forall b :: b in bookings ==> b.id != id
      ensures r.Failure? ==> r.error == BookingNotFound
      ensures r.Success? ==> r.value in bookings && r.value.id == id
      ensures r.Success? ==> r.value == bookings[BookingIndex(bookings, id).value]
    {
      var i := BookingIndex(bookings, id);
      if i.None? {
        r := Failure(BookingNotFound);
      } else {
        r := Success(bookings[i.value]);
      }
    }

    /**
     * `POST /payments/checkout`. `session` is the gateway's answer to the
     * session request the reply carries in `sent`, `None` when that call
     * raised; `txId` is the new transaction's id.
     */
    method CreatePaymentCheckout(bookingId: string, originUrl: string, txId: string, session: Option<CheckoutSession>)
      returns (r: Result<CheckoutOutcome, HttpError>)
      requires Valid()
      modifies this
      ensures (State(), r) == Reservations.CreatePaymentCheckout(old(State()), bookingId, originUrl, txId, session)
      ensures Valid()
    {
      var i := BookingIndex(bookings, bookingId);
      if i.None? {
        return Failure(BookingNotFound);
      }
      var b := bookings[i.value];
      if b.status == Confirmed {
        return Failure(AlreadyConfirmed);
      }
      var sent := SessionRequestFor(b, bookingId, originUrl);
      if session.None? {
        return Failure(GatewayFailed);
      }
      var created := session.value;
      transactions := transactions + [Transaction(txId, created.sessionId, bookingId, b.totalPrice, "usd",
                                                  "initiated", "pending", sent.metadata)];
      bookings := bookings[i.value := b.(paymentSessionId := Some(created.sessionId))];
      r := Success(CheckoutOutcome(created.url, created.sessionId, sent));
      CheckoutKeepsValid(old(State()), bookingId, originUrl, txId, session);
    }

    /**
     * `GET /payments/status/{session_id}`. `gateway` is what the gateway
     * would report for the session, `None` when that call raised; it is
     * not consulted when the stored transaction is already completed and paid.
     */
    method GetPaymentStatus(sessionId: string, gateway: Option<GatewayStatus>) returns (r: Result<StatusReply, HttpError>)
      requires Valid()
      modifies this
      ensures (State(), r) == Reservations.GetPaymentStatus(old(State()), sessionId, gateway)
      ensures Valid()
    {
      var k := TransactionIndex(transactions, sessionId);
      if k.None? {
        return Failure(TransactionNotFound);
      }
      var tx := transactions[k.value];
      if IsSettled(tx) {
        return Success(StatusReply(tx.status, tx.paymentStatus, tx.bookingId));
      }
      if gateway.None? {
        return Failure(GatewayFailed);
      }
      var g := gateway.value;
      transactions := transactions[k.value := tx.(status := g.status, paymentStatus := g.paymentStatus)];
      if g.paymentStatus == "paid" && tx.status != "completed" {
        bookings := ConfirmBooking(bookings, tx.bookingId);
        transactions := transactions[k.value := transactions[k.value].(status := "completed")];
      }
      r := Success(StatusReply(g.status, g.paymentStatus, tx.bookingId));
      StatusKeepsValid(old(State()), sessionId, gateway);
    }

    /** `POST /webhook/stripe`, for an event whose signature the gateway library accepted. */
    method StripeWebhook(event: WebhookEvent) returns (ack: string)
      requires Valid()
      modifies this
      ensures State() == Reservations.StripeWebhook(old(State()), event)
      ensures ack == "success"
      ensures Valid()
    {
      if event.paymentStatus == "paid" {
        var k := TransactionIndex(transactions, event.sessionId);
        if k.Some? && transactions[k.value].status != "completed" {
          var tx := transactions[k.value];
          transactions := transactions[k.value := tx.(status := "completed", paymentStatus := "paid")];
          bookings := ConfirmBooking(bookings, tx.bookingId);
        }
      }
      ack := "success";
      WebhookKeepsValid(old(State()), event);
    }
  }
}
