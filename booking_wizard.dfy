/**
 * The booking page of the web client (frontend/src/pages/BookingPage.js):
 * a three-step wizard (1: choose a villa, 2: choose dates, 3: guest
 * details) whose handlers update the page's state, and the night and
 * price figures it shows.
 *
 * Server answers are parameters of the handlers that wait for them; the
 * handlers return what the page shows or does next (`Effect`) and the
 * requests they send. Dates are day numbers, as in `Reservations`.
 */
module BookingWizard {
  import opened Wrappers
  import opened Reservations

  /** The calendar's selection; either end may be missing. */
  datatype DateRange = DateRange(from: Option<Day>, to: Option<Day>)

  datatype GuestDetails = GuestDetails(name: string, email: string, phone: string)

  /** A server reply as the page sees it: the body, or a failed request with the server's `detail`, if any. */
  datatype Reply<T> = Ok(body: T) | RequestFailed(detail: Option<string>)

  /** What a handler makes the page do besides updating its state. */
  datatype Effect = NoEffect | Toast(message: string) | Redirect(url: string)

  /** The query string of the availability request. */
  datatype AvailabilityQuery = AvailabilityQuery(villaId: string, checkIn: Day, checkOut: Day)

  const MissingDates := "Please select check-in and check-out dates"
  const DatesTaken := "Villa not available for selected dates"
  const AvailabilityFailed := "Failed to check availability"
  const MissingDetails := "Please fill in all guest details"
  const BookingFailed := "Failed to create booking"

  /** Guest count the page starts with. */
  const InitialGuestCount := 2

  /** Number of guest options when no villa is selected or its capacity is zero. */
  const DefaultGuestOptions := 4

  predicate HasBothDates(range: DateRange)
  {
    range.from.Some? && range.to.Some?
  }

  /** Nights shown for a selection: none until both dates are chosen. */
  function CalculateNights(range: DateRange): (n: int)
    ensures !HasBothDates(range) ==> n == 0
    ensures HasBothDates(range) ==> range.from.value + n == range.to.value
  {
    if !HasBothDates(range) then 0 else StayNights(range.from.value, range.to.value)
  }

  /** Price shown for a selection: zero until a villa and both dates are chosen. */
  function CalculateTotal(villa: Option<Villa>, range: DateRange): (t: int)
    ensures villa.None? || !HasBothDates(range) ==> t == 0
    ensures villa.Some? && HasBothDates(range) ==>
      t == (range.to.value - range.from.value) * villa.value.pricePerNight
  {
    if villa.None? || !HasBothDates(range) then 0
    else CalculateNights(range) * villa.value.pricePerNight
  }

  /**
   * The price the page quotes is the price the server charges: booking the
   * quoted villa for the quoted dates stores that total.
   */
  lemma QuoteMatchesServerPrice(db: Db, req: BookingRequest, newId: string, villa: Villa)
    requires VillaIndex(db.villas, req.villaId).Some?
    requires db.villas[VillaIndex(db.villas, req.villaId).value] == villa
    requires CreateBooking(db, req, newId).1.Success?
    ensures CreateBooking(db, req, newId).1.value.totalPrice
         == CalculateTotal(Some(villa), DateRange(Some(req.checkIn), Some(req.checkOut)))
  {
  }

  /** How many guest options the form offers (`max_guests || 4`). */
  function GuestOptionCount(villa: Option<Villa>): int
  {
    if villa.None? || villa.value.maxGuests == 0 then DefaultGuestOptions else villa.value.maxGuests
  }

  /** 1, 2, ... n. */
  function OneTo(n: nat): (r: seq<int>)
    ensures |r| == n && forall k :: 0 <= k < n ==> r[k] == k + 1
  {
    seq(n, k => k + 1)
  }

  lemma OneToMembers(n: nat)
    ensures forall g :: g in OneTo(n) <==> 1 <= g <= n
  {
    forall g | 1 <= g <= n
      ensures g in OneTo(n)
    {
      assert OneTo(n)[g - 1] == g;
    }
  }

  /**
   * The guest-count choices: 1 up to the villa's capacity, or 1 to 4 with
   * no villa. A negative capacity makes the array constructor throw, so no
   * list is rendered.
   */
  function GuestCountOptions(villa: Option<Villa>): (r: Option<seq<int>>)
    ensures r.None? <==> GuestOptionCount(villa) < 0
    ensures r.Some? ==> |r.value| == GuestOptionCount(villa)
    ensures r.Some? ==> forall g :: g in r.value <==> 1 <= g <= GuestOptionCount(villa)
    ensures r.Some? ==> forall k :: 0 <= k < |r.value| ==> r.value[k] == k + 1
    ensures villa.None? ==> r == Some([1, 2, 3, 4])
  {
    var n := GuestOptionCount(villa);
    if n < 0 then None
    else
      OneToMembers(n);
      assert n == 4 ==> OneTo(n) == [1, 2, 3, 4];
      Some(OneTo(n))
  }

  /** The toast text for a failed create-or-checkout request: the server's detail unless it is missing or empty. */
  function ErrorMessage(detail: Option<string>): (m: string)
    ensures detail.Some? && detail.value != "" ==> m == detail.value
    ensures detail.None? || detail.value == "" ==> m == BookingFailed
  {
    if detail.Some? && detail.value != "" then detail.value else BookingFailed
  }

  class Wizard {
    var selectedVilla: Option<Villa>
    var dateRange: DateRange
    var guestCount: int
    var guestDetails: GuestDetails
    var loading: bool
    var step: int

    /**
     * The steps are 1 to 3; from step 2 on a villa is chosen, and step 3 is
     * only reached with both dates chosen.
     */
    ghost predicate Valid()
      reads this
    {
      && 1 <= step <= 3
      && (step >= 2 ==> selectedVilla.Some?)
      && (step == 3 ==> HasBothDates(dateRange))
    }

    constructor ()
      ensures Valid() && step == 1 && !loading
      ensures selectedVilla == None && dateRange == DateRange(None, None)
      ensures guestCount == InitialGuestCount && guestDetails == GuestDetails("", "", "")
    {
      selectedVilla := None;
      dateRange := DateRange(None, None);
      guestCount := InitialGuestCount;
      guestDetails := GuestDetails("", "", "");
      loading := false;
      step := 1;
    }

    /** Clicking a villa card, which step 1 shows. */
    method SelectVilla(villa: Villa)
      requires Valid() && step == 1
      modifies this
      ensures Valid() && selectedVilla == Some(villa) && step == 2
      ensures dateRange == old(dateRange) && guestCount == old(guestCount)
      ensures guestDetails == old(guestDetails) && loading == old(loading)
    {
      selectedVilla := Some(villa);
      step := 2;
    }

    /** The calendar, which step 2 shows, reporting a new selection. */
    method SelectDates(range: DateRange)
      requires Valid() && step == 2
      modifies this
      ensures Valid() && dateRange == range
      ensures selectedVilla == old(selectedVilla) && step == old(step) && guestCount == old(guestCount)
      ensures guestDetails == old(guestDetails) && loading == old(loading)
    {
      dateRange := range;
    }

    /** The Back button of step 2. */
    method BackToVillas()
      requires Valid() && step == 2
      modifies this
      ensures Valid() && step == 1
      ensures selectedVilla == old(selectedVilla) && dateRange == old(dateRange) && guestCount == old(guestCount)
      ensures guestDetails == old(guestDetails) && loading == old(loading)
    {
      step := 1;
    }

    /**
     * The Continue button of step 2. `reply` is the server's answer to the
     * availability query returned in `sent`; no query is sent without both
     * dates.
     */
    method ContinueToGuestInfo(reply: Reply<AvailabilityReply>) returns (sent: Option<AvailabilityQuery>, effect: Effect)
      requires Valid() && step == 2
      modifies this
      ensures Valid()
      ensures selectedVilla == old(selectedVilla) && dateRange == old(dateRange) && guestCount == old(guestCount)
      ensures guestDetails == old(guestDetails) && loading == old(loading)
      ensures !HasBothDates(dateRange) ==> sent == None && effect == Toast(MissingDates) && step == 2
      ensures HasBothDates(dateRange) ==>
        sent == Some(AvailabilityQuery(selectedVilla.value.id, dateRange.from.value, dateRange.to.value))
      ensures HasBothDates(dateRange) && reply.RequestFailed? ==> effect == Toast(AvailabilityFailed) && step == 2
      ensures HasBothDates(dateRange) && reply.Ok? ==>
        if reply.body.available then effect == NoEffect && step == 3
        else effect == Toast(DatesTaken) && step == 2
    {
      if !HasBothDates(dateRange) {
        return None, Toast(MissingDates);
      }
      sent := Some(AvailabilityQuery(selectedVilla.value.id, dateRange.from.value, dateRange.to.value));
      match reply {
        case RequestFailed(_) =>
          effect := Toast(AvailabilityFailed);
        case Ok(body) =>
          if !body.available {
            effect := Toast(DatesTaken);
          } else {
            step := 3;
            effect := NoEffect;
          }
      }
    }

    /** Typing into the guest form, which step 3 shows. */
    method SetGuestDetails(details: GuestDetails)
      requires Valid() && step == 3
      modifies this
      ensures Valid() && guestDetails == details
      ensures selectedVilla == old(selectedVilla) && dateRange == old(dateRange) && step == old(step)
      ensures guestCount == old(guestCount) && loading == old(loading)
    {
      guestDetails := details;
    }

    /** Picking one of the guest-count options. */
    method SetGuestCount(n: int)
      requires Valid() && step == 3
      requires GuestCountOptions(selectedVilla).Some? && n in GuestCountOptions(selectedVilla).value
      modifies this
      ensures Valid() && guestCount == n && 1 <= guestCount
      ensures selectedVilla == old(selectedVilla) && dateRange == old(dateRange) && step == old(step)
      ensures guestDetails == old(guestDetails) && loading == old(loading)
    {
      guestCount := n;
    }

    /** The Back button of step 3. */
    method BackToDates()
      requires Valid() && step == 3
      modifies this
      ensures Valid() && step == 2
      ensures selectedVilla == old(selectedVilla) && dateRange == old(dateRange) && guestCount == old(guestCount)
      ensures guestDetails == old(guestDetails) && loading == old(loading)
    {
      step := 2;
    }

    /**
     * The Proceed to Payment button of step 3, disabled while loading.
     * `bookingReply` answers the booking request (`sentBooking`) with the
     * new booking's id; `checkoutReply` answers the checkout request for
     * that id (`sentCheckout`) with the gateway's page. On success the
     * browser leaves for that page with `loading` still set; on any failure
     * `loading` is cleared and the page stays on step 3.
     */
    method CreateBooking(bookingReply: Reply<string>, checkoutReply: Reply<string>)
      returns (sentBooking: Option<BookingRequest>, sentCheckout: Option<string>, effect: Effect)
      requires Valid() && step == 3 && !loading
      modifies this
      ensures Valid() && step == 3
      ensures selectedVilla == old(selectedVilla) && dateRange == old(dateRange)
      ensures guestCount == old(guestCount) && guestDetails == old(guestDetails)
      ensures guestDetails.name == "" || guestDetails.email == "" || guestDetails.phone == "" ==>
        sentBooking == None && sentCheckout == None && effect == Toast(MissingDetails) && !loading
      ensures guestDetails.name != "" && guestDetails.email != "" && guestDetails.phone != "" ==>
        && sentBooking == Some(BookingRequest(selectedVilla.value.id, guestDetails.name, guestDetails.email,
                                              guestDetails.phone, dateRange.from.value, dateRange.to.value, guestCount))
        && (bookingReply.RequestFailed? ==>
              sentCheckout == None && effect == Toast(ErrorMessage(bookingReply.detail)) && !loading)
        && (bookingReply.Ok? ==> sentCheckout == Some(bookingReply.body))
        && (bookingReply.Ok? && checkoutReply.RequestFailed? ==>
              effect == Toast(ErrorMessage(checkoutReply.detail)) && !loading)
        && (bookingReply.Ok? && checkoutReply.Ok? ==> effect == Redirect(checkoutReply.body) && loading)
    {
      if guestDetails.name == "" || guestDetails.email == "" || guestDetails.phone == "" {
        return None, None, Toast(MissingDetails);
      }
      loading := true;
      sentBooking := Some(BookingRequest(selectedVilla.value.id, guestDetails.name, guestDetails.email,
                                         guestDetails.phone, dateRange.from.value, dateRange.to.value, guestCount));
      sentCheckout := None;
      match bookingReply {
        case RequestFailed(detail) =>
          effect := Toast(ErrorMessage(detail));
          loading := false;
        case Ok(bookingId) =>
          sentCheckout := Some(bookingId);
          match checkoutReply {
            case RequestFailed(detail) =>
              effect := Toast(ErrorMessage(detail));
              loading := false;
            case Ok(url) =>
              effect := Redirect(url);
          }
      }
    }
  }
}
