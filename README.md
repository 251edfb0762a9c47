# Villa reservations and payments, modelled in Dafny

The system is a resort's reservation site. A FastAPI server keeps three
document collections: villas, bookings and payment transactions. It accepts
bookings for free date ranges, opens checkout sessions with a payment
gateway, and confirms a booking once the gateway reports the payment as
paid. The gateway's report reaches the server in one of two ways: the guest's
browser polls a status endpoint, or the gateway calls a webhook. A React
client walks the guest through a three-step booking wizard. It then polls the
payment status on the success page. A separate page filters nearby
attractions by category.

The model has six modules:

- `Reservations` (reservations.dfy) states the server's write handlers as
  step functions from one `Db` value (the three collections) to the next
  `Db` and the HTTP reply. Next to them are the store's safety invariant
  and the lemmas about it. The invariant says no two active bookings of a
  villa share a night. Other lemmas cover sequences of requests and the
  idempotence of payment confirmation. As a modelling assumption,
  lookups and single-document updates pick the first matching document in
  insertion order. The database promises no order without a sort, so this
  choice matters only for duplicate ids, which the model does not exclude.
- `ReservationStore` (reservation_store.dfy) is the store as a class whose
  fields are the three collections. Each request handler is a method that
  updates those fields in place. The method's new state and reply are
  those of the matching step function, and the method keeps the invariant.
- `BookingWizard` (booking_wizard.dfy) is the booking page. Its state is a
  class, its handlers are methods, and its night and price figures are
  functions. Server replies are parameters of the handlers that await them.
- `PaymentPolling` (payment_polling.dfy) is the success page's poll
  handler. It has a decision function and the page's state as a class.
  The class's `Poll` rereads the attempt count from its field on every
  run, so it follows the behaviour the code evidently intends.
  `PollFromFirstRender` is one run as the page actually performs it, with
  the first render's count of 0. Two polling loops show the two behaviours
  end to end: the intended one, and the one the code performs (see Findings).
- `Attractions` (attractions.dfy) is the attractions list and its category
  filter.
- `Wrappers` (wrappers.dfy) provides `Option`, `Result` and `Min`.

Dates are integer day numbers and prices are whole dollars. The server
compares ISO date strings as text in its availability query, and it
subtracts parsed dates to get the price. The client sends `toISOString()`
of local midnights. The model assumes every date is midnight at one fixed
UTC offset, written in that one ISO format. Under that assumption the text
order and the day difference agree with integer comparison and
subtraction. Daylight saving and guests in different time zones break the
assumption (see Left out). Nothing in
the server requires `check_in < check_out` or `guests <= max_guests`, so a
reversed range gives a negative night count and a negative price. The model
keeps that behaviour.

Fresh ids (the server's uuids) and every answer of the payment gateway are
parameters of the operations. These answers are the checkout session, the
reported status and the webhook event.

## Model

| member | source | states |
|---|---|---|
| Reservations.FirstWhere | backend/server.py:121-124 | a document lookup finds the first document passing the filter, and fails exactly when none passes |
| Reservations.FirstWhereSameVerdicts | backend/server.py:270-323 | a lookup gives the same position in two collections whose documents pass or fail the filter alike, so an update that keeps the filter field keeps the lookup |
| Reservations.Matching | backend/server.py:131-138 | the availability query finds documents of the store that match its filter, and finds every booking that matches |
| Reservations.Available | backend/server.py:127-140 | a range is available exactly when no booking of the villa that is pending or confirmed has check_in before the new check_out and check_out after the new check_in |
| Reservations.StayNights | backend/server.py:160-162 | the night count is the difference of the two dates (negative for a reversed range) |
| Reservations.CreateBooking | backend/server.py:142-178 | unavailable gives 400 and is tested before the villa lookup; an unknown villa gives 404; neither changes state; an available range of a known villa always succeeds; success appends one pending booking without a payment session, with the request's data, the name of the first villa with the id and nights times that villa's nightly price, and changes nothing else |
| Reservations.SessionRequestFor | backend/server.py:200-230 | the checkout session asks for the booking's total in usd, with success, cancel and webhook urls derived from the origin and metadata booking_id, villa_name, guest_email |
| Reservations.CreatePaymentCheckout | backend/server.py:191-245 | an unknown booking gives 404 and a confirmed one 400, and a gateway call that raises gives 500, each with no change; otherwise one initiated/pending transaction for the booking's total in usd is appended, only that booking's payment session id is set, and the reply is the session's url and id |
| Reservations.ConfirmBooking | backend/server.py:280-283 | only the first booking with the id becomes confirmed; everything else is unchanged; no match changes nothing |
| Reservations.GetPaymentStatus | backend/server.py:247-294 | an unknown session gives 404; a completed and paid transaction is answered from the store with no change, without asking the gateway; otherwise a gateway call that raises gives 500 with no change, and an answer is written to the transaction, where a paid report for a transaction not completed before confirms the booking and completes the transaction |
| Reservations.StripeWebhook | backend/server.py:296-328 | a non-paid event, an unknown session or an already completed transaction change nothing; otherwise the transaction becomes completed and paid and its booking confirmed |
| Reservations.SeedCatalogue | backend/server.py:420-510 | the seed catalogue has ten villas with distinct ids, positive prices and room for at least two guests |
| Reservations.InitVillas | backend/server.py:417-514 | startup seeds the ten villas only when the villa collection is empty and touches nothing else |
| Reservations.ConflictSymmetric | backend/server.py:131-138 | the overlap test between two active bookings is symmetric |
| Reservations.EvolvesTransitive | backend/server.py:270-288 | booking evolution (data kept, status kept or confirmed, new bookings not cancelled) composes |
| Reservations.ConfirmBookingKeepsValid | backend/server.py:280-283 | confirming a booking keeps the no-double-booking invariant and only moves a status to confirmed |
| Reservations.CreateBookingKeepsValid | backend/server.py:145-178 | creating a booking keeps no two active bookings of a villa overlapping; the existing bookings are an unchanged prefix of the new collection, which has at most one more |
| Reservations.CheckoutKeepsValid | backend/server.py:225-243 | opening a checkout keeps the invariant; the booking collection keeps its length and every booking is unchanged except for its payment session id |
| Reservations.StatusKeepsValid | backend/server.py:270-288 | the status endpoint keeps the invariant and never moves a booking away from confirmed or to cancelled |
| Reservations.WebhookKeepsValid | backend/server.py:308-326 | the webhook keeps the invariant and never moves a booking away from confirmed or to cancelled |
| Reservations.ApplyKeepsValid | backend/server.py:142-328 | every writing request keeps the invariant and the booking evolution |
| Reservations.RunKeepsValid | backend/server.py:142-328 | any sequence of writing requests, handled one at a time, keeps the invariant and the booking evolution |
| Reservations.AtMostOneConfirmedPerNight | backend/server.py:131-152 | starting from an empty store, two different confirmed bookings of one villa never share a night |
| Reservations.WebhookIdempotent | backend/server.py:308-328 | delivering the same webhook event twice has the effect of delivering it once |
| Reservations.StatusSettlesOnPaid | backend/server.py:254-260 | after a paid report has completed a transaction, later status requests are answered completed/paid from the store and change nothing, whatever the gateway says or if it cannot be reached |
| Reservations.WebhookThenStatusIsCached | backend/server.py:254-260 | after a paid webhook for a known, unfinished session, a status request changes nothing |
| ReservationStore.Store.constructor | backend/server.py:20-23 | a store over a fresh, empty database starts with three empty collections and is valid |
| ReservationStore.Store.InitVillas | backend/server.py:417-514 | in place, with the new state that of `Reservations.InitVillas` |
| ReservationStore.Store.GetVillas | backend/server.py:114-117 | the reply is a prefix of the catalogue of at most 100 villas, and the whole catalogue when it has at most 100 |
| ReservationStore.Store.GetVilla | backend/server.py:119-124 | 404 exactly when no villa has the id; otherwise the first villa with the id |
| ReservationStore.Store.CheckAvailability | backend/server.py:127-140 | the reply echoes the villa id and is true exactly when no active booking of that villa overlaps the range |
| ReservationStore.Store.CreateBooking | backend/server.py:142-178 | in place, with the state and reply of `Reservations.CreateBooking`, keeping the invariant |
| ReservationStore.Store.GetBooking | backend/server.py:180-188 | 404 exactly when no booking has the id; otherwise the first booking with the id |
| ReservationStore.Store.CreatePaymentCheckout | backend/server.py:191-245 | in place, with the state and reply of `Reservations.CreatePaymentCheckout`, keeping the invariant |
| ReservationStore.Store.GetPaymentStatus | backend/server.py:247-294 | in place, with the state and reply of `Reservations.GetPaymentStatus`, keeping the invariant |
| ReservationStore.Store.StripeWebhook | backend/server.py:296-328 | in place, with the state of `Reservations.StripeWebhook`, always acknowledging with "success", keeping the invariant |
| BookingWizard.CalculateNights | frontend/src/pages/BookingPage.js:111-114 | 0 when either date is missing, otherwise the number of days from check-in to check-out |
| BookingWizard.CalculateTotal | frontend/src/pages/BookingPage.js:116-119 | 0 when no villa is selected or a date is missing, otherwise nights times the villa's nightly price |
| BookingWizard.QuoteMatchesServerPrice | frontend/src/pages/BookingPage.js:116-119 | the total the page shows is the total the server stores for the booking it then creates |
| BookingWizard.OneToMembers | frontend/src/pages/BookingPage.js:341-345 | the option list for n holds exactly 1..n, in order |
| BookingWizard.GuestCountOptions | frontend/src/pages/BookingPage.js:341-345 | the guest options are exactly 1..max_guests, or 1..4 with no villa or a capacity of 0 |
| BookingWizard.ErrorMessage | frontend/src/pages/BookingPage.js:104-107 | a failed booking shows the server's detail, or "Failed to create booking" when it has none |
| BookingWizard.Wizard.constructor | frontend/src/pages/BookingPage.js:12-22 | the wizard starts at step 1 with nothing selected, two guests, empty details and not loading |
| BookingWizard.Wizard.SelectVilla | frontend/src/pages/BookingPage.js:38-41 | the villa is recorded and the step becomes 2 |
| BookingWizard.Wizard.SelectDates | frontend/src/pages/BookingPage.js:43-45 | the date range is recorded and nothing else changes |
| BookingWizard.Wizard.BackToVillas | frontend/src/pages/BookingPage.js:257 | step 2 goes back to 1 |
| BookingWizard.Wizard.ContinueToGuestInfo | frontend/src/pages/BookingPage.js:47-73 | without both dates nothing is sent and the step stays 2; otherwise the availability query is sent, and only an available answer moves to step 3; refusals and failures each show their toast |
| BookingWizard.Wizard.SetGuestDetails | frontend/src/pages/BookingPage.js:293-323 | the guest form's fields are recorded and nothing else changes |
| BookingWizard.Wizard.SetGuestCount | frontend/src/pages/BookingPage.js:335-337 | the chosen option becomes the guest count, which is at least 1 |
| BookingWizard.Wizard.BackToDates | frontend/src/pages/BookingPage.js:381 | step 3 goes back to 2 |
| BookingWizard.Wizard.CreateBooking | frontend/src/pages/BookingPage.js:75-109 | any empty guest field sends nothing and leaves loading false; otherwise the booking request, then the checkout request for the new id, are sent; any failure shows the error toast and clears loading on step 3; success redirects to the gateway with loading set |
| PaymentPolling.Decide | frontend/src/pages/BookingSuccessPage.js:22-53 | 5 or more attempts give up without a request; paid succeeds with the reply's booking id, before expired is considered; expired fails; a request error fails; anything else retries with attempts plus one |
| PaymentPolling.StatusAfter | frontend/src/pages/BookingSuccessPage.js:26-52 | only a retry leaves the page checking, and only paid makes it succeed |
| PaymentPolling.SuccessPage.constructor | frontend/src/pages/BookingSuccessPage.js:11-14 | the page starts checking, with no booking id and no attempts |
| PaymentPolling.SuccessPage.Poll | frontend/src/pages/BookingSuccessPage.js:22-53 | one run of the poll handler, reading the recorded attempt count as intended, updates status, booking id and attempts as `Decide` says, and polls again exactly on a retry |
| PaymentPolling.SuccessPage.PollFromFirstRender | frontend/src/pages/BookingSuccessPage.js:45-48 | a rescheduled run as performed decides on 0 attempts and on a retry records 1 attempt, whatever was recorded before |
| PaymentPolling.PollUntilSettled | frontend/src/pages/BookingSuccessPage.js:12-53 | with the counter carried between runs, at most 5 requests are sent; with 5 or more replies the page never stays checking; every reply but the last kept it polling; it succeeds exactly when the last reply was paid, with that reply's booking id |
| PaymentPolling.PollAsWritten | frontend/src/pages/BookingSuccessPage.js:45-48 | as the code runs it, every rescheduled run sees 0 attempts, so while replies keep the page polling it sends one request per reply and never gives up |
| Attractions.OfCategory | frontend/src/pages/NearbyAttractionsPage.js:54 | every result has the category, no attraction of that category is dropped (same multiplicity), the result is an order-preserving subsequence and never longer than the input |
| Attractions.Filtered | frontend/src/pages/NearbyAttractionsPage.js:52-54 | "All" gives the whole list; any other button gives exactly the attractions of that category, in order |
| Attractions.SubsequenceOfItself | frontend/src/pages/NearbyAttractionsPage.js:52-53 | the unfiltered list is a subsequence of itself |
| Attractions.CategoriesCoverAttractions | frontend/src/pages/NearbyAttractionsPage.js:4-49 | every attraction's category is one of the buttons, and none is "All" |
| Attractions.ListedUnderItsOwnButton | frontend/src/pages/NearbyAttractionsPage.js:49-54 | every attraction is listed under the button of its own category and under no other category button |
| Attractions.NoEmptyCategory | frontend/src/pages/NearbyAttractionsPage.js:49-54 | no category button shows an empty list |

## Left out

- MongoDB, FastAPI routing, CORS and logging are left out. The collections are in-memory sequences, and every handler runs atomically and one at a time.
- The race between the availability check and the insert, possible when requests are handled concurrently, is not modelled. `RunKeepsValid` holds for sequential handling only.
- The payment gateway library is a foreign call. Its answers are parameters: the checkout session, the reported status, and an already-verified webhook event. A call that raises is a `None` answer. Signature verification, and the error a rejected signature raises, are not modelled.
- Reservations.CreatePaymentCheckout: which sessions the gateway refuses is the gateway's rule and is not modelled. The caller chooses `None`, so a zero or negative total from an empty or reversed range is accepted whenever the caller passes a session.
- `submit_contact` and `send_contact_email` are SMTP I/O with no bookkeeping logic.
- Floating-point prices and ISO date parsing are replaced by integer prices and day numbers, under the uniform-format assumption above. Timestamps (`created_at`) are not modelled.
- Request validation by pydantic is not modelled: `EmailStr` and the 422 answer for malformed bodies.
- uuid generation is replaced by fresh-id parameters.
- ReservationStore.Store.GetVillas: the reply is stated only as a prefix of at most 100 villas. This suffices because the server's villa collection never holds more than the ten seeded villas.
- `fetchVillas` and the villa list it loads into the wizard are not modelled. The wizard receives the chosen villa directly.
- BookingWizard.Wizard.ContinueToGuestInfo: atomic in the model, while the handler awaits the availability reply. Pressing Back and picking another villa while the reply is pending is not modelled. An available reply for the first villa would then still move to step 3 for the second, which was never checked.
- BookingWizard.QuoteMatchesServerPrice: holds only under the fixed-offset assumption. Across a spring-forward change, local midnight to local midnight two days later is 1 day 23 hours. The server's `.days` then counts one night fewer than the page's `differenceInDays`, so the server stores a lower total than the page showed.
- Reservations.Available: agrees with the server only under the fixed-offset assumption. For dates of guests at different UTC offsets, the server compares instants as text, so it can refuse a range that meets an existing booking only at the day boundary, which the day-number model books.
- Timers are not modelled. The 2000 ms poll interval is left out, and each rescheduled run is one loop iteration.
- BookingWizard.Wizard.CreateBooking: atomic in the model, while the handler awaits two replies. Only the Proceed button is disabled while loading; step 3's Back button stays enabled. So the guest can go back, pick new dates and return to step 3 before the replies arrive. The first request then redirects to a checkout for the old dates while the page shows the new ones, or fails and shows its toast on whichever step is open. The contract's step 3 on failure holds only for the atomic step.
- ReservationStore.Store.constructor: models a fresh database. Connecting to a database that already holds documents is not modelled; the invariant is proved only for stores built by the modelled requests.
- The other pages and components (contact, landing, villas, gallery, about, restaurant, Roman baths, layout, routing) are presentation only.
- The server never checks that check-in precedes check-out or that the guest count fits the villa, and the model adds neither check.

## Findings

| source | as written | input that shows it | evidently intended | confidence | as-written member | corrected member |
|---|---|---|---|---|---|---|
| frontend/src/pages/BookingSuccessPage.js:45-48 | the retry calls the `pollPaymentStatus` closure of the first render, whose `attempts` is always 0, so the `attempts >= maxAttempts` guard never fires | a session whose status replies stay "open"/"unpaid": the page keeps polling every 2 seconds indefinitely | give up with "failed" after 5 unpaid, unexpired replies | not executed | PaymentPolling.PollAsWritten | PaymentPolling.PollUntilSettled |
