# Hotel Booking DApp front end — Dafny model

The application is a React front end for a hotel-booking smart contract on the
Morph Holesky test network (chain id 2810). The contract owns rooms, prices,
availability, bookings and reviews. The front end reads the room list. It opens
dialogs that send four kinds of contract writes, and it keeps a few local flags
per dialog.

This project models the rules the front end itself owns:

- the category labels and pictures;
- address shortening, in two variants;
- the booking arithmetic: check-in and check-out seconds, the total price, the nights stepper;
- the review schema and the star widget;
- the review filter, average and preview on a room card, and the zero-padded room number;
- the availability table and its toggle request;
- the chain check and its switch-request effect;
- the home page's choice of view and the navigation bar.

Each dialog's transaction lifecycle is a class. Its fields are `isLoading`, `open`, the form
fields, the recorded write requests and the number of `onSuccess` calls.
Methods model submit, the caught error, the success effect and dismissal.
The receipt hook's `isConfirming` and whether `writeContract` throws are
method parameters. The success effect is the `Confirm` method.

JavaScript built-ins are modelled exactly where the components depend on them:

- `slice` with negative positions and `padStart` are in `js_string.dfy`;
- `parseInt` is in `js_number.dfy`: leading white space, a sign, a `0x` prefix, and the longest digit prefix, with NaN as `None`;
- integer `toString` is in `js_number.dfy`, and "NaN" prints for NaN.

Numbers are unbounded integers.

In three places the code does less than its interface suggests; the model follows the code:

- The booking form's schema only asks for a non-empty nights field. What keeps "0", "-2" and "1.5" out is the browser's own check on the `type="number"` `min="1"` input, which the model includes as `Booking.BrowserAccepts`. The "NaN" that "+" writes into an empty field passes that check, because the input then holds "". The submit handler then fails on `BigInt(NaN)`, and that error is caught.
- The availability dialog does not close on success.
- The availability dialog shows its progress label on the row whose id equals `Number(hash)`. The table and the dialog class model that comparison as written; the intended rows are separate members. See Findings.

## Model

| member | source | states |
|---|---|---|
| Types.EnumName | src/components/modals/BookingModal.tsx:116 | `RoomCategory[n]` names a member exactly for n in 0..2 |
| Utils.CategoryLabel | src/lib/utils.ts:9-20 | the label is "Unknown" iff the number is not 0, 1 or 2, and otherwise it is the enum member's name |
| Utils.CategoryLabelsDistinct | src/lib/utils.ts:11-16 | the three categories have pairwise different labels, none of them "Unknown" |
| Utils.ShortenAddress | src/lib/utils.ts:22-25 | "" for an undefined or empty address; otherwise the first min(6,n) characters, "...", and the last min(4,n) characters |
| Utils.ShortenedLength | src/lib/utils.ts:24 | an address of 10 or more characters gives exactly 13 characters: its first 6, "...", its last 4 |
| Navigation.ShortenLocal | src/components/layout/Nav.tsx:67-69 | Nav's helper is the first min(6,n) characters, "...", and the last min(4,n), with no empty-string guard |
| Navigation.ShortenVariants | src/components/layout/Nav.tsx:67-69 | Nav's helper agrees with the shared one on every non-empty string; on "" it gives "..." where the shared one gives "" |
| Navigation.View | src/components/layout/Nav.tsx:19-58 | nothing before mount; the shortened address with Disconnect iff mounted and connected; otherwise Connect Wallet |
| ChainCheck.IsCorrectChain | src/hooks/web3/use-chain-check.ts:20 | the chain is correct iff its id is 2810 |
| ChainCheck.CorrectChainIgnoresConnection | src/hooks/web3/use-chain-check.ts:13-20 | `isCorrectChain` depends only on the chain id; a switch is needed iff connected and not on 2810 |
| ChainCheck.SwitchRequestsBounded | src/hooks/web3/use-chain-check.ts:12-17 | over any sequence of renders, switch requests ≤ the renders whose dependencies changed |
| ChainCheck.NoSwitchWhileDisconnected | src/hooks/web3/use-chain-check.ts:13 | renders that are all disconnected issue no switch request |
| ChainCheck.NoRepeatOnRerender | src/hooks/web3/use-chain-check.ts:17 | re-rendering with unchanged chain id and connection issues no further request |
| ChainCheck.OneRequestPerMismatch | src/hooks/web3/use-chain-check.ts:12-17 | a newly detected mismatch while connected yields exactly one request, however many identical renders follow |
| Stars.DisplayedLevel | src/components/ui/star-rating.tsx:31 | the displayed level is the hover value unless that is 0, and then the value |
| Stars.FillPatternIsPrefix | src/components/ui/star-rating.tsx:17-34 | star s is filled iff the level ≥ s; the filled stars are exactly the first clamp(level, 0, 5), and that many are filled |
| Stars.StarRating.constructor | src/components/ui/star-rating.tsx:13 | the hover value starts at 0 |
| Stars.StarRating.Filled | src/components/ui/star-rating.tsx:17-34 | five stars; star i is filled iff the hover value, or the value when hover is 0, is at least i + 1 |
| Stars.StarRating.Click | src/components/ui/star-rating.tsx:24 | `onChange` fires iff enabled, and only with the clicked star, a value in 1..5 |
| Stars.StarRating.Enter | src/components/ui/star-rating.tsx:25 | entering star s sets the hover value to s when enabled; when disabled it changes nothing |
| Stars.StarRating.Leave | src/components/ui/star-rating.tsx:26 | leaving resets the hover value to 0 when enabled; when disabled it changes nothing |
| JsNumber.ParseIntNaN | src/components/modals/BookingModal.tsx:76-77 | `parseInt` is NaN exactly when no digit follows the leading white space and sign (a hex digit after "0x"), and negative only after a minus sign |
| JsNumber.ParseIntRoundTrip | src/components/modals/BookingModal.tsx:157-160 | `parseInt` of a printed integer or of "NaN" gives back that integer or NaN |
| Booking.TotalPriceReadsBack | src/components/modals/BookingModal.tsx:75-79 | the shown total reads back as the product of the parsed nights field ("1" when empty) and the parsed price, and is "NaN" iff either side is NaN |
| Booking.AcceptedNightsPositive | src/components/modals/BookingModal.tsx:147-152 | a value the browser's number check lets through either does not parse or holds at least one night |
| Booking.BrowserRejectsBelowOne | src/components/modals/BookingModal.tsx:147-152 | the browser stops "0", "-2" and "1.5" before the submit handler and lets "3" through |
| Booking.AcceptedRequestWellFormed | src/components/modals/BookingModal.tsx:84-96 | a request built from an accepted field books category first and a stay of a whole number of nights, at least one |
| Booking.TotalPriceIsProduct | src/components/modals/BookingModal.tsx:75-79 | for decimal inputs the total is the exact product nights × price; an empty nights field counts as 1 |
| Booking.ThreeNightsAtHundred | src/components/modals/BookingModal.tsx:75-79 | "3" nights at "100" shows "300" |
| Booking.CheckIn | src/components/modals/BookingModal.tsx:84 | check-in is the floor of now/1000: checkIn·1000 ≤ now < (checkIn+1)·1000 |
| Booking.BookingArgs | src/components/modals/BookingModal.tsx:84-96 | arguments exist iff the nights field parses; they are [category, checkIn, checkOut], in that order, with checkOut − checkIn = nights × 86400 |
| Booking.Decremented | src/components/modals/BookingModal.tsx:138-143 | "-" gives current − 1 when current > 1, and otherwise leaves the field unchanged |
| Booking.DecrementKeepsPositive | src/components/modals/BookingModal.tsx:138-143 | a field holding a count ≥ 1 still holds a count ≥ 1 after "-" |
| Booking.Incremented | src/components/modals/BookingModal.tsx:157-160 | "+" makes the field parse to exactly current + 1 (NaN stays NaN) |
| Booking.SubmitLabel | src/components/modals/BookingModal.tsx:179-188 | the button reads "Book Now" iff it is enabled, that is, neither loading nor confirming |
| Booking.BookingModal.constructor | src/components/modals/BookingModal.tsx:48-62 | nights defaults to "1", not loading, closed, no requests, total computed |
| Booking.BookingModal.EditNights | src/components/modals/BookingModal.tsx:147-152 | typing sets the field and recomputes the total; nothing else changes |
| Booking.BookingModal.Decrement | src/components/modals/BookingModal.tsx:138-143 | the field becomes `Decremented` of the old field; the total follows; nothing else changes |
| Booking.BookingModal.Increment | src/components/modals/BookingModal.tsx:157-160 | the field becomes `Incremented` of the old field; the total follows; nothing else changes |
| Booking.BookingModal.Submit | src/components/modals/BookingModal.tsx:81-103 | no effect when disabled, when the browser refuses the field or when it is empty; otherwise one `bookRoomByCategory` request and `isLoading`, or on a caught error `isLoading` cleared with the dialog left open; every request stays well formed, with at least one night |
| Booking.BookingModal.Confirm | src/components/modals/BookingModal.tsx:64-72 | success resets nights to "1", calls `onSuccess` once, closes the dialog and clears `isLoading` |
| Booking.BookingModal.Dismiss | src/components/modals/BookingModal.tsx:106 | the dialog's own close control clears `open` only |
| Review.Issues | src/components/modals/AddReviewModal.tsx:29-35 | no schema issue iff 1 ≤ rating ≤ 5 and 10 ≤ comment length ≤ 500; one issue per violated bound |
| Review.CommentBoundaries | src/components/modals/AddReviewModal.tsx:31-34 | comment lengths 9 and 501 are rejected; 10 and 500 are accepted |
| Review.DefaultsRejected | src/components/modals/AddReviewModal.tsx:59-63 | the defaults (rating 0, comment "") fail on both fields |
| Review.ReviewRequest | src/components/modals/AddReviewModal.tsx:80-85 | `addReview` with arguments [roomId, rating, comment], in that order |
| Review.SubmitLabel | src/components/modals/AddReviewModal.tsx:141-146 | the button reads "Submit Review" iff neither loading nor confirming, and "Confirming..." while confirming |
| Review.DisabledMatchesRatingRule | src/components/modals/AddReviewModal.tsx:136-138 | for widget values 0..5 the button's `rating === 0` test is exactly the schema's rating check |
| Review.AddReviewModal.constructor | src/components/modals/AddReviewModal.tsx:50-64 | rating 0, comment "", not loading, closed, no requests |
| Review.AddReviewModal.ClickStar | src/components/modals/AddReviewModal.tsx:108-112 | a star click sets the rating through `onChange` unless the inputs are disabled; the rating stays in 0..5 |
| Review.AddReviewModal.HoverStar | src/components/modals/AddReviewModal.tsx:108-112 | hovering goes to the owned widget, which the dialog disables while loading or confirming |
| Review.AddReviewModal.LeaveStar | src/components/modals/AddReviewModal.tsx:108-112 | leaving goes to the owned widget, which the dialog disables while loading or confirming |
| Review.AddReviewModal.EditComment | src/components/modals/AddReviewModal.tsx:125-130 | the text area changes the comment unless it is disabled |
| Review.AddReviewModal.Submit | src/components/modals/AddReviewModal.tsx:76-91 | no effect when disabled or invalid; otherwise one `addReview` request and `isLoading`, or on a caught error `isLoading` cleared with the dialog open; every request carries a valid rating and comment |
| Review.AddReviewModal.Confirm | src/components/modals/AddReviewModal.tsx:66-74 | success resets the form, calls `onSuccess` once, closes the dialog and clears `isLoading` |
| Review.AddReviewModal.Dismiss | src/components/modals/AddReviewModal.tsx:94 | the dialog's own close control clears `open` only |
| Availability.CategoryString | src/components/modals/SetAvailabilityModal.tsx:88-99 | the dialog's own switch agrees with `getRoomCategoryLabel` on every integer |
| Availability.FormatPrice | src/components/modals/SetAvailabilityModal.tsx:168-175 | the printed price parses back to the same integer |
| Availability.ToggleRequest | src/components/modals/SetAvailabilityModal.tsx:140-141 | a row requests `setRoomAvailability(room.id, !room.isAvailable)` |
| Availability.IdleAction | src/components/modals/SetAvailabilityModal.tsx:152-154 | the idle button names the state opposite to the row's status |
| Availability.ActionLabelAsWritten | src/components/modals/SetAvailabilityModal.tsx:148-151 | progress is shown exactly on a row whose id equals the hash read as a number |
| Availability.AsWrittenNeverShowsProgress | src/components/modals/SetAvailabilityModal.tsx:148-151 | when the hash is larger than the row's id, the row never shows progress |
| Availability.AsWrittenCounterexample | src/components/modals/SetAvailabilityModal.tsx:148-151 | a clicked row being confirmed still reads "Set to Unavailable" |
| Availability.TableNeverShowsProgress | src/components/modals/SetAvailabilityModal.tsx:120-151 | as rendered, a table whose room ids are all below the hash shows only idle labels, whatever the lifecycle flags |
| Availability.ActionLabel | src/components/modals/SetAvailabilityModal.tsx:148-154 | "Confirming..." or "Updating..." appears on the clicked row while loading or confirming; otherwise the idle label |
| Availability.RowIntended | src/components/modals/SetAvailabilityModal.tsx:121-156 | the intended row differs from the rendered one only in its label, which is the corrected one |
| Availability.RowsIntended | src/components/modals/SetAvailabilityModal.tsx:120-156 | one intended row per room, in order |
| Availability.ProgressOnClickedRowOnly | src/components/modals/SetAvailabilityModal.tsx:148-154 | in the intended table, with unique ids, after a click only that row reports progress and every other row keeps its idle label |
| Availability.Row | src/components/modals/SetAvailabilityModal.tsx:121-156 | a row's number and price parse back to the room's, its category equals the shared label, its status follows the flag, its label is the as-written comparison with the hash, and its button is disabled iff loading or confirming |
| Availability.Rows | src/components/modals/SetAvailabilityModal.tsx:120 | one row per room, in order; none before the read returns |
| Availability.SetAvailabilityModal.constructor | src/components/modals/SetAvailabilityModal.tsx:47-59 | not loading, no hash, no requests |
| Availability.SetAvailabilityModal.Table | src/components/modals/SetAvailabilityModal.tsx:120-151 | the rendered table has one row per room, each labelled by comparing its id with the dialog's current hash |
| Availability.SetAvailabilityModal.ClickRow | src/components/modals/SetAvailabilityModal.tsx:70-86 | no effect while disabled; otherwise `isLoading`, one toggle request and the wallet's hash as the hook's `hash`, or on a caught error `isLoading` cleared with nothing sent |
| Availability.SetAvailabilityModal.Confirm | src/components/modals/SetAvailabilityModal.tsx:61-68 | success refetches once, calls `onSuccess` once and clears `isLoading`; the hash and the dialog's open state are kept |
| Availability.SetAvailabilityModal.Dismiss | src/components/modals/SetAvailabilityModal.tsx:102 | the dialog's own close control clears `open` only |
| Card.ImageFor | src/components/room/RoomCard.tsx:39-50 | 0 → "/2071.jpg", 2 → "/7715.jpg", and every other number → "/2149.jpg" |
| Card.UnknownCategoryLooksDeluxe | src/components/room/RoomCard.tsx:39-50 | an unknown category shows the Deluxe image under the label "Unknown" |
| Card.IdLabel | src/components/room/RoomCard.tsx:82 | length max(2, digits); one leading "0" for ids below 10 and no change otherwise; the label parses back to the id |
| Card.FilterValid | src/components/room/RoomCard.tsx:28-31 | the filtered list is no longer than the input, and every entry in it is present, rated and commented |
| Card.FilterConcat | src/components/room/RoomCard.tsx:28-31 | filtering distributes over concatenation, so the input order is kept |
| Card.FilterCounts | src/components/room/RoomCard.tsx:28-31 | each valid entry is kept exactly as often as it occurs; invalid ones are dropped |
| Card.AverageRating | src/components/room/RoomCard.tsx:33-37 | no average iff there are no valid reviews; otherwise the pair (sum of ratings, count) |
| Card.AverageInRange | src/components/room/RoomCard.tsx:33-37 | with ratings in 1..5, count ≤ sum ≤ 5·count, so the average lies in [1, 5] |
| Card.PreviewStarsMatchWidget | src/components/room/RoomCard.tsx:117-124 | preview star i is filled iff i < rating, the same pattern as the rating widget, with clamp(rating, 0, 5) filled |
| Card.ReviewSection | src/components/room/RoomCard.tsx:98-137 | the section exists iff there are valid reviews; it previews exactly the first min(2, n) of them, in order |
| Card.BookLabel | src/components/room/RoomCard.tsx:145 | the Book button reads "Book Now" iff the room is available |
| Card.ButtonRules | src/components/room/RoomCard.tsx:141-156 | without an address both buttons are disabled; with one, Book is disabled iff the room is unavailable |
| Card.DisplayPrice | src/components/room/RoomCard.tsx:53-63 | the displayed price is the room's price, 0 included |
| Card.View | src/components/room/RoomCard.tsx:65-158 | the card's number parses to the id, its label and image follow the category, its price is the room's, its button flags follow the rules |
| Card.RoomCard.constructor | src/components/room/RoomCard.tsx:161-173 | the dialogs get the category, the price as a decimal string and the id, and both start closed |
| Card.RoomCard.ClickBook | src/components/room/RoomCard.tsx:141-146 | the Book button opens the booking dialog iff it is enabled |
| Card.RoomCard.ClickReview | src/components/room/RoomCard.tsx:148-152 | the Review button opens the review dialog iff it is enabled |
| Card.RoomCard.BookingTotal | src/components/room/RoomCard.tsx:161-167 | through the decimal price string, the dialog's total for n nights is n × the room's price |
| Home.View | src/components/HomePage.tsx:40-91 | nothing before mount; welcome without an address; wrong network off chain; otherwise the grid, iff the read is enabled, with the admin buttons and one card per returned room in order |
| Home.WelcomeIgnoresChain | src/components/HomePage.tsx:42-53 | without an address the welcome view shows whatever the chain |
| Home.RefetchCalls | src/components/room/RoomCard.tsx:18 | an optional `onSuccess` refetches at most once, and exactly once iff it is the page's `handleSuccess`; an absent one does nothing |
| Home.ChildrenRefetchOnce | src/components/HomePage.tsx:86-102 | the grid hands every card and both dialogs the page's `handleSuccess`, never an absent handler, so each callback refetches exactly once |
| Home.OneRefetchPerSuccess | src/components/HomePage.tsx:36-38 | on the grid, any sequence of card and dialog successes makes exactly as many page refetches |

## Left out

- The smart contract. Its storage and checks are external. Writes are recorded only as function name and arguments.
- The Add Room dialog. Its rules depend on JavaScript floating-point parsing (`Number(val) > 0`, `BigInt` of a decimal string), and its lifecycle matches the dialogs modelled here.
- The transaction-toast wrapper, the wallet, network and contract hooks, and the room list component. They call the wallet and provider, are not used by the modelled components, or depend on a contract handle that is always null.
- Layout, providers, the waiting indicator, styling, toasts and console logging. They only render or configure.
- Floating point: numbers are unbounded integers. Precision loss above 2^53, exponent notation in `toString`, NaN or fractional ratings, and the `toFixed(1)` division of the average are not modelled.
- `Date.now()` is the parameter `nowMs`, taken to be non-negative.
- React effect scheduling. Each success effect runs once per confirmation, as `Confirm`. Re-runs triggered by new callback identities are not modelled.
- The receipt hook. `isConfirming` and writes that throw are method parameters.
- The network hook's `isSwitching` flag and the outcome of a switch request.
- The home page's two dialog-open flags. They are UI state only.
- String lengths count Unicode characters. The schema counts UTF-16 code units, so characters outside the Basic Multilingual Plane count once here and twice in the source.
- JsNumber.ParseInt: its white-space set is the ASCII white space, no-break space, the byte-order mark and the two line separators. Other Unicode space separators are not modelled.
- Card.IsValidReview: `typeof rating === "number"` is a present integer rating, and a comment is always a string. Non-string comments are not modelled.
- Navigation.View: requires an address while connected. The account hook guarantees this, and the local helper would throw on `undefined`.
- Types.Room: room ids are non-negative integers, as the contract assigns them.
- Booking.BrowserAccepts: only plain digit strings count as whole numbers. The browser also accepts spellings such as "2.0" or "1e1", and the model refuses them. A number input sanitises any other text to "", which is not modelled; the nights field can hold any string here.
- Availability.SetAvailabilityModal.ClickRow: the hook's `hash` is set from the parameter `txHash` once the write goes out. The write hook's pending and error states, and the hash being cleared by a new write, are not modelled.
- Availability.ActionLabelAsWritten: reads `Number(hash)` as the exact 256-bit value. For ids below 2^53 the equality with a room id is the same, and for other ids it is not modelled.

## Findings

| source | as written | input that shows it | evidently intended | confidence | as-written member | corrected member |
|---|---|---|---|---|---|---|
| src/components/modals/SetAvailabilityModal.tsx:148-151 | progress is shown on a row only if `room.id === Number(hash)`, comparing a room id with a 256-bit transaction hash | clicking room 3, with hash 0x5c504ed4…1b22060 being confirmed: the row still reads "Set to Unavailable" | show "Confirming..." / "Updating..." on the row that was clicked | not executed | Availability.AsWrittenCounterexample | Availability.ActionLabel |
