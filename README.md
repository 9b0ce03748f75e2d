# Booking core of a travel-experience booking application

This project models the logic of a small booking application in Dafny and proves properties about it. Customers browse a catalogue of experiences, pick a time slot, can apply a promo code at checkout, and book seats. The backend prices bookings and checks capacity. It inserts each booking and raises the slot's booked count in one transaction. The frontend filters the catalogue and runs the checkout form.

Modules, one per component:

- `Wrappers`: `Option` and `Result`.
- `Text`: the JavaScript string operations the source relies on: `toUpperCase`, `toLowerCase`, `includes`, and numbers rendered in template literals.
- `Pricing`: `calculateDiscount`, with its fixed promo table (SAVE10 10%, FLAT100 flat 100, FIRST20 20%, looked up after upper-casing). Also the booking's subtotal, taxes, discount and total.
- `ReferenceIds`: `generateReferenceId`. It builds eight characters over `[A-Z0-9]`. The random draws are an input.
- `BookingRequests`: the request body of `POST /api/bookings` and its validation bounds.
- `Bookings`: the store, a class holding experiences, slots and bookings. `Book` is the request handler and `Transact` the database transaction. The pure function `Decide` says which outcome the transaction reaches. The methods are proved to follow it and to change nothing on failure.
- `PromoValidation`: the decision of `POST /api/promo/validate`.
- `Catalogue`: the home page's fallback to the built-in list, the search filter and the location badge.
- `Checkout`: the 12-hour clock, and the checkout form as a class. The class covers the promo "Apply" guards, the "Pay and Confirm" guards and the displayed total.

Behaviour of the code a reader might not expect:

- "Slot not found" is answered with status 400, like every other booking failure, not 404.
- The backend stores the promo code exactly as sent. It is not upper-cased; only the checkout page upper-cases what is typed. An empty code is stored as null.
- The promo endpoint judges a code valid when its computed discount is non-zero, not when the code is in the table. So SAVE10 on a subtotal from 1 to 4 is reported invalid (`PromoValidation.SmallSubtotalRejectsSave10`).
- Nothing keeps a slot's booked count equal to the seats its bookings hold. Seeding writes booked counts with no bookings behind them. The model therefore proves that every booking preserves the difference between the two (`Bookings.BookingKeepsDrift`).

`Math.round(x / 100)` on an integer `x` is modelled as `(x + 50) / 100` with floor division. That covers negative values too, because JavaScript rounds halves upward. For `|x|` below 2^51 the two agree. There `x` itself is exact, and the rounding error of the double division `x / 100` is below 2^-9, too small to move a quotient across a .5 boundary.

## Model

| member | source | states |
|---|---|---|
| Text.ToUpper | backend/src/index.ts:51 | upper-casing keeps the length and maps each character (ASCII letters to upper case, others unchanged) |
| Text.ToLower | frontend/app/page.tsx:106-108 | lower-casing keeps the length and maps each character (ASCII letters to lower case, others unchanged) |
| Text.ToUpperIdempotent | backend/src/index.ts:51 | upper-casing an upper-cased code changes nothing |
| Text.ToLowerOfToUpper | frontend/app/page.tsx:106-108 | lower-casing erases any earlier upper-casing |
| Text.Includes | frontend/app/page.tsx:106-108 | `s.includes(q)` holds exactly when `q` occurs in `s` at some index |
| Text.IncludesEmpty | frontend/app/page.tsx:102-108 | every string includes the empty string |
| Text.NatToDecimal | frontend/app/checkout/page.tsx:42 | a number renders as decimal digits with no leading zero, one digit exactly below ten |
| Text.DecimalRoundTrip | backend/src/index.ts:181 | reading a rendered number back gives the number |
| Text.IntToDecimal | backend/src/index.ts:181 | `${n}` for an integer with `|n|` below 10^21: a '-' exactly when negative, followed by digits with no leading zero that read back as the magnitude |
| Text.TwoDigitLength | frontend/app/checkout/page.tsx:41 | numbers from 10 to 99 render as two characters |
| Pricing.RoundHundredths | backend/src/index.ts:55 | `Math.round(x/100)`: the nearest integer, with halves rounded up |
| Pricing.RoundHundredthsMonotonic | backend/src/index.ts:55 | rounding preserves order |
| Pricing.Discount | backend/src/index.ts:44-58 | 0 for codes whose upper-cased form is not in the table; 100 for FLAT100 whatever the subtotal; subtotal×10/100 and subtotal×20/100 rounded half-up for SAVE10 and FIRST20 |
| Pricing.DiscountIgnoresCase | backend/src/index.ts:51 | codes that upper-case alike get the same discount |
| Pricing.DiscountOfUpperCased | backend/src/index.ts:51 | an upper-cased code gets the same discount as the code as typed |
| Pricing.DiscountBounds | backend/src/index.ts:54-57 | on a non-negative subtotal, the percentage codes and unknown codes give between 0 and the subtotal; FLAT100 is not clamped and exceeds a subtotal below 100 |
| Pricing.DiscountGrowsWithSubtotal | backend/src/index.ts:44-58 | for every code, a larger subtotal never earns a smaller discount |
| Pricing.Taxes | backend/src/index.ts:186 | taxes are 6% of the subtotal rounded half-up, and lie between 0 and the subtotal for a non-negative subtotal |
| Pricing.PriceBooking | backend/src/index.ts:185-188 | the amounts stored on a booking; the discount applies only when a non-empty code was sent. Its properties are proved in TotalIsTaxedSubtotalLessDiscount, NoPromoTotal and QuoteExamples |
| Pricing.TotalIsTaxedSubtotalLessDiscount | backend/src/index.ts:185-188 | subtotal = price × quantity; the total is within half a unit of subtotal × 1.06 − discount |
| Pricing.NoPromoTotal | backend/src/index.ts:187-188 | with no code, an empty code or an unknown code, the discount is 0 and the total is subtotal + taxes |
| Pricing.QuoteExamples | backend/src/index.ts:185-188 | price 1000, quantity 1: SAVE10 (any case) and FLAT100 give discount 100 and total 960; an unknown code or none gives 1060 |
| Pricing.TotalSign | backend/src/index.ts:54-57 | with a non-negative subtotal and any code but FLAT100, the total is at least the taxes; FLAT100 on a subtotal below 50 gives a negative total |
| ReferenceIds.AlphabetChar | backend/src/index.ts:36 | the character at each draw index: `A`–`Z` for 0–25, then `0`–`9` |
| ReferenceIds.PickOf | backend/src/index.ts:36 | every `[A-Z0-9]` character is the character of some draw index |
| ReferenceIds.Spell | backend/src/index.ts:38-40 | the id spelled by draws has one character per draw, in order |
| ReferenceIds.GenerateReferenceId | backend/src/index.ts:35-42 | the loop builds exactly the id the draws spell, and that id matches `[A-Z0-9]{8}` |
| ReferenceIds.SpellInjective | backend/src/index.ts:36-40 | different draws give different ids, because the alphabet repeats no character |
| ReferenceIds.EveryReferenceIdIsSpelled | backend/src/index.ts:35-42 | every `[A-Z0-9]{8}` string is the id of some draws |
| BookingRequests.Issues | backend/src/index.ts:26-32 | a field is reported exactly when its check fails (slot id not a uuid, quantity outside 1..8, name shorter than 2, email not an email); the request is accepted exactly when nothing is reported |
| BookingRequests.IssuesInSchemaOrder | backend/src/index.ts:26-32 | the reported fields follow the schema's order, each at most once |
| Bookings.Message | backend/src/index.ts:155-229 | the `message` of each refusal: "Invalid request data", "Slot not found", "Only N seats available", and the database's errors for an amount out of range and for a duplicate reference id. Its properties are proved in SeatsMessageNamesCount and FullSlotMessage |
| Bookings.SeatsMessageNamesCount | backend/src/index.ts:181 | "Only N seats available" carries N in decimal, and N can be read back from it |
| Bookings.FullSlotMessage | backend/src/index.ts:181 | a full slot's refusal reads "Only 0 seats available" |
| Bookings.StoredPromo | backend/src/index.ts:196 | `promoCode \|\| null`: an absent or empty code is stored as null, any other code as given |
| Bookings.BookedByAppend | backend/src/index.ts:191-210 | inserting a booking adds its quantity to its own slot's tally of booked seats and to no other slot's |
| Bookings.BookingKeepsDrift | backend/src/index.ts:191-210 | inserting a booking and raising its slot by its quantity leaves every slot's booked count minus its bookings' seats unchanged |
| Bookings.AppendKeepsWellFormed | backend/src/index.ts:191-205 | inserting a well-formed booking whose reference id is not in use keeps every booking well formed and the reference ids distinct |
| Bookings.RaiseKeepsWellFormed | backend/src/index.ts:179-181 | raising a slot by at most its free seats keeps every slot within its capacity |
| Bookings.Raise | backend/src/index.ts:208-210 | the slot's booked count rises by exactly the quantity; all its other fields and every other slot are unchanged |
| Bookings.Decide | backend/src/index.ts:169-205 | the transaction's outcome on a store state: the checks in the source's order (slot, seats, amounts that fit the 32-bit `Int` columns, unique reference id), then the inserted row. Its properties are proved in DecideRefusals, DecideAcceptedBooking and DecideKeepsCapacity, and Store.Transact is proved to follow it |
| Bookings.DecideRefusals | backend/src/index.ts:169-205 | "Slot not found" exactly when the slot is missing; "Only N seats available" exactly when capacity − bookedCount < quantity, with N = capacity − bookedCount, 0 ≤ N < quantity; an amount (subtotal, taxes, discount or total) outside the signed 32-bit range of its `Int` column refuses the insert exactly when the seats suffice; a taken reference id refuses it exactly when the seats suffice and the amounts fit; the transaction itself never reports an invalid request |
| Bookings.DecideAcceptedBooking | backend/src/index.ts:185-205 | the inserted row has the requested slot, seats and customer; the stored promo code is `StoredPromo` of the request's: a non-empty code exactly as sent, otherwise null; price × quantity as subtotal with its taxes, discount and total, each within the signed 32-bit range; the new reference id; status "confirmed" |
| Bookings.DecideKeepsCapacity | backend/src/index.ts:179-181 | after an accepted booking the slot's booked count is the old count plus the quantity, and at most the capacity |
| Bookings.FillingScenario | backend/src/index.ts:179-188 | capacity 8 with 6 booked: 2 seats succeed at 999 each (total 2118) and fill the slot; 1 more seat is refused with 0 available |
| Bookings.OverflowingTotalRefused | backend/src/index.ts:185-205 | one seat at price 2147483647 makes the total 2276332666, past the 32-bit `Int` column, so the booking is refused and nothing is inserted |
| Bookings.Store.constructor | backend/src/index.ts:377-412 | a store starts from catalogue rows that respect capacity, with no bookings |
| Bookings.Store.Book | backend/src/index.ts:152-231 | an invalid request gets "Invalid request data" with its issues and changes nothing; a valid one has the outcome `Decide` gives; a failure changes nothing; a success appends exactly that booking and raises only its slot; every slot's drift is kept |
| Bookings.Store.Transact | backend/src/index.ts:167-214 | the transaction reaches the outcome `Decide` gives for the state before it; on failure slots and bookings are unchanged; on success exactly one booking is appended and only the target slot's booked count rises, by the quantity; the store invariant (capacity respected, amounts within 32 bits, distinct reference ids) is kept |
| PromoValidation.CodeGiven | backend/src/index.ts:238 | JavaScript truthiness of `code`: present and not "". ValidatePromo proves that a 400 is answered exactly when this or SubtotalGiven fails |
| PromoValidation.SubtotalGiven | backend/src/index.ts:238 | JavaScript truthiness of `subtotal`: present and not 0. ValidatePromo proves that a 400 is answered exactly when this or CodeGiven fails |
| PromoValidation.ValidatePromo | backend/src/index.ts:236-265 | a missing or falsy code or subtotal (including 0) gives a 400; otherwise status 200 with newTotal = subtotal − discount; it is valid exactly when the discount is non-zero; an invalid code reports discount 0 and newTotal = subtotal; the message is "Promo code applied successfully" when valid and "Invalid promo code" otherwise |
| PromoValidation.ValidIffRecognised | backend/src/index.ts:245-265 | from a subtotal of 5 upward, a code is reported valid exactly when its upper-cased form is in the table |
| PromoValidation.SmallSubtotalRejectsSave10 | backend/src/index.ts:247-257 | SAVE10 on a subtotal from 1 to 4 rounds to a discount of 0 and is reported invalid |
| PromoValidation.Flat100AlwaysAccepted | backend/src/index.ts:54-57 | FLAT100 is accepted on any non-zero subtotal with discount 100, even when the new total goes below zero |
| PromoValidation.AgreesWithBookingPrice | backend/src/index.ts:187 | the endpoint's discount for a code and subtotal is the one a booking with that code and subtotal gets |
| Catalogue.ChooseCatalogue | frontend/app/page.tsx:120-130 | backend data is used when present with at least 8 items; otherwise, and on error, the built-in catalogue is used; either way at least 8 items |
| Catalogue.Matches | frontend/app/page.tsx:105-108 | the filter's test: title, location or category contains the query, both lower-cased. Keep and SearchKeepsExactlyMatches prove the filter keeps exactly the items it accepts; SearchIgnoresCase proves it ignores the case of the query |
| Catalogue.Keep | frontend/app/page.tsx:105-109 | the filter result is a subsequence of the list and holds every matching item as often as the list does, and no other item |
| Catalogue.Search | frontend/app/page.tsx:101-112 | the empty query returns the list unchanged; any other query returns the filter's result |
| Catalogue.SearchKeepsExactlyMatches | frontend/app/page.tsx:105-110 | a non-empty query yields, in the list's order, exactly the items whose title, location or category contains it ignoring case, never more items than the list |
| Catalogue.KeepEmptyQuery | frontend/app/page.tsx:102-110 | filtering by the empty query would keep every item, so the shortcut for "" changes nothing |
| Catalogue.SearchIgnoresCase | frontend/app/page.tsx:106-108 | queries that lower-case alike give the same results |
| Catalogue.KeepDependsOnLowerCase | frontend/app/page.tsx:106-108 | the filter depends only on the lower-cased query |
| Catalogue.SearchOfUpperCasedQuery | frontend/app/page.tsx:105-108 | searching with the query upper-cased gives the same results as the query as typed |
| Catalogue.LocationBadge | frontend/app/page.tsx:364 | the badge is a prefix of the location with no comma, and it ends where the location ends or at a comma |
| Catalogue.LocationBadgeOfSplit | frontend/app/page.tsx:364 | the badge of a location is exactly its part before the first comma |
| Catalogue.LocationBadgeExamples | frontend/app/page.tsx:364 | "Udupi, Karnataka" gives "Udupi"; "Coorg" gives "Coorg" |
| Checkout.TwelveHour | frontend/app/checkout/page.tsx:39-40 | the displayed hour is in 1..12 and is congruent to the hour modulo 12, so 0 shows as 12 and 13–23 as hour − 12 |
| Checkout.Meridiem | frontend/app/checkout/page.tsx:38 | the suffix is "am" exactly when the hour is below 12, else "pm" |
| Checkout.TwoDigitMinutes | frontend/app/checkout/page.tsx:41 | minutes always show as two digits that read back as the minutes |
| Checkout.ClockText | frontend/app/checkout/page.tsx:42 | the text "h:mm am/pm". ClockTextRoundTrip proves it reads back as the time it shows, and CurrentTime is proved to compute it |
| Checkout.CurrentTime | frontend/app/checkout/page.tsx:34-43 | the step-by-step reassignment of `hours` yields "h:mm am/pm" built from the 12-hour hour, the two-digit minutes and the suffix |
| Checkout.ClockTextRoundTrip | frontend/app/checkout/page.tsx:34-43 | the clock text reads back as the 24-hour time it was made from, so no two times of day display alike |
| Checkout.ReplyOutcome | frontend/app/checkout/page.tsx:297-308 | only a reply that is both successful and valid yields a discount, namely the reply's; "Failed to validate promo code" exactly when the request threw or a successful reply has no data; every other refusal gives "Invalid promo code" |
| Checkout.PayCheck | frontend/app/checkout/page.tsx:470-481 | the checks run in order (name and email filled, email contains '@', terms ticked); the first failure picks the message; there is no alert exactly when all pass |
| Checkout.CheckoutForm.constructor | frontend/app/checkout/page.tsx:9-15 | the form starts empty, with no discount, no promo applied and no confirmation |
| Checkout.CheckoutForm.EnterFullName | frontend/app/checkout/page.tsx:181 | the name field holds what was typed |
| Checkout.CheckoutForm.EnterEmail | frontend/app/checkout/page.tsx:218 | the email field holds what was typed |
| Checkout.CheckoutForm.EnterPromoCode | frontend/app/checkout/page.tsx:257 | the promo field holds what was typed, upper-cased, with no lower-case letter left |
| Checkout.CheckoutForm.SetAgreedToTerms | frontend/app/checkout/page.tsx:348 | the terms flag follows the checkbox |
| Checkout.CheckoutForm.DisplayedTotal | frontend/app/checkout/page.tsx:464 | the total shown: subtotal + taxes − discount. CheckoutTotalMatchesBooking relates it to the backend's booking total |
| Checkout.CheckoutForm.PressApply | frontend/app/checkout/page.tsx:280-291 | pressing Apply up to the `await`: "Please enter a promo code" on an empty code, else "Promo code already applied" when a promo is applied; the request is sent exactly when neither holds, and nothing changes yet |
| Checkout.CheckoutForm.ReceiveReply | frontend/app/checkout/page.tsx:297-308 | when the reply arrives: only a successful and valid reply sets the discount to its own and `promoApplied`, without checking `promoApplied` again; a failed reply gives the reply's alert and changes nothing |
| Checkout.CheckoutForm.ApplyPromo | frontend/app/checkout/page.tsx:279-309 | a press whose reply arrives before anything else happens: refused when the code is empty or a promo is already applied; only a successful and valid reply sets the discount and `promoApplied`; any alert leaves both as they were; no discount appears without an applied promo |
| Checkout.CheckoutForm.PayAndConfirm | frontend/app/checkout/page.tsx:468-490 | the alert is the first failing check; the confirmation data is stored only when all checks pass, and is otherwise unchanged |
| Checkout.CheckoutTotalMatchesBooking | frontend/app/checkout/page.tsx:464 | after applying a non-empty code to price × quantity with the backend's taxes: on a non-zero subtotal the displayed total subtotal + taxes − discount equals the backend's booking total for that code, whether the code was accepted or not; on a zero subtotal the endpoint refuses, so the checkout shows 0, while the booking total is −discount, which is −100 for FLAT100 |
| Checkout.ApplyPromoShowsBookingTotal | frontend/app/checkout/page.tsx:257-464 | a form holding price × quantity and its taxes; after typing a non-empty code and applying the endpoint's answer for it, the form's displayed total is the backend's booking total for that code on a non-zero subtotal, and 0 on a zero subtotal |
| Checkout.DoublePressScenario | frontend/app/checkout/page.tsx:285-301 | two presses before the first reply arrives both pass the guards and both requests go out; the reply that lands last sets the discount the total shows |
| Checkout.ApplyTwiceScenario | frontend/app/checkout/page.tsx:285-301 | once a promo is applied, a second Apply is refused and the total keeps the first discount |

## Left out

- HTTP plumbing: routing, cors, helmet, the rate limiter, the 404 and error handlers, `listen` and the shutdown handler. They are framework I/O.
- `GET /api/experiences`, `GET /api/experiences/:id` and `GET /api/bookings/:referenceId`. These are database queries; their filtering, ordering and joins happen in the ORM.
- The uuid and email format checks belong to the validation library. `Issues` and `Book` take them as the predicates `isUuid` and `isEmail`.
- Request fields of the wrong JSON type (a non-integer or non-numeric quantity or subtotal, a non-string code) fall outside the model's types. Such a non-string code would make the promo endpoint fail with status 500.
- Bookings.Store.Transact: the random draws of `generateReferenceId` are a parameter (`picks`), and a reference id that is already taken becomes the error `ReferenceTaken`. The texts of the database's uniqueness and out-of-range errors are approximated in `Message`.
- Concurrency and isolation. Bookings are modelled one after another; nothing is claimed about two simultaneous bookings of the same slot.
- Pricing.RoundHundredths, Pricing.Discount, PromoValidation.ValidatePromo: JavaScript numbers are IEEE doubles, and the promo endpoint accepts any JSON number. From about 2^51 upward `subtotal * 10` is no longer exact, and the double result can differ from the integer model (SAVE10 on 2251799813685265 gives 225179981368526 in JavaScript, 225179981368527 here). Booking amounts are 32-bit database integers, and `Decide` refuses any that do not fit, so bookings are not affected.
- Text.IntToDecimal: JavaScript writes numbers of magnitude 10^21 and above in exponent form ("1e+21"); the model always writes plain digits. Seat counts never come near that size.
- Checkout.CheckoutForm.ApplyPromo: models a press whose reply arrives before the next event. Overlapping presses are modelled by PressApply and ReceiveReply; other interleavings of typing with a pending request are not explored.
- Pricing.Taxes: `Math.round(subtotal * 0.06)` in floating point is approximated by integer rounding of subtotal × 6 / 100. 0.06 has no exact binary form, but the two roundings could differ only where 6 × subtotal / 100 ends in exactly .5, that is for subtotals ≡ 25 (mod 50). At every such subtotal from 0 to 2^31 − 1 the double result equals the integer one, so for a non-negative subtotal a stored booking can hold, the model is exact.
- Text.ToUpper, Text.ToLower: case mapping covers ASCII letters only. JavaScript maps all of Unicode; for example U+017F (long s) upper-cases to "S", so "ſave10" is a valid code in the source but not in the model.
- BookingRequests.Issues: the minimum name length counts Dafny characters; the source counts UTF-16 code units.
- Database-generated columns: row ids, timestamps, and the experience rating and review count.
- Frontend side effects: `fetch`, `sessionStorage`, `alert` and page navigation. Fetch results are parameters; alerts and stored data are return values and fields.
- The checkout's default booking details, used when nothing was handed over (frontend/app/checkout/page.tsx:17-32), are not modelled.
- Not modelled: the database seeding script, the confirmation page, the experience details page and the styling configuration.
