# My Productive Space booking rules, modelled in Dafny

My Productive Space is a co-working booking site. It has a Next.js front end
and a small Express back end. Most of the code is UI and calls to hosted
services, but the pure rules inside its handlers decide what a customer is
charged and what a page shows. This project models those rules and proves
properties of them:

- the booking quote: the voucher discount, billable hours, rate × hours ×
  people, and the 9% tax. The pass-purchase page has its own order total.
- entitlement selection on the booking page: promo validation, the
  package/voucher exclusion, and the usable-package test.
- the head-count breakdown. The people selector clamps and floors the
  counts. The landing form and the booking page keep `people` in step with
  the breakdown. The query string carries the form over to the booking page.
- the seat-selection toggle, and the per-slot student validation list.
- the payment-request payload, the provider error reply, and the webhook
  acknowledgement.
- the booking-confirmation e-mail template.
- the route guard.
- the admin and dashboard list logic.
- the ordered validation chains of the auth modal, the auth form and the
  reset-password page.
- the toast-parameter cleanup on the home page.

Each handler is a pure function from the old page state to the new one.
Money is an exact `real`. The two-decimal rounding `Math.round(x * 100) / 100`
is an explicit round-half-up to cents. An instant is an integer number of
milliseconds. Hosted calls are inputs: sign-in, sign-up, password reset,
the payment provider's reply, and the current time. Phone validity and the
captcha token are inputs too.

One module per source file or component:

| module | file |
|---|---|
| `Wrappers`, `Lists`, `Text`, `Query`, `Money` | shared helpers: options, filters, ASCII case mapping and JS trimming, decimal text, URL search parameters, cents |
| `Pricing` | the quote engine of `BookingClient.tsx` |
| `Entitlement` | `EntitlementTabs.tsx` and the entitlement `onChange` of `BookingClient.tsx` |
| `PeopleSelector` | `PeopleSelector.tsx` |
| `HeadCount`, `BookingLink`, `BookingPrefill`, `BookingRoundTrip` | the head-count handlers of `BookingForm.tsx` and `BookingClient.tsx`, and the query-string hand-off between them |
| `SeatPicker`, `StudentValidation` | the two booking-page components |
| `BuyPass` | `BuyPassClient.tsx` |
| `Payment`, `ConfirmationEmail` | `payment.js`, `bookingConfirmation.js` |
| `RouteGuard`, `HomeToast` | `middleware.ts`, `HomeToast.tsx` |
| `Admin`, `Dashboard` | the admin and dashboard pages |
| `FormChecks`, `AuthModal`, `AuthForm`, `ResetPassword` | first-failure validation chains and the three forms |

## Model

| member | source | states |
|---|---|---|
| Money.RoundCents | frontend/src/app/book-now/BookingClient.tsx:88-91 | the result is a whole number of cents within half a cent of the input, and a tie goes up (`r - 0.005 <= x < r + 0.005`); a non-negative amount stays non-negative |
| Money.RoundCentsOfCents | frontend/src/app/book-now/BookingClient.tsx:88-91 | rounding leaves an amount already in whole cents unchanged |
| Money.RoundCentsMonotone | frontend/src/app/book-now/BookingClient.tsx:88-91 | rounding never reverses the order of two amounts |
| Money.ChargeFor | frontend/src/app/book-now/BookingClient.tsx:346-347 | the total is subtotal plus tax and equals 109% of the unrounded subtotal; for a non-negative subtotal, 0 <= tax <= subtotal <= total |
| Pricing.RawDiscountWithinPrice | frontend/src/app/book-now/BookingClient.tsx:80-84 | a well-formed voucher's unrounded discount lies between 0 and a non-negative price: a percentage of at most 100, or the fixed amount capped by `Math.min` at the price |
| Pricing.RawDiscount | frontend/src/app/book-now/BookingClient.tsx:80-84 | a percentage voucher takes price × value / 100; a fixed-amount voucher takes the smaller of its value and the price |
| Pricing.RoundedBounds | frontend/src/app/book-now/BookingClient.tsx:86-91 | rounding to cents keeps a discount between 0 and the rounded price and keeps the final price at or below it |
| Pricing.CalculateDiscount | frontend/src/app/book-now/BookingClient.tsx:74-92 | the discount is the unrounded discount rounded to cents; the final price is the price less that discount rounded to cents, or 0 once the discount reaches the price; both figures are whole cents and never negative; for a non-negative price and a well-formed voucher both lie between 0 and the rounded price |
| Pricing.DiscountSplitWithinCent | frontend/src/app/book-now/BookingClient.tsx:86-91 | the rounded discount and the rounded final price add back to the price to within one cent |
| Pricing.DiscountSplitExact | frontend/src/app/book-now/BookingClient.tsx:86-91 | when the price and the unrounded discount are whole cents, the two figures add back to the price exactly |
| Pricing.FindLocation | frontend/src/app/book-now/BookingClient.tsx:337 | a found location is in the rate table and has the requested id; nothing is found exactly when no location has that id |
| Pricing.CeilHours | frontend/src/app/book-now/BookingClient.tsx:338 | the result is the least whole number of hours covering the span: `(h - 1)·1h < d <= h·1h` |
| Pricing.BillableHours | frontend/src/app/book-now/BookingClient.tsx:338 | 0 unless both instants are set; otherwise at least 1, exactly 1 for a span of at most one hour (an end at or before the start included), and the least covering whole hours for a longer span |
| Pricing.BaseSubtotal | frontend/src/app/book-now/BookingClient.tsx:337-339 | 0 for an id missing from the rate table; otherwise the found location's rate × hours × people; never negative for a non-negative head count |
| Pricing.VoucherDiscount | frontend/src/app/book-now/BookingClient.tsx:342-344 | without a voucher nothing is taken off and the final price is the base; with one the result is exactly `calculateDiscount` of the base and that voucher |
| Pricing.ComputeQuote | frontend/src/app/book-now/BookingClient.tsx:337-347 | hours are the billable hours; the base is the located rate × hours × people, or 0 for an unknown location; with no voucher the subtotal is the base and the discount 0; with a voucher the discount and the subtotal are `calculateDiscount`'s discount and final price for the base; the total is subtotal + tax = 109% of the subtotal; 0 <= subtotal <= total |
| Pricing.ExampleQuote | frontend/src/app/book-now/BookingClient.tsx:337-347 | four hours at Bukit Panjang for two people with SAVE20 quote 200 base, 40 off, 160 subtotal, 14.4 tax, 174.4 total |
| Entitlement.OnChange | frontend/src/app/book-now/BookingClient.tsx:588-603 | package mode takes the value as the package and clears promo, validity and voucher; promo mode takes the value as the code, clears the package, marks it valid iff non-empty, and applies the catalogue voucher with exactly that code, or none iff no entry has it; a package and a voucher are never both in force |
| Entitlement.TabSwitch | frontend/src/components/book-now-sections/EntitlementTabs.tsx:163 | switching tabs leaves no package, no code, no validity and no voucher |
| Entitlement.ValidatePromo | frontend/src/components/book-now-sections/EntitlementTabs.tsx:125-127 | a found voucher is in the catalogue, active, and has the upper-cased input as its code; nothing is found exactly when no active entry has that code |
| Entitlement.ReportedCode | frontend/src/components/book-now-sections/EntitlementTabs.tsx:129-135 | a successful validation reports the voucher's code and a failed one reports '' |
| Entitlement.ValidatedPromoIsActive | frontend/src/components/book-now-sections/EntitlementTabs.tsx:125-135 | for a catalogue with distinct codes, validating and then reporting applies a voucher iff validation found one, and that voucher is active and matches the upper-cased input; the promo counts as valid iff validation succeeded |
| Entitlement.PromoInputEdit | frontend/src/components/book-now-sections/EntitlementTabs.tsx:362 | the edited input has the typed length, each character is the upper-case form of the typed one, and it is the typed text up to case: lower-casing both gives the same text |
| Entitlement.ValidateDisabled | frontend/src/components/book-now-sections/EntitlementTabs.tsx:368 | Validate is disabled exactly when every character of the input is white space |
| Entitlement.SubmitDisabled | frontend/src/app/book-now/BookingClient.tsx:614-619 | an enabled submit implies a valid form, no request in flight, a chosen package in package mode and a valid promo in promo mode |
| Entitlement.SubmitEnabledAfterValidateHasVoucher | frontend/src/app/book-now/BookingClient.tsx:614-619 | once a validated code enables submit in promo mode, a voucher is applied |
| Entitlement.TestVouchersWellKeyed | frontend/src/app/book-now/BookingClient.tsx:37-71 | the three test vouchers have distinct non-empty codes, sensible values, and are all active |
| Entitlement.Remaining | frontend/src/components/book-now-sections/EntitlementTabs.tsx:192 | passes left plus passes used equals the package's total |
| Entitlement.HasValidPackages | frontend/src/components/book-now-sections/EntitlementTabs.tsx:156-158 | true exactly when some package is not expired and has a pass left |
| Entitlement.OptionDisabled | frontend/src/components/book-now-sections/EntitlementTabs.tsx:192-194 | a package is offered disabled exactly when all its passes are used; a usable package is never disabled |
| PeopleSelector.With | frontend/src/components/PeopleSelector.tsx:70 | only the edited count takes the new value; the total moves by the difference |
| PeopleSelector.Clamp | frontend/src/components/PeopleSelector.tsx:63 | the result lies in min..max when min <= max; a value already in range is kept; min wins when the bounds cross |
| PeopleSelector.Update | frontend/src/components/PeopleSelector.tsx:62-66 | reports the clamped value, which lies in min..max and equals the request when that is in range; an uncontrolled selector then shows the reported value; a controlled one keeps its state |
| PeopleSelector.SimpleClicksAreExact | frontend/src/components/PeopleSelector.tsx:113-123 | an enabled simple-mode minus or plus reports exactly one step down or up |
| PeopleSelector.SimpleMinusDisabled | frontend/src/components/PeopleSelector.tsx:114 | within max, the minus button is disabled iff a step down would be clamped |
| PeopleSelector.SimplePlusDisabled | frontend/src/components/PeopleSelector.tsx:123 | with ordered bounds and at least min, the plus button is disabled iff a step up would be clamped |
| PeopleSelector.Floored | frontend/src/components/PeopleSelector.tsx:69 | the edited count is never negative: a negative edit becomes 0, and a non-negative edit is kept |
| PeopleSelector.ProposedOfNonNegative | frontend/src/components/PeopleSelector.tsx:68-77 | from non-negative counts the proposal stays non-negative; its total is the edited sum, or 1 when that is 0; the edited count is the floored value unless co-workers were forced to 1 |
| PeopleSelector.ProposedForcesCoWorkers | frontend/src/components/PeopleSelector.tsx:72-76 | editing a count other than co-workers changes the co-workers only when everyone would be gone: they go from 0 to 1 and the total is 1 |
| PeopleSelector.ProposedFacts | frontend/src/components/PeopleSelector.tsx:68-77 | the proposal's totals and counts: non-negative, total as edited or 1, only the edited kind changes apart from the forced co-worker |
| PeopleSelector.UpdateBreakdown | frontend/src/components/PeopleSelector.tsx:68-83 | an edit whose committed total exceeds max leaves the counts unchanged; otherwise the new total is the edited sum (at least 1) and only the edited count changes, apart from the forced co-worker; counts never turn negative; a changed breakdown totals 1..max |
| PeopleSelector.UpdateBreakdownKeepsValid | frontend/src/components/PeopleSelector.tsx:68-83 | an edit keeps a breakdown with non-negative counts totalling 1..max in that state |
| PeopleSelector.MinusClickCommits | frontend/src/components/PeopleSelector.tsx:161-162 | an enabled minus button removes exactly one person of its kind |
| PeopleSelector.PlusClickCommits | frontend/src/components/PeopleSelector.tsx:171-172 | an enabled plus button adds exactly one person of its kind |
| PeopleSelector.MinusDisabled | frontend/src/components/PeopleSelector.tsx:162 | for non-negative counts the minus button is enabled iff one of its kind can be taken away and somebody still remains |
| PeopleSelector.PlusDisabled | frontend/src/components/PeopleSelector.tsx:172 | the plus button is enabled iff one more person of any kind still fits within max |
| PeopleSelector.BreakdownEffect | frontend/src/components/PeopleSelector.tsx:48-60 | in breakdown mode the effect reports the sum clamped to min..max: the sum itself when in range, min below it, max above it; an uncontrolled selector stores that clamped value; it reports the breakdown, with the clamped total, iff the sum differs from the current value; outside breakdown mode nothing happens |
| HeadCount.Retotal | frontend/src/app/book-now/BookingClient.tsx:306-310 | the total becomes n; tutors and students are kept; co-workers absorb the difference but stay at least 1, so the counts add up to n exactly when that leaves a co-worker, and exceed n otherwise |
| HeadCount.ClientPeopleChange | frontend/src/app/book-now/BookingClient.tsx:303-312 | `people` becomes n and agrees with the breakdown total; the breakdown is kept when its total already is n and retotalled otherwise |
| HeadCount.FormPeopleChange | frontend/src/components/landing-page-sections/BookingForm.tsx:89-102 | an unchanged count is a no-op; otherwise it acts as on the booking page; a party whose count matches its total keeps matching |
| HeadCount.ClientBreakdownChange | frontend/src/app/book-now/BookingClient.tsx:314-319 | the breakdown is taken and `people` follows its total |
| HeadCount.FormBreakdownChange | frontend/src/components/landing-page-sections/BookingForm.tsx:105-114 | a field-by-field equal breakdown is a no-op; otherwise it acts as on the booking page; agreement of count and total is preserved |
| HeadCount.EffectSyncsPage | frontend/src/components/PeopleSelector.tsx:48-60 | when the selector's effect reports a breakdown, either page ends up holding exactly the selector's counts, with `people` and the total both equal to the clamped sum |
| HeadCount.EffectDeliversConsistentParty | frontend/src/components/PeopleSelector.tsx:48-60 | with a valid selector breakdown the page's party is in sync, its breakdown adds up, and its head count lies in min..max |
| HeadCount.StartChange | frontend/src/components/landing-page-sections/BookingForm.tsx:52-58 | the start becomes the picked value, possibly none; the end is kept iff a start was picked and the end falls on the same day and strictly after it, and cleared otherwise, clearing the start included |
| HeadCount.BookNowOpensModal | frontend/src/components/landing-page-sections/BookingForm.tsx:60-69 | the auth modal opens iff a location, a start and an end are all set |
| BookingLink.ContinueParams | frontend/src/components/landing-page-sections/BookingForm.tsx:75-83 | the link carries exactly the seven keys location, people, start, end, coWorkers, coTutors, coStudents in that order, and each reads back the value Continue wrote for it |
| BookingPrefill.CountParam | frontend/src/app/book-now/BookingClient.tsx:253-255 | an absent count reads as its default; a present one is parsed as a decimal integer |
| BookingPrefill.NonEmpty | frontend/src/app/book-now/BookingClient.tsx:269-271 | a value is taken iff it is present and non-empty |
| BookingPrefill.InstantParam | frontend/src/app/book-now/BookingClient.tsx:270-271 | an absent or empty instant is ignored; a present one is parsed |
| BookingPrefill.Counted | frontend/src/app/book-now/BookingClient.tsx:253-256 | the party of three counts keeps them, and its `people` and total both equal their sum |
| BookingPrefill.PartyOf | frontend/src/app/book-now/BookingClient.tsx:253-256 | a party exists iff all three counts parsed |
| BookingPrefill.PrefillParty | frontend/src/app/book-now/BookingClient.tsx:253-274 | a recovered party carries the three counts as read with defaults 1, 0 and 0; its `people` and total are their sum; none is recovered iff some count does not parse |
| BookingRoundTrip.MissingParamsPrefill | frontend/src/app/book-now/BookingClient.tsx:245-274 | a query string without the six fields gives no location, start or end, and the initial one-co-worker party |
| BookingPrefill.ClientPrefill | frontend/src/app/book-now/BookingClient.tsx:245-274 | the location is taken iff its parameter is present and non-empty; a start or end comes only from a present parameter, parsed; a party always has people equal to its counts' sum and a matching total |
| BookingRoundTrip.PrefillReadsSixKeys | frontend/src/app/book-now/BookingClient.tsx:245-274 | the prefill depends only on the location, start, end and three count parameters: query strings that agree on those six prefill alike |
| BookingRoundTrip.PeopleParamIgnored | frontend/src/app/book-now/BookingClient.tsx:245-274 | the `people` parameter plays no part: removing it from the query string leaves the prefill unchanged |
| BookingRoundTrip.ModalLinkPrefillsBooking | frontend/src/components/landing-page-sections/BookingForm.tsx:60-86 | whenever Book Now opens the modal, start and end are set, and the link Continue builds prefills the booking page with that location, start and end |
| BookingRoundTrip.CountReadBack | frontend/src/app/book-now/BookingClient.tsx:253-255 | a count written as decimal text reads back as the same count |
| BookingRoundTrip.PrefillOfWrittenCounts | frontend/src/app/book-now/BookingClient.tsx:253-256 | counts written as decimal text come back as the party they describe |
| BookingRoundTrip.ContinueRoundTripParty | frontend/src/components/landing-page-sections/BookingForm.tsx:75-83 | the booking page reads the party back from Continue's link with the form's three counts and their sum |
| BookingRoundTrip.ContinueRoundTrip | frontend/src/components/landing-page-sections/BookingForm.tsx:75-85 | the booking page recovers the form's start, end and counts from Continue's link, and its location unless that was empty |
| BookingRoundTrip.ContinuePreservesSyncedParty | frontend/src/components/landing-page-sections/BookingForm.tsx:75-85 | a form party whose count matches its breakdown total, and whose total is the sum of its counts, arrives unchanged |
| SeatPicker.Remove | frontend/src/components/book-now-sections/SeatPicker.tsx:65 | exactly the seat is removed, every other seat keeps its place and its multiplicity, so the result is a subsequence of the selection; a list without repeats stays without repeats; removing an absent seat changes nothing |
| SeatPicker.ToggleSeat | frontend/src/components/book-now-sections/SeatPicker.tsx:61-70 | a booked seat changes nothing and reports nothing; a free seat flips membership, other seats keep theirs, an added seat goes last, and the callback receives exactly the new selection |
| SeatPicker.ToggleKeepsDisjoint | frontend/src/components/book-now-sections/SeatPicker.tsx:61-70 | a selection with no booked seat keeps none after a toggle |
| SeatPicker.ToggleTwice | frontend/src/components/book-now-sections/SeatPicker.tsx:63-69 | toggling a free seat twice restores the set of selected seats; the exact list comes back when the seat started unselected, and otherwise the seat moves to the end |
| SeatPicker.SeatFill | frontend/src/components/book-now-sections/SeatPicker.tsx:114-120 | booked wins over selected and selected over free: each colour is shown exactly in its case |
| SeatPicker.ToggleFlipsFill | frontend/src/components/book-now-sections/SeatPicker.tsx:114-120 | a click swaps a free seat's colour between selected and free, keeps a booked seat grey, and leaves every other seat's colour alone |
| StudentValidation.Lookup | frontend/src/components/book-now-sections/StudentValidation.tsx:35-41 | 'Account not found' iff no student matches the id or e-mail without regard to case; 'Account suspended' iff the first match is not active; success returns an active matching student |
| StudentValidation.LookupIgnoresCase | frontend/src/components/book-now-sections/StudentValidation.tsx:37 | upper-casing the query does not change the result |
| StudentValidation.FirstMatchDecides | frontend/src/components/book-now-sections/StudentValidation.tsx:37-40 | the first matching student decides the result: found when active, suspended otherwise |
| StudentValidation.LowerCaseIdFound | frontend/src/components/book-now-sections/StudentValidation.tsx:37-40 | the mock id `stu001` typed in lower case finds the first mock student |
| StudentValidation.FreshSlot | frontend/src/components/book-now-sections/StudentValidation.tsx:52 | a new slot i is `student-{i+1}`, empty, not validating, invalid, with no data and no error |
| StudentValidation.Resized | frontend/src/components/book-now-sections/StudentValidation.tsx:48-56 | the list has the requested length (0 for a non-positive number); slots below the old length are kept, and the rest are fresh |
| StudentValidation.Resize | frontend/src/components/book-now-sections/StudentValidation.tsx:48-56 | the loop that builds the slots produces exactly the resized list |
| StudentValidation.ResizeTwice | frontend/src/components/book-now-sections/StudentValidation.tsx:48-56 | resizing to m and then to n is one resize to n whenever n <= m or the old list already fits in m, because the slots that survive are never rebuilt |
| StudentValidation.Report | frontend/src/components/book-now-sections/StudentValidation.tsx:61-62 | all-valid holds iff the list is non-empty and every slot is valid; the reported list holds exactly the valid slots |
| StudentValidation.AllValidIffNothingFiltered | frontend/src/components/book-now-sections/StudentValidation.tsx:61-62 | all-valid holds iff the list is non-empty and filtering for valid slots removes none |
| StudentValidation.Merge | frontend/src/components/book-now-sections/StudentValidation.tsx:68 | each field the patch supplies replaces the slot's own; the rest, and the id, are kept |
| StudentValidation.UpdateSlot | frontend/src/components/book-now-sections/StudentValidation.tsx:67-69 | the patch is merged into slot i only; every other slot, and the length, stay the same |
| StudentValidation.HandleValidate | frontend/src/components/book-now-sections/StudentValidation.tsx:71-77 | a blank id is a no-op; otherwise the slot first shows validating with no error, then takes the lookup's verdict, data and error; other slots are untouched |
| StudentValidation.EditStudentId | frontend/src/components/book-now-sections/StudentValidation.tsx:94 | editing slot i takes the text and resets validity and error; other slots are untouched |
| StudentValidation.EditClearsAllValid | frontend/src/components/book-now-sections/StudentValidation.tsx:94 | after an edit the list is not all valid and the edited slot is not reported |
| StudentValidation.ValidateDisabled | frontend/src/components/book-now-sections/StudentValidation.tsx:97 | an enabled Validate button implies a non-blank id, no lookup in flight and a slot not yet valid |
| BuyPass.LookupFinds | frontend/src/app/buy-pass-tmp/BuyPassClient.tsx:40-94 | a found package is in the catalogue under that name; nothing is found exactly when no entry has the name |
| BuyPass.CatalogueDiscounted | frontend/src/app/buy-pass-tmp/BuyPassClient.tsx:40-94 | every catalogue entry sells for a positive price below its original price, with a non-negative add-on |
| BuyPass.Subtotal | frontend/src/app/buy-pass-tmp/BuyPassClient.tsx:186-189 | 0 with no catalogue package selected; otherwise (price + add-on) × quantity; never negative for a non-negative quantity |
| BuyPass.OrderCharge | frontend/src/app/buy-pass-tmp/BuyPassClient.tsx:186-191 | the charge is built on the subtotal, the total is 109% of it, and 0 <= subtotal <= total |
| BuyPass.SubtotalBounds | frontend/src/app/buy-pass-tmp/BuyPassClient.tsx:189 | for the quantities 1 to 5 on offer the subtotal lies between one and five times (price + add-on) |
| BuyPass.AcceptPackageParam | frontend/src/app/buy-pass-tmp/BuyPassClient.tsx:175-180 | a non-empty parameter naming a catalogue entry is selected; anything else leaves the selection as it was, so the selection never leaves the catalogue unless it was outside before |
| BuyPass.AcceptTypeParam | frontend/src/app/buy-pass-tmp/BuyPassClient.tsx:181-183 | a non-empty type parameter is taken; an absent or empty one keeps the current type |
| BuyPass.PackagesOfType | frontend/src/app/buy-pass-tmp/BuyPassClient.tsx:323-326 | the whole catalogue when no type is given; otherwise exactly the entries of that type, in catalogue order |
| BuyPass.ShownSavings | frontend/src/app/buy-pass-tmp/BuyPassClient.tsx:646-655 | the original is the package's original price × quantity, and original minus saving is the price × quantity; for a discounted package and a positive quantity the saving is positive and below the original |
| BuyPass.IsFormValid | frontend/src/app/buy-pass-tmp/BuyPassClient.tsx:210 | valid iff a package, a name, an e-mail, a phone number, accepted terms and a signed-in user are all present |
| BuyPass.SubmitDisabled | frontend/src/app/buy-pass-tmp/BuyPassClient.tsx:467 | the button is enabled iff the form is valid, a user is signed in and nothing is loading; while loading it is always disabled |
| BuyPass.SubmitNeedsCompleteForm | frontend/src/app/buy-pass-tmp/BuyPassClient.tsx:210-467 | an enabled button means every field present, terms accepted, a signed-in user and no purchase loading; the button's own user test adds nothing to the form check |
| BuyPass.HandlePurchaseSubmit | frontend/src/app/buy-pass-tmp/BuyPassClient.tsx:193-202 | without a user only the sign-in modal opens; with one the page starts loading; the step never changes here |
| BuyPass.PurchaseCompletes | frontend/src/app/buy-pass-tmp/BuyPassClient.tsx:204-207 | the completed call stops loading and shows step 3 |
| BuyPass.EnabledSubmitStartsPurchase | frontend/src/app/buy-pass-tmp/BuyPassClient.tsx:193-210 | a submit the button allows starts the purchase rather than the sign-in modal, and reaches step 3 |
| BuyPass.PrefillName | frontend/src/app/buy-pass-tmp/BuyPassClient.tsx:139 | for any profile names, trimmed as the source trims the joined text: the trimmed last name when the first is missing or blank, the trimmed first name when only the last is missing or blank, else the first name without leading space, one space, and the last name without trailing space |
| BuyPass.NameTrimming | frontend/src/app/buy-pass-tmp/BuyPassClient.tsx:139 | trimming `first + ' ' + last` removes exactly the separating space when a part is empty |
| Payment.Default | backend/controllers/payment.js:24-28 | exactly the four keys payment_methods, send_email, send_sms and allow_repeated_payments have defaults |
| Payment.Assemble | backend/controllers/payment.js:31-51 | every entry is a listed key with its defined value; every listed key with a value appears |
| Payment.BuildPayload | backend/controllers/payment.js:15-51 | the payload holds only the thirteen named keys |
| Payment.AssembleKeysInOrder | backend/controllers/payment.js:31-51 | the payload's keys appear in the order the payload object lists them |
| Payment.Lookup | backend/controllers/payment.js:47-51 | reading a key finds an entry with it, or nothing exactly when no entry has it |
| Payment.AssembleLookup | backend/controllers/payment.js:31-51 | a listed key reads back its value (given or defaulted) and an unlisted key reads back nothing |
| Payment.PayloadFields | backend/controllers/payment.js:15-51 | a named key present in the body passes through unchanged, even as null, false or ''; an absent one takes its default or is dropped; any other key is dropped |
| Payment.DefaultedKeysPresent | backend/controllers/payment.js:24-28 | the four defaulted keys are always in the payload |
| Payment.ExtraFieldsIgnored | backend/controllers/payment.js:31-51 | a body field outside the listed keys does not change the assembled entries |
| Payment.ExtraFieldIgnored | backend/controllers/payment.js:15-45 | adding or changing a body field that is not one of the thirteen leaves the payload unchanged |
| Payment.ErrorValue | backend/controllers/payment.js:59 | the provider's data when present and truthy, else the error message |
| Payment.ErrorDetails | backend/controllers/payment.js:60 | `HTTP <status>` when the provider's response carries a non-zero status, and 'Network Error' when there is no response or its status is missing or 0 (falsy) |
| Payment.CreatePayment | backend/controllers/payment.js:53-62 | success relays the provider's data with status 200; failure answers 500 with exactly an error and a details field |
| Payment.ErrorStatusRecoverable | backend/controllers/payment.js:56-61 | the details of a failed request name the provider's status, which parses back from the text |
| Payment.NetworkFailureReply | backend/controllers/payment.js:56-61 | a failure with no provider response answers 500 with the message and 'Network Error' |
| Payment.HandleWebhook | backend/controllers/payment.js:65-70 | every event is answered 200 'OK' |
| ConfirmationEmail.ShownReference | backend/templates/bookingConfirmation.js:15 | a non-empty reference is shown as given; a missing or empty one shows as 'N/A'; the shown text is never empty |
| ConfirmationEmail.ReferenceFallback | backend/templates/bookingConfirmation.js:15 | 'N/A' is shown iff the reference is missing, empty, or itself 'N/A' |
| ConfirmationEmail.Render | backend/templates/bookingConfirmation.js:1-25 | the subject is the fixed constant; the body contains the greeting to the user's name, the reference line and the 'SGD' amount line |
| ConfirmationEmail.NameReadBack | backend/templates/bookingConfirmation.js:11 | the user's name sits at a fixed offset of the body and can be read back from it |
| ConfirmationEmail.SubjectIsConstant | backend/templates/bookingConfirmation.js:2 | the subject is the same whatever the user and the booking |
| RouteGuard.StartsWithAny | frontend/src/middleware.ts:63-66 | true exactly when the path starts with one of the routes |
| RouteGuard.Guard | frontend/src/middleware.ts:49-74 | home iff a signed-in user asks for an exact auth route; login iff an anonymous user asks for a path under a protected prefix; otherwise the request passes |
| RouteGuard.RedirectMatchesSession | frontend/src/middleware.ts:55-72 | a signed-in user is never sent to the login page and an anonymous one never home |
| RouteGuard.RedirectSettles | frontend/src/middleware.ts:49-74 | following a redirect, the target passes through: the guard never redirects twice |
| RouteGuard.ProtectionExtends | frontend/src/middleware.ts:63-66 | protection is by prefix: any extension of a protected path is protected, `/settingsX` included |
| RouteGuard.AuthRouteIsExact | frontend/src/middleware.ts:49-52 | auth routes match exactly: no longer path is one |
| RouteGuard.AuthRoutesUnprotected | frontend/src/middleware.ts:49-66 | no auth route is protected |
| RouteGuard.Middleware | frontend/src/middleware.ts:5-13 | a path outside the matcher passes untouched; a matched path gets the guard's decision; a redirect happens only on a matched auth or protected path |
| RouteGuard.Matched | frontend/src/middleware.ts:9-13 | a matched path starts with `/`; such a path is matched iff it starts with neither `/_next/static` nor `/_next/image`, does not start with `/favicon`, any one character and `ico`, and does not end in .svg, .png, .jpg, .jpeg, .gif or .webp |
| RouteGuard.ProtectedImageBypassesGuard | frontend/src/middleware.ts:9-13 | an image under a protected prefix would be sent to login by the guard, yet the matcher lets it through for a signed-out visitor |
| RouteGuard.PagesReachGuard | frontend/src/middleware.ts:9-13 | a page path without a dot, outside `/_next/` and not starting with `/favicon`, is matched, so the middleware decides as the guard does |
| RouteGuard.MiddlewareSettles | frontend/src/middleware.ts:5-74 | following a middleware redirect, the target passes through |
| HomeToast.IsToastType | frontend/src/components/HomeToast.tsx:36-38 | false for a missing value; true exactly for login, signUp and logOut, each of which has a toast |
| HomeToast.RemoveUrlParam | frontend/src/components/HomeToast.tsx:44-49 | the new address is the bare path when no other parameter remains, and otherwise the path, '?' and the remaining parameters |
| HomeToast.RemovalIsClean | frontend/src/components/HomeToast.tsx:45-46 | no toastType entry remains; every other entry is kept in order and with its multiplicity; deleting again changes nothing |
| HomeToast.OnlyToastParamLeavesBarePath | frontend/src/components/HomeToast.tsx:47 | an address whose only parameter is the toast becomes the bare path |
| HomeToast.ToastEffect | frontend/src/components/HomeToast.tsx:51-57 | a toast is shown iff the parameter is a known type, with that type's text; the address is cleaned iff a toast was shown |
| HomeToast.ToastShownOnce | frontend/src/components/HomeToast.tsx:51-57 | on the cleaned address the effect shows nothing and changes nothing |
| Admin.FilterCancellations | frontend/src/app/admin/page.tsx:188-194 | a request is kept iff its name, e-mail or reference contains the term without regard to case and the status filter is 'all' or its status; the result keeps the input order; each kept item keeps its multiplicity |
| Admin.FilterUsers | frontend/src/app/admin/page.tsx:197-202 | a user is kept iff the name or e-mail contains the term without regard to case and the status filter is 'all' or its verification status; input order is kept; each kept item keeps its multiplicity |
| Admin.EmptySearchShowsAll | frontend/src/app/admin/page.tsx:188-202 | an empty term with 'all' shows every entry of both lists |
| Admin.FiltersIdempotent | frontend/src/app/admin/page.tsx:188-202 | filtering twice gives the same list as filtering once |
| Admin.SearchIgnoresCase | frontend/src/app/admin/page.tsx:188-194 | upper-casing the term changes nothing |
| Admin.ApplyRequestAction | frontend/src/app/admin/page.tsx:133-137 | the request with the id becomes processed on approve and rejected on reject; every other request is unchanged |
| Admin.ApplyUserAction | frontend/src/app/admin/page.tsx:159-163 | the user with the id becomes verified or rejected; every other user is unchanged |
| Admin.DecisionsIdempotent | frontend/src/app/admin/page.tsx:133-163 | repeating a decision changes nothing further |
| Admin.DecidedLeavesPending | frontend/src/app/admin/page.tsx:133-194 | after a decision, the decided request no longer shows under the 'pending' filter |
| Dashboard.Upcoming | frontend/src/app/dashboard/page.tsx:170-172 | exactly the confirmed bookings dated now or later, in input order; each kept item keeps its multiplicity |
| Dashboard.Past | frontend/src/app/dashboard/page.tsx:173-175 | exactly the bookings dated before now, completed or cancelled, in input order; each kept item keeps its multiplicity |
| Dashboard.UpcomingPastPartition | frontend/src/app/dashboard/page.tsx:170-175 | every booking is upcoming or past and never both, so the two lists together are as long as the input |
| Dashboard.CancelBooking | frontend/src/app/dashboard/page.tsx:199-203 | the booking with the id becomes cancelled and loses its edit and cancel rights, with its other fields kept; every other booking is unchanged |
| Dashboard.CancelMovesToPast | frontend/src/app/dashboard/page.tsx:170-203 | the cancelled booking leaves the upcoming list and joins the past; every other upcoming booking stays |
| Dashboard.CancelKeepsTotalSpent | frontend/src/app/dashboard/page.tsx:334 | cancelling does not change the total spent, since cancelled bookings still count |
| Dashboard.TotalSpentBounds | frontend/src/app/dashboard/page.tsx:334 | with non-negative amounts the total spent is non-negative and at least any single booking's amount |
| Dashboard.TotalSpent | frontend/src/app/dashboard/page.tsx:334 | no bookings spend 0 and one booking spends its amount |
| Dashboard.TotalSpentConcat | frontend/src/app/dashboard/page.tsx:334 | the total over two lists is the sum of their totals |
| Dashboard.CardActions | frontend/src/app/dashboard/page.tsx:274-296 | Edit is offered iff actions are shown, the booking is confirmed and it can be edited; Cancel likewise with its cancel right |
| Dashboard.CancelledOffersNothing | frontend/src/app/dashboard/page.tsx:199-296 | a cancelled booking's card offers neither action |
| Dashboard.PassesLeft | frontend/src/app/dashboard/page.tsx:641 | one entry per package, each adding back to the total with the passes used |
| FormChecks.FirstFailure | frontend/src/components/auth/AuthModal.tsx:148-176 | no message iff every check passes; otherwise the message of the first failing check |
| FormChecks.FirstFailureAt | frontend/src/components/auth/AuthModal.tsx:148-176 | when check k fails and all before it pass, its message is the one reported |
| FormChecks.SameAfterPassingHead | frontend/src/components/AuthForm.tsx:116-166 | two chains that differ only in a first check that passes report the same message |
| FormChecks.MessageOr | frontend/src/components/AuthForm.tsx:107 | a non-empty error message is shown as is, an empty one as the fallback text |
| AuthModal.Run | frontend/src/components/auth/AuthModal.tsx:97-143 | the service is called iff every check passes; a failed check or a service error sets the error and stops loading; a successful call gives the accepted state |
| AuthModal.HandleLogin | frontend/src/components/auth/AuthModal.tsx:97-143 | sign-in is called iff a captcha token, an e-mail and a password are present; the captcha is reported before the fields; loading always stops; success closes the modal and spends the captcha |
| AuthModal.LoginDecided | frontend/src/components/auth/AuthModal.tsx:102-117 | the login chain passes iff captcha, e-mail and password are present, and reports the captcha first |
| AuthModal.HandleBasicSignup | frontend/src/components/auth/AuthModal.tsx:148-176 | step 2 is reached iff all five checks pass; otherwise the step stays and the first failure is the error: the captcha message without a token, the required message when a field is empty, the match message, the length message, and the terms message when only the terms are unaccepted |
| AuthModal.BasicSignupDecided | frontend/src/components/auth/AuthModal.tsx:152-173 | the five checks pass iff the data is valid, and each failure is reported in that order with its own message: captcha, required fields, match, length, terms |
| AuthModal.HandleFullSignup | frontend/src/components/auth/AuthModal.tsx:181-244 | sign-up is called iff captcha, first and last name and contact are present, a student has a document, and the phone is valid; otherwise the error is the first failure: the captcha message, the required message, the document message, then the phone message; a service error is shown; success spends the captcha and closes the modal; loading always stops |
| AuthModal.FullSignupDecided | frontend/src/components/auth/AuthModal.tsx:191-211 | the full chain passes iff all four checks pass, with the document required only of students, and each failure reports its own message in the order captcha, required fields, document, phone |
| AuthModal.HandleForgotPassword | frontend/src/components/auth/AuthModal.tsx:249-279 | the reset is sent iff an e-mail and a captcha are present, with the e-mail checked first; success spends the captcha and leaves the forgot-password view |
| AuthModal.ForgotPasswordDecided | frontend/src/components/auth/AuthModal.tsx:254-264 | the forgot-password chain passes iff e-mail and captcha are present, and reports a missing e-mail first |
| AuthModal.CheckOrderDiffers | frontend/src/components/auth/AuthModal.tsx:97-264 | with neither captcha nor e-mail, login reports the captcha but forgot-password reports the e-mail |
| AuthModal.HandleClose | frontend/src/components/auth/AuthModal.tsx:285-295 | closing returns to the default tab, step 1 and the normal view, and clears the error, the captcha and the phone-touched flag |
| AuthModal.CloseResets | frontend/src/components/auth/AuthModal.tsx:285-295 | closing twice is closing once; after a close no login or full sign-up reaches the service and basic sign-up stays on step 1 |
| AuthForm.AfterCall | frontend/src/components/AuthForm.tsx:100-113 | after a hosted call the captcha is spent and loading stops; an error is toasted with its fallback text, and success redirects home with the toast parameter |
| AuthForm.HandleLogin | frontend/src/components/AuthForm.tsx:77-114 | sign-in is called iff a captcha token is present, whatever the fields; without it only the captcha toast appears; after a call the captcha is spent; success redirects home with the login toast |
| AuthForm.LoginRedirectShowsToast | frontend/src/components/AuthForm.tsx:102-103 | the page a login lands on shows the login toast and cleans its address back to `/` |
| AuthForm.HandleBasicSignup | frontend/src/components/AuthForm.tsx:116-166 | step 2 is reached iff the same five checks as the modal pass; otherwise the state changes only by the toast, which is the chain's first failure: the form's captcha text without a token, and with one the very message the modal would show |
| AuthForm.BasicSignupDecided | frontend/src/components/AuthForm.tsx:119-163 | the form's chain passes iff the modal's would, and reports the same first failure apart from the captcha wording |
| AuthForm.BasicSignupAgrees | frontend/src/components/AuthForm.tsx:128-163 | with a captcha token, the form's chain and the modal's report the same message |
| AuthForm.HandleFullSignup | frontend/src/components/AuthForm.tsx:168-231 | sign-up is called iff captcha, first and last name and contact are present and the phone is valid; otherwise only the toast changes, to the first failure: captcha, required fields, then phone; after a call the captcha is spent; a service error is toasted with the signup fallback; success redirects home with the signUp toast; loading always stops |
| AuthForm.FullSignupDecided | frontend/src/components/AuthForm.tsx:172-200 | the form's full chain passes iff captcha, names, contact and phone pass, no document being asked for, and each failure reports its own message in the order captcha, required fields, phone |
| AuthForm.StudentDocumentOnlyInModal | frontend/src/components/AuthForm.tsx:182-200 | a student without a document is refused by the modal but reaches sign-up here |
| AuthForm.CreateAccountEnabled | frontend/src/components/AuthForm.tsx:446 | Create Account is enabled iff a captcha token is present, the phone is valid and nothing is loading |
| AuthForm.EnabledCreateAccount | frontend/src/components/AuthForm.tsx:446 | a submit the button allows can fail validation only on a missing name or contact |
| ResetPassword.HandleResetPassword | frontend/src/app/reset-password/page.tsx:24-59 | a short password gives the length error; a long enough but different confirmation gives the mismatch error; only a pair passing both succeeds; loading always stops |
| ResetPassword.ResetDecided | frontend/src/app/reset-password/page.tsx:30-40 | the reset chain reports length first, then mismatch, and passes iff both pass |
| ResetPassword.LengthReportedBeforeMismatch | frontend/src/app/reset-password/page.tsx:30-40 | a short password is reported as short even when the two entries differ |
| Query.GetFindsFirst | frontend/src/app/book-now/BookingClient.tsx:245-256 | `get` finds nothing iff no entry has the key, and otherwise the value of the first entry that has it |
| Query.Delete | frontend/src/components/HomeToast.tsx:46 | no entry with the key remains; every other entry is kept, in order and exactly as often as it occurred |
| Query.GetAfterDelete | frontend/src/components/HomeToast.tsx:46 | deleting one key leaves what `get` finds for every other key unchanged |
| Query.Serialize | frontend/src/components/HomeToast.tsx:47 | the text is empty iff there are no parameters, and a single parameter is written `k=v` |
| Query.SerializeConcat | frontend/src/components/HomeToast.tsx:47 | the text of two non-empty lists is their texts joined by one `&`, so every pair appears as `k=v` in order |
| Text.IntRoundTrip | frontend/src/app/book-now/BookingClient.tsx:253-255 | the decimal text of any integer parses back to it, as `parseInt(String(n), 10)` does |
| Text.ParseInt | frontend/src/app/book-now/BookingClient.tsx:253-255 | after leading white space and an optional sign, the result is NaN iff no digit follows; a number read without a minus sign is non-negative and one with it non-positive |
| Text.TrimEmptyIff | frontend/src/components/book-now-sections/EntitlementTabs.tsx:368 | trimming leaves nothing iff every character is white space |
| Text.LowerOfUpper | frontend/src/components/book-now-sections/StudentValidation.tsx:37 | lower-casing after upper-casing is lower-casing |
| Text.JoinTrim | frontend/src/app/buy-pass-tmp/BuyPassClient.tsx:139 | trimming `first + " " + last` gives the trimmed last name for a blank first name, the trimmed first name for a blank last name, else the first without leading space, a space and the last without trailing space |

## Left out

- Hosted services (Supabase auth and database, the HitPay HTTP call, nodemailer and the e-mail utility) are not modelled. Each result becomes a parameter: the service's error or success, the provider's reply, the signed-in user.
- Timers and async: the simulated delays, the random delay before a student lookup and the delayed second `setLocation` are not modelled. Each handler is one synchronous transition, and `PurchaseCompletes` stands for the timer firing.
- React mechanics: batched updates, effect ordering, stale closures and re-renders. In particular the PeopleSelector effect that runs on mount, before the booking page's prefill effect, is not modelled, so nothing is claimed about the order in which those two settle.
- Floating point: money is exact. `Math.round`, `* 0.09` and the display's number formatting are exact rational operations here, and IEEE-754 rounding error is not modelled.
- Dates and locales: instants are integer milliseconds. `isSameDay` is a caller-supplied day function. The ISO-8601 text in the booking link is replaced by decimal timestamps, so `toISOString`/`parseISO` round-trip by `Text.IntRoundTrip`. The e-mail's date and time lines are parameters.
- URL encoding: query parameters are (key, value) pairs with no percent-encoding; `decodeURIComponent` of the pass-purchase `package` parameter is the identity.
- `parseInt` of a count that is not a number gives NaN on the booking page; the model returns no party instead, since NaN has no counterpart among the integers.
- Case mapping covers ASCII letters only; `trim` uses the JavaScript white-space set written out.
- Phone validation (libphonenumber) and captcha tokens are inputs: a boolean and an optional token.
- Voucher expiry and usage limits are data that the code never enforces, and the model enforces none either.
- The `in` test of `isToastType` is a three-key lookup; prototype keys such as `toString` are not modelled.
- Toast titles and variants in the auth form, and the `alert` texts, are left out; only the description text is modelled.
- The e-mail template is modelled as the sequence of its lines without the HTML indentation; the amount is taken as text, as interpolated.
- Password length is counted in characters of the model's strings, not UTF-16 code units.
- The reset-password page's catch branch cannot be reached, because its simulated request never throws; it is not modelled.
- The people selector's `onChange` is optional in the source; the model always delivers it.
- The middleware matcher is read as its regular expression: the path after the leading slash is skipped when it starts with `_next/static` or `_next/image`, when it starts with `favicon`, any one character and `ico` (the unescaped dot matches any character), or when it ends in one of the six image extensions. Only ASCII paths without line breaks are considered, and case is significant.
- Presentation: SVG rendering, badges, icons, layout and the landing, pricing and information pages.
- The booking page's `isFormValid` (location, people, dates, name, e-mail, phone and the student check) is taken as one boolean input to `Entitlement.SubmitDisabled`.
- Query.Get carries no contract of its own; what it finds is stated by `Query.GetFindsFirst`.
- Entitlement.SubmitDisabled: states only what an enabled submit implies, not the converse.
- StudentValidation.ValidateDisabled: states only what an enabled button implies, not the converse.
- StudentValidation.Report: states which slots are reported, not that they keep the input order.
- Payment.BuildPayload: states only which keys can appear; the values are stated by `Payment.PayloadFields` and the order by `Payment.AssembleKeysInOrder`.
- BookingPrefill.CountParam: the fallback text ('1' or '0') is represented by the value it parses to.
