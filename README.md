# airbnbRental booking core, modelled in Dafny

This project is a Dafny model of the core of airbnbRental, a Java desktop rental marketplace.
Guests book listings, and hosts confirm, reject or complete those bookings. Either party can
cancel a booking and receive a tiered refund. Users exchange messages and reviews. The model
covers:

- the `Booking` record and its status state machine, refund policy and line format
  (`booking.dfy`);
- the `PropertyListing` record and its per-listing ledger of booked nights, availability test
  and line format (`listing.dfy`);
- `PropertyService`, which owns the listings and reserves and releases nights
  (`property_service.dfy`);
- `BookingService`, the orchestrator. It covers create, confirm, reject, cancel, complete,
  edit and delete, plus the queries and host statistics (`booking_service.dfy`);
- `User`/`UserService` (`user.dfy`, `user_service.dfy`), `Message`/`MessageService`
  (`message.dfy`, `message_service.dfy`) and `Review`/`ReviewService` (`review.dfy`,
  `review_service.dfy`).

The Java objects that the services change in place become Dafny classes. These are
`Booking`, `PropertyListing`, `User`, `Message` and the services themselves. The services
hold `seq`s of object references, so aliasing works as it does in the Java lists. For
example, `BookingService` and `PropertyService` share the same listing objects. Each class
has a `Row()` value view, and the line serialisers and their round-trip lemmas are stated on
that view. `Review` is never mutated, so it is a datatype. The supporting modules model the
pieces of the Java library that the code depends on:

- `seqs.dfy`: stream filter, `findFirst`, `indexOf` and `List.remove(Object)`;
- `sorting.dfy`: `sorted` by a key;
- `text.dfy`: `String.join`, `String.split` with its trailing-empty-string rule, and
  `equalsIgnoreCase`;
- `codec.dfy`: decimal and boolean text;
- `calendar.dfy`: `LocalDate.until(...).getDays()`.

Representation choices:

- A date is an `int` day number, where day 0 is 1970-01-01. A timestamp is an `int`.
- Prices are whole `int` cents. Refunds and averages are `real`.
- The current day or time (`today`, `now`), generated ids (`newId`) and the results of file
  appends (`appended`) and reloads (`reloaded`, `loaded`) are parameters.
- The password hash and check are function-valued constants of `UserService`.
- A business failure of a service operation is an `Outcome.Failure(reason)`. `Reason` has one
  constructor per message that the Java method puts in its result map.

Where the code behaves in a way a reader may not expect, the model follows the code:

- `isAvailable` also refuses the check-out day (`ListingModel.CheckOutDayCollides`).
- The booked nights are a list, not a set. Reserving a night twice stores it twice, and
  releasing a night removes one copy (`PropertyServiceModel.ReleaseNightsMultiset`).
- "Nights" and "days until check-in" are the days component of a `Period`, not the day
  count. A one-month stay is priced at zero nights (`Calendar.OneMonthHasNoDaysPart`).
- `datesOverlap` also holds for a reversed range that shares no night
  (`BookingServiceModel.InvertedStayOverlaps`), so a reversed range conflicts with more
  live bookings, not fewer.
- Independently, an edit may store a check-out before the check-in: no guard of
  `editBooking` compares the new dates, and the ledger check accepts any reversed range
  (`ListingModel.InvertedRangeIsFree`). When no live booking conflicts, such an edit
  succeeds (`BookingService.EditAcceptsInvertedStay`).
- An edit is checked against the listing's booked nights, and these still include the
  booking's own nights. An edit whose new dates cover one of its own nights is refused
  (`BookingService.EditRefusedOnOwnNights`).

## Model

| member | source | states |
|---|---|---|
| BookingModel.NextStatus | src/models/Booking.java:44-48 | the status after a request is either the old one or the requested one, and it is the requested one exactly when the move is allowed (or asks for no change) |
| BookingModel.TransitionTable | src/models/Booking.java:56-71 | for a known status, allowed moves are exactly pending→confirmed/rejected/cancelled and confirmed→completed/cancelled |
| BookingModel.IsValidStatusTransition | src/models/Booking.java:56-71 | the switch of allowed moves, characterised by `TransitionTable` (the five known statuses) and `UnknownStatusAcceptsAll` (any other status) |
| BookingModel.UnknownStatusAcceptsAll | src/models/Booking.java:68-69 | from a status outside the five known ones, any requested status is accepted |
| BookingModel.TerminalStatusIsAbsorbing | src/models/Booking.java:62-67 | once completed, cancelled or rejected, no sequence of setStatus requests changes the status |
| BookingModel.KnownStatusStaysKnown | src/models/Booking.java:44-71 | setStatus requests never lead from a known status to an unknown one, and never return to pending |
| BookingModel.RefundTier | src/models/Booking.java:103-109 | for a non-negative price the refund lies between 0 and the total price, and it is 0 when fewer than 3 days remain |
| BookingModel.RefundTierMonotone | src/models/Booking.java:103-109 | cancelling earlier never refunds less |
| BookingModel.DecodeEncodeBooking | src/models/Booking.java:112-132 | parsing the comma-joined line of a booking with comma-free text fields gives back the same booking |
| BookingModel.Booking.constructor | src/models/Booking.java:18-30 | a new booking holds the given fields, status pending, booked at `now` |
| BookingModel.Booking.SetStatus | src/models/Booking.java:44-48 | the new status follows NextStatus, and a disallowed request leaves the status unchanged |
| BookingModel.Booking.SetCheckInDate | src/models/Booking.java:50 | the check-in is replaced and nothing else changes |
| BookingModel.Booking.SetCheckOutDate | src/models/Booking.java:51 | the check-out is replaced and nothing else changes |
| BookingModel.Booking.SetNumberOfGuests | src/models/Booking.java:52 | the guest count is replaced and nothing else changes |
| BookingModel.Booking.SetTotalPrice | src/models/Booking.java:53 | the total price is replaced and nothing else changes |
| BookingModel.Booking.CalculateRefundAmount | src/models/Booking.java:97-110 | a booking that cannot be cancelled refunds 0, and for a non-negative price the refund lies between 0 and the total price |
| BookingModel.Booking.FromLine | src/models/Booking.java:122-132 | a fresh booking is built exactly when the line decodes, and it holds the decoded fields |
| BookingModel.UpcomingIsNotActive | src/models/Booking.java:82-91 | a booking is never both upcoming and in its stay on the same day |
| BookingModel.ReviewableExcludesUpcomingAndActive | src/models/Booking.java:74-91 | a reviewable booking cannot be cancelled, is not upcoming and is not in its stay |
| BookingModel.Booking.CanBeCancelled | src/models/Booking.java:74-76 | pending or confirmed; never true of a reviewable booking (`ReviewableExcludesUpcomingAndActive`), and when false the refund is 0 (`CalculateRefundAmount`) |
| BookingModel.Booking.CanBeReviewed | src/models/Booking.java:78-80 | completed and checked out before today; such a booking is not cancellable, not upcoming and not in its stay (`ReviewableExcludesUpcomingAndActive`) |
| BookingModel.Booking.IsUpcoming | src/models/Booking.java:82-85 | pending or confirmed and checking in after today; never on the same day as IsActive (`UpcomingIsNotActive`) |
| BookingModel.Booking.IsActive | src/models/Booking.java:87-91 | confirmed with today between check-in and check-out, both included; disjoint from IsUpcoming (`UpcomingIsNotActive`) |
| BookingModel.Booking.NumberOfNights | src/models/Booking.java:93-95 | the days component of the stay's Period: the day difference for a stay inside one month (`Calendar.SameMonthDaysPart`), but 0 for a stay of exactly one month (`Calendar.OneMonthHasNoDaysPart`) |
| BookingModel.EncodeBooking | src/models/Booking.java:112-120 | the comma-joined line of the nine fields; `DecodeEncodeBooking` shows DecodeBooking inverts it on bookings with comma-free texts |
| BookingModel.DecodeBooking | src/models/Booking.java:122-132 | parses the nine fields back, None when a piece is missing or a number does not parse; left inverse of EncodeBooking (`DecodeEncodeBooking`) |
| BookingModel.Booking.ToLine | src/models/Booking.java:112-120 | the line of the booking's current fields, EncodeBooking of its row, which `DecodeEncodeBooking` decodes back |
| BookingModel.RefundTenDaysAhead | src/models/Booking.java:97-110 | a confirmed 300.00 stay whose check-in is 10 days away refunds 240.00 (80%) |
| Calendar.LengthOfMonth | src/models/Booking.java:93-95 | a month has 28 to 31 days |
| Calendar.DaysPart | src/models/Booking.java:93-95 | from.until(to).getDays() on day numbers; within one month it is the difference of the day numbers (`SameMonthDaysPart`), across months it is not (`OneMonthHasNoDaysPart`, `TenDaysAcrossNewYear`) |
| Calendar.SameMonthPeriodDays | src/models/Booking.java:93-95 | for two dates of the same month the days component is end day minus start day, which equals the difference of their day numbers |
| Calendar.SameMonthDaysPart | src/models/Booking.java:93-95 | for two day numbers whose dates share year and month, DaysPart is the difference of the dates' day numbers |
| Calendar.KnownDays | src/models/Booking.java:93-95 | 1970-01-01 is day 0, and the example dates get their day numbers |
| Calendar.NewYearsEve2024 | src/models/Booking.java:93-95 | day 20088 is 2024-12-31 |
| Calendar.January10th2025 | src/models/Booking.java:93-95 | day 20098 is 2025-01-10 |
| Calendar.January13th2025 | src/models/Booking.java:93-95 | day 20101 is 2025-01-13 |
| Calendar.February10th2025 | src/models/Booking.java:93-95 | day 20129 is 2025-02-10 |
| Calendar.ThreeNightsInJanuary | src/services/BookingService.java:80-81 | within one month, the days component is the number of nights (3) |
| Calendar.OneMonthHasNoDaysPart | src/services/BookingService.java:80-81 | a 31-night stay from 2025-01-10 to 2025-02-10 has days component 0, so it is priced at 0 |
| Calendar.TenDaysAcrossNewYear | src/models/Booking.java:101 | from 2024-12-31 to 2025-01-10 the days component is 10 |
| Codec.NatText | src/models/Booking.java:117 | the decimal text of a natural is non-empty and all digits |
| Codec.IntText | src/models/Booking.java:117 | the decimal text of an integer is non-empty and holds only digits and '-' |
| Codec.DigitsOfNatText | src/models/Booking.java:127 | reading back the digits of a natural gives the natural |
| Codec.ParseIntText | src/models/Booking.java:117-127 | Integer.parseInt inverts String.valueOf on every integer |
| Codec.ParseInt | src/models/Booking.java:127 | Integer.parseInt: an optional sign followed by at least one digit, None otherwise; inverts IntText (`ParseIntText`) |
| Codec.IntTextHasNoSeparator | src/models/PropertyListing.java:66-71 | a number's text holds no ',' and no ';' |
| Codec.ParseBoolText | src/models/PropertyListing.java:72-98 | Boolean.parseBoolean inverts String.valueOf, and the text holds no separator |
| Codec.BoolText | src/models/PropertyListing.java:72 | Boolean.toString; inverted by ParseBool (`ParseBoolText`) |
| Codec.ParseBool | src/models/PropertyListing.java:98 | Boolean.parseBoolean: true exactly for "true" ignoring case; inverts BoolText (`ParseBoolText`) |
| Text.Join | src/models/Booking.java:114 | every non-separator character of the joined text comes from some field |
| Text.SplitAll | src/models/Booking.java:123 | splitting yields at least one piece |
| Text.DropTrailingEmpty | src/models/Booking.java:123 | dropping trailing empty pieces keeps a prefix |
| Text.SplitAllNoSeparator | src/models/Booking.java:123 | text without the separator splits into itself |
| Text.SplitAllPrefix | src/models/Booking.java:123 | splitting distributes over a leading separator-free field |
| Text.SplitAllJoin | src/models/Booking.java:114-123 | splitting a join of separator-free fields gives back the fields |
| Text.JavaSplitJoin | src/models/Booking.java:114-123 | String.split inverts String.join when no field holds the separator and the last field is non-empty |
| Text.JavaSplit | src/models/Booking.java:123 | String.split with trailing empty strings dropped; gives back the fields of a join of separator-free fields whose last field is non-empty (`JavaSplitJoin`) |
| Text.JoinNonEmpty | src/models/PropertyListing.java:70-71 | a join whose first field is non-empty is non-empty |
| Text.Lower | src/services/PropertyService.java:80 | lower-casing keeps the length and lower-cases each character |
| Text.EqualsIgnoreCaseProperties | src/services/UserService.java:71-72 | equalsIgnoreCase is reflexive and symmetric, and holds for equal names |
| Text.EqualsIgnoreCaseIsCoarser | src/services/UserService.java:71-72 | "Admin" and "admin" differ but clash as usernames |
| Text.EqualsIgnoreCase | src/services/UserService.java:71-72 | equality after lower-casing; reflexive, symmetric, implied by equality and strictly coarser than it (`EqualsIgnoreCaseProperties`, `EqualsIgnoreCaseIsCoarser`) |
| Text.Contains | src/services/PropertyService.java:80 | String.contains: the text occurs as a contiguous piece; the location filter of `PropertyService.SearchListings` |
| Seqs.Filter | src/services/BookingService.java:268-304 | the filtered list holds exactly the elements that pass, and is no longer than the input |
| Seqs.FilterAppend | src/services/ReviewService.java:27-32 | filtering distributes over concatenation |
| Seqs.FilterOfFilter | src/services/ReviewService.java:27-38 | filtering by a stronger test after a weaker one equals filtering by the stronger one |
| Seqs.FilterAgree | src/services/ReviewService.java:27-38 | tests that agree on every element filter alike |
| Seqs.FirstIndex | src/services/MessageService.java:57-61 | findFirst gives the first element that passes, or none |
| Seqs.IndexOf | src/models/PropertyListing.java:56 | the index of the first occurrence, present exactly when the value is in the list |
| Seqs.RemoveFirst | src/models/PropertyListing.java:56 | List.remove(Object) shortens the list by one when the value is present and leaves it alone otherwise |
| Seqs.RemoveFirstMultiset | src/models/PropertyListing.java:56 | List.remove(Object) takes exactly one copy of the value out |
| Seqs.RemoveFirstCutsFirstOccurrence | src/services/BookingService.java:473 | List.remove(Object) cuts out exactly the first occurrence |
| Sorting.Values | src/services/BookingService.java:271 | the values of keyed pairs, in order |
| Sorting.Insert | src/services/BookingService.java:271 | inserting into a key-ascending list keeps it ascending |
| Sorting.InsertPermutes | src/services/BookingService.java:271 | insertion adds exactly the inserted pair |
| Sorting.InsertPermutesValues | src/services/BookingService.java:271 | insertion adds exactly the inserted value |
| Sorting.SortByKey | src/services/BookingService.java:271 | the sorted list is key-ascending and as long as the input |
| Sorting.SortPermutes | src/services/BookingService.java:271 | sorting is a permutation of the pairs |
| Sorting.SortPermutesValues | src/services/BookingService.java:271 | sorting is a permutation of the values |
| ListingModel.FreeOnSubRange | src/models/PropertyListing.java:58-62 | a free range stays free when narrowed |
| ListingModel.FreeIffNoBookedDay | src/models/PropertyListing.java:58-62 | a range is free exactly when no day from start to end inclusive is booked |
| ListingModel.CheckOutDayCollides | src/models/PropertyListing.java:58-62 | a booked check-out day makes the range unavailable (the end is inclusive) |
| ListingModel.InvertedRangeIsFree | src/models/PropertyListing.java:58-62 | a range whose end is before its start is always available |
| ListingModel.FreeBetween | src/models/PropertyListing.java:58-62 | no booked day lies between start and end inclusive; closed under sub-ranges (`FreeOnSubRange`) and equivalent to no booked day in range (`FreeIffNoBookedDay`) |
| ListingModel.PropertyListing.IsAvailable | src/models/PropertyListing.java:58-62 | FreeBetween of the listing's booked days: it also refuses the check-out day (`CheckOutDayCollides`) and accepts any inverted range (`InvertedRangeIsFree`) |
| ListingModel.DayTexts | src/models/PropertyListing.java:71 | one decimal text per booked day, in order |
| ListingModel.ParseDays | src/models/PropertyListing.java:92-96 | a successful parse yields one day per text |
| ListingModel.ParseDaysSnoc | src/models/PropertyListing.java:92-96 | parsing one more valid text appends its day |
| ListingModel.ParseDayTexts | src/models/PropertyListing.java:71-96 | parsing the rendered days gives back the days |
| ListingModel.ListItemsJoin | src/models/PropertyListing.java:70-89 | reading back a ';'-join of non-empty, ';'-free items gives the items (including the empty list) |
| ListingModel.JoinHasNoComma | src/models/PropertyListing.java:70 | a ';'-join of comma-free items is comma-free |
| ListingModel.DayListRoundTrip | src/models/PropertyListing.java:71-96 | the booked-date field is comma-free and reads back as the same days |
| ListingModel.EncodedListingSplits | src/models/PropertyListing.java:64-77 | splitting a listing line on ',' gives exactly its twelve fields |
| ListingModel.DecodeEncodeListing | src/models/PropertyListing.java:64-100 | parsing the line of a listing with comma-free texts and ';'-free, non-empty amenities gives back the listing |
| ListingModel.EncodeListing | src/models/PropertyListing.java:64-74 | the comma-joined twelve fields with amenities and booked days joined by ";"; inverted by DecodeListing (`DecodeEncodeListing`) |
| ListingModel.DecodeListing | src/models/PropertyListing.java:76-100 | parses the twelve fields back; None on a short line, a bad number or a bad date (`DecodeListingBadNumber`, `DecodeListingNone`); left inverse of EncodeListing (`DecodeEncodeListing`) |
| ListingModel.PropertyListing.constructor | src/models/PropertyListing.java:22-37 | a new listing holds the given fields, no amenities, no booked days, and is active |
| ListingModel.PropertyListing.SetActive | src/models/PropertyListing.java:53 | the active flag is replaced and nothing else changes |
| ListingModel.PropertyListing.AddAmenity | src/models/PropertyListing.java:54 | the amenity is appended |
| ListingModel.PropertyListing.AddBookedDate | src/models/PropertyListing.java:55 | the day is appended, so the ledger gains one copy of it |
| ListingModel.PropertyListing.RemoveBookedDate | src/models/PropertyListing.java:56 | the first copy of the day, if any, is removed |
| ListingModel.PropertyListing.SetTitle | src/models/PropertyListing.java:103 | the title is replaced |
| ListingModel.PropertyListing.SetDescription | src/models/PropertyListing.java:104 | the description is replaced |
| ListingModel.PropertyListing.SetLocation | src/models/PropertyListing.java:105 | the location is replaced |
| ListingModel.PropertyListing.SetPricePerNight | src/models/PropertyListing.java:106 | the nightly price is replaced |
| ListingModel.PropertyListing.SetMaxGuests | src/models/PropertyListing.java:107 | the capacity is replaced |
| ListingModel.PropertyListing.SetBedrooms | src/models/PropertyListing.java:108 | the bedroom count is replaced |
| ListingModel.PropertyListing.SetBathrooms | src/models/PropertyListing.java:109 | the bathroom count is replaced |
| ListingModel.PropertyListing.SetAmenities | src/models/PropertyListing.java:110 | the amenity list is replaced |
| ListingModel.PropertyListing.FromLine | src/models/PropertyListing.java:76-100 | a fresh listing is built exactly when the line decodes, and it holds the decoded fields |
| ListingModel.PropertyListing.Build | src/models/PropertyListing.java:78-99 | a fresh listing with the amenities, the parsed days and the flag is built exactly when every day text parses |
| ListingModel.AppendAmenities | src/models/PropertyListing.java:84-89 | the amenity loop appends every name in order |
| ListingModel.AppendBookedDays | src/models/PropertyListing.java:91-96 | the date loop succeeds exactly when every text parses, and then it appends the days in order |
| ListingModel.ParseDaysStep | src/models/PropertyListing.java:92-96 | one step of the date loop fails or extends the parsed prefix |
| ListingModel.ParseDaysPrefixFails | src/models/PropertyListing.java:92-96 | once a prefix fails to parse, the whole list fails |
| ListingModel.DecodeListingBadNumber | src/models/PropertyListing.java:80-81 | a bad price, capacity, bedroom or bathroom number rejects the line |
| ListingModel.DecodeListingNone | src/models/PropertyListing.java:92-96 | a bad booked date rejects the line |
| ListingModel.DecodeListingSome | src/models/PropertyListing.java:76-100 | a line whose fields all parse decodes to the listing built from them |
| ListingModel.AddThenRemoveRestoresMultiset | src/models/PropertyListing.java:55-56 | adding then removing a day leaves the same multiset of booked days |
| PropertyServiceModel.ListingIndex | src/services/PropertyService.java:87-91 | the position of the first listing with the id, or the length when there is none |
| PropertyServiceModel.OwnedIndex | src/services/PropertyService.java:57-60 | the position of the first listing with the id and host, or the length |
| PropertyServiceModel.DayRange | src/services/PropertyService.java:102-106 | the nights from start up to but excluding end, one per day, empty when end ≤ start |
| PropertyServiceModel.InDayRange | src/services/PropertyService.java:102-106 | a day is reserved exactly when start ≤ day < end |
| PropertyServiceModel.ReleaseNightsMultiset | src/services/PropertyService.java:118-122 | releasing removes one copy of each night of the range, as a multiset difference |
| PropertyServiceModel.ReserveThenRelease | src/services/PropertyService.java:98-127 | reserving then releasing the same range restores the multiset of booked days |
| PropertyServiceModel.ReservedNightsBlock | src/services/PropertyService.java:98-111 | after a reservation, any range sharing a night with it is unavailable |
| PropertyServiceModel.Select | src/services/PropertyService.java:71-85 | the result holds exactly the listings that pass the query; with `SelectAppend` and `SelectOne` it is the in-order, occurrence-preserving stream filter |
| PropertyServiceModel.Matches | src/services/PropertyService.java:71-85 | the filter predicate of each query, as the stream's filter steps; `SearchNarrows` shows a search only narrows the active listings |
| PropertyServiceModel.SelectAppend | src/services/PropertyService.java:71-85 | the filter distributes over concatenation: it keeps the stored order and each occurrence |
| PropertyServiceModel.SelectOne | src/services/PropertyService.java:71-85 | a single listing is kept exactly when it matches the query |
| PropertyServiceModel.SearchResultsQualify | src/services/PropertyService.java:77-85 | a search hit is active, fits the guests and is available for the dates |
| PropertyServiceModel.SearchNarrows | src/services/PropertyService.java:77-85 | every search hit is also in the unfiltered search, which only requires active |
| PropertyServiceModel.PropertyService.constructor | src/services/PropertyService.java:15-21 | the service starts with the loaded listings |
| PropertyServiceModel.PropertyService.AddListing | src/services/PropertyService.java:27-30 | the listing is appended, and the result is the append result |
| PropertyServiceModel.PropertyService.UpdateListing | src/services/PropertyService.java:45-54 | succeeds exactly when some listing has the id, then replaces the first such one; otherwise nothing changes |
| PropertyServiceModel.PropertyService.DeleteListing | src/services/PropertyService.java:56-69 | succeeds exactly when the host owns a listing with the id, then only deactivates the first such listing; no other listing changes |
| PropertyServiceModel.PropertyService.ListingsByHost | src/services/PropertyService.java:71-75 | exactly the host's active listings, in stored order (it is `Select` over the listings, so `SelectAppend` and `SelectOne` fix order and multiplicity) |
| PropertyServiceModel.PropertyService.SearchListings | src/services/PropertyService.java:77-85 | every hit passes the whole search: it is active, its lower-cased location contains the lower-cased location asked for (when one is given), it fits the guests (unless 0) and, when both dates are given, it is available for them; every matching listing is a hit; stored order as for `Select` |
| PropertyServiceModel.PropertyService.ListingById | src/services/PropertyService.java:87-91 | the first listing with the id, present exactly when one exists |
| PropertyServiceModel.PropertyService.AllListings | src/services/PropertyService.java:93-95 | a copy of the listings in stored order |
| PropertyServiceModel.PropertyService.AddBookedDates | src/services/PropertyService.java:98-111 | succeeds exactly when the listing exists, then appends the nights start..end-1 to it; no other listing changes |
| PropertyServiceModel.PropertyService.RemoveBookedDates | src/services/PropertyService.java:114-127 | succeeds exactly when the listing exists, then removes one copy of each night start..end-1; no other listing changes |
| PropertyServiceModel.ReserveNights | src/services/PropertyService.java:102-106 | the reservation loop appends exactly the nights of the range |
| PropertyServiceModel.ReleaseNightsOf | src/services/PropertyService.java:118-122 | the release loop removes the nights of the range one at a time |
| BookingServiceModel.OverlapIsHalfOpen | src/services/BookingService.java:368-370 | two ranges overlap exactly when each starts before the other ends, symmetrically |
| BookingServiceModel.OverlapIffSharedNight | src/services/BookingService.java:368-370 | for proper ranges, overlapping means sharing a night |
| BookingServiceModel.InvertedStayOverlaps | src/services/BookingService.java:368-370 | a reversed range with no nights still overlaps a range around it |
| BookingServiceModel.DatesOverlap | src/services/BookingService.java:368-370 | the overlap test as written; for proper stays it is "shares a night" and it is symmetric (`OverlapIsHalfOpen`, `OverlapIffSharedNight`) |
| BookingServiceModel.Conflicts | src/services/BookingService.java:359-363 | another pending or confirmed booking of the listing overlapping the stay; `AnyConflict` holds exactly when some stored booking conflicts |
| BookingServiceModel.BookingIndex | src/services/BookingService.java:333-337 | the position of the first booking with the id, or the length |
| BookingServiceModel.AnyConflict | src/services/BookingService.java:359-363 | true exactly when another pending or confirmed booking of the listing overlaps the range |
| BookingServiceModel.SortedBy | src/services/BookingService.java:271-295 | the sorted list is a permutation of the input, ordered by the chosen key |
| BookingServiceModel.CountStatus | src/services/BookingService.java:313-316 | a status count never exceeds the number of bookings |
| BookingServiceModel.CountUncounted | src/services/BookingService.java:312-316 | the number of bookings in none of the four counted statuses is at most the total |
| BookingServiceModel.StatusCountsPartition | src/services/BookingService.java:312-316 | the four status counts plus the rejected or unknown ones add up to the total |
| BookingServiceModel.RevenueBounds | src/services/BookingService.java:318-321 | revenue from completed bookings lies between 0 and the sum of all prices |
| BookingServiceModel.CompletedRevenue | src/services/BookingService.java:318-321 | sum of the prices of the completed bookings; between 0 and the sum of all prices for non-negative prices (`RevenueBounds`) |
| BookingServiceModel.BookingService.constructor | src/services/BookingService.java:17-24 | the service shares the given property service and starts with the loaded bookings |
| BookingServiceModel.BookingService.BookingById | src/services/BookingService.java:333-337 | the first booking with the id, present exactly when one exists |
| BookingServiceModel.BookingService.ListingOf | src/services/BookingService.java:329 | propertyService.getListingById, the first listing with the id |
| BookingServiceModel.BookingService.IsUserHost | src/services/BookingService.java:328-331 | the listing exists and its host is the user; the host clause of every accepted confirm, reject and complete (`HostDecisionAcceptance`, `CompleteAcceptance`) |
| BookingServiceModel.BookingService.IsListingAvailable | src/services/BookingService.java:352-366 | the listing exists, its ledger is free on check-in .. check-out and no other live booking overlaps; it still sees the booking's own nights (`OwnNightsBlockEdit`) and is spelled out in `EditAcceptance` |
| BookingServiceModel.BookingService.OwnNightsBlockEdit | src/services/BookingService.java:352-366 | a range covering any night on the listing's ledger is unavailable, even for the booking that reserved it |
| BookingServiceModel.BookingService.Select | src/services/BookingService.java:268-304 | the result is drawn from the bookings and is no longer than them |
| BookingServiceModel.BookingService.SelectMembers | src/services/BookingService.java:268-304 | the result holds exactly the bookings that pass the query |
| BookingServiceModel.BookingService.SelectAppend | src/services/BookingService.java:97 | a query over a concatenation is the query over the first part followed by the query over the second, so appending a booking extends each result by that booking exactly when it passes |
| BookingServiceModel.BookingService.SortedQueryMembers | src/services/BookingService.java:268-297 | a sorted query result holds exactly the bookings that pass the query |
| BookingServiceModel.BookingService.BookingsByGuest | src/services/BookingService.java:268-273 | exactly the guest's bookings, as a permutation of the filter, newest first |
| BookingServiceModel.BookingService.BookingsForHost | src/services/BookingService.java:275-280 | exactly the bookings of listings the host owns, newest first |
| BookingServiceModel.BookingService.PendingBookingsForHost | src/services/BookingService.java:282-288 | exactly the host's pending bookings, oldest first |
| BookingServiceModel.BookingService.UpcomingBookingsForHost | src/services/BookingService.java:290-297 | exactly the host's confirmed bookings that check in after today, earliest check-in first |
| BookingServiceModel.BookingService.ActiveBookingsForHost | src/services/BookingService.java:299-304 | exactly the host's bookings in their stay today |
| BookingServiceModel.BookingService.BookingStatistics | src/services/BookingService.java:307-325 | the total is the number of the host's bookings, and the four status counts do not exceed it |
| BookingServiceModel.BookingService.AllBookings | src/services/BookingService.java:339-341 | a copy of the bookings in stored order |
| BookingServiceModel.BookingService.ViewAllBookingsForAdmin | src/services/BookingService.java:483-489 | all bookings, as a permutation, newest first |
| BookingServiceModel.BookingService.BookingsByRole | src/services/BookingService.java:496-507 | an admin gets every booking in stored order; a host gets exactly getBookingsForHost and a guest exactly getBookingsByGuest, so only bookings of their own listings or their own stays |
| BookingServiceModel.BookingService.ReviewableBookingIsOver | src/services/BookingService.java:344-349 | a booking the user may review is theirs and completed, its check-out is past, and it is neither upcoming nor in its stay |
| BookingServiceModel.BookingService.CanUserReviewBooking | src/services/BookingService.java:344-349 | the booking exists, the user is its guest and it is reviewable; then its stay is over (`ReviewableBookingIsOver`) |
| BookingServiceModel.BookingService.CreateAcceptance | src/services/BookingService.java:36-77 | an accepted request names an existing listing, checks in no earlier than today and before the check-out, fits the capacity, and no night from check-in to check-out inclusive is booked |
| BookingServiceModel.BookingService.CreateRefusal | src/services/BookingService.java:36-77 | the reason of the first failing guard of createBooking in source order; None exactly when `CreateBooking` succeeds, and then `CreateAcceptance` holds |
| BookingServiceModel.BookingService.CreateBooking | src/services/BookingService.java:31-104 | fails with the first refused guard and changes nothing; otherwise appends a fresh pending booking priced days-part × nightly price and reserves its nights on that listing alone |
| BookingServiceModel.BookingService.Admit | src/services/BookingService.java:79-97 | the success tail: a fresh pending booking is appended and its nights are reserved on its listing alone |
| BookingServiceModel.BookingService.ConfirmBooking | src/services/BookingService.java:107-139 | fails if the booking is missing, not the host's or not pending; otherwise only its status becomes confirmed and no night is released |
| BookingServiceModel.BookingService.HostDecisionRefusal | src/services/BookingService.java:110-131 | the first failing guard of confirm and reject (not found, not the host, not pending); None exactly when they succeed |
| BookingServiceModel.BookingService.HostDecisionAcceptance | src/services/BookingService.java:110-131 | an accepted confirm or reject names a booking of a listing the caller hosts whose status may move to confirmed and to rejected |
| BookingServiceModel.BookingService.NotFoundIffNoSuchBooking | src/services/BookingService.java:110-115 | every guarded operation on a stored booking reports "not found" exactly when no stored booking has the id |
| BookingServiceModel.BookingService.EndStay | src/services/BookingService.java:168-171 | the booking takes the new status and its nights are released from its listing alone |
| BookingServiceModel.BookingService.RejectBooking | src/services/BookingService.java:142-177 | fails like confirm; otherwise the status becomes rejected and the booking's nights are released |
| BookingServiceModel.BookingService.CancelRefusal | src/services/BookingService.java:183-206 | the first failing guard of cancel (not found, neither guest nor host, not cancellable); None exactly when `CancelBooking` succeeds |
| BookingServiceModel.BookingService.CancelAcceptance | src/services/BookingService.java:183-206 | an accepted cancel names a booking of which the caller is the guest or the host, and whose status may move to cancelled |
| BookingServiceModel.BookingService.CancelBooking | src/services/BookingService.java:180-224 | fails if the booking is missing, the caller is neither guest nor host, or it cannot be cancelled; otherwise returns the refund computed before the change, sets cancelled and releases the nights |
| BookingServiceModel.BookingService.CompleteBooking | src/services/BookingService.java:227-265 | fails if missing, not the host's, not confirmed or checking out after today; otherwise only the status becomes completed |
| BookingServiceModel.BookingService.CompleteRefusal | src/services/BookingService.java:230-257 | the first failing guard of complete (not found, not the host, not confirmed, before check-out); None exactly when `CompleteBooking` succeeds |
| BookingServiceModel.BookingService.CompleteAcceptance | src/services/BookingService.java:230-257 | an accepted complete names a booking of a listing the caller hosts whose status may move to completed and whose check-out day is today or earlier |
| BookingServiceModel.BookingService.EditBooking | src/services/BookingService.java:373-443 | fails with the first refused guard; otherwise only the booking's dates, guest count and price (days-part × nightly price) change, and no listing changes |
| BookingServiceModel.BookingService.EditRefusal | src/services/BookingService.java:378-427 | the first failing guard of edit in source order; None exactly when `EditBooking` succeeds |
| BookingServiceModel.BookingService.EditAcceptance | src/services/BookingService.java:378-427 | an accepted edit names a pending booking of the caller on an existing listing; the new stay starts today or later, the ledger is free on it, no other live booking of the listing overlaps it, and the guest count is 1 .. maxGuests |
| BookingServiceModel.BookingService.Rewrite | src/services/BookingService.java:430-435 | the four setters change only those four fields of that one booking |
| BookingServiceModel.BookingService.EditRefusedOnOwnNights | src/services/BookingService.java:411-421 | an edit whose new range covers a night still on the ledger, including the booking's own, is refused as unavailable |
| BookingServiceModel.BookingService.EditAcceptsInvertedStay | src/services/BookingService.java:410-427 | with no conflicting booking, an edit whose check-out is before its check-in passes every guard |
| BookingServiceModel.BookingService.DeleteBooking | src/services/BookingService.java:447-479 | fails if missing, not the guest's, or neither pending nor cancelled; otherwise removes only the first booking with the id and leaves every listing alone |
| BookingServiceModel.BookingService.DeleteRefusal | src/services/BookingService.java:450-471 | the first failing guard of delete (not found, not the guest, neither pending nor cancelled); None exactly when `DeleteBooking` succeeds |
| BookingServiceModel.BookingService.DeleteAcceptance | src/services/BookingService.java:450-471 | an accepted delete names a booking of the caller that is not confirmed, completed or rejected |
| BookingServiceModel.FirstOccurrenceOfFound | src/services/BookingService.java:450-473 | the booking found by id is also the first occurrence that List.remove drops |
| UserModel.DecodeEncodeUser | src/models/User.java:36-50 | parsing the line of a user with comma-free texts gives back the user |
| UserModel.EncodeUser | src/models/User.java:36-42 | the comma-joined seven fields; inverted by DecodeUser (`DecodeEncodeUser`) |
| UserModel.DecodeUser | src/models/User.java:44-50 | parses the seven fields back, None on a short line or a bad timestamp; left inverse of EncodeUser (`DecodeEncodeUser`) |
| UserModel.User.constructor | src/models/User.java:15-23 | a new user holds the given fields, created at `now` and active |
| UserModel.User.SetActive | src/models/User.java:34 | only the active flag changes |
| UserModel.User.FromLine | src/models/User.java:44-50 | a fresh user is built exactly when the line decodes, and it holds the decoded fields |
| UserServiceModel.LoginIndex | src/services/UserService.java:91-93 | the first active user whose name matches exactly, or the length |
| UserServiceModel.AppendKeepsDistinct | src/services/UserService.java:69-86 | appending a user whose name clashes with no existing name keeps names case-insensitively distinct |
| UserServiceModel.UsernameTaken | src/services/UserService.java:71-72 | some account has the name, ignoring case; a taken name makes registerUser fail (`UserService.RegisterUser`) |
| UserServiceModel.DistinctUsernames | src/services/UserService.java:69-88 | no two accounts share a name ignoring case; kept by registration (`AppendKeepsDistinct`, `UserService.RegisterUser`) |
| UserServiceModel.HasAdmin | src/services/UserService.java:17-18 | some account has the admin role; holds after construction (`UserService.constructor`) |
| UserServiceModel.UserService.constructor | src/services/UserService.java:15-59 | the loaded users come first; an admin is added if none has that role; the two sample users are added when at most one user exists; afterwards some user is an admin |
| UserServiceModel.UserService.RegisterUser | src/services/UserService.java:69-88 | a name that clashes case-insensitively is refused with no change; otherwise a fresh active user with the hashed password is appended; distinct names stay distinct |
| UserServiceModel.UserService.Login | src/services/UserService.java:90-100 | succeeds exactly when an active user has that exact name and the password verifies against the first such user's hash, who becomes current; otherwise the session is unchanged |
| UserServiceModel.UserService.Logout | src/services/UserService.java:102-104 | no user is logged in |
| UserServiceModel.UserService.AllUsers | src/services/UserService.java:110-112 | a copy of the users in stored order |
| UserServiceModel.UserService.UpdateUserRole | src/services/UserService.java:114-128 | succeeds exactly when the id exists, and then the users become the reloaded file; no role is changed |
| UserServiceModel.UserService.IdOfUsername | src/services/UserService.java:131-143 | present exactly when some user has that name, and then the id of the FIRST user with it (findFirst) |
| UserServiceModel.UserService.SampleHostId | src/services/UserService.java:131-136 | the id of the first user named john_host, absent when there is none |
| UserServiceModel.UserService.SampleGuestId | src/services/UserService.java:138-143 | the id of the first user named sarah_guest, absent when there is none |
| UserServiceModel.UserService.SeedingNeverNamesSampleHost | src/services/UserService.java:34-59 | the seeded sample host is kea_host, so without a loaded john_host the sample-host lookup finds nothing |
| MessageModel.DecodeEncodeMessage | src/models/Message.java:37-53 | parsing the line of a message with comma-free texts gives back the message |
| MessageModel.EncodeMessage | src/models/Message.java:37-43 | the comma-joined seven fields; inverted by DecodeMessage (`DecodeEncodeMessage`) |
| MessageModel.DecodeMessage | src/models/Message.java:45-53 | parses the seven fields back, None on a short line or a bad timestamp; left inverse of EncodeMessage (`DecodeEncodeMessage`) |
| MessageModel.Message.constructor | src/models/Message.java:15-24 | a new message holds the given fields, sent at `now` and unread |
| MessageModel.Message.MarkAsRead | src/models/Message.java:35 | only the read flag changes, it becomes true, and marking is idempotent |
| MessageModel.Message.FromLine | src/models/Message.java:45-53 | a fresh message is built exactly when the line decodes, and it holds the decoded fields |
| MessageServiceModel.SortedByTime | src/services/MessageService.java:43-53 | a permutation of the messages ordered by send time in the chosen direction |
| MessageServiceModel.Involves | src/services/MessageService.java:39-45 | sent or received by the user; exactly the messages of `MessageService.MessagesForUser` |
| MessageServiceModel.Between | src/services/MessageService.java:47-55 | sent from either user to the other; symmetric in the two users (`MessageService.ConversationIsSymmetric`) |
| MessageServiceModel.ReadFlags | src/services/MessageService.java:65-69 | the read flag of each message, in order |
| MessageServiceModel.UnreadAtMostReceived | src/services/MessageService.java:65-69 | the unread count never exceeds the number of messages received |
| MessageServiceModel.Unread | src/services/MessageService.java:65-69 | the number of the user's received messages whose read flag is off; it equals the size of the set of such positions (`UnreadCountsPositions`) |
| MessageServiceModel.UnreadSnoc | src/services/MessageService.java:65-69 | appending a message adds one to the count exactly when it is unread and received by the user |
| MessageServiceModel.UnreadCountsPositions | src/services/MessageService.java:65-69 | the count equals the number of positions holding an unread message received by the user |
| MessageServiceModel.UnreadNeverGrows | src/services/MessageService.java:57-69 | turning read flags on never raises anyone's unread count |
| MessageServiceModel.MessageService.constructor | src/services/MessageService.java:14-21 | the service starts with the loaded messages |
| MessageServiceModel.MessageService.SendMessage | src/services/MessageService.java:26-37 | a fresh unread message sent at `now` is appended, and the result is the append result |
| MessageServiceModel.MessageService.MessagesForUser | src/services/MessageService.java:39-45 | exactly the messages the user sent or received, newest first |
| MessageServiceModel.MessageService.Conversation | src/services/MessageService.java:47-55 | exactly the messages between the two users in either direction, oldest first |
| MessageServiceModel.MessageService.ConversationIsSymmetric | src/services/MessageService.java:47-55 | the conversation does not depend on the order of the two users |
| MessageServiceModel.MessageService.ConversationWithinMessages | src/services/MessageService.java:39-55 | every message of a conversation appears in both users' message lists |
| MessageServiceModel.MessageService.MarkMessageAsRead | src/services/MessageService.java:57-63 | only the first message with the id is marked read, the list is unchanged, and no unread count grows |
| MessageServiceModel.MessageService.UnreadMessageCount | src/services/MessageService.java:65-69 | the count is exactly the number of positions holding a message received by the user and not yet read, hence at most the number of messages the user received |
| ReviewModel.EncodeHasEightFields | src/models/Review.java:38-47 | the line of a review with comma-free texts splits into its eight fields |
| ReviewModel.DecodeEncodeReview | src/models/Review.java:38-52 | parsing a review's line gives back the review, except that its creation time becomes the load time |
| ReviewModel.EncodeReview | src/models/Review.java:38-44 | the comma-joined eight fields (`EncodeHasEightFields`); decoded back up to the creation time (`DecodeEncodeReview`) |
| ReviewModel.DecodeReview | src/models/Review.java:46-52 | the constructor over the first seven pieces, None on a short line or a bad rating; gives back an encoded review with the load time as creation time (`DecodeEncodeReview`) |
| ReviewModel.ReloadLosesCreatedAt | src/models/Review.java:46-52 | a review loaded at another moment differs from the one saved |
| ReviewServiceModel.SumRatingsBounds | src/services/ReviewService.java:40-55 | if every rating is in [lo, hi], the sum is between n·lo and n·hi |
| ReviewServiceModel.AverageBounds | src/services/ReviewService.java:40-55 | the average is 0.0 for no reviews, and otherwise lies within the rating bounds |
| ReviewServiceModel.Average | src/services/ReviewService.java:40-55 | the mean rating, 0.0 for no reviews; within the rating bounds (`AverageBounds`) and updated by a new review as `AverageAfterAppend` states |
| ReviewServiceModel.SumRatings | src/services/ReviewService.java:40-55 | the sum of the ratings; bounded by the count times the rating bounds (`SumRatingsBounds`) and additive (`SumRatingsAppend`) |
| ReviewServiceModel.IsPropertyReviewOf | src/services/ReviewService.java:27-32 | a property review of the listing; the filter of `ReviewService.ReviewsForProperty` |
| ReviewServiceModel.SumRatingsAppend | src/services/ReviewService.java:22-25 | the sum of ratings distributes over concatenation |
| ReviewServiceModel.ReviewService.constructor | src/services/ReviewService.java:14-20 | the service starts with the loaded reviews |
| ReviewServiceModel.ReviewService.AddReview | src/services/ReviewService.java:22-25 | the review is appended, and the result is the append result |
| ReviewServiceModel.ReviewService.ReviewsForProperty | src/services/ReviewService.java:27-32 | exactly the property reviews whose reviewee is the listing |
| ReviewServiceModel.ReviewService.ReviewsForUser | src/services/ReviewService.java:34-38 | exactly the reviews whose reviewee is the id |
| ReviewServiceModel.ReviewService.AverageRatingForProperty | src/services/ReviewService.java:40-47 | 0.0 when the listing has no property reviews |
| ReviewServiceModel.ReviewService.AverageRatingForUser | src/services/ReviewService.java:49-55 | 0.0 when the user has no reviews |
| ReviewServiceModel.ReviewService.AllReviews | src/services/ReviewService.java:57-59 | a copy of the reviews in stored order |
| ReviewServiceModel.ReviewService.PropertyReviewsAmongUserReviews | src/services/ReviewService.java:27-38 | the property reviews of an id are its user reviews of kind "property", in the same order |
| ReviewServiceModel.ReviewService.PropertyAverageWithinRatings | src/services/ReviewService.java:40-47 | a listing's average lies within the bounds of all ratings |
| ReviewServiceModel.AddReviewExtendsView | src/services/ReviewService.java:22-32 | after adding a review, a listing's property reviews gain it at the end exactly when it is one of them |
| ReviewServiceModel.AverageAfterAppend | src/services/ReviewService.java:22-47 | the average after adding a review is the old sum plus its rating over one more review |

## Left out

- File persistence (`FileHandler.loadData/saveData/appendData`, the `save*` methods) is not
  part of this model. A load is the `loaded` parameter, an append's result is `appended`,
  and `UpdateUserRole`'s reload is `reloaded`. A save that follows an in-memory change does
  not change the result, so it is omitted.
- `SecurityUtils` (id generation, password hashing and checking) is not part of this model.
  Ids are parameters, and hashing and checking are function-valued constants.
- The clock (`LocalDate.now`, `LocalDateTime.now`) is the `today`/`now` parameter.
- The GUI (`MainFrame`) is not part of this model.
- Dates and timestamps are written as decimal day and time numbers, not ISO-8601 text.
  `LocalDate.parse`/`LocalDateTime.parse` are modelled as decimal parsing, so the text
  format of the line files is not reproduced character for character.
- `Double.toString`/`Double.parseDouble` are not modelled. Prices are whole cents, written
  and read as decimal integers.
- A malformed line makes Java's `fromString` throw. `FileHandler.loadData` catches only
  `IOException`, so one malformed line makes the whole load throw, and with it the
  constructor of that service. The `loaded` parameter stands for a file whose every
  non-blank line decodes. `None` from the `Decode` functions marks the lines on which Java
  throws; no load that skips such lines is modelled.
- The human-readable message strings of the result maps are modelled as `Reason` values.
  `RejectBooking` does not take the free-text rejection reason, and `CancelBooking` does not
  model the guest-only message wording.
- Getters and `getCurrentUser` are not separate members. They are field reads.
- Java `int`/`long` overflow is not modelled: integers are unbounded.
- `Text.Lower`: case folding covers ASCII letters only. Java's `toLowerCase` and
  `equalsIgnoreCase` fold all of Unicode.
- `BookingServiceModel.BookingService.BookingStatistics`: states the total and that the four
  status counts fit within it. The exact split, including rejected bookings, is stated by
  `StatusCountsPartition`, and revenue bounds by `RevenueBounds`.
  `RevenueBounds` is stated in cents, without the floating-point rounding of
  `mapToDouble().sum()`.
- `BookingServiceModel.BookingService.ActiveBookingsForHost` keeps stored order, as the
  source does, and states membership only.
- `BookingServiceModel.SortedBy`, `MessageServiceModel.SortedByTime`: state ordering and
  permutation, not the stability of Java's sort among equal keys.
- `ReviewServiceModel.ReviewService.AverageRatingForProperty` and `AverageRatingForUser`:
  the contract states only the empty case. The bounds and the effect of appending are
  stated by `PropertyAverageWithinRatings`, `AverageBounds` and `AverageAfterAppend`.
  Averages are exact reals, without double rounding.
- `Calendar.DaysPart`: the same-month fact is stated on the day numbers of the two civil
  dates. The round trip `ToEpochDay(FromEpochDay(n)) == n`, which would turn it into
  `to - from`, is not proved in general, only for the example days (`KnownDays` and the
  date lemmas beside it).
- `Review` is a datatype with its Java constructor as the datatype constructor. The Java
  field `type` is named `kind`, because `type` is a Dafny keyword.
- `BookingModel.Booking.CalculateRefundAmount`: states the bounds and the non-cancellable
  case. The tiers themselves are stated by `RefundTier`, whose values are exact reals.
