/** The booking orchestrator: creation with its guard checks and the reservation of the
    nights, the host's confirm / reject / complete, cancellation with its refund, the
    guest's edit and delete, the availability check with its conflict scan, and the
    filtered and sorted booking lists. */
module BookingServiceModel {
  import opened Options
  import Seqs
  import Sorting
  import Calendar
  import BookingModel
  import ListingModel
  import PropertyServiceModel

  type Booking = BookingModel.Booking
  type PropertyListing = ListingModel.PropertyListing

  /** Why an operation was refused: one case per failure message of the service. */
  datatype Reason =
    | BookingNotFound
    | PropertyNotFound
    | CheckInInPast
    | CheckOutNotAfterCheckIn
    | DatesUnavailable
    | TooManyGuests
    | TooFewGuests
    | NotAuthorized
    | NotPending
    | NotCancellable
    | NotConfirmed
    | BeforeCheckOut
    | NewDatesUnavailable
    | InvalidGuestCount
    | NotDeletable

  /** The result map: success with the booking and the refund where the service reports
      them, or failure with its reason. */
  datatype Outcome =
    | Success(booking: Option<Booking>, refund: Option<real>)
    | Failure(reason: Reason)

  /** The caller roles of getBookingsByRole. */
  datatype UserRole = Admin | Host | Guest

  /** datesOverlap, as written: start1 is not after end2 - 1 and start2 is not after
      end1 - 1. */
  predicate DatesOverlap(start1: int, end1: int, start2: int, end2: int)
  {
    !(start1 > end2 - 1) && !(start2 > end1 - 1)
  }

  /** The two half-open stays [start1, end1) and [start2, end2) share a night, and the test
      does not depend on which stay comes first. */
  lemma OverlapIsHalfOpen(start1: int, end1: int, start2: int, end2: int)
    ensures DatesOverlap(start1, end1, start2, end2) <==> start1 < end2 && start2 < end1
    ensures DatesOverlap(start1, end1, start2, end2) == DatesOverlap(start2, end2, start1, end1)
  {
  }

  /** The night belongs to the stay [start, end). */
  predicate NightOf(night: int, start: int, end: int)
  {
    start <= night < end
  }

  /** Two proper stays (check-out after check-in) overlap exactly when some night belongs to
      both. */
  lemma OverlapIffSharedNight(start1: int, end1: int, start2: int, end2: int)
    requires start1 < end1 && start2 < end2
    ensures DatesOverlap(start1, end1, start2, end2) <==>
      exists night :: NightOf(night, start1, end1) && NightOf(night, start2, end2)
  {
    if start1 < end2 && start2 < end1 {
      var night := if start1 <= start2 then start2 else start1;
      assert NightOf(night, start1, end1) && NightOf(night, start2, end2);
    }
  }

  /** For an inverted stay the test can report an overlap without a shared night: the stay
      5 .. 3 "overlaps" 0 .. 10. */
  lemma InvertedStayOverlaps()
    ensures DatesOverlap(5, 3, 0, 10)
    ensures !exists night :: NightOf(night, 5, 3)
  {
  }

  /** Position of the first booking with the given id (|bs| when there is none). */
  function BookingIndex(bs: seq<Booking>, bookingId: string): (k: nat)
    ensures k <= |bs|
    ensures k < |bs| ==> bs[k].bookingId == bookingId
    ensures forall j :: 0 <= j < k ==> bs[j].bookingId != bookingId
  {
    Seqs.FirstIndex(bs, (b: Booking) => b.bookingId == bookingId)
  }

  /** A booking that blocks a stay on the listing in isListingAvailable's conflict scan. */
  predicate Conflicts(b: Booking, listingId: string, checkIn: int, checkOut: int,
                      excludeBookingId: string)
    reads b
  {
    && b.bookingId != excludeBookingId
    && b.listingId == listingId
    && (b.status == BookingModel.Pending || b.status == BookingModel.Confirmed)
    && DatesOverlap(b.checkIn, b.checkOut, checkIn, checkOut)
  }

  /** anyMatch of the conflict scan. */
  function AnyConflict(bs: seq<Booking>, listingId: string, checkIn: int, checkOut: int,
                       excludeBookingId: string): (r: bool)
    reads set i | 0 <= i < |bs| :: bs[i]
    ensures r <==> exists i :: 0 <= i < |bs| && Conflicts(bs[i], listingId, checkIn, checkOut, excludeBookingId)
  {
    if bs == [] then false
    else Conflicts(bs[0], listingId, checkIn, checkOut, excludeBookingId)
         || AnyConflict(bs[1..], listingId, checkIn, checkOut, excludeBookingId)
  }

  /** The orders of the sorted queries. */
  datatype Order = NewestFirst | OldestFirst | EarliestCheckIn

  /** The ascending sort key of a booking for an order. */
  function Key(b: Booking, order: Order): int
    reads b
  {
    match order
    case NewestFirst => -b.bookedAt
    case OldestFirst => b.bookedAt
    case EarliestCheckIn => b.checkIn
  }

  function Keyed(bs: seq<Booking>, order: Order): (r: seq<(int, Booking)>)
    reads set i | 0 <= i < |bs| :: bs[i]
    ensures |r| == |bs|
    ensures forall i :: 0 <= i < |bs| ==> r[i] == (Key(bs[i], order), bs[i])
  {
    if bs == [] then [] else [(Key(bs[0], order), bs[0])] + Keyed(bs[1..], order)
  }

  /** The stream's sorted(comparator) step. */
  function SortedBy(bs: seq<Booking>, order: Order): (r: seq<Booking>)
    reads set i | 0 <= i < |bs| :: bs[i]
    ensures |r| == |bs|
    ensures multiset(r) == multiset(bs)
    ensures forall i, j :: 0 <= i < j < |r| ==> Key(r[i], order) <= Key(r[j], order)
  {
    var keyed := Keyed(bs, order);
    var sorted := Sorting.SortByKey(keyed);
    Sorting.SortPermutes(keyed);
    Sorting.SortPermutesValues(keyed);
    assert Sorting.Values(keyed) == bs;
    SortedKeysMatch(keyed, sorted, order);
    Sorting.Values(sorted)
  }

  /** Every pair of the sorted keyed list still carries its booking's key. */
  lemma SortedKeysMatch(keyed: seq<(int, Booking)>, sorted: seq<(int, Booking)>, order: Order)
    requires forall i :: 0 <= i < |keyed| ==> keyed[i].0 == Key(keyed[i].1, order)
    requires multiset(sorted) == multiset(keyed)
    ensures forall i :: 0 <= i < |sorted| ==> sorted[i].0 == Key(sorted[i].1, order)
  {
    forall i | 0 <= i < |sorted| ensures sorted[i].0 == Key(sorted[i].1, order) {
      assert sorted[i] in multiset(sorted);
      assert sorted[i] in keyed;
    }
  }

  /** An element of a permutation is an element of the original. */
  lemma InPermutation(r: seq<Booking>, bs: seq<Booking>, b: Booking)
    requires multiset(r) == multiset(bs)
    ensures b in r <==> b in bs
  {
    assert b in r <==> b in multiset(r);
    assert b in bs <==> b in multiset(bs);
  }

  /** The statistics map of getBookingStatistics. */
  datatype Statistics = Statistics(
    totalBookings: nat, pendingBookings: nat, confirmedBookings: nat,
    completedBookings: nat, cancelledBookings: nat, totalRevenue: int)

  /** Number of bookings with the given status. */
  function CountStatus(bs: seq<Booking>, status: string): (n: nat)
    reads set i | 0 <= i < |bs| :: bs[i]
    ensures n <= |bs|
  {
    if bs == [] then 0
    else (if bs[0].status == status then 1 else 0) + CountStatus(bs[1..], status)
  }

  /** Sum of the total prices of the completed bookings. */
  function CompletedRevenue(bs: seq<Booking>): int
    reads set i | 0 <= i < |bs| :: bs[i]
  {
    if bs == [] then 0
    else (if bs[0].status == BookingModel.Completed then bs[0].totalPrice else 0)
         + CompletedRevenue(bs[1..])
  }

  /** Whether a status is one of the four that getBookingStatistics counts. */
  predicate IsCountedStatus(status: string)
  {
    status == BookingModel.Pending || status == BookingModel.Confirmed
    || status == BookingModel.Completed || status == BookingModel.Cancelled
  }

  /** Number of bookings whose status is none of the four counted ones (rejected, or an
      unknown status read from the file). */
  function CountUncounted(bs: seq<Booking>): (n: nat)
    reads set i | 0 <= i < |bs| :: bs[i]
    ensures n <= |bs|
  {
    if bs == [] then 0
    else (if IsCountedStatus(bs[0].status) then 0 else 1) + CountUncounted(bs[1..])
  }

  /** The four status counts and the uncounted bookings add up to the total, so the counts
      never exceed it. */
  lemma {:induction false} StatusCountsPartition(bs: seq<Booking>)
    ensures CountStatus(bs, BookingModel.Pending) + CountStatus(bs, BookingModel.Confirmed)
          + CountStatus(bs, BookingModel.Completed) + CountStatus(bs, BookingModel.Cancelled)
          + CountUncounted(bs) == |bs|
  {
    if bs != [] {
      StatusCountsPartition(bs[1..]);
    }
  }

  /** With non-negative prices the revenue is non-negative and at most the sum over all
      bookings. */
  lemma {:induction false} RevenueBounds(bs: seq<Booking>)
    requires forall i :: 0 <= i < |bs| ==> bs[i].totalPrice >= 0
    ensures 0 <= CompletedRevenue(bs) <= TotalPrices(bs)
  {
    if bs != [] {
      RevenueBounds(bs[1..]);
    }
  }

  /** Sum of the total prices of all bookings. */
  function TotalPrices(bs: seq<Booking>): int
    reads set i | 0 <= i < |bs| :: bs[i]
  {
    if bs == [] then 0 else bs[0].totalPrice + TotalPrices(bs[1..])
  }

  /** Both directions of membership between a list and a permutation of it. */
  lemma PermutationMembers(r: seq<Booking>, bs: seq<Booking>)
    requires multiset(r) == multiset(bs)
    ensures forall i :: 0 <= i < |r| ==> r[i] in bs
    ensures forall i :: 0 <= i < |bs| ==> bs[i] in r
  {
    forall i | 0 <= i < |r| ensures r[i] in bs {
      InPermutation(r, bs, r[i]);
    }
    forall i | 0 <= i < |bs| ensures bs[i] in r {
      InPermutation(r, bs, bs[i]);
    }
  }

  /** The stream filters of the booking queries. */
  datatype BookingQuery =
    | ByGuest(guestId: string)
    | ForHost(hostId: string)
    | PendingForHost(hostId: string)
    | UpcomingForHost(hostId: string, today: int)
    | ActiveForHost(hostId: string, today: int)

  /** Every listing other than the target keeps all its fields. */
  twostate predicate OtherListingsUnchanged(ls: seq<PropertyListing>, target: Option<PropertyListing>)
    reads set i | 0 <= i < |ls| :: ls[i]
  {
    forall i :: 0 <= i < |ls| && (target.None? || ls[i] != target.value) ==>
      ls[i].Row() == old(ls[i].Row())
  }

  /** Every booking other than the target keeps all its fields. */
  twostate predicate OtherBookingsUnchanged(bs: seq<Booking>, target: Option<Booking>)
    reads set i | 0 <= i < |bs| :: bs[i]
  {
    forall i :: 0 <= i < |bs| && (target.None? || bs[i] != target.value) ==>
      bs[i].Row() == old(bs[i].Row())
  }

  class BookingService {
    var bookings: seq<Booking>
    const propertyService: PropertyServiceModel.PropertyService

    /** `loaded` stands for the bookings read back from the bookings file. */
    constructor (propertyService: PropertyServiceModel.PropertyService, loaded: seq<Booking>)
      ensures this.propertyService == propertyService && bookings == loaded
    {
      this.propertyService := propertyService;
      bookings := loaded;
    }

    /** propertyService.getListingById. */
    function ListingOf(listingId: string): Option<PropertyListing>
      reads this, propertyService
    {
      propertyService.ListingById(listingId)
    }

    /** isUserHost: the listing exists and belongs to the user. */
    predicate IsUserHost(listingId: string, userId: string)
      reads this, propertyService
    {
      var listing := ListingOf(listingId);
      listing.Some? && listing.value.hostId == userId
    }

    /** getBookingById: the first booking with the id. */
    function BookingById(bookingId: string): (r: Option<Booking>)
      reads this
      ensures r.Some? <==> exists i :: 0 <= i < |bookings| && bookings[i].bookingId == bookingId
      ensures r.Some? ==> r.value in bookings && r.value.bookingId == bookingId
      ensures r.Some? ==> r.value == bookings[BookingIndex(bookings, bookingId)]
    {
      var k := BookingIndex(bookings, bookingId);
      if k < |bookings| then Some(bookings[k]) else None
    }

    /** isListingAvailable: the listing exists, its booked days leave check-in .. check-out
        (both included) free, and no other pending or confirmed booking of the listing
        overlaps the stay. */
    predicate IsListingAvailable(listingId: string, checkIn: int, checkOut: int,
                                 excludeBookingId: string)
      reads this, propertyService, propertyService.listings, bookings
    {
      var listing := ListingOf(listingId);
      && listing.Some?
      && listing.value.IsAvailable(checkIn, checkOut)
      && !AnyConflict(bookings, listingId, checkIn, checkOut, excludeBookingId)
    }

    /** The availability check used by editBooking still sees the booking's own reserved
        nights: a new range that touches one of them is refused, even though the booking
        itself is excluded from the conflict scan. */
    lemma OwnNightsBlockEdit(listingId: string, bookingId: string, newCheckIn: int,
                             newCheckOut: int, night: int)
      requires ListingOf(listingId).Some?
      requires night in ListingOf(listingId).value.bookedDates
      requires newCheckIn <= night <= newCheckOut
      ensures !IsListingAvailable(listingId, newCheckIn, newCheckOut, bookingId)
    {
      var booked := ListingOf(listingId).value.bookedDates;
      var i :| 0 <= i < |booked| && booked[i] == night;
    }

    /** Whether a booking passes the filters of a query. */
    predicate Keeps(b: Booking, q: BookingQuery)
      reads this, propertyService, b
    {
      match q
      case ByGuest(guestId) => b.guestId == guestId
      case ForHost(hostId) => IsUserHost(b.listingId, hostId)
      case PendingForHost(hostId) => b.status == BookingModel.Pending && IsUserHost(b.listingId, hostId)
      case UpcomingForHost(hostId, today) =>
        b.status == BookingModel.Confirmed && IsUserHost(b.listingId, hostId) && b.checkIn > today
      case ActiveForHost(hostId, today) => b.IsActive(today) && IsUserHost(b.listingId, hostId)
    }

    /** The filter steps of a query, in list order. Seqs.Filter takes a total predicate,
        which cannot read a booking's mutable status or the listings, so the filter is
        spelled out here with its reads frame. */
    function Select(bs: seq<Booking>, q: BookingQuery): (r: seq<Booking>)
      reads this, propertyService, set i | 0 <= i < |bs| :: bs[i]
      ensures |r| <= |bs|
      ensures forall i :: 0 <= i < |r| ==> r[i] in bs
    {
      if bs == [] then []
      else if Keeps(bs[0], q) then [bs[0]] + Select(bs[1..], q)
      else Select(bs[1..], q)
    }

    /** The selected bookings are exactly the bookings the query keeps. */
    lemma {:induction false} SelectMembers(bs: seq<Booking>, q: BookingQuery)
      ensures forall i :: 0 <= i < |Select(bs, q)| ==> Select(bs, q)[i] in bs && Keeps(Select(bs, q)[i], q)
      ensures forall i :: 0 <= i < |bs| && Keeps(bs[i], q) ==> bs[i] in Select(bs, q)
    {
      if bs != [] {
        SelectMembers(bs[1..], q);
        var rest := Select(bs[1..], q);
        var r := Select(bs, q);
        assert r == (if Keeps(bs[0], q) then [bs[0]] + rest else rest);
        forall i | 0 <= i < |r| ensures r[i] in bs && Keeps(r[i], q) {
          if !Keeps(bs[0], q) || i > 0 {
            var j := if Keeps(bs[0], q) then i - 1 else i;
            assert r[i] == rest[j];
            assert rest[j] in bs[1..];
          }
        }
        forall i | 0 <= i < |bs| && Keeps(bs[i], q) ensures bs[i] in r {
          if i > 0 {
            assert bs[i] == bs[1..][i - 1];
            assert bs[i] in rest;
          }
        }
      }
    }

    /** Filtering keeps the stored order: it distributes over concatenation. */
    lemma {:induction false} SelectAppend(bs: seq<Booking>, cs: seq<Booking>, q: BookingQuery)
      ensures Select(bs + cs, q) == Select(bs, q) + Select(cs, q)
    {
      if bs == [] {
        assert bs + cs == cs;
      } else {
        var all := bs + cs;
        assert all != [] && all[0] == bs[0];
        assert all[1..] == bs[1..] + cs;
        SelectAppend(bs[1..], cs, q);
        if Keeps(bs[0], q) {
          assert Select(all, q) == [bs[0]] + Select(bs[1..] + cs, q);
          assert Select(bs, q) == [bs[0]] + Select(bs[1..], q);
        } else {
          assert Select(all, q) == Select(bs[1..] + cs, q);
          assert Select(bs, q) == Select(bs[1..], q);
        }
      }
    }

    /** The bookings a query keeps, in the order the query sorts by: the members of a
        sorted query result are exactly the stored bookings the filters keep. */
    lemma SortedQueryMembers(r: seq<Booking>, q: BookingQuery)
      requires multiset(r) == multiset(Select(bookings, q))
      ensures forall i :: 0 <= i < |r| ==> r[i] in bookings && Keeps(r[i], q)
      ensures forall i :: 0 <= i < |bookings| && Keeps(bookings[i], q) ==> bookings[i] in r
    {
      var kept := Select(bookings, q);
      SelectMembers(bookings, q);
      PermutationMembers(r, kept);
      forall i | 0 <= i < |r| ensures r[i] in bookings && Keeps(r[i], q) {
        var j :| 0 <= j < |kept| && kept[j] == r[i];
      }
      forall i | 0 <= i < |bookings| && Keeps(bookings[i], q) ensures bookings[i] in r {
        var j :| 0 <= j < |kept| && kept[j] == bookings[i];
      }
    }

    /** getBookingsByGuest: the guest's bookings, newest bookedAt first. */
    function BookingsByGuest(guestId: string): (r: seq<Booking>)
      reads this, propertyService, bookings
      ensures multiset(r) == multiset(Select(bookings, ByGuest(guestId)))
      ensures forall i :: 0 <= i < |r| ==> r[i] in bookings && r[i].guestId == guestId
      ensures forall i :: 0 <= i < |bookings| && bookings[i].guestId == guestId ==> bookings[i] in r
      ensures forall i, j :: 0 <= i < j < |r| ==> r[i].bookedAt >= r[j].bookedAt
    {
      var r := SortedBy(Select(bookings, ByGuest(guestId)), NewestFirst);
      SortedQueryMembers(r, ByGuest(guestId));
      r
    }

    /** getBookingsForHost: bookings of the host's listings, newest bookedAt first. */
    function BookingsForHost(hostId: string): (r: seq<Booking>)
      reads this, propertyService, bookings
      ensures multiset(r) == multiset(Select(bookings, ForHost(hostId)))
      ensures forall i :: 0 <= i < |r| ==> r[i] in bookings && IsUserHost(r[i].listingId, hostId)
      ensures forall i :: 0 <= i < |bookings| && IsUserHost(bookings[i].listingId, hostId) ==> bookings[i] in r
      ensures forall i, j :: 0 <= i < j < |r| ==> r[i].bookedAt >= r[j].bookedAt
    {
      var r := SortedBy(Select(bookings, ForHost(hostId)), NewestFirst);
      SortedQueryMembers(r, ForHost(hostId));
      r
    }

    /** getPendingBookingsForHost: the host's pending bookings, oldest bookedAt first. */
    function PendingBookingsForHost(hostId: string): (r: seq<Booking>)
      reads this, propertyService, bookings
      ensures multiset(r) == multiset(Select(bookings, PendingForHost(hostId)))
      ensures forall i :: 0 <= i < |r| ==> r[i] in bookings && Keeps(r[i], PendingForHost(hostId))
      ensures forall i :: 0 <= i < |bookings| && Keeps(bookings[i], PendingForHost(hostId)) ==>
        bookings[i] in r
      ensures forall i, j :: 0 <= i < j < |r| ==> r[i].bookedAt <= r[j].bookedAt
    {
      var r := SortedBy(Select(bookings, PendingForHost(hostId)), OldestFirst);
      SortedQueryMembers(r, PendingForHost(hostId));
      r
    }

    /** getUpcomingBookingsForHost: the host's confirmed bookings checking in after today,
        earliest check-in first. */
    function UpcomingBookingsForHost(hostId: string, today: int): (r: seq<Booking>)
      reads this, propertyService, bookings
      ensures multiset(r) == multiset(Select(bookings, UpcomingForHost(hostId, today)))
      ensures forall i :: 0 <= i < |r| ==> r[i] in bookings && Keeps(r[i], UpcomingForHost(hostId, today))
      ensures forall i :: 0 <= i < |bookings| && Keeps(bookings[i], UpcomingForHost(hostId, today)) ==>
        bookings[i] in r
      ensures forall i, j :: 0 <= i < j < |r| ==> r[i].checkIn <= r[j].checkIn
    {
      var q := UpcomingForHost(hostId, today);
      var r := SortedBy(Select(bookings, q), EarliestCheckIn);
      SortedQueryMembers(r, q);
      assert forall i :: 0 <= i < |r| ==> Key(r[i], EarliestCheckIn) == r[i].checkIn;
      r
    }

    /** getActiveBookingsForHost: the host's bookings in their stay today, in stored order. */
    function ActiveBookingsForHost(hostId: string, today: int): (r: seq<Booking>)
      reads this, propertyService, bookings
      ensures forall i :: 0 <= i < |r| ==> r[i] in bookings && Keeps(r[i], ActiveForHost(hostId, today))
      ensures forall i :: 0 <= i < |bookings| && Keeps(bookings[i], ActiveForHost(hostId, today)) ==>
        bookings[i] in r
    {
      SelectMembers(bookings, ActiveForHost(hostId, today));
      Select(bookings, ActiveForHost(hostId, today))
    }

    /** getBookingStatistics over getBookingsForHost. */
    function BookingStatistics(hostId: string): (st: Statistics)
      reads this, propertyService, bookings
      ensures st.totalBookings == |Select(bookings, ForHost(hostId))|
      ensures st.pendingBookings + st.confirmedBookings + st.completedBookings
            + st.cancelledBookings <= st.totalBookings
    {
      var hostBookings := BookingsForHost(hostId);
      StatusCountsPartition(hostBookings);
      Statistics(|hostBookings|,
                 CountStatus(hostBookings, BookingModel.Pending),
                 CountStatus(hostBookings, BookingModel.Confirmed),
                 CountStatus(hostBookings, BookingModel.Completed),
                 CountStatus(hostBookings, BookingModel.Cancelled),
                 CompletedRevenue(hostBookings))
    }

    /** getAllBookings: a copy of the list, in stored order. */
    function AllBookings(): (r: seq<Booking>)
      reads this
      ensures |r| == |bookings| && forall i :: 0 <= i < |r| ==> r[i] == bookings[i]
    {
      bookings
    }

    /** viewAllBookingsForAdmin: every booking, newest bookedAt first; the admin id is not
        consulted. */
    function ViewAllBookingsForAdmin(adminId: string): (r: seq<Booking>)
      reads this, bookings
      ensures multiset(r) == multiset(bookings)
      ensures forall i, j :: 0 <= i < j < |r| ==> r[i].bookedAt >= r[j].bookedAt
    {
      SortedBy(bookings, NewestFirst)
    }

    /** getBookingsByRole: every booking (unsorted) for an admin, the host's or the guest's
        sorted lists otherwise. */
    function BookingsByRole(userId: string, role: UserRole): (r: seq<Booking>)
      reads this, propertyService, bookings
      ensures role == Admin ==> r == bookings
      ensures role == Host ==> r == BookingsForHost(userId)
      ensures role == Guest ==> r == BookingsByGuest(userId)
      ensures role == Host ==> forall i :: 0 <= i < |r| ==> IsUserHost(r[i].listingId, userId)
      ensures role == Guest ==> forall i :: 0 <= i < |r| ==> r[i].guestId == userId
      ensures forall i :: 0 <= i < |r| ==> r[i] in bookings
    {
      match role
      case Admin => AllBookings()
      case Host => BookingsForHost(userId)
      case Guest => BookingsByGuest(userId)
    }

    /** canUserReviewBooking: the booking exists, the user is its guest, it is completed and
        its check-out day is before today. */
    predicate CanUserReviewBooking(bookingId: string, userId: string, today: int)
      reads this, bookings
    {
      var b := BookingById(bookingId);
      b.Some? && b.value.guestId == userId && b.value.CanBeReviewed(today)
    }

    /** A reviewable booking is completed and its guest's, and is neither upcoming nor in its
        stay. */
    lemma ReviewableBookingIsOver(bookingId: string, userId: string, today: int)
      requires CanUserReviewBooking(bookingId, userId, today)
      ensures var b := BookingById(bookingId).value;
        b.guestId == userId && b.status == BookingModel.Completed && b.checkOut < today
        && !b.IsUpcoming(today) && !b.IsActive(today)
    {
    }

    /** The guard checks of createBooking, in the order the service makes them. */
    function CreateRefusal(listingId: string, checkIn: int, checkOut: int,
                           numberOfGuests: int, today: int): Option<Reason>
      reads this, propertyService, propertyService.listings
    {
      var listing := ListingOf(listingId);
      if listing.None? then Some(PropertyNotFound)
      else if checkIn < today then Some(CheckInInPast)
      else if checkOut <= checkIn then Some(CheckOutNotAfterCheckIn)
      else if !listing.value.IsAvailable(checkIn, checkOut) then Some(DatesUnavailable)
      else if numberOfGuests > listing.value.maxGuests then Some(TooManyGuests)
      else if numberOfGuests < 1 then Some(TooFewGuests)
      else None
    }

    /** A stay that createBooking accepts is a proper stay of the listing, from today on, for
        one to maxGuests guests, on days its ledger leaves free. */
    lemma CreateAcceptance(listingId: string, checkIn: int, checkOut: int,
                           numberOfGuests: int, today: int)
      requires CreateRefusal(listingId, checkIn, checkOut, numberOfGuests, today).None?
      ensures ListingOf(listingId).Some?
      ensures today <= checkIn < checkOut
      ensures 1 <= numberOfGuests <= ListingOf(listingId).value.maxGuests
      ensures forall night :: checkIn <= night <= checkOut ==>
        night !in ListingOf(listingId).value.bookedDates
    {
      var listing := ListingOf(listingId).value;
      ListingModel.FreeIffNoBookedDay(listing.bookedDates, checkIn, checkOut);
    }

    /** createBooking: after the guard checks, a new pending booking priced at the days
        component of the stay times the nightly price, its nights reserved on the listing and
        the booking appended. `newId`, `today` and `now` stand for SecurityUtils.generateId(),
        LocalDate.now() and LocalDateTime.now(). */
    method CreateBooking(listingId: string, guestId: string, checkIn: int, checkOut: int,
                         numberOfGuests: int, today: int, now: int, newId: string)
      returns (result: Outcome)
      modifies this`bookings, propertyService.listings
      ensures var refusal := old(CreateRefusal(listingId, checkIn, checkOut, numberOfGuests, today));
        && (result.Failure? <==> refusal.Some?)
        && (result.Failure? ==> result.reason == refusal.value && bookings == old(bookings)
                                && OtherListingsUnchanged(propertyService.listings, None))
      ensures result.Success? ==>
        var listing := ListingOf(listingId).value;
        && result.booking.Some? && result.refund.None?
        && fresh(result.booking.value)
        && bookings == old(bookings) + [result.booking.value]
        && result.booking.value.Row() == BookingModel.BookingRow(
             newId, listingId, guestId, checkIn, checkOut, numberOfGuests,
             Calendar.DaysPart(checkIn, checkOut) * listing.pricePerNight,
             BookingModel.Pending, now)
        && listing.Row() == old(listing.Row()).(bookedDates :=
             old(listing.bookedDates) + PropertyServiceModel.DayRange(checkIn, checkOut))
        && OtherListingsUnchanged(propertyService.listings, Some(listing))
    {
      var found := ListingOf(listingId);
      if found.None? {
        return Failure(PropertyNotFound);
      }
      var listing := found.value;
      if checkIn < today {
        return Failure(CheckInInPast);
      }
      if checkOut <= checkIn {
        return Failure(CheckOutNotAfterCheckIn);
      }
      if !listing.IsAvailable(checkIn, checkOut) {
        return Failure(DatesUnavailable);
      }
      if numberOfGuests > listing.maxGuests {
        return Failure(TooManyGuests);
      }
      if numberOfGuests < 1 {
        return Failure(TooFewGuests);
      }
      var booking := Admit(listing, listingId, guestId, checkIn, checkOut, numberOfGuests,
                           now, newId);
      return Success(Some(booking), None);
    }

    /** The tail of createBooking once every check has passed: the booking built, the nights
        reserved on the listing, the booking appended. */
    method Admit(listing: PropertyListing, listingId: string, guestId: string, checkIn: int,
                 checkOut: int, numberOfGuests: int, now: int, newId: string)
      returns (booking: Booking)
      requires ListingOf(listingId) == Some(listing)
      modifies this`bookings, propertyService.listings
      ensures fresh(booking)
      ensures bookings == old(bookings) + [booking]
      ensures booking.Row() == BookingModel.BookingRow(
                newId, listingId, guestId, checkIn, checkOut, numberOfGuests,
                Calendar.DaysPart(checkIn, checkOut) * listing.pricePerNight,
                BookingModel.Pending, now)
      ensures listing.Row() == old(listing.Row()).(bookedDates :=
                old(listing.bookedDates) + PropertyServiceModel.DayRange(checkIn, checkOut))
      ensures OtherListingsUnchanged(propertyService.listings, Some(listing))
    {
      var nights := Calendar.DaysPart(checkIn, checkOut);
      booking := new BookingModel.Booking(newId, listingId, guestId, checkIn, checkOut,
                                          numberOfGuests, nights * listing.pricePerNight, now);
      var _ := propertyService.AddBookedDates(listingId, checkIn, checkOut);
      bookings := bookings + [booking];
    }

    /** The guard checks of confirmBooking and rejectBooking: the booking exists, the caller
        hosts its listing, and it is pending. */
    function HostDecisionRefusal(bookingId: string, hostId: string): Option<Reason>
      reads this, bookings, propertyService
    {
      var b := BookingById(bookingId);
      if b.None? then Some(BookingNotFound)
      else if !IsUserHost(b.value.listingId, hostId) then Some(NotAuthorized)
      else if b.value.status != BookingModel.Pending then Some(NotPending)
      else None
    }

    /** A confirm or reject request that passes the guards names a booking of a listing the
        caller hosts, whose status may move to both confirmed and rejected. */
    lemma HostDecisionAcceptance(bookingId: string, hostId: string)
      requires HostDecisionRefusal(bookingId, hostId).None?
      ensures exists i :: 0 <= i < |bookings| && bookings[i].bookingId == bookingId
      ensures var b := BookingById(bookingId).value;
        && ListingOf(b.listingId).Some? && ListingOf(b.listingId).value.hostId == hostId
        && BookingModel.IsValidStatusTransition(b.status, BookingModel.Confirmed)
        && BookingModel.IsValidStatusTransition(b.status, BookingModel.Rejected)
    {
    }

    /** confirmBooking: the pending booking becomes confirmed; nothing else changes, and the
        listings (outside the frame) keep their booked days. */
    method ConfirmBooking(bookingId: string, hostId: string) returns (result: Outcome)
      modifies bookings
      ensures var refusal := old(HostDecisionRefusal(bookingId, hostId));
        && (result.Failure? <==> refusal.Some?)
        && (result.Failure? ==> result.reason == refusal.value && OtherBookingsUnchanged(bookings, None))
      ensures result.Success? ==>
        var b := BookingById(bookingId).value;
        && result == Success(None, None)
        && b.Row() == old(b.Row()).(status := BookingModel.Confirmed)
        && OtherBookingsUnchanged(bookings, Some(b))
    {
      var found := BookingById(bookingId);
      if found.None? {
        return Failure(BookingNotFound);
      }
      var booking := found.value;
      if !IsUserHost(booking.listingId, hostId) {
        return Failure(NotAuthorized);
      }
      if booking.status != BookingModel.Pending {
        return Failure(NotPending);
      }
      booking.SetStatus(BookingModel.Confirmed);
      return Success(None, None);
    }

    /** The common tail of rejectBooking and cancelBooking: the status change, then
        propertyService.removeBookedDates over the booking's stay. */
    method EndStay(booking: Booking, next: string)
      requires booking in bookings
      requires BookingModel.IsValidStatusTransition(booking.status, next)
      modifies booking, propertyService.listings
      ensures booking.Row() == old(booking.Row()).(status := next)
      ensures ListingOf(booking.listingId).Some? ==>
        var listing := ListingOf(booking.listingId).value;
        listing.Row() == old(listing.Row()).(bookedDates :=
          PropertyServiceModel.ReleaseNights(old(listing.bookedDates), booking.checkIn, booking.checkOut))
      ensures OtherListingsUnchanged(propertyService.listings, ListingOf(booking.listingId))
    {
      booking.SetStatus(next);
      var _ := propertyService.RemoveBookedDates(booking.listingId, booking.checkIn, booking.checkOut);
    }

    /** rejectBooking: the pending booking becomes rejected and its nights check-in ..
        check-out - 1 are released from its listing, one occurrence each. The reason only
        feeds the message text. */
    method RejectBooking(bookingId: string, hostId: string) returns (result: Outcome)
      modifies bookings, propertyService.listings
      ensures var refusal := old(HostDecisionRefusal(bookingId, hostId));
        && (result.Failure? <==> refusal.Some?)
        && (result.Failure? ==> result.reason == refusal.value && OtherBookingsUnchanged(bookings, None)
                                && OtherListingsUnchanged(propertyService.listings, None))
      ensures result.Success? ==>
        var b := BookingById(bookingId).value;
        var listing := ListingOf(b.listingId).value;
        && result == Success(None, None)
        && b.Row() == old(b.Row()).(status := BookingModel.Rejected)
        && OtherBookingsUnchanged(bookings, Some(b))
        && listing.Row() == old(listing.Row()).(bookedDates :=
             PropertyServiceModel.ReleaseNights(old(listing.bookedDates), b.checkIn, b.checkOut))
        && OtherListingsUnchanged(propertyService.listings, Some(listing))
    {
      var found := BookingById(bookingId);
      if found.None? {
        return Failure(BookingNotFound);
      }
      var booking := found.value;
      if !IsUserHost(booking.listingId, hostId) {
        return Failure(NotAuthorized);
      }
      if booking.status != BookingModel.Pending {
        return Failure(NotPending);
      }
      EndStay(booking, BookingModel.Rejected);
      return Success(None, None);
    }

    /** The guard checks of cancelBooking: the booking exists, the caller is its guest or
        hosts its listing, and it is pending or confirmed. */
    function CancelRefusal(bookingId: string, userId: string): Option<Reason>
      reads this, bookings, propertyService
    {
      var b := BookingById(bookingId);
      if b.None? then Some(BookingNotFound)
      else if !(b.value.guestId == userId || IsUserHost(b.value.listingId, userId)) then Some(NotAuthorized)
      else if !b.value.CanBeCancelled() then Some(NotCancellable)
      else None
    }

    /** A cancel request that passes the guards names a booking of the caller (as guest or
        as host) whose status may move to cancelled. */
    lemma CancelAcceptance(bookingId: string, userId: string)
      requires CancelRefusal(bookingId, userId).None?
      ensures exists i :: 0 <= i < |bookings| && bookings[i].bookingId == bookingId
      ensures var b := BookingById(bookingId).value;
        && (b.guestId == userId || (ListingOf(b.listingId).Some? && ListingOf(b.listingId).value.hostId == userId))
        && BookingModel.IsValidStatusTransition(b.status, BookingModel.Cancelled)
    {
    }

    /** cancelBooking: reports the refund computed before the status change, cancels the
        booking and releases its nights from its listing (when the listing still exists). */
    method CancelBooking(bookingId: string, userId: string, today: int) returns (result: Outcome)
      modifies bookings, propertyService.listings
      ensures var refusal := old(CancelRefusal(bookingId, userId));
        && (result.Failure? <==> refusal.Some?)
        && (result.Failure? ==> result.reason == refusal.value && OtherBookingsUnchanged(bookings, None)
                                && OtherListingsUnchanged(propertyService.listings, None))
      ensures result.Success? ==>
        var b := BookingById(bookingId).value;
        && result.booking.None?
        && result.refund == Some(old(b.CalculateRefundAmount(today)))
        && b.Row() == old(b.Row()).(status := BookingModel.Cancelled)
        && OtherBookingsUnchanged(bookings, Some(b))
        && (ListingOf(b.listingId).Some? ==>
              var listing := ListingOf(b.listingId).value;
              listing.Row() == old(listing.Row()).(bookedDates :=
                PropertyServiceModel.ReleaseNights(old(listing.bookedDates), b.checkIn, b.checkOut)))
        && OtherListingsUnchanged(propertyService.listings, ListingOf(b.listingId))
    {
      var found := BookingById(bookingId);
      if found.None? {
        return Failure(BookingNotFound);
      }
      var booking := found.value;
      var isGuest := booking.guestId == userId;
      var isHost := IsUserHost(booking.listingId, userId);
      if !isGuest && !isHost {
        return Failure(NotAuthorized);
      }
      if !booking.CanBeCancelled() {
        return Failure(NotCancellable);
      }
      var refundAmount := booking.CalculateRefundAmount(today);
      EndStay(booking, BookingModel.Cancelled);
      return Success(None, Some(refundAmount));
    }

    /** The guard checks of completeBooking: the booking exists, the caller hosts its
        listing, it is confirmed, and its check-out day is not after today. */
    function CompleteRefusal(bookingId: string, hostId: string, today: int): Option<Reason>
      reads this, bookings, propertyService
    {
      var b := BookingById(bookingId);
      if b.None? then Some(BookingNotFound)
      else if !IsUserHost(b.value.listingId, hostId) then Some(NotAuthorized)
      else if b.value.status != BookingModel.Confirmed then Some(NotConfirmed)
      else if b.value.checkOut > today then Some(BeforeCheckOut)
      else None
    }

    /** A complete request that passes the guards names a booking of a listing the caller
        hosts, whose status may move to completed and whose check-out day has come. */
    lemma CompleteAcceptance(bookingId: string, hostId: string, today: int)
      requires CompleteRefusal(bookingId, hostId, today).None?
      ensures exists i :: 0 <= i < |bookings| && bookings[i].bookingId == bookingId
      ensures var b := BookingById(bookingId).value;
        && ListingOf(b.listingId).Some? && ListingOf(b.listingId).value.hostId == hostId
        && BookingModel.IsValidStatusTransition(b.status, BookingModel.Completed)
        && b.checkOut <= today
    {
    }

    /** completeBooking: the confirmed booking becomes completed; nothing else changes. */
    method CompleteBooking(bookingId: string, hostId: string, today: int) returns (result: Outcome)
      modifies bookings
      ensures var refusal := old(CompleteRefusal(bookingId, hostId, today));
        && (result.Failure? <==> refusal.Some?)
        && (result.Failure? ==> result.reason == refusal.value && OtherBookingsUnchanged(bookings, None))
      ensures result.Success? ==>
        var b := BookingById(bookingId).value;
        && result == Success(None, None)
        && b.Row() == old(b.Row()).(status := BookingModel.Completed)
        && OtherBookingsUnchanged(bookings, Some(b))
    {
      var found := BookingById(bookingId);
      if found.None? {
        return Failure(BookingNotFound);
      }
      var booking := found.value;
      if !IsUserHost(booking.listingId, hostId) {
        return Failure(NotAuthorized);
      }
      if booking.status != BookingModel.Confirmed {
        return Failure(NotConfirmed);
      }
      if booking.checkOut > today {
        return Failure(BeforeCheckOut);
      }
      booking.SetStatus(BookingModel.Completed);
      return Success(None, None);
    }

    /** The guard checks of editBooking: the booking exists, the caller is its guest, it is
        pending, its listing exists, the new check-in is not before today, the new dates pass
        isListingAvailable with the booking itself excluded from the conflict scan, and the
        guest count is 1 .. maxGuests. The new check-out is not compared with the new
        check-in. */
    function EditRefusal(bookingId: string, guestId: string, newCheckIn: int, newCheckOut: int,
                         newGuestCount: int, today: int): Option<Reason>
      reads this, bookings, propertyService, propertyService.listings
    {
      var b := BookingById(bookingId);
      if b.None? then Some(BookingNotFound)
      else if b.value.guestId != guestId then Some(NotAuthorized)
      else if b.value.status != BookingModel.Pending then Some(NotPending)
      else
        var listing := ListingOf(b.value.listingId);
        if listing.None? then Some(PropertyNotFound)
        else if newCheckIn < today then Some(CheckInInPast)
        else if !IsListingAvailable(listing.value.listingId, newCheckIn, newCheckOut, bookingId) then
          Some(NewDatesUnavailable)
        else if newGuestCount < 1 || newGuestCount > listing.value.maxGuests then Some(InvalidGuestCount)
        else None
    }

    /** An edit that passes the guards names a pending booking of the caller on an existing
        listing; the new stay starts today or later, leaves the listing's ledger free on
        check-in .. check-out, overlaps no other live booking of the listing, and is for one
        to maxGuests guests. */
    lemma EditAcceptance(bookingId: string, guestId: string, newCheckIn: int, newCheckOut: int,
                         newGuestCount: int, today: int)
      requires EditRefusal(bookingId, guestId, newCheckIn, newCheckOut, newGuestCount, today).None?
      ensures exists i :: 0 <= i < |bookings| && bookings[i].bookingId == bookingId
      ensures var b := BookingById(bookingId).value;
        && b.guestId == guestId && b.status == BookingModel.Pending
        && ListingOf(b.listingId).Some?
        && today <= newCheckIn
        && 1 <= newGuestCount <= ListingOf(b.listingId).value.maxGuests
        && (forall night :: newCheckIn <= night <= newCheckOut ==>
              night !in ListingOf(b.listingId).value.bookedDates)
        && (forall i :: (&& 0 <= i < |bookings| && bookings[i].bookingId != bookingId
                          && bookings[i].listingId == b.listingId
                          && (bookings[i].status == BookingModel.Pending || bookings[i].status == BookingModel.Confirmed))
              ==> bookings[i].checkOut <= newCheckIn || newCheckOut <= bookings[i].checkIn)
    {
      var b := BookingById(bookingId).value;
      var listing := ListingOf(b.listingId).value;
      ListingModel.FreeIffNoBookedDay(listing.bookedDates, newCheckIn, newCheckOut);
      forall i | 0 <= i < |bookings| && bookings[i].bookingId != bookingId
              && bookings[i].listingId == b.listingId
              && (bookings[i].status == BookingModel.Pending || bookings[i].status == BookingModel.Confirmed)
        ensures bookings[i].checkOut <= newCheckIn || newCheckOut <= bookings[i].checkIn
      {
        assert !Conflicts(bookings[i], b.listingId, newCheckIn, newCheckOut, bookingId);
        OverlapIsHalfOpen(bookings[i].checkIn, bookings[i].checkOut, newCheckIn, newCheckOut);
      }
    }

    /** editBooking: rewrites the booking's dates, guest count and price (days component of
        the new stay times the nightly price). Only `bookings` objects are in the frame: no
        listing's booked days move, so the old nights stay reserved and the new ones are not
        reserved. */
    method EditBooking(bookingId: string, guestId: string, newCheckIn: int, newCheckOut: int,
                       newGuestCount: int, today: int) returns (result: Outcome)
      modifies bookings
      ensures var refusal := old(EditRefusal(bookingId, guestId, newCheckIn, newCheckOut, newGuestCount, today));
        && (result.Failure? <==> refusal.Some?)
        && (result.Failure? ==> result.reason == refusal.value && OtherBookingsUnchanged(bookings, None))
      ensures result.Success? ==>
        var b := BookingById(bookingId).value;
        var listing := ListingOf(b.listingId).value;
        && result == Success(Some(b), None)
        && b.Row() == old(b.Row()).(checkIn := newCheckIn, checkOut := newCheckOut,
                                    numberOfGuests := newGuestCount,
                                    totalPrice := Calendar.DaysPart(newCheckIn, newCheckOut) * listing.pricePerNight)
        && OtherBookingsUnchanged(bookings, Some(b))
    {
      var found := BookingById(bookingId);
      if found.None? {
        return Failure(BookingNotFound);
      }
      var booking := found.value;
      if booking.guestId != guestId {
        return Failure(NotAuthorized);
      }
      if booking.status != BookingModel.Pending {
        return Failure(NotPending);
      }
      var listingFound := ListingOf(booking.listingId);
      if listingFound.None? {
        return Failure(PropertyNotFound);
      }
      var listing := listingFound.value;
      if newCheckIn < today {
        return Failure(CheckInInPast);
      }
      if !IsListingAvailable(listing.listingId, newCheckIn, newCheckOut, bookingId) {
        return Failure(NewDatesUnavailable);
      }
      if newGuestCount < 1 || newGuestCount > listing.maxGuests {
        return Failure(InvalidGuestCount);
      }
      var nights := Calendar.DaysPart(newCheckIn, newCheckOut);
      Rewrite(booking, newCheckIn, newCheckOut, newGuestCount, nights * listing.pricePerNight);
      return Success(Some(booking), None);
    }

    /** The setter calls of editBooking on one stored booking. */
    method Rewrite(booking: Booking, newCheckIn: int, newCheckOut: int, newGuestCount: int,
                   newPrice: int)
      requires booking in bookings
      modifies booking
      ensures booking.Row() == old(booking.Row()).(checkIn := newCheckIn, checkOut := newCheckOut,
                                                   numberOfGuests := newGuestCount,
                                                   totalPrice := newPrice)
      ensures OtherBookingsUnchanged(bookings, Some(booking))
    {
      booking.SetCheckInDate(newCheckIn);
      booking.SetCheckOutDate(newCheckOut);
      booking.SetNumberOfGuests(newGuestCount);
      booking.SetTotalPrice(newPrice);
    }

    /** While a pending booking's nights are still on its listing, any edit whose new range
        touches one of them is refused as unavailable. */
    lemma EditRefusedOnOwnNights(bookingId: string, guestId: string, newCheckIn: int,
                                 newCheckOut: int, newGuestCount: int, today: int, night: int)
      requires BookingById(bookingId).Some?
      requires var b := BookingById(bookingId).value;
        b.guestId == guestId && b.status == BookingModel.Pending && ListingOf(b.listingId).Some?
        && night in ListingOf(b.listingId).value.bookedDates
      requires today <= newCheckIn <= night <= newCheckOut
      ensures EditRefusal(bookingId, guestId, newCheckIn, newCheckOut, newGuestCount, today)
           == Some(NewDatesUnavailable)
    {
      var b := BookingById(bookingId).value;
      OwnNightsBlockEdit(b.listingId, bookingId, newCheckIn, newCheckOut, night);
    }

    /** An edit may turn the stay around: with no conflicting booking, a new check-out before
        the new check-in passes every guard. */
    lemma EditAcceptsInvertedStay(bookingId: string, guestId: string, newCheckIn: int,
                                  newCheckOut: int, newGuestCount: int, today: int)
      requires BookingById(bookingId).Some?
      requires var b := BookingById(bookingId).value;
        && b.guestId == guestId && b.status == BookingModel.Pending && ListingOf(b.listingId).Some?
        && 1 <= newGuestCount <= ListingOf(b.listingId).value.maxGuests
        && !AnyConflict(bookings, b.listingId, newCheckIn, newCheckOut, bookingId)
      requires today <= newCheckOut < newCheckIn
      ensures EditRefusal(bookingId, guestId, newCheckIn, newCheckOut, newGuestCount, today).None?
    {
      var b := BookingById(bookingId).value;
      ListingModel.InvertedRangeIsFree(ListingOf(b.listingId).value.bookedDates, newCheckIn, newCheckOut);
    }

    /** The guard checks of deleteBooking: the booking exists, the caller is its guest, and
        it is pending or cancelled. */
    function DeleteRefusal(bookingId: string, guestId: string): Option<Reason>
      reads this, bookings
    {
      var b := BookingById(bookingId);
      if b.None? then Some(BookingNotFound)
      else if b.value.guestId != guestId then Some(NotAuthorized)
      else if !(b.value.status == BookingModel.Pending || b.value.status == BookingModel.Cancelled) then
        Some(NotDeletable)
      else None
    }

    /** A delete request that passes the guards names a booking of the caller that is either
        pending or already cancelled: never a confirmed, completed or rejected one. */
    lemma DeleteAcceptance(bookingId: string, guestId: string)
      requires DeleteRefusal(bookingId, guestId).None?
      ensures exists i :: 0 <= i < |bookings| && bookings[i].bookingId == bookingId
      ensures var b := BookingById(bookingId).value;
        && b.guestId == guestId
        && b.status != BookingModel.Confirmed && b.status != BookingModel.Completed
        && b.status != BookingModel.Rejected
    {
    }

    /** Every guarded operation on a stored booking reports BookingNotFound exactly when no
        booking has the id, whatever the other arguments. */
    lemma NotFoundIffNoSuchBooking(bookingId: string, userId: string, checkIn: int, checkOut: int,
                                   guests: int, today: int)
      ensures var missing := forall i :: 0 <= i < |bookings| ==> bookings[i].bookingId != bookingId;
        && (HostDecisionRefusal(bookingId, userId) == Some(BookingNotFound) <==> missing)
        && (CancelRefusal(bookingId, userId) == Some(BookingNotFound) <==> missing)
        && (CompleteRefusal(bookingId, userId, today) == Some(BookingNotFound) <==> missing)
        && (EditRefusal(bookingId, userId, checkIn, checkOut, guests, today) == Some(BookingNotFound) <==> missing)
        && (DeleteRefusal(bookingId, userId) == Some(BookingNotFound) <==> missing)
    {
    }

    /** deleteBooking: List.remove(booking) drops the first booking with the id and nothing
        else; no booking object and no listing is in the frame, so a deleted pending
        booking's nights stay reserved. */
    method DeleteBooking(bookingId: string, guestId: string) returns (result: Outcome)
      modifies this`bookings
      ensures var refusal := old(DeleteRefusal(bookingId, guestId));
        && (result.Failure? <==> refusal.Some?)
        && (result.Failure? ==> result.reason == refusal.value && bookings == old(bookings))
      ensures result.Success? ==>
        var k := BookingIndex(old(bookings), bookingId);
        && result == Success(None, None)
        && k < |old(bookings)|
        && bookings == old(bookings)[..k] + old(bookings)[k + 1..]
    {
      var found := BookingById(bookingId);
      if found.None? {
        return Failure(BookingNotFound);
      }
      var booking := found.value;
      if booking.guestId != guestId {
        return Failure(NotAuthorized);
      }
      if !(booking.status == BookingModel.Pending || booking.status == BookingModel.Cancelled) {
        return Failure(NotDeletable);
      }
      ghost var k := BookingIndex(bookings, bookingId);
      FirstOccurrenceOfFound(bookings, bookingId);
      Seqs.RemoveFirstCutsFirstOccurrence(bookings, booking);
      bookings := Seqs.RemoveFirst(bookings, booking);
      return Success(None, None);
    }
  }

  /** The first booking with an id is also the first occurrence of that object. */
  lemma FirstOccurrenceOfFound(bs: seq<Booking>, bookingId: string)
    requires BookingIndex(bs, bookingId) < |bs|
    ensures Seqs.IndexOf(bs, bs[BookingIndex(bs, bookingId)]) == BookingIndex(bs, bookingId)
  {
    var k := BookingIndex(bs, bookingId);
    var j := Seqs.IndexOf(bs, bs[k]);
    assert bs[j] == bs[k];
  }
}
