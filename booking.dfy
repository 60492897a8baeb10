/** A guest's reservation of a listing for the nights check-in .. check-out - 1, with the
    status machine that setStatus enforces, the derived predicates, the tiered refund, and
    the comma-separated line a booking is saved as. */
module BookingModel {
  import opened Options
  import Text
  import Codec
  import Calendar

  const Pending := "pending"
  const Confirmed := "confirmed"
  const Cancelled := "cancelled"
  const Completed := "completed"
  const Rejected := "rejected"

  /** One of the five statuses the switch in isValidStatusTransition names. */
  predicate IsKnownStatus(s: string)
  {
    s == Pending || s == Confirmed || s == Cancelled || s == Completed || s == Rejected
  }

  /** isValidStatusTransition: pending may become confirmed, rejected or cancelled; confirmed
      may become completed or cancelled; completed, cancelled and rejected accept nothing; any
      other current status (only a loaded line can carry one) accepts everything. */
  predicate IsValidStatusTransition(current: string, next: string)
  {
    if current == Pending then next == Confirmed || next == Rejected || next == Cancelled
    else if current == Confirmed then next == Completed || next == Cancelled
    else if current == Completed || current == Cancelled || current == Rejected then false
    else true
  }

  /** The status after setStatus(next): the request is taken only when the transition is
      valid, and silently ignored otherwise. */
  function NextStatus(current: string, next: string): (s: string)
    ensures s == current || s == next
    ensures s == next <==> current == next || IsValidStatusTransition(current, next)
  {
    if IsValidStatusTransition(current, next) then next else current
  }

  /** The status after a series of setStatus requests. */
  function StatusAfter(current: string, requests: seq<string>): string
    decreases |requests|
  {
    if requests == [] then current else StatusAfter(NextStatus(current, requests[0]), requests[1..])
  }

  /** The five known statuses move exactly along the five listed transitions. */
  lemma TransitionTable(current: string, next: string)
    requires IsKnownStatus(current)
    ensures IsValidStatusTransition(current, next) <==>
      (current == Pending && (next == Confirmed || next == Rejected || next == Cancelled)) ||
      (current == Confirmed && (next == Completed || next == Cancelled))
  {
  }

  /** An unrecognised current status accepts any request. */
  lemma UnknownStatusAcceptsAll(current: string, next: string)
    requires !IsKnownStatus(current)
    ensures NextStatus(current, next) == next
  {
  }

  /** Completed, cancelled and rejected are absorbing: no series of setStatus calls leaves
      them. */
  lemma {:induction false} TerminalStatusIsAbsorbing(current: string, requests: seq<string>)
    requires current == Completed || current == Cancelled || current == Rejected
    ensures StatusAfter(current, requests) == current
    decreases |requests|
  {
    if requests != [] {
      TerminalStatusIsAbsorbing(NextStatus(current, requests[0]), requests[1..]);
    }
  }

  /** A booking with a known status never reaches an unknown one, and from pending or
      confirmed it never returns to pending. */
  lemma {:induction false} KnownStatusStaysKnown(current: string, requests: seq<string>)
    requires IsKnownStatus(current)
    ensures IsKnownStatus(StatusAfter(current, requests))
    ensures current != Pending ==> StatusAfter(current, requests) != Pending
    decreases |requests|
  {
    if requests != [] {
      KnownStatusStaysKnown(NextStatus(current, requests[0]), requests[1..]);
    }
  }

  /** The refund tiers of calculateRefundAmount for a cancellable booking, given the days
      component d of the period from today to check-in: 80% of the total when d >= 7, 50%
      when 3 <= d < 7, nothing below. */
  function RefundTier(totalPrice: int, daysUntilCheckIn: int): (refund: real)
    ensures 0 <= totalPrice ==> 0.0 <= refund <= totalPrice as real
    ensures daysUntilCheckIn < 3 ==> refund == 0.0
  {
    if daysUntilCheckIn >= 7 then totalPrice as real * 0.8
    else if daysUntilCheckIn >= 3 then totalPrice as real * 0.5
    else 0.0
  }

  /** More notice never lowers the refund of a non-negative total. */
  lemma RefundTierMonotone(totalPrice: int, d1: int, d2: int)
    requires 0 <= totalPrice && d1 <= d2
    ensures RefundTier(totalPrice, d1) <= RefundTier(totalPrice, d2)
  {
  }

  /** The nine saved fields of a booking. */
  datatype BookingRow = BookingRow(
    bookingId: string, listingId: string, guestId: string,
    checkIn: int, checkOut: int, numberOfGuests: int, totalPrice: int,
    status: string, bookedAt: int)

  /** Booking.toString: the nine fields joined by commas (dates, count, cent amount and
      timestamp in decimal). */
  function EncodeBooking(row: BookingRow): string
  {
    Text.Join(BookingFields(row), ',')
  }

  function BookingFields(row: BookingRow): seq<string>
  {
    [row.bookingId, row.listingId, row.guestId,
     Codec.IntText(row.checkIn), Codec.IntText(row.checkOut),
     Codec.IntText(row.numberOfGuests), Codec.IntText(row.totalPrice),
     row.status, Codec.IntText(row.bookedAt)]
  }

  /** Booking.fromString: split on commas and parse the numeric fields; fewer than nine
      pieces or an unparsable number is the exception case. */
  function DecodeBooking(line: string): Option<BookingRow>
  {
    var parts := Text.JavaSplit(line, ',');
    if |parts| < 9 then None
    else
      match (Codec.ParseInt(parts[3]), Codec.ParseInt(parts[4]), Codec.ParseInt(parts[5]),
             Codec.ParseInt(parts[6]), Codec.ParseInt(parts[8]))
      case (Some(checkIn), Some(checkOut), Some(guests), Some(total), Some(bookedAt)) =>
        Some(BookingRow(parts[0], parts[1], parts[2], checkIn, checkOut, guests, total,
                        parts[7], bookedAt))
      case _ => None
  }

  /** The text fields of a booking hold no comma. */
  predicate Serialisable(row: BookingRow)
  {
    ',' !in row.bookingId && ',' !in row.listingId && ',' !in row.guestId && ',' !in row.status
  }

  /** fromString(toString(b)) restores all nine fields, status and bookedAt included. */
  lemma DecodeEncodeBooking(row: BookingRow)
    requires Serialisable(row)
    ensures DecodeBooking(EncodeBooking(row)) == Some(row)
  {
    var fields := BookingFields(row);
    Codec.IntTextHasNoSeparator(row.checkIn);
    Codec.IntTextHasNoSeparator(row.checkOut);
    Codec.IntTextHasNoSeparator(row.numberOfGuests);
    Codec.IntTextHasNoSeparator(row.totalPrice);
    Codec.IntTextHasNoSeparator(row.bookedAt);
    Text.JavaSplitJoin(fields, ',');
    Codec.ParseIntText(row.checkIn);
    Codec.ParseIntText(row.checkOut);
    Codec.ParseIntText(row.numberOfGuests);
    Codec.ParseIntText(row.totalPrice);
    Codec.ParseIntText(row.bookedAt);
  }

  class Booking {
    const bookingId: string
    const listingId: string
    const guestId: string
    var checkIn: int
    var checkOut: int
    var numberOfGuests: int
    var totalPrice: int
    var status: string
    var bookedAt: int

    /** The saved fields of this booking. */
    function Row(): BookingRow
      reads this
    {
      BookingRow(bookingId, listingId, guestId, checkIn, checkOut, numberOfGuests, totalPrice,
                 status, bookedAt)
    }

    /** A new booking is pending; `now` stands for LocalDateTime.now(). */
    constructor (bookingId: string, listingId: string, guestId: string, checkIn: int,
                 checkOut: int, numberOfGuests: int, totalPrice: int, now: int)
      ensures Row() == BookingRow(bookingId, listingId, guestId, checkIn, checkOut,
                                  numberOfGuests, totalPrice, Pending, now)
    {
      this.bookingId := bookingId;
      this.listingId := listingId;
      this.guestId := guestId;
      this.checkIn := checkIn;
      this.checkOut := checkOut;
      this.numberOfGuests := numberOfGuests;
      this.totalPrice := totalPrice;
      this.status := Pending;
      this.bookedAt := now;
    }

    /** setStatus: takes the new status only along a valid transition. */
    method SetStatus(next: string)
      modifies this`status
      ensures status == NextStatus(old(status), next)
      ensures !IsValidStatusTransition(old(status), next) ==> status == old(status)
    {
      if IsValidStatusTransition(status, next) {
        status := next;
      }
    }

    method SetCheckInDate(date: int)
      modifies this`checkIn
      ensures checkIn == date
    {
      checkIn := date;
    }

    method SetCheckOutDate(date: int)
      modifies this`checkOut
      ensures checkOut == date
    {
      checkOut := date;
    }

    method SetNumberOfGuests(count: int)
      modifies this`numberOfGuests
      ensures numberOfGuests == count
    {
      numberOfGuests := count;
    }

    method SetTotalPrice(price: int)
      modifies this`totalPrice
      ensures totalPrice == price
    {
      totalPrice := price;
    }

    /** canBeCancelled: pending or confirmed. */
    predicate CanBeCancelled()
      reads this
    {
      status == Pending || status == Confirmed
    }

    /** canBeReviewed: completed and checked out before today. */
    predicate CanBeReviewed(today: int)
      reads this
    {
      status == Completed && checkOut < today
    }

    /** isUpcoming: pending or confirmed, and checking in after today. */
    predicate IsUpcoming(today: int)
      reads this
    {
      (status == Confirmed || status == Pending) && checkIn > today
    }

    /** isActive: confirmed, and today within check-in .. check-out, both ends included. */
    predicate IsActive(today: int)
      reads this
    {
      status == Confirmed && checkIn <= today && checkOut >= today
    }

    /** getNumberOfNights: the days component of the period check-in .. check-out. */
    function NumberOfNights(): int
      reads this
    {
      Calendar.DaysPart(checkIn, checkOut)
    }

    /** calculateRefundAmount: nothing unless cancellable, otherwise the tier for the days
        component of the period from today to check-in. */
    function CalculateRefundAmount(today: int): (refund: real)
      reads this
      ensures !CanBeCancelled() ==> refund == 0.0
      ensures 0 <= totalPrice ==> 0.0 <= refund <= totalPrice as real
    {
      if !CanBeCancelled() then 0.0
      else RefundTier(totalPrice, Calendar.DaysPart(today, checkIn))
    }

    /** toString. */
    function ToLine(): string
      reads this
    {
      EncodeBooking(Row())
    }

    /** fromString: a fresh booking holding the decoded fields, status and bookedAt
        included; None where the Java code throws. */
    static method FromLine(line: string) returns (r: Option<Booking>)
      ensures r.None? <==> DecodeBooking(line).None?
      ensures r.Some? ==> fresh(r.value) && r.value.Row() == DecodeBooking(line).value
    {
      var parts := Text.JavaSplit(line, ',');
      if |parts| < 9 {
        return None;
      }
      var checkIn := Codec.ParseInt(parts[3]);
      var checkOut := Codec.ParseInt(parts[4]);
      var guests := Codec.ParseInt(parts[5]);
      var total := Codec.ParseInt(parts[6]);
      if checkIn.None? || checkOut.None? || guests.None? || total.None? {
        return None;
      }
      var booking := new Booking(parts[0], parts[1], parts[2], checkIn.value, checkOut.value,
                                 guests.value, total.value, 0);
      booking.status := parts[7];
      var bookedAt := Codec.ParseInt(parts[8]);
      if bookedAt.None? {
        return None;
      }
      booking.bookedAt := bookedAt.value;
      r := Some(booking);
    }
  }

  /** A booking is never both upcoming and in its stay on the same day. */
  lemma UpcomingIsNotActive(b: Booking, today: int)
    ensures !(b.IsUpcoming(today) && b.IsActive(today))
  {
  }

  /** Only a completed booking can be reviewed, and not while it is upcoming or active. */
  lemma ReviewableExcludesUpcomingAndActive(b: Booking, today: int)
    ensures b.CanBeReviewed(today) ==> !b.CanBeCancelled() && !b.IsUpcoming(today) && !b.IsActive(today)
  {
  }

  /** The cancellation example: a confirmed booking of 300.00 with check-in 2025-01-10,
      cancelled on 2024-12-31, refunds 240.00 (80%). */
  lemma RefundTenDaysAhead(b: Booking)
    requires b.status == Confirmed && b.checkIn == 20098 && b.totalPrice == 30000
    ensures b.CalculateRefundAmount(20088) == 24000.0
  {
    Calendar.TenDaysAcrossNewYear();
  }
}
