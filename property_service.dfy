/** The in-memory list of listings: registration, replacement, soft deletion, the host and
    search queries, and the reservation and release of the nights of a stay. */
module PropertyServiceModel {
  import opened Options
  import Seqs
  import Text
  import ListingModel

  type PropertyListing = ListingModel.PropertyListing

  /** Position of the first listing with the given id (|ls| when there is none). */
  function ListingIndex(ls: seq<PropertyListing>, listingId: string): (k: nat)
    ensures k <= |ls|
    ensures k < |ls| ==> ls[k].listingId == listingId
    ensures forall j :: 0 <= j < k ==> ls[j].listingId != listingId
  {
    Seqs.FirstIndex(ls, (l: PropertyListing) => l.listingId == listingId)
  }

  /** Position of the first listing with the given id and host (|ls| when there is none). */
  function OwnedIndex(ls: seq<PropertyListing>, listingId: string, hostId: string): (k: nat)
    ensures k <= |ls|
    ensures k < |ls| ==> ls[k].listingId == listingId && ls[k].hostId == hostId
    ensures forall j :: 0 <= j < k ==> !(ls[j].listingId == listingId && ls[j].hostId == hostId)
  {
    Seqs.FirstIndex(ls, (l: PropertyListing) => l.listingId == listingId && l.hostId == hostId)
  }

  /** The nights of a stay from start up to, not including, end: the days addBookedDates and
      removeBookedDates visit, in order. */
  function DayRange(start: int, end: int): (days: seq<int>)
    ensures |days| == if start < end then end - start else 0
    ensures forall i :: 0 <= i < |days| ==> days[i] == start + i
    decreases end - start
  {
    if end <= start then [] else DayRange(start, end - 1) + [end - 1]
  }

  /** A day belongs to the range exactly when start <= day < end. */
  lemma InDayRange(start: int, end: int, day: int)
    ensures day in DayRange(start, end) <==> start <= day < end
  {
    if start <= day < end {
      assert DayRange(start, end)[day - start] == day;
    }
  }

  /** The booked days left after one removeBookedDate per night of DayRange(start, end), in
      order. */
  function ReleaseNights(booked: seq<int>, start: int, end: int): seq<int>
    decreases end - start
  {
    if end <= start then booked else Seqs.RemoveFirst(ReleaseNights(booked, start, end - 1), end - 1)
  }

  /** Releasing the nights takes away one occurrence of each, as multisets. */
  lemma {:induction false} ReleaseNightsMultiset(booked: seq<int>, start: int, end: int)
    ensures multiset(ReleaseNights(booked, start, end)) == multiset(booked) - multiset(DayRange(start, end))
    decreases end - start
  {
    if start < end {
      ReleaseNightsMultiset(booked, start, end - 1);
      Seqs.RemoveFirstMultiset(ReleaseNights(booked, start, end - 1), end - 1);
      assert DayRange(start, end) == DayRange(start, end - 1) + [end - 1];
    }
  }

  /** Reserving the nights of a stay and releasing them again restores the booked days as a
      multiset. */
  lemma ReserveThenRelease(booked: seq<int>, start: int, end: int)
    ensures multiset(ReleaseNights(booked + DayRange(start, end), start, end)) == multiset(booked)
  {
    ReleaseNightsMultiset(booked + DayRange(start, end), start, end);
  }

  /** Once the nights start .. end - 1 are reserved, no range meeting them is available. */
  lemma ReservedNightsBlock(booked: seq<int>, start: int, end: int, from: int, to: int)
    requires from <= to && start < end
    requires from <= end - 1 && start <= to
    ensures !ListingModel.FreeBetween(booked + DayRange(start, end), from, to)
  {
    var day := if from <= start then start else from;
    var all := booked + DayRange(start, end);
    assert all[|booked| + (day - start)] == day;
  }

  /** The criteria of getListingsByHost and searchListings. */
  datatype Query =
    | ByHost(hostId: string)
      /** A None location or date, or zero guests, leaves that criterion out. */
    | Search(location: Option<string>, checkIn: Option<int>, checkOut: Option<int>, guests: int)

  /** Whether a listing is kept by a query. */
  predicate Matches(l: PropertyListing, q: Query)
    reads l
  {
    match q
    case ByHost(hostId) => l.hostId == hostId && l.isActive
    case Search(location, checkIn, checkOut, guests) =>
      && l.isActive
      && (location.None? || Text.Contains(Text.Lower(l.location), Text.Lower(location.value)))
      && (guests == 0 || l.maxGuests >= guests)
      && (checkIn.None? || checkOut.None? || l.IsAvailable(checkIn.value, checkOut.value))
  }

  /** The stream filter: the listings kept by a query, in list order. Seqs.Filter takes a
      total predicate, which cannot read a listing's mutable isActive field, so the
      filter over listings is spelled out here with its reads frame. */
  function Select(ls: seq<PropertyListing>, q: Query): (r: seq<PropertyListing>)
    reads set i | 0 <= i < |ls| :: ls[i]
    ensures |r| <= |ls|
    ensures forall i :: 0 <= i < |r| ==> r[i] in ls && Matches(r[i], q)
    ensures forall i :: 0 <= i < |ls| && Matches(ls[i], q) ==> ls[i] in r
  {
    if ls == [] then []
    else if Matches(ls[0], q) then [ls[0]] + Select(ls[1..], q)
    else Select(ls[1..], q)
  }

  /** Filtering keeps the stored order and every occurrence: it distributes over
      concatenation ... */
  lemma {:induction false} SelectAppend(ls: seq<PropertyListing>, ms: seq<PropertyListing>, q: Query)
    ensures Select(ls + ms, q) == Select(ls, q) + Select(ms, q)
  {
    if ls == [] {
      assert ls + ms == ms;
    } else {
      var all := ls + ms;
      assert all != [] && all[0] == ls[0];
      assert all[1..] == ls[1..] + ms;
      SelectAppend(ls[1..], ms, q);
      if Matches(ls[0], q) {
        assert Select(all, q) == [ls[0]] + Select(ls[1..] + ms, q);
        assert Select(ls, q) == [ls[0]] + Select(ls[1..], q);
      } else {
        assert Select(all, q) == Select(ls[1..] + ms, q);
        assert Select(ls, q) == Select(ls[1..], q);
      }
    }
  }

  /** ... and keeps one listing exactly when the query matches it. */
  lemma SelectOne(l: PropertyListing, q: Query)
    ensures Select([l], q) == if Matches(l, q) then [l] else []
  {
    assert [l][1..] == [];
  }

  /** Every search result is active, holds the guests asked for and is free on the dates. */
  lemma SearchResultsQualify(ls: seq<PropertyListing>, location: Option<string>, checkIn: int,
                             checkOut: int, guests: int, l: PropertyListing)
    requires guests > 0
    requires l in Select(ls, Search(location, Some(checkIn), Some(checkOut), guests))
    ensures l.isActive && l.maxGuests >= guests && l.IsAvailable(checkIn, checkOut)
  {
    var r := Select(ls, Search(location, Some(checkIn), Some(checkOut), guests));
    var i :| 0 <= i < |r| && r[i] == l;
  }

  /** Every search result is also a result of the search without criteria, which keeps
      exactly the active listings. */
  lemma SearchNarrows(ls: seq<PropertyListing>, location: Option<string>, checkIn: Option<int>,
                      checkOut: Option<int>, guests: int, l: PropertyListing)
    requires l in Select(ls, Search(location, checkIn, checkOut, guests))
    ensures l in Select(ls, Search(None, None, None, 0))
  {
    var r := Select(ls, Search(location, checkIn, checkOut, guests));
    var i :| 0 <= i < |r| && r[i] == l;
    var j :| 0 <= j < |ls| && ls[j] == l;
  }

  class PropertyService {
    var listings: seq<PropertyListing>

    /** `loaded` stands for the listings read back from the listings file. */
    constructor (loaded: seq<PropertyListing>)
      ensures listings == loaded
    {
      listings := loaded;
    }

    /** addListing: appends; the result is that of the file append, passed in as
        `appended`. */
    method AddListing(listing: PropertyListing, appended: bool) returns (ok: bool)
      modifies this`listings
      ensures listings == old(listings) + [listing]
      ensures ok == appended
    {
      listings := listings + [listing];
      ok := appended;
    }

    /** updateListing: the first listing with the same id is replaced by the given object;
        false, and nothing changes, when there is none. */
    method UpdateListing(updated: PropertyListing) returns (ok: bool)
      modifies this`listings
      ensures ok <==> ListingIndex(old(listings), updated.listingId) < |old(listings)|
      ensures ok ==> listings == old(listings)[ListingIndex(old(listings), updated.listingId) := updated]
      ensures !ok ==> listings == old(listings)
    {
      var i := 0;
      while i < |listings|
        invariant i <= |listings| && listings == old(listings)
        invariant forall j :: 0 <= j < i ==> listings[j].listingId != updated.listingId
      {
        if listings[i].listingId == updated.listingId {
          listings := listings[i := updated];
          return true;
        }
        i := i + 1;
      }
      return false;
    }

    /** deleteListing: the first listing with the given id AND host is deactivated (kept in
        the list); false when the id is unknown or the host is not its owner. */
    method DeleteListing(listingId: string, hostId: string) returns (ok: bool)
      modifies listings
      ensures ok <==> OwnedIndex(listings, listingId, hostId) < |listings|
      ensures ok ==> var l := listings[OwnedIndex(listings, listingId, hostId)];
        l.Row() == old(l.Row()).(isActive := false)
      ensures forall i :: 0 <= i < |listings| && (!ok || listings[i] != listings[OwnedIndex(listings, listingId, hostId)]) ==>
        listings[i].Row() == old(listings[i].Row())
    {
      var k := Seqs.FirstIndex(listings, (l: PropertyListing) => l.listingId == listingId && l.hostId == hostId);
      if k < |listings| {
        listings[k].SetActive(false);
        return true;
      }
      return false;
    }

    /** getListingsByHost: the active listings of one host. */
    function ListingsByHost(hostId: string): (r: seq<PropertyListing>)
      reads this, listings
      ensures forall i :: 0 <= i < |r| ==> r[i] in listings && r[i].hostId == hostId && r[i].isActive
      ensures forall i :: 0 <= i < |listings| && listings[i].hostId == hostId && listings[i].isActive ==>
        listings[i] in r
    {
      Select(listings, ByHost(hostId))
    }

    /** searchListings. */
    function SearchListings(location: Option<string>, checkIn: Option<int>, checkOut: Option<int>,
                            guests: int): (r: seq<PropertyListing>)
      reads this, listings
      ensures forall i :: 0 <= i < |r| ==> r[i] in listings && r[i].isActive
      ensures forall i :: 0 <= i < |r| ==> Matches(r[i], Search(location, checkIn, checkOut, guests))
      ensures forall i :: 0 <= i < |r| && location.Some? ==>
        Text.Contains(Text.Lower(r[i].location), Text.Lower(location.value))
      ensures forall i :: 0 <= i < |r| && guests != 0 ==> r[i].maxGuests >= guests
      ensures forall i :: 0 <= i < |r| && checkIn.Some? && checkOut.Some? ==>
        r[i].IsAvailable(checkIn.value, checkOut.value)
      ensures forall i :: 0 <= i < |listings| && Matches(listings[i], Search(location, checkIn, checkOut, guests)) ==>
        listings[i] in r
    {
      Select(listings, Search(location, checkIn, checkOut, guests))
    }

    /** getListingById: the first listing with the id. */
    function ListingById(listingId: string): (r: Option<PropertyListing>)
      reads this
      ensures r.Some? <==> exists i :: 0 <= i < |listings| && listings[i].listingId == listingId
      ensures r.Some? ==> r.value in listings && r.value.listingId == listingId
      ensures r.Some? ==> r.value == listings[ListingIndex(listings, listingId)]
    {
      var k := ListingIndex(listings, listingId);
      if k < |listings| then Some(listings[k]) else None
    }

    /** getAllListings: every listing, inactive ones included, as a copy of the list. */
    function AllListings(): (r: seq<PropertyListing>)
      reads this
      ensures |r| == |listings| && forall i :: 0 <= i < |r| ==> r[i] == listings[i]
    {
      listings
    }

    /** addBookedDates: every night from startDate up to the day before endDate is appended to
        the first listing with the id, in order; false when there is none. */
    method AddBookedDates(listingId: string, startDate: int, endDate: int) returns (ok: bool)
      modifies listings
      ensures ok <==> ListingIndex(listings, listingId) < |listings|
      ensures ok ==> var l := listings[ListingIndex(listings, listingId)];
        l.Row() == old(l.Row()).(bookedDates := old(l.bookedDates) + DayRange(startDate, endDate))
      ensures forall i :: 0 <= i < |listings| && (!ok || listings[i] != listings[ListingIndex(listings, listingId)]) ==>
        listings[i].Row() == old(listings[i].Row())
    {
      var found := ListingById(listingId);
      if found.None? {
        return false;
      }
      ReserveNights(found.value, startDate, endDate);
      return true;
    }

    /** removeBookedDates: the same nights, one removeBookedDate each, on the first listing
        with the id; false when there is none. */
    method RemoveBookedDates(listingId: string, startDate: int, endDate: int) returns (ok: bool)
      modifies listings
      ensures ok <==> ListingIndex(listings, listingId) < |listings|
      ensures ok ==> var l := listings[ListingIndex(listings, listingId)];
        l.Row() == old(l.Row()).(bookedDates := ReleaseNights(old(l.bookedDates), startDate, endDate))
      ensures forall i :: 0 <= i < |listings| && (!ok || listings[i] != listings[ListingIndex(listings, listingId)]) ==>
        listings[i].Row() == old(listings[i].Row())
    {
      var found := ListingById(listingId);
      if found.None? {
        return false;
      }
      ReleaseNightsOf(found.value, startDate, endDate);
      return true;
    }
  }

  /** The loop of addBookedDates: one addBookedDate per night, from startDate while the day
      is before endDate. */
  method ReserveNights(listing: PropertyListing, startDate: int, endDate: int)
    modifies listing`bookedDates
    ensures listing.bookedDates == old(listing.bookedDates) + DayRange(startDate, endDate)
  {
    var current := startDate;
    while current < endDate
      invariant startDate <= current && (current <= endDate || current == startDate)
      invariant listing.bookedDates == old(listing.bookedDates) + DayRange(startDate, current)
      decreases endDate - current
    {
      assert DayRange(startDate, current + 1) == DayRange(startDate, current) + [current];
      listing.AddBookedDate(current);
      current := current + 1;
    }
  }

  /** The loop of removeBookedDates: one removeBookedDate per night, from startDate while the
      day is before endDate. */
  method ReleaseNightsOf(listing: PropertyListing, startDate: int, endDate: int)
    modifies listing`bookedDates
    ensures listing.bookedDates == ReleaseNights(old(listing.bookedDates), startDate, endDate)
  {
    var current := startDate;
    while current < endDate
      invariant startDate <= current && (current <= endDate || current == startDate)
      invariant listing.bookedDates == ReleaseNights(old(listing.bookedDates), startDate, current)
      decreases endDate - current
    {
      listing.RemoveBookedDate(current);
      current := current + 1;
    }
  }
}
