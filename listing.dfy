/** A rentable property: its descriptive fields, its amenity list, and the list of booked
    days (duplicates allowed) that the availability check consults, plus the comma-separated
    line it is saved as, with ';' between the items of the two lists. */
module ListingModel {
  import opened Options
  import Seqs
  import Text
  import Codec

  /** isAvailable's predicate over a list of booked days: no booked day d with
      start <= d <= end, the END DAY INCLUDED. */
  predicate FreeBetween(bookedDates: seq<int>, start: int, end: int)
  {
    forall i :: 0 <= i < |bookedDates| ==> !(start <= bookedDates[i] <= end)
  }

  /** Free on a range implies free on every sub-range. */
  lemma FreeOnSubRange(bookedDates: seq<int>, start: int, end: int, start': int, end': int)
    requires FreeBetween(bookedDates, start, end)
    requires start <= start' && end' <= end
    ensures FreeBetween(bookedDates, start', end')
  {
  }

  /** A range is free exactly when none of the booked days lies in it. */
  lemma FreeIffNoBookedDay(bookedDates: seq<int>, start: int, end: int)
    ensures FreeBetween(bookedDates, start, end) <==>
      forall d :: start <= d <= end ==> d !in bookedDates
  {
    if !FreeBetween(bookedDates, start, end) {
      var i :| 0 <= i < |bookedDates| && start <= bookedDates[i] <= end;
      assert bookedDates[i] in bookedDates;
    }
  }

  /** Because the end day counts, a stay checking out on the day another stay checks in
      collides with it. */
  lemma CheckOutDayCollides(bookedDates: seq<int>, start: int, end: int)
    requires end in bookedDates && start <= end
    ensures !FreeBetween(bookedDates, start, end)
  {
  }

  /** A range whose end precedes its start is always free. */
  lemma InvertedRangeIsFree(bookedDates: seq<int>, start: int, end: int)
    requires end < start
    ensures FreeBetween(bookedDates, start, end)
  {
  }

  /** The twelve saved fields of a listing. */
  datatype ListingRow = ListingRow(
    listingId: string, hostId: string, title: string, description: string, location: string,
    pricePerNight: int, maxGuests: int, bedrooms: int, bathrooms: int,
    amenities: seq<string>, bookedDates: seq<int>, isActive: bool)

  /** The decimal texts of a list of days. */
  function DayTexts(days: seq<int>): (texts: seq<string>)
    ensures |texts| == |days|
    ensures forall i :: 0 <= i < |days| ==> texts[i] == Codec.IntText(days[i])
  {
    if days == [] then [] else DayTexts(days[..|days| - 1]) + [Codec.IntText(days[|days| - 1])]
  }

  function ListingFields(row: ListingRow): seq<string>
  {
    [row.listingId, row.hostId, row.title, row.description, row.location,
     Codec.IntText(row.pricePerNight), Codec.IntText(row.maxGuests),
     Codec.IntText(row.bedrooms), Codec.IntText(row.bathrooms),
     Text.Join(row.amenities, ';'), Text.Join(DayTexts(row.bookedDates), ';'),
     Codec.BoolText(row.isActive)]
  }

  /** PropertyListing.toString. */
  function EncodeListing(row: ListingRow): string
  {
    Text.Join(ListingFields(row), ',')
  }

  /** The list items of a saved field: nothing for an empty field, the ';' pieces otherwise. */
  function ListItems(field: string): seq<string>
  {
    if field == "" then [] else Text.JavaSplit(field, ';')
  }

  /** LocalDate.parse of every item, in order; None when one of them fails. */
  function ParseDays(texts: seq<string>): (r: Option<seq<int>>)
    ensures r.Some? ==> |r.value| == |texts|
    decreases |texts|
  {
    if texts == [] then Some([])
    else
      var init := ParseDays(texts[..|texts| - 1]);
      var last := Codec.ParseInt(texts[|texts| - 1]);
      if init.Some? && last.Some? then Some(init.value + [last.value]) else None
  }

  /** PropertyListing.fromString. */
  function DecodeListing(line: string): Option<ListingRow>
  {
    var parts := Text.JavaSplit(line, ',');
    if |parts| < 12 then None
    else
      match (Codec.ParseInt(parts[5]), Codec.ParseInt(parts[6]), Codec.ParseInt(parts[7]),
             Codec.ParseInt(parts[8]), ParseDays(ListItems(parts[10])))
      case (Some(price), Some(maxGuests), Some(bedrooms), Some(bathrooms), Some(days)) =>
        Some(ListingRow(parts[0], parts[1], parts[2], parts[3], parts[4], price, maxGuests,
                        bedrooms, bathrooms, ListItems(parts[9]), days,
                        Codec.ParseBool(parts[11])))
      case _ => None
  }

  /** No text field or amenity holds ',' or ';', and no amenity is empty. */
  predicate Serialisable(row: ListingRow)
  {
    && ',' !in row.listingId && ',' !in row.hostId && ',' !in row.title
    && ',' !in row.description && ',' !in row.location
    && ';' !in row.listingId && ';' !in row.hostId && ';' !in row.title
    && ';' !in row.description && ';' !in row.location
    && (forall i :: 0 <= i < |row.amenities| ==>
          row.amenities[i] != "" && ',' !in row.amenities[i] && ';' !in row.amenities[i])
  }

  /** ParseDays over one more item that parses. */
  lemma ParseDaysSnoc(texts: seq<string>, t: string, days: seq<int>, day: int)
    requires ParseDays(texts) == Some(days) && Codec.ParseInt(t) == Some(day)
    ensures ParseDays(texts + [t]) == Some(days + [day])
  {
    assert (texts + [t])[..|texts|] == texts;
  }

  lemma {:induction false} ParseDayTexts(days: seq<int>)
    ensures ParseDays(DayTexts(days)) == Some(days)
    decreases |days|
  {
    if days != [] {
      var init := days[..|days| - 1];
      var last := days[|days| - 1];
      var t := Codec.IntText(last);
      ParseDayTexts(init);
      Codec.ParseIntText(last);
      ParseDaysSnoc(DayTexts(init), t, init, last);
      assert DayTexts(days) == DayTexts(init) + [t];
      assert init + [last] == days;
    }
  }

  /** Joining non-empty items without ';' and splitting again gives the items back. */
  lemma ListItemsJoin(items: seq<string>)
    requires forall i :: 0 <= i < |items| ==> items[i] != "" && ';' !in items[i]
    ensures ListItems(Text.Join(items, ';')) == items
  {
    if items != [] {
      Text.JoinNonEmpty(items, ';');
      Text.JavaSplitJoin(items, ';');
    }
  }

  /** A joined list holds no ',' when none of its items does. */
  lemma JoinHasNoComma(items: seq<string>)
    requires forall i :: 0 <= i < |items| ==> ',' !in items[i]
    ensures ',' !in Text.Join(items, ';')
  {
  }

  /** The saved booked-day field reads back as the same days and holds no ','. */
  lemma DayListRoundTrip(days: seq<int>)
    ensures ',' !in Text.Join(DayTexts(days), ';')
    ensures ParseDays(ListItems(Text.Join(DayTexts(days), ';'))) == Some(days)
  {
    var texts := DayTexts(days);
    forall i | 0 <= i < |texts| ensures texts[i] != "" && ';' !in texts[i] && ',' !in texts[i] {
      Codec.IntTextHasNoSeparator(days[i]);
    }
    ListItemsJoin(texts);
    JoinHasNoComma(texts);
    ParseDayTexts(days);
  }

  /** toString emits twelve fields, and splitting on ',' gives them back in order. */
  lemma EncodedListingSplits(row: ListingRow)
    requires Serialisable(row)
    ensures Text.JavaSplit(EncodeListing(row), ',') == ListingFields(row)
  {
    var fields := ListingFields(row);
    JoinHasNoComma(row.amenities);
    DayListRoundTrip(row.bookedDates);
    Codec.IntTextHasNoSeparator(row.pricePerNight);
    Codec.IntTextHasNoSeparator(row.maxGuests);
    Codec.IntTextHasNoSeparator(row.bedrooms);
    Codec.IntTextHasNoSeparator(row.bathrooms);
    Codec.ParseBoolText(row.isActive);
    assert Text.NoSeparator(fields, ',');
    Text.JavaSplitJoin(fields, ',');
  }

  /** fromString(toString(l)) restores the scalar fields, the amenities, the booked days and
      the active flag. */
  lemma DecodeEncodeListing(row: ListingRow)
    requires Serialisable(row)
    ensures DecodeListing(EncodeListing(row)) == Some(row)
  {
    EncodedListingSplits(row);
    ListItemsJoin(row.amenities);
    DayListRoundTrip(row.bookedDates);
    Codec.ParseBoolText(row.isActive);
    Codec.ParseIntText(row.pricePerNight);
    Codec.ParseIntText(row.maxGuests);
    Codec.ParseIntText(row.bedrooms);
    Codec.ParseIntText(row.bathrooms);
  }

  class PropertyListing {
    const listingId: string
    const hostId: string
    var title: string
    var description: string
    var location: string
    var pricePerNight: int
    var maxGuests: int
    var bedrooms: int
    var bathrooms: int
    var amenities: seq<string>
    var bookedDates: seq<int>
    var isActive: bool

    /** The saved fields of this listing. */
    function Row(): ListingRow
      reads this
    {
      ListingRow(listingId, hostId, title, description, location, pricePerNight, maxGuests,
                 bedrooms, bathrooms, amenities, bookedDates, isActive)
    }

    /** A new listing is active, with no amenities and no booked days. */
    constructor (listingId: string, hostId: string, title: string, description: string,
                 location: string, pricePerNight: int, maxGuests: int, bedrooms: int,
                 bathrooms: int)
      ensures Row() == ListingRow(listingId, hostId, title, description, location,
                                  pricePerNight, maxGuests, bedrooms, bathrooms, [], [], true)
    {
      this.listingId := listingId;
      this.hostId := hostId;
      this.title := title;
      this.description := description;
      this.location := location;
      this.pricePerNight := pricePerNight;
      this.maxGuests := maxGuests;
      this.bedrooms := bedrooms;
      this.bathrooms := bathrooms;
      this.amenities := [];
      this.bookedDates := [];
      this.isActive := true;
    }

    method SetActive(active: bool)
      modifies this`isActive
      ensures isActive == active
    {
      isActive := active;
    }

    method AddAmenity(amenity: string)
      modifies this`amenities
      ensures amenities == old(amenities) + [amenity]
    {
      amenities := amenities + [amenity];
    }

    /** addBookedDate: appends one occurrence, duplicates kept. */
    method AddBookedDate(date: int)
      modifies this`bookedDates
      ensures bookedDates == old(bookedDates) + [date]
      ensures multiset(bookedDates) == multiset(old(bookedDates)) + multiset{date}
    {
      bookedDates := bookedDates + [date];
    }

    /** removeBookedDate: removes the first occurrence only; no change when absent. */
    method RemoveBookedDate(date: int)
      modifies this`bookedDates
      ensures bookedDates == Seqs.RemoveFirst(old(bookedDates), date)
    {
      bookedDates := Seqs.RemoveFirst(bookedDates, date);
    }

    /** isAvailable: no booked day within start .. end, both ends included. */
    predicate IsAvailable(start: int, end: int)
      reads this
    {
      FreeBetween(bookedDates, start, end)
    }

    method SetTitle(title: string)
      modifies this`title
      ensures this.title == title
    {
      this.title := title;
    }

    method SetDescription(description: string)
      modifies this`description
      ensures this.description == description
    {
      this.description := description;
    }

    method SetLocation(location: string)
      modifies this`location
      ensures this.location == location
    {
      this.location := location;
    }

    method SetPricePerNight(price: int)
      modifies this`pricePerNight
      ensures pricePerNight == price
    {
      pricePerNight := price;
    }

    method SetMaxGuests(count: int)
      modifies this`maxGuests
      ensures maxGuests == count
    {
      maxGuests := count;
    }

    method SetBedrooms(count: int)
      modifies this`bedrooms
      ensures bedrooms == count
    {
      bedrooms := count;
    }

    method SetBathrooms(count: int)
      modifies this`bathrooms
      ensures bathrooms == count
    {
      bathrooms := count;
    }

    method SetAmenities(amenities: seq<string>)
      modifies this`amenities
      ensures this.amenities == amenities
    {
      this.amenities := amenities;
    }

    /** toString. */
    function ToLine(): string
      reads this
    {
      EncodeListing(Row())
    }

    /** fromString: a fresh listing built by the constructor, then one addAmenity per amenity
        item and one addBookedDate per day item, then setActive; None where the Java code
        throws. */
    static method FromLine(line: string) returns (r: Option<PropertyListing>)
      ensures r.None? <==> DecodeListing(line).None?
      ensures r.Some? ==> fresh(r.value) && r.value.Row() == DecodeListing(line).value
    {
      var parts := Text.JavaSplit(line, ',');
      if |parts| < 12 {
        return None;
      }
      var price := Codec.ParseInt(parts[5]);
      var maxGuests := Codec.ParseInt(parts[6]);
      var bedrooms := Codec.ParseInt(parts[7]);
      var bathrooms := Codec.ParseInt(parts[8]);
      if price.None? || maxGuests.None? || bedrooms.None? || bathrooms.None? {
        DecodeListingBadNumber(line, parts);
        return None;
      }
      r := Build(parts[0], parts[1], parts[2], parts[3], parts[4], price.value, maxGuests.value,
                 bedrooms.value, bathrooms.value, ListItems(parts[9]), ListItems(parts[10]),
                 Codec.ParseBool(parts[11]));
      if r.None? {
        DecodeListingNone(line, parts);
      } else {
        DecodeListingSome(line, parts, r.value.Row());
      }
    }

    /** The part of fromString after the numbers have parsed: the constructor, the amenity
        and booked-day loops, then setActive. */
    static method Build(listingId: string, hostId: string, title: string, description: string,
                        location: string, price: int, maxGuests: int, bedrooms: int,
                        bathrooms: int, names: seq<string>, texts: seq<string>, active: bool)
      returns (r: Option<PropertyListing>)
      ensures r.None? <==> ParseDays(texts).None?
      ensures r.Some? ==> fresh(r.value)
      ensures r.Some? ==>
                r.value.Row() == ListingRow(listingId, hostId, title, description, location,
                                            price, maxGuests, bedrooms, bathrooms, names,
                                            ParseDays(texts).value, active)
    {
      var listing := new PropertyListing(listingId, hostId, title, description, location,
                                         price, maxGuests, bedrooms, bathrooms);
      AppendAmenities(listing, names);
      assert listing.amenities == names;
      var parsed := AppendBookedDays(listing, texts);
      if !parsed {
        return None;
      }
      assert listing.bookedDates == ParseDays(texts).value;
      listing.SetActive(active);
      r := Some(listing);
    }
  }

  /** The amenity loop of fromString: one addAmenity per item, in order. */
  method AppendAmenities(listing: PropertyListing, names: seq<string>)
    modifies listing`amenities
    ensures listing.amenities == old(listing.amenities) + names
  {
    for i := 0 to |names|
      invariant listing.amenities == old(listing.amenities) + names[..i]
    {
      listing.AddAmenity(names[i]);
      assert names[..i + 1] == names[..i] + [names[i]];
    }
    assert names[..|names|] == names;
  }

  /** The booked-day loop of fromString: one addBookedDate per item, in order, stopping with
      false at the first item that does not parse (where LocalDate.parse throws). */
  method AppendBookedDays(listing: PropertyListing, texts: seq<string>) returns (ok: bool)
    modifies listing`bookedDates
    ensures ok <==> ParseDays(texts).Some?
    ensures ok ==> listing.bookedDates == old(listing.bookedDates) + ParseDays(texts).value
  {
    for i := 0 to |texts|
      invariant ParseDays(texts[..i]).Some?
      invariant listing.bookedDates == old(listing.bookedDates) + ParseDays(texts[..i]).value
    {
      var date := Codec.ParseInt(texts[i]);
      ParseDaysStep(texts, i);
      if date.None? {
        ParseDaysPrefixFails(texts, i + 1);
        return false;
      }
      listing.AddBookedDate(date.value);
    }
    assert texts[..|texts|] == texts;
    ok := true;
  }

  /** ParseDays over one more item extends the days, or fails when the item does not parse. */
  lemma ParseDaysStep(texts: seq<string>, i: nat)
    requires i < |texts| && ParseDays(texts[..i]).Some?
    ensures Codec.ParseInt(texts[i]).None? ==> ParseDays(texts[..i + 1]).None?
    ensures Codec.ParseInt(texts[i]).Some? ==>
      ParseDays(texts[..i + 1]) == Some(ParseDays(texts[..i]).value + [Codec.ParseInt(texts[i]).value])
  {
    assert texts[..i + 1][..i] == texts[..i];
  }

  /** DecodeListing fails when one of the four numeric fields does not parse. */
  lemma DecodeListingBadNumber(line: string, parts: seq<string>)
    requires parts == Text.JavaSplit(line, ',') && |parts| >= 12
    requires || Codec.ParseInt(parts[5]).None? || Codec.ParseInt(parts[6]).None?
             || Codec.ParseInt(parts[7]).None? || Codec.ParseInt(parts[8]).None?
    ensures DecodeListing(line).None?
  {
  }

  /** DecodeListing fails when the booked-day field does not parse. */
  lemma DecodeListingNone(line: string, parts: seq<string>)
    requires parts == Text.JavaSplit(line, ',') && |parts| >= 12
    requires ParseDays(ListItems(parts[10])).None?
    ensures DecodeListing(line).None?
  {
  }

  /** DecodeListing's result when every field parses. */
  lemma DecodeListingSome(line: string, parts: seq<string>, row: ListingRow)
    requires parts == Text.JavaSplit(line, ',') && |parts| >= 12
    requires row.listingId == parts[0] && row.hostId == parts[1] && row.title == parts[2]
    requires row.description == parts[3] && row.location == parts[4]
    requires Codec.ParseInt(parts[5]) == Some(row.pricePerNight)
    requires Codec.ParseInt(parts[6]) == Some(row.maxGuests)
    requires Codec.ParseInt(parts[7]) == Some(row.bedrooms)
    requires Codec.ParseInt(parts[8]) == Some(row.bathrooms)
    requires row.amenities == ListItems(parts[9])
    requires ParseDays(ListItems(parts[10])) == Some(row.bookedDates)
    requires row.isActive == Codec.ParseBool(parts[11])
    ensures DecodeListing(line) == Some(row)
  {
  }

  /** Once a prefix of the day items fails to parse, so does the whole list. */
  lemma {:induction false} ParseDaysPrefixFails(texts: seq<string>, n: nat)
    requires n <= |texts|
    requires ParseDays(texts[..n]).None?
    ensures ParseDays(texts).None?
    decreases |texts| - n
  {
    if n < |texts| {
      assert texts[..n + 1][..n] == texts[..n];
      ParseDaysPrefixFails(texts, n + 1);
    } else {
      assert texts[..n] == texts;
    }
  }

  /** Appending a day and then removing it restores the booked days as a multiset (the
      removed occurrence may be an earlier duplicate, so the order can differ). */
  lemma AddThenRemoveRestoresMultiset(bookedDates: seq<int>, date: int)
    ensures multiset(Seqs.RemoveFirst(bookedDates + [date], date)) == multiset(bookedDates)
  {
    Seqs.RemoveFirstMultiset(bookedDates + [date], date);
  }
}
