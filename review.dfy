/** A review, immutable once built: its seven constructor fields and the creation
    timestamp, plus its saved comma-separated line of eight fields. */
module ReviewModel {
  import opened Options
  import Text
  import Codec

  /** `type` is "property" or "guest"; the rating is stored as given, without a range
      check. */
  datatype Review = Review(
    reviewId: string, bookingId: string, reviewerId: string, revieweeId: string,
    rating: int, comment: string, kind: string, createdAt: int)

  const PropertyKind := "property"

  function ReviewFields(r: Review): seq<string>
  {
    [r.reviewId, r.bookingId, r.reviewerId, r.revieweeId, Codec.IntText(r.rating),
     r.comment, r.kind, Codec.IntText(r.createdAt)]
  }

  /** Review.toString: eight fields, createdAt last. */
  function EncodeReview(r: Review): string
  {
    Text.Join(ReviewFields(r), ',')
  }

  /** Review.fromString: the constructor over the first seven pieces, so the review gets
      the current time `now` as createdAt; fewer than seven pieces or an unparsable rating
      is the exception case. */
  function DecodeReview(line: string, now: int): Option<Review>
  {
    var parts := Text.JavaSplit(line, ',');
    if |parts| < 7 then None
    else
      match Codec.ParseInt(parts[4])
      case Some(rating) =>
        Some(Review(parts[0], parts[1], parts[2], parts[3], rating, parts[5], parts[6], now))
      case None => None
  }

  /** The text fields of a review hold no comma. */
  predicate Serialisable(r: Review)
  {
    && ',' !in r.reviewId && ',' !in r.bookingId && ',' !in r.reviewerId
    && ',' !in r.revieweeId && ',' !in r.comment && ',' !in r.kind
  }

  /** toString emits eight fields, and splitting gives them back in order. */
  lemma EncodeHasEightFields(r: Review)
    requires Serialisable(r)
    ensures Text.JavaSplit(EncodeReview(r), ',') == ReviewFields(r)
    ensures |Text.JavaSplit(EncodeReview(r), ',')| == 8
  {
    Codec.IntTextHasNoSeparator(r.rating);
    Codec.IntTextHasNoSeparator(r.createdAt);
    Text.JavaSplitJoin(ReviewFields(r), ',');
  }

  /** fromString(toString(r)) restores the seven constructor fields; createdAt becomes the
      time of reading. */
  lemma DecodeEncodeReview(r: Review, now: int)
    requires Serialisable(r)
    ensures DecodeReview(EncodeReview(r), now) == Some(r.(createdAt := now))
  {
    EncodeHasEightFields(r);
    Codec.ParseIntText(r.rating);
  }

  /** So a reloaded review differs from the saved one whenever it is read at another
      time. */
  lemma ReloadLosesCreatedAt(r: Review, now: int)
    requires Serialisable(r) && now != r.createdAt
    ensures DecodeReview(EncodeReview(r), now) != Some(r)
  {
    DecodeEncodeReview(r, now);
  }
}
