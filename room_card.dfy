/** One room card: image, zero-padded number, category, price, a review
    summary with up to two previews, and the Book and Review buttons that
    open the two dialogs. */
module Card {
  import opened JsString
  import opened JsNumber
  import opened Types
  import Utils
  import Stars
  import Booking
  import Review

  /** `getRoomImage`: one picture per category, the Deluxe one otherwise. */
  function ImageFor(category: int): (r: string)
    ensures category == Presidential.Value() ==> r == "/2071.jpg"
    ensures category == Suite.Value() ==> r == "/7715.jpg"
    ensures category != Presidential.Value() && category != Suite.Value() ==> r == "/2149.jpg"
  {
    if category == Presidential.Value() then "/2071.jpg"
    else if category == Deluxe.Value() then "/2149.jpg"
    else if category == Suite.Value() then "/7715.jpg"
    else "/2149.jpg"
  }

  /** An unknown category shows the Deluxe picture under the label "Unknown". */
  lemma UnknownCategoryLooksDeluxe(category: int)
    requires category !in {0, 1, 2}
    ensures ImageFor(category) == ImageFor(Deluxe.Value())
    ensures Utils.CategoryLabel(category) == "Unknown"
  {
  }

  /** `String(Number(room.id)).padStart(2, "0")`. */
  function IdLabel(id: nat): (r: string)
    ensures |r| == Max(2, |NatToDecimal(id)|)
    ensures id < 10 ==> r == "0" + NatToDecimal(id)
    ensures id >= 10 ==> r == NatToDecimal(id)
    ensures ParseInt(r) == Some(id)
  {
    var digits := NatToDecimal(id);
    var r := PadStart(digits, 2, '0');
    if id < 10 then
      assert r == "0" + digits;
      LeadingZero(digits);
      ParseDigits(r);
      r
    else
      ParseDigits(r);
      r
  }

  /** The filter's test: the entry is present, its rating is a number and
      its comment is non-empty. */
  predicate IsValidReview(e: ReviewEntry) {
    e.Entry? && e.rating.Some? && e.comment != ""
  }

  /** `filter` with that test. */
  function FilterValid(s: seq<ReviewEntry>): (r: seq<ReviewEntry>)
    ensures |r| <= |s|
    ensures forall i :: 0 <= i < |r| ==> IsValidReview(r[i])
  {
    if s == [] then []
    else (if IsValidReview(s[0]) then [s[0]] else []) + FilterValid(s[1..])
  }

  /** `room.reviews?.filter(...) || []`. */
  function ValidReviews(reviews: Option<seq<ReviewEntry>>): seq<ReviewEntry> {
    if reviews.None? then [] else FilterValid(reviews.value)
  }

  /** Filtering commutes with concatenation, so it keeps the order. */
  lemma {:induction false} FilterConcat(s: seq<ReviewEntry>, t: seq<ReviewEntry>)
    ensures FilterValid(s + t) == FilterValid(s) + FilterValid(t)
  {
    if s == [] {
      assert s + t == t;
    } else {
      assert (s + t)[1..] == s[1..] + t;
      FilterConcat(s[1..], t);
    }
  }

  /** Filtering keeps every valid entry as often as it occurs and drops the
      rest. */
  lemma {:induction false} FilterCounts(s: seq<ReviewEntry>, e: ReviewEntry)
    ensures multiset(FilterValid(s))[e] == if IsValidReview(e) then multiset(s)[e] else 0
  {
    if s != [] {
      FilterCounts(s[1..], e);
      assert s == [s[0]] + s[1..];
    }
  }

  function RatingSum(s: seq<ReviewEntry>): int
    requires forall i :: 0 <= i < |s| ==> IsValidReview(s[i])
  {
    if s == [] then 0
    else
      assert IsValidReview(s[0]);
      s[0].rating.value + RatingSum(s[1..])
  }

  /** The average rating as the pair the division is made of. */
  datatype Average = NoReviews | Mean(sum: int, count: nat)

  function AverageRating(valid: seq<ReviewEntry>): (r: Average)
    requires forall i :: 0 <= i < |valid| ==> IsValidReview(valid[i])
    ensures r.NoReviews? <==> valid == []
    ensures r.Mean? ==> r.count == |valid| > 0 && r.sum == RatingSum(valid)
  {
    if |valid| > 0 then Mean(RatingSum(valid), |valid|) else NoReviews
  }

  /** With ratings in [1, 5] the average lies in [1, 5]. */
  lemma {:induction false} AverageInRange(valid: seq<ReviewEntry>)
    requires forall i :: 0 <= i < |valid| ==> IsValidReview(valid[i]) && 1 <= valid[i].rating.value <= 5
    ensures |valid| <= RatingSum(valid) <= 5 * |valid|
  {
    if valid != [] {
      AverageInRange(valid[1..]);
    }
  }

  /** A preview's five stars: star `i` (from 0) is filled when `i < rating`. */
  function PreviewStars(rating: int): (r: seq<bool>)
    ensures |r| == 5
  {
    seq(5, i => i < rating)
  }

  /** The preview stars fill exactly as the rating widget does at that level. */
  lemma PreviewStarsMatchWidget(rating: int)
    ensures PreviewStars(rating) == Stars.FillPattern(rating)
    ensures Stars.CountFilled(PreviewStars(rating)) == Stars.Clamp(rating)
  {
    Stars.FillPatternIsPrefix(rating);
  }

  datatype PreviewItem = PreviewItem(stars: seq<bool>, comment: string, guest: string)

  datatype ReviewSummary = ReviewSummary(average: Average, count: nat, preview: seq<PreviewItem>)

  function Preview(e: ReviewEntry): PreviewItem
    requires IsValidReview(e)
  {
    PreviewItem(PreviewStars(e.rating.value), e.comment, Utils.ShortenAddress(Some(e.guest)))
  }

  /** The review block: only when there are valid reviews, and then the
      first `min(2, n)` of them in order (`validReviews.slice(0, 2)`). */
  function ReviewSection(reviews: Option<seq<ReviewEntry>>): (r: Option<ReviewSummary>)
    ensures r.Some? <==> ValidReviews(reviews) != []
    ensures r.Some? ==>
      var valid := ValidReviews(reviews);
      && r.value.count == |valid|
      && r.value.average == AverageRating(valid)
      && |r.value.preview| == Min(2, |valid|)
      && forall i :: 0 <= i < |r.value.preview| ==> r.value.preview[i] == Preview(valid[i])
  {
    var valid := ValidReviews(reviews);
    if valid == [] then None
    else
      var shown := Slice(valid, 0, 2);
      SlicePrefix(valid, 2);
      Some(ReviewSummary(AverageRating(valid), |valid|,
                         seq(|shown|, i requires 0 <= i < |shown| => Preview(shown[i]))))
  }

  /** `!room.isAvailable || !address`. */
  predicate BookDisabled(isAvailable: bool, address: Option<string>) {
    !isAvailable || !Truthy(address)
  }

  function BookLabel(isAvailable: bool): (r: string)
    ensures r == "Book Now" <==> isAvailable
  {
    if isAvailable then "Book Now" else "Not Available"
  }

  /** `!address`. */
  predicate ReviewDisabled(address: Option<string>) {
    !Truthy(address)
  }

  /** Without a wallet neither button works; with one, only availability
      decides the Book button. */
  lemma ButtonRules(isAvailable: bool, address: Option<string>)
    ensures !Truthy(address) ==> BookDisabled(isAvailable, address) && ReviewDisabled(address)
    ensures Truthy(address) ==> (BookDisabled(isAvailable, address) <==> !isAvailable) && !ReviewDisabled(address)
  {
  }

  /** What a card shows for a room and the connected address. */
  datatype CardView = CardView(
    image: string, idLabel: string, categoryLabel: string, price: int,
    reviews: Option<ReviewSummary>,
    bookLabel: string, bookDisabled: bool, reviewDisabled: bool)

  /** `displayPrice`: 0 for a zero price, otherwise the price itself. */
  function DisplayPrice(price: int): (r: int)
    ensures r == price
  {
    if price == 0 then 0 else price
  }

  function View(room: Room, address: Option<string>): (r: CardView)
    ensures ParseInt(r.idLabel) == Some(room.id)
    ensures r.categoryLabel == Utils.CategoryLabel(room.category) && r.image == ImageFor(room.category)
    ensures r.price == room.pricePerNight
    ensures r.reviews.Some? <==> ValidReviews(room.reviews) != []
    ensures r.bookDisabled <==> !room.isAvailable || !Truthy(address)
    ensures r.reviewDisabled <==> !Truthy(address)
  {
    CardView(ImageFor(room.category), IdLabel(room.id), Utils.CategoryLabel(room.category),
             DisplayPrice(room.pricePerNight), ReviewSection(room.reviews),
             BookLabel(room.isAvailable), BookDisabled(room.isAvailable, address),
             ReviewDisabled(address))
  }

  /** A card and the two dialogs it hosts. The dialogs' `open` flags are the
      card's `showBookingModal` and `showReviewModal`. */
  class RoomCard {
    const room: Room
    const booking: Booking.BookingModal
    const review: Review.AddReviewModal

    ghost predicate Valid()
      reads this, booking, review, review.stars
    {
      && booking.Valid() && review.Valid()
      && booking.category == room.category
      && booking.pricePerNight == IntToDecimal(room.pricePerNight)
      && review.roomId == room.id
    }

    /** The dialogs get `Number(room.category)`, the price as a decimal
        string and `Number(room.id)`. */
    constructor (room: Room)
      ensures Valid() && this.room == room
      ensures fresh(booking) && fresh(review) && fresh(review.stars)
      ensures !booking.open && !review.open
    {
      this.room := room;
      booking := new Booking.BookingModal(room.category, IntToDecimal(room.pricePerNight));
      review := new Review.AddReviewModal(room.id);
    }

    /** The Book button: it opens the booking dialog unless it is disabled. */
    method ClickBook(address: Option<string>)
      requires Valid()
      modifies booking`open
      ensures Valid()
      ensures booking.open == (old(booking.open) || !BookDisabled(room.isAvailable, address))
    {
      if !BookDisabled(room.isAvailable, address) {
        booking.open := true;
      }
    }

    /** The Review button: it opens the review dialog unless it is disabled. */
    method ClickReview(address: Option<string>)
      requires Valid()
      modifies review`open
      ensures Valid()
      ensures review.open == (old(review.open) || !ReviewDisabled(address))
    {
      if !ReviewDisabled(address) {
        review.open := true;
      }
    }

    /** The dialog's total for `n` nights is `n` times this room's price. */
    lemma BookingTotal(n: int)
      requires Valid()
      ensures Booking.TotalPrice(IntToDecimal(n), booking.pricePerNight) == IntToDecimal(n * room.pricePerNight)
    {
      Booking.TotalPriceIsProduct(n, room.pricePerNight);
    }
  }
}
