/** The change classifier of backend/scraper/incremental_scraper.py (should_rescrape_profile):
    four ordered threshold rules comparing a listing entry with the stored row. */
module Classifier {
  import opened Common
  import opened Records
  import opened Normalize

  /** Why a profile is (or is not) fetched again: the reason strings of should_rescrape_profile,
      without the numbers they quote. */
  datatype Reason = PhoneChanged | ProfileUrlChanged | RatingChanged | ReviewsIncreased | ReviewsDecreased | NoSignificantChanges

  datatype Decision = Decision(rescrape: bool, reason: Reason)

  /** The rating threshold, 0.3 stars in tenths. */
  const RatingDelta: nat := 3

  /** Review-count growth that triggers a fetch. */
  const ReviewsRise: int := 10

  /** Review-count drop beyond which a fetch is triggered. */
  const ReviewsDrop: int := -5

  /** The listing carries a non-empty phone that is not the stored one. The stored phone is the
      cleaned one and the listing phone is raw; they are compared as plain strings. */
  predicate PhoneRule(existing: Contractor, listing: ContractorData) {
    Present(listing.phone) && existing.phone != listing.phone
  }

  /** The listing carries a non-empty profile URL that is not the stored one. */
  predicate UrlRule(existing: Contractor, listing: ContractorData) {
    Present(listing.profileUrl) && Some(existing.profileUrl) != listing.profileUrl
  }

  /** Both ratings are truthy (present and not 0) and differ by more than 0.3. */
  predicate RatingRule(existing: Contractor, listing: ContractorData) {
    NonZero(listing.rating) && NonZero(existing.rating)
    && Abs(listing.rating.value - existing.rating.value) > RatingDelta
  }

  /** Both review counts are truthy and the count rose by at least 10. */
  predicate ReviewsUpRule(existing: Contractor, listing: ContractorData) {
    NonZero(listing.reviewsCount) && NonZero(existing.reviewsCount)
    && listing.reviewsCount.value - existing.reviewsCount.value >= ReviewsRise
  }

  /** Both review counts are truthy and the count fell by more than 5. */
  predicate ReviewsDownRule(existing: Contractor, listing: ContractorData) {
    NonZero(listing.reviewsCount) && NonZero(existing.reviewsCount)
    && listing.reviewsCount.value - existing.reviewsCount.value < ReviewsDrop
  }

  /** Some rule fires. */
  predicate AnyRule(existing: Contractor, listing: ContractorData) {
    PhoneRule(existing, listing) || UrlRule(existing, listing) || RatingRule(existing, listing)
    || ReviewsUpRule(existing, listing) || ReviewsDownRule(existing, listing)
  }

  /** should_rescrape_profile: the first rule that fires, in the order phone, profile URL, rating,
      reviews, decides; when none fires the answer is no, with "No significant changes". */
  function ShouldRescrapeProfile(existing: Contractor, listing: ContractorData): (r: Decision)
    ensures r.rescrape <==> AnyRule(existing, listing)
    ensures r.rescrape <==> r.reason != NoSignificantChanges
    ensures r.reason == PhoneChanged <==> PhoneRule(existing, listing)
    ensures r.reason == ProfileUrlChanged <==> !PhoneRule(existing, listing) && UrlRule(existing, listing)
    ensures r.reason == RatingChanged <==>
      !PhoneRule(existing, listing) && !UrlRule(existing, listing) && RatingRule(existing, listing)
    ensures r.reason == ReviewsIncreased <==>
      !PhoneRule(existing, listing) && !UrlRule(existing, listing) && !RatingRule(existing, listing)
      && ReviewsUpRule(existing, listing)
    ensures r.reason == ReviewsDecreased <==>
      !PhoneRule(existing, listing) && !UrlRule(existing, listing) && !RatingRule(existing, listing)
      && ReviewsDownRule(existing, listing)
  {
    if Present(listing.phone) && existing.phone != listing.phone then
      Decision(true, PhoneChanged)
    else if Present(listing.profileUrl) && Some(existing.profileUrl) != listing.profileUrl then
      Decision(true, ProfileUrlChanged)
    else if NonZero(listing.rating) && NonZero(existing.rating)
         && Abs(listing.rating.value - existing.rating.value) > RatingDelta then
      Decision(true, RatingChanged)
    else if NonZero(listing.reviewsCount) && NonZero(existing.reviewsCount) then
      var change := listing.reviewsCount.value - existing.reviewsCount.value;
      if change >= ReviewsRise then Decision(true, ReviewsIncreased)
      else if change < ReviewsDrop then Decision(true, ReviewsDecreased)
      else Decision(false, NoSignificantChanges)
    else
      Decision(false, NoSignificantChanges)
  }

  /** A rating move of exactly 0.3 stars never fires the rating rule, whatever the other
      fields say; one of 0.4 fires it unless the phone or URL rule already decided. */
  lemma RatingBoundary(existing: Contractor, listing: ContractorData)
    requires NonZero(existing.rating) && NonZero(listing.rating)
    ensures Abs(listing.rating.value - existing.rating.value) == 3 ==>
      !RatingRule(existing, listing) && ShouldRescrapeProfile(existing, listing).reason != RatingChanged
    ensures Abs(listing.rating.value - existing.rating.value) == 4 && !PhoneRule(existing, listing) && !UrlRule(existing, listing) ==>
      ShouldRescrapeProfile(existing, listing) == Decision(true, RatingChanged)
  {
  }

  /** Review deltas from -5 to 9 never fire; 10 and -6 do. */
  lemma ReviewsBoundary(existing: Contractor, listing: ContractorData)
    requires !PhoneRule(existing, listing) && !UrlRule(existing, listing) && !RatingRule(existing, listing)
    requires NonZero(existing.reviewsCount) && NonZero(listing.reviewsCount)
    ensures var change := listing.reviewsCount.value - existing.reviewsCount.value;
      && (-5 <= change <= 9 <==> !ShouldRescrapeProfile(existing, listing).rescrape)
      && (change == 10 ==> ShouldRescrapeProfile(existing, listing).reason == ReviewsIncreased)
      && (change == -6 ==> ShouldRescrapeProfile(existing, listing).reason == ReviewsDecreased)
  {
  }

  /** A falsy rating (missing or 0), on either side, switches the rating rule off, and a falsy
      review count, on either side, switches both review rules off, each whatever the other
      fields say; with both off only the phone and URL rules can fire. */
  lemma ZeroDisablesRule(existing: Contractor, listing: ContractorData)
    ensures !NonZero(existing.rating) || !NonZero(listing.rating) ==>
      !RatingRule(existing, listing) && ShouldRescrapeProfile(existing, listing).reason != RatingChanged
    ensures !NonZero(existing.reviewsCount) || !NonZero(listing.reviewsCount) ==>
      && !ReviewsUpRule(existing, listing) && !ReviewsDownRule(existing, listing)
      && ShouldRescrapeProfile(existing, listing).reason != ReviewsIncreased
      && ShouldRescrapeProfile(existing, listing).reason != ReviewsDecreased
    ensures ((!NonZero(existing.rating) || !NonZero(listing.rating))
             && (!NonZero(existing.reviewsCount) || !NonZero(listing.reviewsCount))) ==>
      (ShouldRescrapeProfile(existing, listing).rescrape <==> PhoneRule(existing, listing) || UrlRule(existing, listing))
  {
  }

  /** A listing entry whose profile URL is the stored one never triggers the URL rule. */
  lemma SameUrlNeverFires(existing: Contractor, listing: ContractorData)
    requires listing.profileUrl == Some(existing.profileUrl)
    ensures ShouldRescrapeProfile(existing, listing).reason != ProfileUrlChanged
  {
  }

  /** The stored phone is the cleaned form of an earlier listing phone while the listing carries
      the raw one: a parseable listing phone not already in display form fires the phone rule
      on every run, even when it denotes the number stored. */
  lemma RawPhoneAlwaysDiffers(existing: Contractor, listing: ContractorData)
    requires Present(listing.phone) && !IsCanonicalPhone(listing.phone.value)
    requires existing.phone == CleanPhoneNumber(listing.phone)
    requires Parseable(Digits(listing.phone.value))
    ensures ShouldRescrapeProfile(existing, listing) == Decision(true, PhoneChanged)
  {
    assert IsCanonicalPhone(existing.phone.value);
  }
}
