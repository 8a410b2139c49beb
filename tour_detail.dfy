/** The tour detail page: it loads one tour with its reviews, shows an image
    gallery, the average rating and the reviews, and posts new reviews. */
module TourDetail {
  import opened Types
  import opened JsText
  import opened JsNumber
  import opened Rating
  import opened Backend

  const TourNotFoundMessage := "Tour not found"
  const LoadFailedMessage := "Failed to load tour details"
  const MissingFieldsMessage := "Please fill in all fields"
  const SubmittedMessage := "Review submitted successfully!"
  const SubmitFailedMessage := "Failed to submit review"
  const NoReviewsLine := "No reviews yet. Be the first to share your experience!"
  const DefaultRating := 5

  /** The image shown when a tour has no image. */
  const PlaceholderImage := "https://images.pexels.com/photos/1450353/pexels-photo-1450353.jpeg?auto=compress&cs=tinysrgb&w=1200"

  /** `!id` on the route parameter: absent, or the empty string. */
  predicate IdMissing(id: Option<string>) {
    id.None? || id.value == ""
  }

  /** What the joint fetch of the tour and its reviews settles to. */
  datatype LoadOutcome = Found(tour: Tour, reviews: seq<Review>) | NotFound | LoadError

  /** `Promise.all` over the two fetches: it rejects when either fetch throws;
      otherwise a missing tour is "not found" and its reviews are dropped. */
  function CombineLoad(tourResult: Outcome<Option<Tour>>, reviewsResult: Outcome<seq<Review>>): (o: LoadOutcome)
    ensures o.LoadError? <==> tourResult.Err? || reviewsResult.Err?
    ensures o.NotFound? <==> tourResult == Ok(None) && reviewsResult.Ok?
    ensures o.Found? ==> tourResult == Ok(Some(o.tour)) && reviewsResult == Ok(o.reviews)
  {
    match (tourResult, reviewsResult)
    case (Ok(Some(t)), Ok(rs)) => Found(t, rs)
    case (Ok(None), Ok(_)) => NotFound
    case _ => LoadError
  }

  /** The gallery's main image: `image_urls[currentImageIndex]` when the tour
      has images (`None` is JavaScript's `undefined`, read past the end),
      otherwise the placeholder. */
  function CurrentImage(t: Tour, index: int): (img: Option<string>)
    ensures t.imageUrls == [] ==> img == Some(PlaceholderImage)
    ensures t.imageUrls != [] && 0 <= index < |t.imageUrls| ==> img == Some(t.imageUrls[index])
    ensures t.imageUrls != [] && !(0 <= index < |t.imageUrls|) ==> img == None
  {
    if |t.imageUrls| > 0 then
      if 0 <= index < |t.imageUrls| then Some(t.imageUrls[index]) else None
    else Some(PlaceholderImage)
  }

  /** The review form's check: the route id and the trimmed name and comment
      must all be non-empty. */
  predicate FormIncomplete(id: Option<string>, userName: string, comment: string) {
    IdMissing(id) || Trim(userName) == [] || Trim(comment) == []
  }

  /** The record posted for a new review. */
  function ReviewRequest(id: string, userName: string, rating: int, comment: string): (d: CreateReviewData)
    ensures d.tourId == ParseInt(id) && d.rating == rating
    ensures d.userName == Trim(userName) && d.comment == Trim(comment)
  {
    CreateReviewData(ParseInt(id), Trim(userName), rating, Trim(comment))
  }

  /** The reviews block: the review list, or the invitation to write the first one. */
  datatype ReviewsBlock = ReviewList(reviews: seq<Review>) | NoReviews(line: string)

  /** What the page renders. */
  datatype DetailView =
    | Spinner
    | TourNotFound
    | TourShown(
        tour: Tour,
        image: Option<string>,
        stars: seq<bool>,
        ratingSummary: string,
        reviewsBlock: ReviewsBlock,
        submitLabel: string,
        submitDisabled: bool)

  /** The render of the page state. */
  function Render(loading: bool, tour: Option<Tour>, reviews: seq<Review>, index: int, submitting: bool): (v: DetailView)
    ensures v.Spinner? <==> loading
    ensures v.TourNotFound? <==> !loading && tour.None?
    ensures v.TourShown? ==> tour == Some(v.tour) && v.image == CurrentImage(v.tour, index)
    ensures v.TourShown? ==> v.stars == AverageStars(reviews) && v.ratingSummary == RatingSummary(reviews)
    ensures v.TourShown? ==> v.reviewsBlock == (if reviews == [] then NoReviews(NoReviewsLine) else ReviewList(reviews))
    ensures v.TourShown? ==> v.submitLabel == (if submitting then "Submitting..." else "Submit Review")
    ensures v.TourShown? ==> v.submitDisabled == submitting
  {
    if loading then Spinner
    else if tour.None? then TourNotFound
    else
      TourShown(
        tour.value,
        CurrentImage(tour.value, index),
        AverageStars(reviews),
        RatingSummary(reviews),
        if |reviews| > 0 then ReviewList(reviews) else NoReviews(NoReviewsLine),
        if submitting then "Submitting..." else "Submit Review",
        submitting)
  }

  /** The form check rejects exactly a missing id and a name or comment made
      only of whitespace. */
  lemma FormIncompleteIff(id: Option<string>, userName: string, comment: string)
    ensures FormIncomplete(id, userName, comment) <==> IdMissing(id) || AllWhitespace(userName) || AllWhitespace(comment)
  {
    TrimEmptyIff(userName);
    TrimEmptyIff(comment);
  }

  /** A record built from a complete form carries a non-empty name and comment
      with no whitespace at either end, which the form check would accept again. */
  lemma CompleteFormRequest(id: string, userName: string, rating: int, comment: string)
    requires !FormIncomplete(Some(id), userName, comment)
    ensures var d := ReviewRequest(id, userName, rating, comment);
      d.userName != [] && !IsWhitespace(d.userName[0]) && !IsWhitespace(d.userName[|d.userName| - 1])
      && d.comment != [] && !IsWhitespace(d.comment[0]) && !IsWhitespace(d.comment[|d.comment| - 1])
      && !FormIncomplete(Some(id), d.userName, d.comment)
      && Trim(d.userName) == d.userName && Trim(d.comment) == d.comment
  {
    TrimIsInnerSlice(userName);
    TrimIsInnerSlice(comment);
    TrimIdempotent(userName);
    TrimIdempotent(comment);
  }

  /** On a route written with a tour's numeric id, the posted `tour_id` is that id. */
  lemma RequestTourIdOfRoute(n: nat, userName: string, rating: int, comment: string)
    ensures ReviewRequest(DecimalString(n), userName, rating, comment).tourId == Some(n)
  {
    ParseIntDecimal(n, []);
    assert DecimalString(n) + [] == DecimalString(n);
  }

  /** Whatever the reviews fetch settles to, a tour the store does not have
      leaves the page on "Tour Not Found" once loading is over. */
  lemma MissingTourRendersNotFound(reviewsResult: Outcome<seq<Review>>, reviews: seq<Review>, index: int, submitting: bool)
    ensures !CombineLoad(Ok(None), reviewsResult).Found?
    ensures Render(false, None, reviews, index, submitting) == TourNotFound
  {
  }

  /** After a successful submit the new review is listed first, the others
      follow in their order, and the summary counts it. */
  lemma SubmittedReviewListedFirst(t: Tour, r: Review, reviews: seq<Review>, index: int)
    ensures var v := Render(false, Some(t), [r] + reviews, index, false);
      v.TourShown? && v.reviewsBlock == ReviewList([r] + reviews)
      && v.reviewsBlock.reviews[0] == r && v.reviewsBlock.reviews[1..] == reviews
      && v.ratingSummary == RatingSummary([r] + reviews)
      && SumRatings([r] + reviews) == r.rating + SumRatings(reviews)
      && !v.submitDisabled && v.submitLabel == "Submit Review"
  {
    SumRatingsPrepend(r, reviews);
    assert ([r] + reviews)[1..] == reviews;
  }

  class TourDetailPage {
    /** The `:id` route parameter. */
    const id: Option<string>

    var tour: Option<Tour>
    var reviews: seq<Review>
    var loading: bool
    var currentImageIndex: int

    var userName: string
    var rating: int
    var comment: string
    var submittingReview: bool

    /** The rating selector offers 1 to 5 stars; gallery positions are not negative. */
    predicate Valid()
      reads this
    {
      1 <= rating <= 5 && 0 <= currentImageIndex
    }

    /** The gallery index points at an image of the shown tour, when it has any. */
    predicate GalleryInRange()
      reads this
    {
      tour.Some? && tour.value.imageUrls != [] ==> currentImageIndex < |tour.value.imageUrls|
    }

    /** The page as it renders now. */
    function View(): DetailView
      reads this
    {
      Render(loading, tour, reviews, currentImageIndex, submittingReview)
    }

    /** The state of a freshly mounted page. */
    constructor(routeId: Option<string>)
      ensures id == routeId
      ensures tour == None && reviews == [] && loading && currentImageIndex == 0
      ensures userName == "" && rating == DefaultRating && comment == "" && !submittingReview
      ensures Valid() && GalleryInRange()
    {
      id := routeId;
      tour := None;
      reviews := [];
      loading := true;
      currentImageIndex := 0;
      userName := "";
      rating := DefaultRating;
      comment := "";
      submittingReview := false;
    }

    /** `loadTourData`, given what the two fetches settle to. A missing id
        returns before anything is set, so `loading` stays true. */
    method LoadTourData(tourResult: Outcome<Option<Tour>>, reviewsResult: Outcome<seq<Review>>) returns (toast: Option<Toast>)
      modifies this
      ensures IdMissing(id) ==> unchanged(this) && toast == None
      ensures !IdMissing(id) ==> !loading
      ensures currentImageIndex == old(currentImageIndex) && submittingReview == old(submittingReview)
      ensures userName == old(userName) && rating == old(rating) && comment == old(comment)
      ensures !IdMissing(id) ==>
        match CombineLoad(tourResult, reviewsResult)
        case Found(t, rs) => tour == Some(t) && reviews == rs && toast == None
        case NotFound =>
          tour == old(tour) && reviews == old(reviews) && toast == Some(ErrorToast(TourNotFoundMessage))
        case LoadError =>
          tour == old(tour) && reviews == old(reviews) && toast == Some(ErrorToast(LoadFailedMessage))
      ensures IdMissing(id) ==> tour == old(tour) && reviews == old(reviews) && loading == old(loading)
      ensures !IdMissing(id) && old(tour).None? && tourResult == Ok(None) ==> View() == TourNotFound
      ensures old(Valid()) ==> Valid()
      ensures old(currentImageIndex) == 0 ==> GalleryInRange()
    {
      if IdMissing(id) {
        return None;
      }
      loading := true;
      match CombineLoad(tourResult, reviewsResult) {
        case Found(t, rs) =>
          tour := Some(t);
          reviews := rs;
          toast := None;
        case NotFound =>
          toast := Some(ErrorToast(TourNotFoundMessage));
        case LoadError =>
          toast := Some(ErrorToast(LoadFailedMessage));
      }
      loading := false;
    }

    /** The first half of `handleReviewSubmit`: validate the form and, when it
        is complete, mark the submission pending and build the record to post. */
    method BeginReviewSubmit() returns (request: Option<CreateReviewData>, toast: Option<Toast>)
      modifies this
      ensures userName == old(userName) && rating == old(rating) && comment == old(comment)
      ensures tour == old(tour) && reviews == old(reviews) && loading == old(loading)
      ensures currentImageIndex == old(currentImageIndex)
      ensures FormIncomplete(id, userName, comment) ==>
        request == None && toast == Some(ErrorToast(MissingFieldsMessage)) && submittingReview == old(submittingReview)
      ensures !FormIncomplete(id, userName, comment) ==>
        request == Some(ReviewRequest(id.value, userName, rating, comment)) && toast == None && submittingReview
      ensures old(Valid()) && request.Some? ==> 1 <= request.value.rating <= 5
      ensures old(Valid()) ==> Valid()
    {
      if FormIncomplete(id, userName, comment) {
        return None, Some(ErrorToast(MissingFieldsMessage));
      }
      submittingReview := true;
      request := Some(ReviewRequest(id.value, userName, rating, comment));
      toast := None;
    }

    /** The second half of `handleReviewSubmit`, once `createReview` settled:
        on success the new review goes first and the form is reset; on failure
        the reviews and the form stay as they were. Either way the submission
        is no longer pending. */
    method FinishReviewSubmit(outcome: Outcome<Review>) returns (toast: Option<Toast>)
      modifies this
      ensures !submittingReview
      ensures outcome.Ok? ==>
        reviews == [outcome.value] + old(reviews)
        && userName == "" && rating == DefaultRating && comment == ""
        && toast == Some(SuccessToast(SubmittedMessage))
      ensures outcome.Err? ==>
        reviews == old(reviews) && userName == old(userName) && rating == old(rating) && comment == old(comment)
        && toast == Some(ErrorToast(SubmitFailedMessage))
      ensures tour == old(tour) && loading == old(loading) && currentImageIndex == old(currentImageIndex)
      ensures old(Valid()) ==> Valid()
      ensures old(GalleryInRange()) ==> GalleryInRange()
    {
      match outcome {
        case Ok(newReview) =>
          reviews := [newReview] + reviews;
          userName := "";
          rating := DefaultRating;
          comment := "";
          toast := Some(SuccessToast(SubmittedMessage));
        case Err(_) =>
          toast := Some(ErrorToast(SubmitFailedMessage));
      }
      submittingReview := false;
    }

    /** `handleReviewSubmit` as one step: `outcome` is what `createReview`
        settles to, and is used only when the form passes its check. */
    method HandleReviewSubmit(outcome: Outcome<Review>) returns (request: Option<CreateReviewData>, toast: Option<Toast>)
      modifies this
      ensures tour == old(tour) && loading == old(loading) && currentImageIndex == old(currentImageIndex)
      ensures FormIncomplete(id, old(userName), old(comment)) ==>
        request == None && toast == Some(ErrorToast(MissingFieldsMessage))
        && reviews == old(reviews) && userName == old(userName) && rating == old(rating) && comment == old(comment)
        && submittingReview == old(submittingReview)
      ensures !FormIncomplete(id, old(userName), old(comment)) ==>
        request == Some(ReviewRequest(id.value, old(userName), old(rating), old(comment))) && !submittingReview
      ensures old(Valid()) && request.Some? ==> 1 <= request.value.rating <= 5
      ensures !FormIncomplete(id, old(userName), old(comment)) && outcome.Ok? ==>
        reviews == [outcome.value] + old(reviews) && userName == "" && rating == DefaultRating && comment == ""
        && toast == Some(SuccessToast(SubmittedMessage))
      ensures !FormIncomplete(id, old(userName), old(comment)) && outcome.Err? ==>
        reviews == old(reviews) && userName == old(userName) && rating == old(rating) && comment == old(comment)
        && toast == Some(ErrorToast(SubmitFailedMessage))
      ensures old(Valid()) ==> Valid()
    {
      request, toast := BeginReviewSubmit();
      if request.Some? {
        toast := FinishReviewSubmit(outcome);
      }
    }

    /** Mounting the page on a route and on the store's answers to the two
        queries: without an id the spinner stays; a tour the store does not
        have renders "Tour Not Found"; a found tour renders with its first
        image (or the placeholder) and its reviews. */
    static method Mount(routeId: Option<string>, tourResp: SingleResponse<Tour>, reviewsResp: ListResponse<Review>)
      returns (page: TourDetailPage, toast: Option<Toast>)
      ensures fresh(page) && page.id == routeId && page.Valid() && page.GalleryInRange()
      ensures IdMissing(routeId) ==> page.View() == Spinner && toast == None
      ensures !IdMissing(routeId) && tourResp.Failed? && tourResp.error.code == NoRowsCode ==> page.View() == TourNotFound
      ensures !IdMissing(routeId) && tourResp.Row? && reviewsResp.error.None? ==>
        var rs := if reviewsResp.data.Some? then reviewsResp.data.value else [];
        page.tour == Some(tourResp.row) && page.reviews == rs && toast == None
        && page.View() == Render(false, Some(tourResp.row), rs, 0, false)
        && page.View().TourShown? && page.View().image.Some?
    {
      page := new TourDetailPage(routeId);
      toast := page.LoadTourData(FetchTourById(tourResp), FetchList(reviewsResp));
    }

    /** A gallery button: the buttons exist only for a tour with more than one
        image, one per image. */
    method SelectImage(index: int)
      requires tour.Some? && |tour.value.imageUrls| > 1
      requires 0 <= index < |tour.value.imageUrls|
      modifies this
      ensures tour == old(tour) && reviews == old(reviews) && loading == old(loading)
      ensures currentImageIndex == index
      ensures CurrentImage(tour.value, currentImageIndex) == Some(tour.value.imageUrls[index])
      ensures userName == old(userName) && rating == old(rating) && comment == old(comment)
      ensures submittingReview == old(submittingReview)
      ensures old(Valid()) ==> Valid()
      ensures GalleryInRange()
    {
      currentImageIndex := index;
    }

    /** Typing in the name field. */
    method SetUserName(value: string)
      modifies this
      ensures userName == value
      ensures tour == old(tour) && reviews == old(reviews) && loading == old(loading)
      ensures currentImageIndex == old(currentImageIndex) && rating == old(rating) && comment == old(comment)
      ensures submittingReview == old(submittingReview)
    {
      userName := value;
    }

    /** Picking an option of the rating selector. */
    method SetRating(value: int)
      requires 1 <= value <= 5
      modifies this
      ensures rating == value
      ensures tour == old(tour) && reviews == old(reviews) && loading == old(loading)
      ensures currentImageIndex == old(currentImageIndex) && userName == old(userName) && comment == old(comment)
      ensures submittingReview == old(submittingReview)
      ensures old(Valid()) ==> Valid()
    {
      rating := value;
    }

    /** Typing in the comment field. */
    method SetComment(value: string)
      modifies this
      ensures comment == value
      ensures tour == old(tour) && reviews == old(reviews) && loading == old(loading)
      ensures currentImageIndex == old(currentImageIndex) && userName == old(userName) && rating == old(rating)
      ensures submittingReview == old(submittingReview)
    {
      comment := value;
    }
  }
}
