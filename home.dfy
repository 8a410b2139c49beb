/** The landing page of the single-page app: it loads the catalogue once and
    renders a featured section and an all-tours section. */
module Home {
  import opened Types
  import opened TourList
  import opened Backend

  const LoadFailedMessage := "Failed to load tours"
  const NoToursLine := "No tours available at the moment."
  const CheckBackLine := "Please check back later!"

  /** The featured section: the spinner while loading, otherwise the grid of
      featured tours, even when that grid is empty. */
  function FeaturedSection(loading: bool, featuredTours: seq<Tour>): (v: SectionView)
    ensures v.Spinner? <==> loading
    ensures !loading ==> v == Cards(featuredTours)
  {
    if loading then Spinner else Cards(featuredTours)
  }

  /** The all-tours section: the spinner while loading, the grid of every tour
      when there is one, otherwise the two-line notice. */
  function AllToursSection(loading: bool, tours: seq<Tour>): (v: SectionView)
    ensures v.Spinner? <==> loading
    ensures v.Cards? <==> !loading && tours != []
    ensures v.Cards? ==> v.tours == tours
    ensures v.Notice? <==> !loading && tours == []
    ensures v.Notice? ==> v.lines == [NoToursLine, CheckBackLine]
  {
    if loading then Spinner
    else if |tours| > 0 then Cards(tours)
    else Notice([NoToursLine, CheckBackLine])
  }

  class HomePage {
    var tours: seq<Tour>
    var loading: bool
    var featuredTours: seq<Tour>

    /** The featured tours are always the head of the tour list. */
    predicate Valid()
      reads this
    {
      featuredTours == Featured(tours)
    }

    /** The state before the first load: no tour, loading. */
    constructor()
      ensures tours == [] && featuredTours == [] && loading
      ensures Valid()
    {
      tours := [];
      loading := true;
      featuredTours := [];
    }

    /** `loadTours`: store the fetched list and its featured head, or raise a
        toast on failure; `loading` is cleared on both paths. */
    method LoadTours(result: Outcome<seq<Tour>>) returns (toast: Option<Toast>)
      modifies this
      ensures !loading
      ensures result.Ok? ==> tours == result.value && featuredTours == Featured(result.value) && toast == None
      ensures result.Err? ==> tours == old(tours) && featuredTours == old(featuredTours)
      ensures result.Err? ==> toast == Some(ErrorToast(LoadFailedMessage))
      ensures old(Valid()) ==> Valid()
    {
      loading := true;
      match result {
        case Ok(data) =>
          tours := data;
          featuredTours := Featured(data);
          toast := None;
        case Err(_) =>
          toast := Some(ErrorToast(LoadFailedMessage));
      }
      loading := false;
    }

    /** Mounting the page on the store's answer to the tour list query: the
        first render shows two spinners; after the load an empty or failed
        catalogue shows the notice beside an empty featured grid. */
    static method Mount(resp: ListResponse<Tour>) returns (page: HomePage, firstFeatured: SectionView, firstAll: SectionView, toast: Option<Toast>)
      ensures fresh(page) && page.Valid() && !page.loading
      ensures firstFeatured == Spinner && firstAll == Spinner
      ensures resp.error.None? ==> page.tours == (if resp.data.Some? then resp.data.value else []) && toast == None
      ensures resp.error.Some? ==> page.tours == [] && page.featuredTours == [] && toast == Some(ErrorToast(LoadFailedMessage))
      ensures page.tours == [] ==>
        FeaturedSection(page.loading, page.featuredTours) == Cards([])
        && AllToursSection(page.loading, page.tours) == Notice([NoToursLine, CheckBackLine])
    {
      page := new HomePage();
      firstFeatured := FeaturedSection(page.loading, page.featuredTours);
      firstAll := AllToursSection(page.loading, page.tours);
      toast := page.LoadTours(FetchList(resp));
    }
  }

  /** Once loaded, the featured grid shows the first cards of the all-tours
      grid, in the same order, and at most three of them. */
  lemma FeaturedCardsLeadAllCards(tours: seq<Tour>)
    requires tours != []
    ensures FeaturedSection(false, Featured(tours)).Cards? && AllToursSection(false, tours).Cards?
    ensures var f := FeaturedSection(false, Featured(tours)).tours;
      |f| <= FeaturedCount && |f| <= |tours| && f == AllToursSection(false, tours).tours[..|f|]
  {
  }
}
