/** The Next.js copy of the landing page, with Spanish texts. It loads the
    catalogue as the single-page app does, but its featured section shows a
    notice instead of an empty grid. */
module NextHome {
  import opened Types
  import opened TourList
  import opened Backend
  import Home

  const LoadFailedMessage := "Error al cargar los tours"
  const NoToursLine := "No hay tours disponibles en este momento."
  const CheckBackLine := "¡Por favor, vuelve más tarde!"

  /** The featured section: the spinner while loading, the featured grid when
      there is a featured tour, otherwise a one-line notice. */
  function FeaturedSection(loading: bool, featuredTours: seq<Tour>): (v: SectionView)
    ensures v.Spinner? <==> loading
    ensures v.Cards? <==> !loading && featuredTours != []
    ensures v.Cards? ==> v.tours == featuredTours
    ensures v.Notice? ==> v.lines == [NoToursLine]
  {
    if loading then Spinner
    else if |featuredTours| > 0 then Cards(featuredTours)
    else Notice([NoToursLine])
  }

  /** The all-tours section: the spinner while loading, the grid of every tour
      when there is one, otherwise the two-line notice. */
  function AllToursSection(loading: bool, tours: seq<Tour>): (v: SectionView)
    ensures v.Spinner? <==> loading
    ensures v.Cards? <==> !loading && tours != []
    ensures v.Cards? ==> v.tours == tours
    ensures v.Notice? ==> v.lines == [NoToursLine, CheckBackLine]
  {
    if loading then Spinner
    else if |tours| > 0 then Cards(tours)
    else Notice([NoToursLine, CheckBackLine])
  }

  class NextHomePage {
    var tours: seq<Tour>
    var loading: bool
    var featuredTours: seq<Tour>

    /** The featured tours are always the head of the tour list. */
    predicate Valid()
      reads this
    {
      featuredTours == Featured(tours)
    }

    /** The state before the first load: no tour, loading. */
    constructor()
      ensures tours == [] && featuredTours == [] && loading
      ensures Valid()
    {
      tours := [];
      loading := true;
      featuredTours := [];
    }

    /** `loadTours`: store the fetched list and its featured head, or raise a
        toast on failure; `loading` is cleared on both paths. */
    method LoadTours(result: Outcome<seq<Tour>>) returns (toast: Option<Toast>)
      modifies this
      ensures !loading
      ensures result.Ok? ==> tours == result.value && featuredTours == Featured(result.value) && toast == None
      ensures result.Err? ==> tours == old(tours) && featuredTours == old(featuredTours)
      ensures result.Err? ==> toast == Some(ErrorToast(LoadFailedMessage))
      ensures old(Valid()) ==> Valid()
    {
      loading := true;
      match result {
        case Ok(data) =>
          tours := data;
          featuredTours := Featured(data);
          toast := None;
        case Err(_) =>
          toast := Some(ErrorToast(LoadFailedMessage));
      }
      loading := false;
    }

    /** Mounting the page on the store's answer to the tour list query: the
        first render shows two spinners; after the load an empty or failed
        catalogue shows the no-tours line in both sections. */
    static method Mount(resp: ListResponse<Tour>) returns (page: NextHomePage, firstFeatured: SectionView, firstAll: SectionView, toast: Option<Toast>)
      ensures fresh(page) && page.Valid() && !page.loading
      ensures firstFeatured == Spinner && firstAll == Spinner
      ensures resp.error.None? ==> page.tours == (if resp.data.Some? then resp.data.value else []) && toast == None
      ensures resp.error.Some? ==> page.tours == [] && page.featuredTours == [] && toast == Some(ErrorToast(LoadFailedMessage))
      ensures page.tours == [] ==>
        FeaturedSection(page.loading, page.featuredTours) == Notice([NoToursLine])
        && AllToursSection(page.loading, page.tours) == Notice([NoToursLine, CheckBackLine])
    {
      page := new NextHomePage();
      firstFeatured := FeaturedSection(page.loading, page.featuredTours);
      firstAll := AllToursSection(page.loading, page.tours);
      toast := page.LoadTours(FetchList(resp));
    }
  }

  /** With the featured tours taken from the tour list, the two sections agree:
      the featured section shows its notice exactly when the all-tours section
      shows its own, and both notices open with the same no-tours line. */
  lemma NoticesAgree(loading: bool, tours: seq<Tour>)
    ensures FeaturedSection(loading, Featured(tours)).Notice? <==> AllToursSection(loading, tours).Notice?
    ensures FeaturedSection(loading, Featured(tours)).Notice? ==>
      FeaturedSection(loading, Featured(tours)).lines[0] == AllToursSection(loading, tours).lines[0]
  {
    FeaturedEmptyIff(tours);
  }

  /** The two copies of the landing page render the same sections except in
      one case: loaded with nothing to feature, where the single-page app shows
      an empty grid and this copy shows a notice. */
  lemma DiffersFromSinglePageApp(loading: bool, featuredTours: seq<Tour>)
    ensures (FeaturedSection(loading, featuredTours) == Home.FeaturedSection(loading, featuredTours))
            <==> (loading || featuredTours != [])
  {
  }
}
