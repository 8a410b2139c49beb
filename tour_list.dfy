/** What the two home pages share: the featured prefix of the catalogue and
    the shape of a rendered tour section. */
module TourList {
  import opened Types

  /** How many tours the home pages feature. */
  const FeaturedCount := 3

  /** `data.slice(0, 3)`: the first three tours, or all of them when there are fewer. */
  function Featured(data: seq<Tour>): (r: seq<Tour>)
    ensures |r| == if |data| < FeaturedCount then |data| else FeaturedCount
    ensures r == data[..|r|]
  {
    if |data| < FeaturedCount then data else data[..FeaturedCount]
  }

  /** What a tour section shows: the loading spinner, a grid of tour cards (in
      list order), or a notice made of lines of text. */
  datatype SectionView = Spinner | Cards(tours: seq<Tour>) | Notice(lines: seq<string>)

  /** There is nothing to feature exactly when there is no tour. */
  lemma FeaturedEmptyIff(data: seq<Tour>)
    ensures Featured(data) == [] <==> data == []
  {
  }

  /** Every featured tour is a tour of the list, at the same position. */
  lemma FeaturedInOrder(data: seq<Tour>)
    ensures forall i :: 0 <= i < |Featured(data)| ==> Featured(data)[i] == data[i]
  {
  }

  /** Featuring is idempotent, and tours after the third do not change it. */
  lemma FeaturedIgnoresTail(data: seq<Tour>, more: seq<Tour>)
    ensures Featured(Featured(data)) == Featured(data)
    ensures |data| >= FeaturedCount ==> Featured(data + more) == Featured(data)
  {
    if |data| >= FeaturedCount {
      assert (data + more)[..FeaturedCount] == data[..FeaturedCount];
    }
  }
}
