/** The fetch wrappers around the hosted store's query client. The store itself is
    not modelled: a page receives the response the client produced, and these
    functions turn it into what the wrapper returns or throws. */
module Backend {
  import opened Types

  /** The error code the store reports when a `.single()` query matches no row. */
  const NoRowsCode := "PGRST116"

  /** The client's answer to a list query: rows (possibly `null`) and an error. */
  datatype ListResponse<T> = ListResponse(data: Option<seq<T>>, error: Option<DbError>)

  /** The client's answer to a `.single()` query: exactly one row, or an error
      (no row at all is the error `NoRowsCode`). */
  datatype SingleResponse<T> = Row(row: T) | Failed(error: DbError)

  /** `fetchAllTours` and `fetchReviewsForTour`: an error is thrown, and a
      `null` list of rows reads as the empty list. */
  function FetchList<T>(resp: ListResponse<T>): (r: Outcome<seq<T>>)
    ensures r.Err? <==> resp.error.Some?
    ensures r.Err? ==> r.error == resp.error.value
    ensures r.Ok? ==> r.value == if resp.data.Some? then resp.data.value else []
  {
    if resp.error.Some? then Err(resp.error.value)
    else if resp.data.Some? then Ok(resp.data.value)
    else Ok([])
  }

  /** `fetchTourById`: "no row" is an answer (`None`), every other error is
      thrown, and a row is returned as it is. */
  function FetchTourById(resp: SingleResponse<Tour>): (r: Outcome<Option<Tour>>)
    ensures r == Ok(None) <==> resp.Failed? && resp.error.code == NoRowsCode
    ensures r.Err? <==> resp.Failed? && resp.error.code != NoRowsCode
    ensures r.Err? ==> r.error == resp.error
    ensures r.Ok? && r.value.Some? ==> resp == Row(r.value.value)
  {
    match resp
    case Row(t) => Ok(Some(t))
    case Failed(e) => if e.code == NoRowsCode then Ok(None) else Err(e)
  }

  /** `createReview`: the inserted row as the store returns it, or the error thrown. */
  function CreateReview(resp: SingleResponse<Review>): (r: Outcome<Review>)
    ensures r.Ok? <==> resp.Row?
    ensures r.Ok? ==> r.value == resp.row
    ensures r.Err? ==> r.error == resp.error
  {
    match resp
    case Row(r) => Ok(r)
    case Failed(e) => Err(e)
  }
}
