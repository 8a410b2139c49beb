/** Records of the tour catalogue and the small wrapper types the pages use. */
module Types {

  /** A value that may be absent (`null` / `undefined` in the pages). */
  datatype Option<+T> = None | Some(value: T)

  /** Error reported by the hosted store: its error code and its message. */
  datatype DbError = DbError(code: string, message: string)

  /** The result of an awaited call: the resolved value, or the error it threw. */
  datatype Outcome<+T> = Ok(value: T) | Err(error: DbError)

  /** A tour as the store returns it. `price` is a JavaScript number. */
  datatype Tour = Tour(
    id: int,
    name: string,
    description: string,
    price: real,
    location: string,
    imageUrls: seq<string>,
    duration: Option<string>,
    includes: Option<seq<string>>,
    createdAt: string)

  /** A visitor review as the store returns it. */
  datatype Review = Review(
    id: int,
    tourId: int,
    userName: string,
    rating: int,
    comment: string,
    createdAt: string)

  /** The record posted to the store when a review is submitted.
      `tourId` is the result of `parseInt` on the route parameter:
      `None` stands for `NaN`. */
  datatype CreateReviewData = CreateReviewData(
    tourId: Option<int>,
    userName: string,
    rating: int,
    comment: string)

  /** A notification raised by a page. */
  datatype Toast = ErrorToast(message: string) | SuccessToast(message: string)
}
