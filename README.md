# PaginaDeTours — page logic of a tour catalogue, in Dafny

PaginaDeTours is a small tour-booking site for Punta Cana. A hosted store keeps
its tours and visitor reviews. This project models the logic inside its pages
and proves properties of it:

- the **tour detail page** (`TourDetail.TourDetailPage`). It loads one tour
  together with its reviews, with three outcomes: found, not found, or error.
  It shows an image gallery, the average rating as text and as a row of five
  stars, and the review list. Its review form validates trimmed input, posts
  a new review and resets itself when the post succeeds.
- the **landing page** of the single-page app (`Home.HomePage`). It loads the
  catalogue once, keeps the first three tours as featured, and renders a
  featured section and an all-tours section.
- the **Next.js copy** of the landing page (`NextHome.NextHomePage`). It has
  Spanish texts, and its featured section shows a notice where the other
  copy shows an empty grid.

Each page's state cells are the fields of a class. Each handler is one method
that states the page's whole new state. A render is a pure function of that
state. The query client is represented only by what its calls settle to: a
response value (`Backend`) or an `Outcome` (a resolved value, or the error
thrown). The JavaScript built-ins whose exact behaviour the pages depend on
are modelled in `JsText` (`trim`) and `JsNumber` (`parseInt`, `parseFloat`,
`toFixed(1)`, `Math.round`, and `String` of a whole number). `toFixed(1)` is
modelled on integer tenths: it rounds to the nearest tenth, and the larger
tenth on an exact tie.

Modules: `Types`, `JsText`, `JsNumber`, `Backend`, `Rating`, `TourList`,
`Home`, `NextHome`, `TourDetail`.

## Model

| member | source | states |
|---|---|---|
| JsText.TrimStart | src/pages/TourDetailPage.tsx:54 | the result is the suffix left after the leading whitespace; everything dropped is whitespace, and the result does not start with whitespace |
| JsText.TrimEnd | src/pages/TourDetailPage.tsx:54 | the result is the prefix left before the trailing whitespace; everything dropped is whitespace, and the result does not end with whitespace |
| JsText.Trim | src/pages/TourDetailPage.tsx:63-65 | `trim()` is no longer than its input and has no whitespace at either end |
| JsText.TrimIsInnerSlice | src/pages/TourDetailPage.tsx:63-65 | `trim()` yields a contiguous slice of its input, with only whitespace around it |
| JsText.TrimEmptyIff | src/pages/TourDetailPage.tsx:54 | `!x.trim()` holds exactly when `x` is made only of whitespace |
| JsText.TrimIdempotent | src/pages/TourDetailPage.tsx:63-65 | trimming an already trimmed text changes nothing |
| JsNumber.DecimalString | src/pages/TourDetailPage.tsx:210 | `String(n)` is a non-empty run of decimal digits without a leading zero |
| JsNumber.DecimalStringValue | src/pages/TourDetailPage.tsx:210 | the digits of `String(n)` read back as `n` |
| JsNumber.DigitRun | src/pages/TourDetailPage.tsx:62 | the number of leading digits is the longest all-digit prefix, and it stops before a non-digit |
| JsNumber.ParseInt | src/pages/TourDetailPage.tsx:62 | `parseInt` of an empty or all-whitespace text is `NaN` |
| JsNumber.ParseIntDecimal | src/pages/TourDetailPage.tsx:62 | `parseInt` reads a decimal number back from its text, followed by any text that does not start with a digit (nor with `x`/`X` after `0`) |
| JsNumber.ParseFloat | src/pages/TourDetailPage.tsx:207 | `parseFloat` of an empty or all-whitespace text is `NaN` |
| JsNumber.ParseFloatDecimal | src/pages/TourDetailPage.tsx:82 | `parseFloat` of the text `0`, or of any whole number, gives that number |
| JsNumber.MathRound | src/pages/TourDetailPage.tsx:207 | `Math.round(x)` lies within half a unit of `x`, with halves rounded up |
| JsNumber.NearestTenthsBounds | src/pages/TourDetailPage.tsx:84 | the tenths shown by `toFixed(1)` lie within half a tenth of the exact quotient `sum / count`, and a tie goes to the larger tenth |
| JsNumber.NearestTenthsUnique | src/pages/TourDetailPage.tsx:84 | no other count of tenths meets that bound, so the rounding is determined |
| JsNumber.ToFixed1 | src/pages/TourDetailPage.tsx:84 | `toFixed(1)` prints a leading minus sign exactly for a negative value, then one or more decimal digits without a leading zero (except the single `0` of `0.x`), a point and exactly one digit after it |
| JsNumber.ToFixed1Parses | src/pages/TourDetailPage.tsx:84 | `parseFloat` reads the text printed by `toFixed(1)` back as the rounded tenths, with its sign |
| JsNumber.RoundTenths | src/pages/TourDetailPage.tsx:207 | `Math.round` of `t / 10` is `t` tenths rounded half up to a whole number |
| Backend.FetchList | src/lib/supabase.ts:14-25 | a list fetch throws exactly when the store reports an error, and the thrown error is that error; otherwise it gives the rows, or `[]` for `null` |
| Backend.FetchTourById | src/lib/supabase.ts:27-40 | `fetchTourById` gives "no tour" exactly on error code `PGRST116`, throws exactly on every other error (that error), and otherwise gives the row |
| Backend.CreateReview | src/lib/supabase.ts:71-83 | `createReview` gives the inserted row exactly when the store returns one, and otherwise throws the store's error |
| Rating.SumRatingsPrepend | src/pages/TourDetailPage.tsx:68 | putting a new review at the head of the list adds its rating to the `reduce` sum |
| Rating.SumRatings | src/pages/TourDetailPage.tsx:83 | with every rating between 1 and 5, the `reduce` sum lies between `count` and `5 * count` |
| Rating.AverageLabel | src/pages/TourDetailPage.tsx:81-85 | `calculateAverageRating()` shows `0` with no review, and otherwise `toFixed(1)` of the exact quotient `sum / count`: its sign, then its rounded tenths |
| Rating.RatingSummary | src/pages/TourDetailPage.tsx:210 | the text is the average's label, ` (`, the count of reviews in decimal, then ` reviews)` |
| Rating.RatingSummaryCount | src/pages/TourDetailPage.tsx:210 | the count in the rating text reads back as the number of reviews |
| Rating.AverageLabelParses | src/pages/TourDetailPage.tsx:81-85 | `parseFloat(calculateAverageRating())` is the average as shown: 0 with no review, otherwise the rounded tenths of `sum / count` |
| Rating.RenderStars | src/pages/TourDetailPage.tsx:87-96 | the star row has five slots; slot `i` is filled exactly when `i < rating`, so `rating` clamped to 0..5 slots are filled |
| Rating.AverageStars | src/pages/TourDetailPage.tsx:207 | `renderStars(Math.round(parseFloat(calculateAverageRating())))` is the star row of `Math.round` of the shown average, rounded from the exact quotient: the text round trip loses nothing |
| Rating.FilledPrefixRow | src/pages/TourDetailPage.tsx:88-92 | a row whose slot `i` is filled when `i < k` has `k` filled slots, clamped to the row's length |
| Rating.NearestTenthsBetween | src/pages/TourDetailPage.tsx:84 | an average between 1 and 5 is shown as between 1.0 and 5.0 |
| Rating.AverageTenthsInRange | src/pages/TourDetailPage.tsx:81-85 | with ratings from 1 to 5 and at least one review, the shown average is between 1.0 and 5.0 |
| Rating.AverageValueRounded | src/pages/TourDetailPage.tsx:207 | for a non-negative sum the shown average is its tenths over ten, and `Math.round` of it is those tenths rounded half up |
| Rating.AverageStarsRounded | src/pages/TourDetailPage.tsx:207 | the star row beside the average fills `Math.round` of the shown average, that is its tenths rounded half up |
| Rating.AverageStarsFilled | src/pages/TourDetailPage.tsx:206-211 | with ratings from 1 to 5 the star row fills between 1 and 5 slots: `Math.round` of the shown average |
| Rating.FiveReviewsExample | src/pages/TourDetailPage.tsx:206-211 | ratings 5, 5, 4, 3, 5 show `4.4 (5 reviews)` beside four filled stars |
| Rating.ThreeReviewsAndNoReviewExample | src/pages/TourDetailPage.tsx:81-85 | ratings 5, 4, 3 show `4.0`; no review shows `0` beside an empty star row |
| TourList.Featured | src/pages/HomePage.tsx:22 | `slice(0, 3)` keeps the first `min(3, n)` tours, in order |
| TourList.FeaturedEmptyIff | src/pages/index.tsx:134 | there is nothing to feature exactly when there is no tour |
| TourList.FeaturedInOrder | src/pages/HomePage.tsx:22 | each featured tour is the tour at the same position in the list |
| TourList.FeaturedIgnoresTail | src/pages/HomePage.tsx:22 | featuring is idempotent, and tours after the third do not change it |
| Home.FeaturedSection | src/pages/HomePage.tsx:109-117 | the featured section is the spinner exactly while loading; after that it is the grid of the featured tours, even an empty one |
| Home.AllToursSection | src/pages/HomePage.tsx:186-199 | the all-tours section is the spinner while loading, the grid of all tours when there is one, and otherwise the two-line notice |
| Home.HomePage.constructor | src/pages/HomePage.tsx:11-13 | the page starts with no tours, no featured tours and `loading` set |
| Home.HomePage.LoadTours | src/pages/HomePage.tsx:15-29 | after a load `loading` is false; on success `tours` is the fetched list and `featuredTours` is its first three tours; on failure both are unchanged and the toast "Failed to load tours" is raised; the featured tours stay the head of the list |
| Home.HomePage.Mount | src/pages/HomePage.tsx:11-32 | the first render shows two spinners; a failed load leaves both lists empty; an empty catalogue shows an empty featured grid and the two-line notice |
| Home.FeaturedCardsLeadAllCards | src/pages/HomePage.tsx:113-114 | after a load the featured cards are the first cards of the all-tours grid, at most three of them |
| NextHome.FeaturedSection | src/pages/index.tsx:132-144 | the featured section is the spinner while loading, the featured grid when it is not empty, and otherwise the one-line notice |
| NextHome.AllToursSection | src/pages/index.tsx:193-205 | the all-tours section is the spinner while loading, the grid when there are tours, and otherwise the two-line notice |
| NextHome.NextHomePage.constructor | src/pages/index.tsx:11-13 | the page starts with no tours, no featured tours and `loading` set |
| NextHome.NextHomePage.LoadTours | src/pages/index.tsx:15-28 | the same load as the single-page app, with the toast "Error al cargar los tours" |
| NextHome.NextHomePage.Mount | src/pages/index.tsx:11-31 | the first render shows two spinners; a failed or empty load shows the no-tours line in both sections |
| NextHome.NoticesAgree | src/pages/index.tsx:134-143 | once the featured tours are the list's head, the featured notice appears exactly when the all-tours notice appears, and both start with the same line |
| NextHome.DiffersFromSinglePageApp | src/pages/index.tsx:132-144 | the two copies render the same featured section except when loading is over and there is nothing to feature |
| TourDetail.CombineLoad | src/pages/TourDetailPage.tsx:29-39 | the joint fetch fails when either fetch throws; it is "not found" exactly when both settle and there is no tour; otherwise it carries the tour and its reviews |
| TourDetail.CurrentImage | src/pages/TourDetailPage.tsx:120-122 | the placeholder when the tour has no image; the image at the gallery index when the index is in range; `undefined` past the end |
| TourDetail.ReviewRequest | src/pages/TourDetailPage.tsx:61-66 | the posted record carries `parseInt` of the route id, the trimmed name, the selected rating and the trimmed comment |
| TourDetail.Render | src/pages/TourDetailPage.tsx:98-122 | the spinner exactly while loading; "Tour Not Found" exactly when loading is over with no tour; otherwise the tour with its current image, its star row and rating text, exactly the reviews in order, or the no-reviews line when there is none, and a submit button that reads "Submitting..." and is disabled while a submission is pending, and reads "Submit Review" otherwise |
| TourDetail.FormIncompleteIff | src/pages/TourDetailPage.tsx:54-57 | the form check rejects exactly a missing id, and a name or comment made only of whitespace |
| TourDetail.CompleteFormRequest | src/pages/TourDetailPage.tsx:54 | a record built from a form that passed the check has a non-empty name and comment with no whitespace at either end, which the check would accept again |
| TourDetail.RequestTourIdOfRoute | src/pages/TourDetailPage.tsx:62 | on a route that holds a tour's numeric id, the posted `tour_id` is that id |
| TourDetail.MissingTourRendersNotFound | src/pages/TourDetailPage.tsx:34-39 | whatever the reviews fetch settles to, a missing tour never counts as found, and with no tour the page shows "Tour Not Found" |
| TourDetail.SubmittedReviewListedFirst | src/pages/TourDetailPage.tsx:68 | after a successful submit the new review is listed first and the others follow in order; the rating text counts it and its rating joins the sum |
| TourDetail.TourDetailPage.constructor | src/pages/TourDetailPage.tsx:11-21 | the initial state: no tour, no review, loading, gallery index 0, empty name and comment, rating 5, no pending submission |
| TourDetail.TourDetailPage.LoadTourData | src/pages/TourDetailPage.tsx:23-49 | a missing id changes nothing, so `loading` stays true; otherwise `loading` ends false; found sets the tour and its reviews; not found and errors leave both as they were and raise "Tour not found" or "Failed to load tour details"; with no earlier tour, a missing tour renders "Tour Not Found" even when the reviews fetch failed; the form and gallery index are untouched |
| TourDetail.TourDetailPage.BeginReviewSubmit | src/pages/TourDetailPage.tsx:54-66 | an incomplete form raises "Please fill in all fields" and changes nothing; a complete one marks the submission pending and yields the record to post, whose rating the selector keeps between 1 and 5; the reviews and the form are untouched |
| TourDetail.TourDetailPage.FinishReviewSubmit | src/pages/TourDetailPage.tsx:67-78 | on success the reviews become `[newReview] + reviews`, and the form resets to an empty name and comment with rating 5; on failure the reviews and form stay as they were; either way the submission stops pending |
| TourDetail.TourDetailPage.HandleReviewSubmit | src/pages/TourDetailPage.tsx:51-79 | the whole handler: with an incomplete form, no record and no change; with a complete one, the record is built from the form as it was, then the success or failure state, and the submission is no longer pending |
| TourDetail.TourDetailPage.Mount | src/pages/TourDetailPage.tsx:10-49 | without an id the spinner stays; on error code `PGRST116` the page shows "Tour Not Found"; a found tour with its reviews renders with an image and those reviews |
| TourDetail.TourDetailPage.SelectImage | src/pages/TourDetailPage.tsx:148-168 | a gallery button sets the index to its position, and the main image becomes that image; the index stays in range |
| TourDetail.TourDetailPage.SetUserName | src/pages/TourDetailPage.tsx:265 | typing sets the name and nothing else |
| TourDetail.TourDetailPage.SetRating | src/pages/TourDetailPage.tsx:275-286 | a selector option from 1 to 5 sets the rating and nothing else |
| TourDetail.TourDetailPage.SetComment | src/pages/TourDetailPage.tsx:296 | typing sets the comment and nothing else |

## Left out

- The hosted store and its client (src/lib/supabase.ts): the network, the environment variables and the query builder. A page receives what a call settled to (`Backend.ListResponse`, `Backend.SingleResponse`, `Types.Outcome`).
- `createTour` (src/lib/supabase.ts:42-54): no page of this model calls it.
- Asynchrony. Each handler is one atomic step. The review submit is split at its one `await`: `BeginReviewSubmit` and then `FinishReviewSubmit`. This makes the pending submission visible between the two steps. `Promise.all` ordering and which of two rejections is reported are not modelled; either rejection leads to the same branch.
- React scheduling, updates that arrive after unmount, and effects that re-run. The route id is fixed for a mounted page (`TourDetail.TourDetailPage.id`).
- TourDetail.TourDetailPage.LoadTourData: it promises an in-range gallery index only when the index was still 0 before the load. A second load with another tour after an image was selected could leave the index past the new tour's last image. A mounted page loads once, so this cannot happen.
- Toasts and `console.error` are not side effects here. A toast is returned as a value, and logging is not modelled.
- Floating point. Ratings are whole numbers. The average is computed exactly and shown in rounded tenths, not by IEEE division. On a tie in tenths this shows a different value from the browser: 20 reviews summing to 29 give the double 1.4499999999999999555…, which the page prints as `1.4` with one star filled, while the model prints `1.5` with two. `parseFloat` is modelled without exponents or `Infinity`. `parseInt` is modelled for radixes 10 and 16, and `NaN` is `None`. Integers are unbounded, so numbers beyond 2^53 behave exactly.
- Number formatting other than the average: the price (`toFixed(0)`) and `toLocaleDateString` on review dates.
- Markup with no logic: the hero, "why choose us" and call-to-action sections, the breadcrumb, the sidebar, the included-items list and the duration line.
- src/components/TourCard.tsx, src/components/ReviewCard.tsx, src/components/Navbar.tsx, src/components/Footer.tsx, src/App.tsx, src/pages/_app.tsx and src/pages/tours/[id].tsx are not part of this model. Their star and first-image logic repeats what `Rating.RenderStars` and `TourDetail.CurrentImage` model.
- Types.Tour: `price` is a real number, and `duration` and `includes` are optional.

When the tour is missing and the reviews fetch throws, `Promise.all` rejects, and the page raises "Failed to load tour details" rather than "Tour not found". The tour stays absent, so the page still renders "Tour Not Found" (`TourDetail.CombineLoad`, `TourDetail.TourDetailPage.LoadTourData`).
