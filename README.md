# Product catalog service — a Dafny model

This project models the core of a small product-catalog backend written in Go. The backend has five service
operations:

- **create a product.** The payload is checked, the category must exist, and the SKU must be unused.
- **update a product.** Only SKU, title, description and category change.
- **fetch one product.** It is returned joined with its category name.
- **list products.** A paging filter is checked and normalized, and the page becomes a limit/offset query.
- **review a product.** The rating must be 1..5. The review is stored, and the product's displayed rating is
  refreshed with the incremental-mean formula from the review statistic read before the insert.

Every failure is an `error` built by the error helper. That helper joins messages (`"msg: cause"`) and attaches an
HTTP status code: 400 for bad input or a missing prerequisite, 404 for a missing product, 500 for a failing
repository. `GetCode` reads the code back from the outermost error only.

The model has these modules:

- **`ErrorHelper`** (`errorhelper.dfy`). The Go `error` values this package builds, their text, and code classification.
- **`Request`** (`request.dfy`). The review check and the list filter. The filter is a class because its `Validate`
  updates it in place through a pointer receiver.
- **`Schema`** (`schema.dfy`). The API product and its create and update presence checks, as a chain of
  first-failure checks.
- **`Model`**, **`Response`** (`model.dfy`, `response.dfy`). The repository rows and the mutation response.
- **`ReviewStats`** (`reviewstats.dfy`). Sums, means and the review statistic. It proves that the incremental
  formula is exact and stays within 1..5.
- **`Adapter`** (`adapter.dfy`). The three repository interfaces, served by one `Store` class. The store holds the
  product, category and review tables, a map of injected faults, and a log of every call. A read answers `Ok`,
  `NoRows` (`sql.ErrNoRows`) or `Fail` (any other error):
  - `Ok` or `NoRows` follows from the tables.
  - `Fail` comes from the fault map, so every error branch of the service is reachable.
- **`Service`** (`service.dfy`). The service class. Each method's postcondition gives, branch by branch in the order
  the source tests them, three things:
  - the exact error value;
  - the exact sequence of repository calls made;
  - the exact new store contents.

  Each method also keeps the store's invariants:
  - referential integrity;
  - SKU uniqueness, except through an update;
  - every displayed rating being the mean of its reviews. This one is kept on every branch except a failed
    rating update in `ReviewProduct`. That branch has already stored the review and leaves the rating stale
    (`Service.FailedRatingUpdateLeavesStaleRating`), which is how the source behaves.

Go's `int64` matters in one place: the list offset `(page - 1) * size`. It is computed with 64-bit wrap-around
(`GoInts.Wrap64`). Elsewhere ids, prices and weights are unbounded integers. The float ratings are reals.

## Model

| member | source | states |
|---|---|---|
| ErrorHelper.Message | internal/util/errorhelper/errorhelper.go:14-16 | `err.Error()`, with the `"%w: %w"` joins of lines 26 and 42: a joined error's text starts with its head's text and `": "`, and a coded error prints its cause's text; `CodedMessage` and the ensures of `Wrap`/`WrapWithCode` state the full texts |
| ErrorHelper.CodedMessage | internal/util/errorhelper/errorhelper.go:9-16 | a coded error prints exactly its cause's text and classifies as its code |
| ErrorHelper.New | internal/util/errorhelper/errorhelper.go:18-20 | the error's text is the message and it classifies as 200 (no code) |
| ErrorHelper.Wrap | internal/util/errorhelper/errorhelper.go:22-27 | nil wraps to `New(msg)`; otherwise the text is `msg + ": " + cause`, and the result never carries a code |
| ErrorHelper.NewWithCode | internal/util/errorhelper/errorhelper.go:29-34 | text is the message and `GetCode` returns the given code |
| ErrorHelper.WrapWithCode | internal/util/errorhelper/errorhelper.go:36-44 | nil wraps to `NewWithCode(msg, code)`; otherwise the text is `msg + ": " + cause`; always classifies as `code` |
| ErrorHelper.GetCode | internal/util/errorhelper/errorhelper.go:46-52 | nil gives 200, and any code other than 200 is the code of the outermost coded error |
| ErrorHelper.OuterCodeWins | internal/util/errorhelper/errorhelper.go:36-52 | re-wrapping a coded error with a new code yields the new code, whatever the inner one was |
| ErrorHelper.WrapHidesCode | internal/util/errorhelper/errorhelper.go:22-27 | plain `Wrap` around a coded error classifies as 200, losing the inner code |
| Request.ValidateReview | internal/api/request.go:19-24 | passes exactly when the rating is in 1..5; otherwise the error is "invalid rating range" |
| Request.FilterError | internal/api/request.go:26-32 | no error exactly when sort type is "", "asc" or "desc" and sort column is "", "created_at" or "rating"; a bad sort type is reported before a bad sort column |
| Request.Normalize | internal/api/request.go:33-38 | page and size end up at least 1; a non-positive page becomes 1 and a non-positive size 10; every other field and every positive value is kept |
| Request.NormalizeIdempotent | internal/api/request.go:26-40 | normalizing twice equals normalizing once, and normalizing does not change the check's verdict |
| Request.NormalizeFixedPoint | internal/api/request.go:33-38 | the filter is unchanged by normalization if and only if page and size are already positive |
| Request.GetProductListFilter.Validate | internal/api/request.go:26-40 | returns the filter's error; on error the filter is unchanged, on success it holds the normalized value |
| Request.ValidateTwice | internal/api/request.go:26-40 | validating an accepted filter a second time returns nil and leaves it normalized; a rejected filter is rejected again unchanged |
| Schema.FirstFailureMeaning | internal/api/schema.go:22-60 | a chain of checks passes if and only if every check passes; otherwise some check fails, all before it pass, and its message is the error |
| Schema.FirstFailureStep | internal/api/schema.go:22-43 | a passing head check hands over to the rest; a failing head names the error |
| Schema.ValidateCreate | internal/api/schema.go:22-43 | passes if and only if SKU, title, description and image URL are non-empty and category id and price are non-zero |
| Schema.ValidateUpdate | internal/api/schema.go:45-60 | passes if and only if SKU, title, description are non-empty and the category id is non-zero |
| Schema.ValidateCreateIsChain | internal/api/schema.go:22-43 | the create check equals the first failure of its six checks, in source order (SKU, title, description, image URL, category, price) |
| Schema.ValidateUpdateIsChain | internal/api/schema.go:45-60 | the update check equals the first failure of its four checks, in source order |
| Schema.CreateImpliesUpdate | internal/api/schema.go:22-60 | every payload the create check accepts passes the update check |
| Schema.UpdateDoesNotImplyCreate | internal/api/schema.go:32-34 | a payload without image URL and price passes the update check but fails creation with "empty image url" |
| Schema.NegativeIdAndPricePass | internal/api/schema.go:35-40 | the zero checks are `== 0`: a negative category id and a negative price are accepted by both checks |
| Schema.UpdateReadsOnly | internal/api/schema.go:45-60 | two payloads agreeing on SKU, title, description and category id get the same update verdict |
| Schema.CreateReadsOnly | internal/api/schema.go:22-43 | the create verdict ignores id, weight, rating and category name |
| ReviewStats.StatisticOf | internal/repository/repository.go:266-285 | the statistic's count is the number of the product's reviews and its average their mean |
| ReviewStats.NextRating | internal/service/service.go:218 | with no earlier reviews the new rating is the submitted rating |
| ReviewStats.SumAppend | internal/service/service.go:218 | the sum of a sequence with one more element is the old sum plus that element |
| ReviewStats.RatingsOfAppend | internal/repository/repository.go:253-285 | inserting a review adds its rating to its own product's ratings and leaves every other product's ratings unchanged |
| ReviewStats.RatingsOfAbsent | internal/repository/repository.go:266-285 | a product no review refers to has no ratings |
| ReviewStats.RatingsOfInRange | internal/repository/repository.go:266-285 | ratings drawn from reviews rated 1..5 lie in 1..5 |
| ReviewStats.IncrementalMean | internal/service/service.go:218 | `(count * average + r) / (count + 1)` over the statistic of `s` is exactly the mean of `s` with `r` appended |
| ReviewStats.NextRatingIsMeanAfterInsert | internal/service/service.go:203-218 | the formula fed the statistic read before the insert equals the mean of the product's ratings after the insert |
| ReviewStats.NextRatingExample | internal/service/service.go:218 | ten reviews averaging 3 and a new 4 give 34/11; a first review of 5 gives 5 |
| ReviewStats.SumBounds | internal/service/service.go:218 | values in `lo..hi` sum to between `lo * n` and `hi * n` |
| ReviewStats.MeanBounds | internal/service/service.go:218 | the mean of a non-empty sequence of ratings in 1..5 lies in 1..5 |
| ReviewStats.NumeratorBounds | internal/service/service.go:218 | the formula's numerator lies between its denominator and five times its denominator |
| ReviewStats.NextRatingBounds | internal/service/service.go:218 | a rating in 1..5 and a previous average in 1..5 (or no reviews) give a new rating in 1..5 |
| Adapter.Outcome.Err | internal/adapter/interface.go:8-24 | an answer carries a nil error exactly when it is a row (`Ok`); `NoRows` carries `sql.ErrNoRows`; a failure carries its cause |
| Adapter.JoinedRow | internal/repository/repository.go:28-65 | a fetched row equals the stored row in every field except the category, whose id is kept and whose name comes from the categories table |
| Adapter.UpdatedRows | internal/repository/repository.go:198-215 | an update keeps the same set of ids and changes no row except `id`; row `id` gets the new SKU, title, description and category, and every other column of it (image URL, weight, price, rating, creation time) stays as it was |
| Adapter.UpdateCanDuplicateSku | internal/repository/repository.go:198-215 | the update statement can give two rows the same SKU, breaking uniqueness |
| Adapter.Store.constructor | internal/repository/repository.go:12-26 | a new store has no products and no reviews, holds the given categories, listing and fault map, satisfies every invariant and has logged no call |
| Adapter.Store.GetProduct | internal/repository/repository.go:28-65 | logs the call; answers the failure if injected, the joined row when the product and its category exist, else no rows |
| Adapter.Store.GetProductBySku | internal/repository/repository.go:67-104 | logs the call; answers the failure if injected, some stored row with that SKU and an existing category (joined with its category) when one exists, else no rows |
| Adapter.Store.GetProductList | internal/repository/repository.go:106-173 | logs the query and answers the database's rows or the injected failure |
| Adapter.Store.InsertProduct | internal/repository/repository.go:175-196 | logs the call; on success the row is stored under the next id and the next id advances; on failure nothing changes |
| Adapter.Store.UpdateProduct | internal/repository/repository.go:198-215 | logs the call; on success row `id` gets the new SKU, title, description and category, and nothing else changes |
| Adapter.Store.UpdateProductRating | internal/repository/repository.go:217-231 | logs the call; on success only product `id`'s rating changes |
| Adapter.Store.GetCategory | internal/repository/repository.go:233-251 | logs the call; answers the category, no rows, or the injected failure |
| Adapter.Store.InsertReview | internal/repository/repository.go:253-264 | logs the call; on success the review is appended and nothing else changes |
| Adapter.Store.GetReviewStatistic | internal/repository/repository.go:266-285 | logs the call; a product without reviews has no row (the query groups by product); otherwise count and mean of its ratings |
| Service.InsertRow | internal/service/service.go:62-74 | the inserted row carries the request's SKU, title, description, category id, image URL, weight and price, rating 0 and the current time |
| Service.ToApi | internal/service/service.go:131-144 | the API view of a row (also built at lines 167-180) carries the row's id, SKU, title, description, image URL, weight, price, rating and its category's id and name; partner `ToApiForgetsOnlyCreatedAt`: two rows have the same view exactly when they differ at most in creation time |
| Service.UpdateRow | internal/service/service.go:101-108 | the row passed to the update carries the request's SKU, title, description and category id; partner `UpdateKeepsInvariants`, and `Adapter.UpdatedRows` writes only those four columns |
| Service.ListQuery | internal/service/service.go:152-159 | the repository filter carries the checked filter's search, category and sort, limit = size, and offset = `(page - 1) * size` when that fits in `int64`; partners `ListQueryPaging`, `ConsecutivePages`, `EmptyFilterQuery`, `OffsetOverflow` |
| Service.ToApiForgetsOnlyCreatedAt | internal/service/service.go:131-144 | two rows have the same API view if and only if they differ at most in creation time |
| Service.CreateThenGet | internal/service/service.go:62-74 | a created product read back shows the request's fields, its stored id, its category's name and rating 0 |
| Service.ListQueryPaging | internal/service/service.go:152-159 | after normalization, without overflow, the limit is the size (at least 1) and the offset `(page - 1) * size` is non-negative; search, category and sort pass through |
| Service.ConsecutivePages | internal/service/service.go:152-159 | the next page's offset is exactly `size` rows further |
| Service.EmptyFilterQuery | internal/service/service.go:147-159 | an empty filter queries the first 10 rows, unfiltered and unsorted |
| Service.OffsetOverflow | internal/service/service.go:158 | the `int64` offset wraps: page 2^62+1 with size 2 gives the most negative offset |
| Service.ReviewRow | internal/service/service.go:208-213 | the reviewer id lies in 0..777776, and the product id, rating and comment are the request's |
| Service.CreateKeepsInvariants | internal/service/service.go:62-74 | inserting a row with an existing category keeps the invariant; rating 0 keeps ratings equal to the (empty) mean; a SKU nobody has keeps SKUs unique |
| Service.UpdateKeepsInvariants | internal/service/service.go:101-108 | an update to an existing category keeps the invariant and leaves every rating equal to its mean |
| Service.ReviewKeepsInvariants | internal/service/service.go:208-220 | storing a valid review of an existing product, then any rating, keeps the invariant and SKU uniqueness |
| Service.ReviewKeepsRatings | internal/service/service.go:203-220 | writing the formula's rating after the insert keeps every product's rating equal to the mean of its reviews |
| Service.FailedRatingUpdateLeavesStaleRating | internal/service/service.go:208-222 | once a product's first review is stored, a rating update that fails leaves its rating no longer equal to the mean of its reviews |
| Service.RatingUpdateFindsRow | internal/service/service.go:195-221 | after the product lookup found the row, the rating update after the review insert never answers "no rows" |
| Service.LostUpdate | internal/service/service.go:203-223 | two first reviews 1 and 5 that both read the empty statistic before either insert are both stored, and the later write leaves rating 5 although their mean is 3 |
| Service.RatingInRange | internal/service/service.go:218-220 | in a store whose ratings match their reviews every rating is 0 or lies in 1..5 |
| Service.Service.constructor | internal/service/service.go:29-39 | the service holds the store it is given |
| Service.Service.CreateProduct | internal/service/service.go:41-82 | payload error → 400 "invalid request payload: …" with no call; category failure → 500; missing category → 400 "category not found"; SKU lookup failure → 500; SKU taken → 400 "sku already exist"; insert failure → 500; otherwise success with the row inserted; the calls made and new tables given per branch; invariants kept |
| Service.Service.UpdateProduct | internal/service/service.go:84-116 | id ≤ 0 → 400 "invalid id"; payload error → 400; category failure → 500; missing category → 400; update failure → 500; otherwise success, also for an id without a row; calls and tables per branch; invariants kept |
| Service.Service.GetProduct | internal/service/service.go:118-145 | id ≤ 0 → 400 without a call; lookup failure → 500; no row → 404 "product not found"; otherwise the row's API view; the tables never change |
| Service.Service.GetProductList | internal/service/service.go:147-184 | filter error → 400 "invalid request: …" without a call; otherwise one list query with the normalized paging; failure → 500 and nil; success → a fresh array with the API view of every row, in order |
| Service.Service.ReviewProduct | internal/service/service.go:186-229 | id ≤ 0 → 400; bad rating → 400; product lookup failure → 500; missing product → 404; statistic failure → 500; insert failure → 500 with nothing stored; rating-update failure → 500 with the review stored; otherwise review stored and rating set to the incremental mean; calls per branch; consistency and SKU uniqueness kept on every branch; rating-equals-mean kept on every branch except a failed rating update, which stores the review and leaves the rating stale |

## Left out

- SQL text is not modelled: search, category filtering, sorting, limit and offset are applied by the database.
  The list port answers the store's `listing` rows whatever the query says. The model records the query the
  service sends.
- HTTP handling, the controller, `main` and the mocks are not part of this model.
- `context.Context` arguments are dropped; cancellation and deadlines are not modelled.
- Calls run one at a time. There is no concurrency. `Service.LostUpdate` shows the lost update two
  interleaved review submissions on one product would cause.
- `time.Now()` becomes a parameter `now`. `rand.Int()` becomes a parameter `seed`, and the reviewer id is
  `seed % 777777`.
- `float32`/`float64` ratings and averages are exact reals. Rounding, and narrowing the `float64` rating to the
  `float32` field it is read back into, are not modelled.
- Ids, weights and prices are unbounded integers. Only the paging values use `int64`, because the offset
  arithmetic is where the source's width shows.
- The three repository interfaces are served by one store over one set of tables. The production wiring
  builds three repository values over one database handle.
- The stored creation time: the model stores the service's `now` with the row, whereas the insert statement
  names no `created_at` column and the database sets that value. Nothing observable depends on it, because
  the API view drops the creation time.
- SKU lookup compares SKUs by exact string equality. The database compares under the table's collation,
  which the source does not fix; a case-insensitive collation would also find a SKU differing only in case.
- Review ids assigned by the database are not modelled. A stored review keeps id 0.
- Both update ports answer "no rows" for an absent id, whereas a real `Exec` returns nil. `UpdateProduct`
  treats nil and "no rows" alike, so its behaviour is the same. `ReviewProduct` checks the rating update
  with a bare `err != nil`, but it reaches that update only after the product lookup found the row, so the
  rating update never answers "no rows" there (`Service.RatingUpdateFindsRow`).
- An injected fault is a `Fail` even when its text equals that of `sql.ErrNoRows`. The service compares with
  `sql.ErrNoRows` by identity, so such an error is classified as an internal failure. The "not found"
  answer is `NoRows`, which the store derives from its tables.
- Adapter.Store.GetProductBySku: it does not say which row answers when several rows share a SKU. Any matching
  row may answer, as for a query without `ORDER BY`.
- The error values 400, 404 and 500 stand for the validation, not-found and internal error kinds. The duplicate
  SKU message follows the code, "sku already exist", not "sku already exists".
