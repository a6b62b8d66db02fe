/**
 * The catalog service: create, update, fetch and list products, and submit
 * reviews. Each operation validates its input, looks up what must already
 * exist, then writes, and classifies every failure with a status code:
 * 400 for bad input or a missing prerequisite, 404 for a missing product,
 * 500 for a failing repository.
 */
module Service {

  import opened Wrappers
  import opened GoInts
  import opened ErrorHelper
  import opened Response
  import opened Adapter
  import Model
  import Schema
  import Request
  import ReviewStats

  /** Reviewer ids are `rand.Int() % 777777`; the random draw is a parameter. */
  const ReviewerIdRange := 777777

  /** The statistic Go's zero value gives when the statistic query finds no row. */
  const ZeroStatistic := Model.Statistic(0, 0.0)

  /** The row `CreateProduct` inserts: the request's fields, rating 0, created `now`. */
  function InsertRow(req: Schema.Product, now: int): (row: Model.Product)
    ensures row.rating == 0.0 && row.createdAt == now
    ensures row.sku == req.sku && row.title == req.title && row.description == req.description
    ensures row.category.id == req.category.id
    ensures row.imageUrl == req.imageUrl && row.weight == req.weight && row.price == req.price
  {
    Model.Product(0, req.sku, req.title, req.description, Model.Category(req.category.id, ""),
                  req.imageUrl, req.weight, req.price, 0.0, now)
  }

  /** The row `UpdateProduct` passes on: only SKU, title, description and category id are set. */
  function UpdateRow(req: Schema.Product): (row: Model.Product)
    ensures row.sku == req.sku && row.title == req.title && row.description == req.description
    ensures row.category.id == req.category.id
  {
    Model.Product(0, req.sku, req.title, req.description, Model.Category(req.category.id, ""),
                  "", 0, 0, 0.0, 0)
  }

  /** The API view of a product row: every field except the creation time. */
  function ToApi(p: Model.Product): (v: Schema.Product)
    ensures v.id == p.id && v.sku == p.sku && v.rating == p.rating
    ensures v.title == p.title && v.description == p.description
    ensures v.imageUrl == p.imageUrl && v.weight == p.weight && v.price == p.price
    ensures v.category == Schema.Category(p.category.id, p.category.name)
  {
    Schema.Product(p.id, p.sku, p.title, p.description, Schema.Category(p.category.id, p.category.name),
                   p.imageUrl, p.weight, p.price, p.rating)
  }

  /** The API view loses exactly the creation time. */
  lemma ToApiForgetsOnlyCreatedAt(a: Model.Product, b: Model.Product)
    ensures ToApi(a) == ToApi(b) <==> a == b.(createdAt := a.createdAt)
  {
  }

  /**
   * A created product, read back joined with its category, shows the
   * request's fields, the id it was stored under, its category's name and
   * rating 0, whatever id, rating or category name the request carried.
   */
  lemma CreateThenGet(req: Schema.Product, now: int, id: int, name: string)
    ensures ToApi(InsertRow(req, now).(id := id, category := Model.Category(req.category.id, name)))
         == req.(id := id, rating := 0.0, category := Schema.Category(req.category.id, name))
  {
  }

  /** The repository query of a checked filter: limit is the size, offset skips the earlier pages. */
  function ListQuery(f: Request.ListFilter): (q: Model.GetProductListFilter)
    ensures q.limit == f.size
    ensures q.search == f.search && q.categoryId == f.categoryId
    ensures q.sortColumn == f.sortColumn && q.sortType == f.sortType
    ensures MinInt64 <= (f.page - 1) * f.size <= MaxInt64 ==> q.offset == (f.page - 1) * f.size
  {
    Model.GetProductListFilter(f.search, f.categoryId, f.sortColumn, f.sortType,
                               f.size, Wrap64((f.page - 1) * f.size))
  }

  lemma NonNegativeProduct(a: int, b: int)
    requires a >= 0 && b >= 0
    ensures a * b >= 0
  {
  }

  /** Without overflow the offset is `(page - 1) * size`, never negative after normalization. */
  lemma ListQueryPaging(f: Request.ListFilter)
    requires (Request.Normalize(f).page - 1) * Request.Normalize(f).size <= MaxInt64
    ensures var g := Request.Normalize(f); var q := ListQuery(g);
      q.limit == g.size >= 1 && q.offset == (g.page - 1) * g.size >= 0
    ensures ListQuery(Request.Normalize(f)).search == f.search
    ensures ListQuery(Request.Normalize(f)).categoryId == f.categoryId
    ensures ListQuery(Request.Normalize(f)).sortColumn == f.sortColumn
    ensures ListQuery(Request.Normalize(f)).sortType == f.sortType
  {
    var g := Request.Normalize(f);
    NonNegativeProduct(g.page - 1, g.size);
  }

  /** Consecutive pages are adjacent windows: the next page starts `size` rows later. */
  lemma ConsecutivePages(f: Request.ListFilter)
    requires 1 <= f.page < MaxInt64 && f.size >= 1 && f.page * f.size <= MaxInt64
    ensures ListQuery(f.(page := f.page + 1)).offset == ListQuery(f).offset + f.size
  {
    var x := (f.page - 1) * f.size;
    assert x + f.size == f.page * f.size;
    NonNegativeProduct(f.page - 1, f.size);
    assert Wrap64(x) == x;
    assert Wrap64(f.page * f.size) == f.page * f.size;
  }

  /** An empty filter asks for the first ten rows, unfiltered and unsorted. */
  lemma EmptyFilterQuery()
    ensures ListQuery(Request.Normalize(Request.EmptyFilter)) == Model.GetProductListFilter("", 0, "", "", 10, 0)
  {
  }

  /** The offset is computed in `int64`: a huge page wraps it around to a negative value. */
  lemma OffsetOverflow()
    ensures var f := Request.ListFilter("", 0, "", "", 0x4000_0000_0000_0001, 2);
      Request.FilterError(f).None? && ListQuery(Request.Normalize(f)).offset == MinInt64
  {
  }

  /** The review row `ReviewProduct` inserts. */
  function ReviewRow(productId: int, req: Request.ReviewProductRequest, seed: nat): (r: Model.ProductReview)
    ensures 0 <= r.userId < ReviewerIdRange
    ensures r.productId == productId && r.rating == req.rating && r.comment == req.comment
  {
    Model.ProductReview(0, seed % ReviewerIdRange, productId, req.rating, req.comment)
  }

  /**
   * Creating a product keeps the store's invariants: its category exists,
   * its fresh id has no reviews so rating 0 is their mean, and a SKU nobody
   * has stays unique.
   */
  lemma CreateKeepsInvariants(s: Snapshot, row: Model.Product)
    requires Consistent(s)
    requires row.category.id in s.categories
    ensures Consistent(Inserted(s, row))
    ensures RatingsMatchReviews(s.products, s.reviews) && row.rating == 0.0
        ==> RatingsMatchReviews(Inserted(s, row).products, s.reviews)
    ensures SkusUnique(s.products) && (forall id :: id in s.products ==> s.products[id].sku != row.sku)
        ==> SkusUnique(Inserted(s, row).products)
  {
    ReviewStats.RatingsOfAbsent(s.reviews, s.nextProductId);
  }

  /** Updating a product to an existing category keeps the invariants; its rating is untouched. */
  lemma UpdateKeepsInvariants(s: Snapshot, id: int, row: Model.Product)
    requires Consistent(s)
    requires row.category.id in s.categories
    ensures Consistent(Updated(s, id, row))
    ensures RatingsMatchReviews(s.products, s.reviews)
        ==> RatingsMatchReviews(Updated(s, id, row).products, s.reviews)
  {
  }

  /**
   * Storing a validated review of an existing product keeps the invariants,
   * whatever rating is then written.
   */
  lemma ReviewKeepsInvariants(s: Snapshot, review: Model.ProductReview, rating: real)
    requires Consistent(s)
    requires review.productId in s.products && 1 <= review.rating <= 5
    ensures Consistent(WithReview(s, review))
    ensures Consistent(Rated(WithReview(s, review), review.productId, rating))
    ensures SkusUnique(s.products) ==> SkusUnique(Rated(WithReview(s, review), review.productId, rating).products)
  {
  }

  /**
   * Writing the incremental mean of the statistic read before the insert
   * keeps every rating equal to the mean of its product's reviews.
   */
  lemma ReviewKeepsRatings(s: Snapshot, review: Model.ProductReview, rating: real)
    requires review.productId in s.products
    requires rating == ReviewStats.NextRating(ReviewStats.StatisticOf(s.reviews, review.productId), review.rating)
    requires RatingsMatchReviews(s.products, s.reviews)
    ensures RatingsMatchReviews(Rated(WithReview(s, review), review.productId, rating).products, s.reviews + [review])
  {
    var pid := review.productId;
    var t := Rated(WithReview(s, review), pid, rating);
    ReviewStats.NextRatingIsMeanAfterInsert(s.reviews, review);
    forall q | q in t.products
      ensures t.products[q].rating == ReviewStats.Mean(ReviewStats.RatingsOf(s.reviews + [review], q))
    {
      ReviewStats.RatingsOfAppend(s.reviews, review, q);
      if q != pid {
        assert ReviewStats.RatingsOf(s.reviews, q) + [] == ReviewStats.RatingsOf(s.reviews, q);
      }
    }
  }

  /**
   * A failed rating update leaves the stored review behind: the review is
   * in the table but the product's rating is the old one, so ratings no
   * longer match their reviews until the next successful review.
   */
  lemma FailedRatingUpdateLeavesStaleRating(s: Snapshot, review: Model.ProductReview)
    requires review.productId in s.products && RatingsMatchReviews(s.products, s.reviews)
    requires ReviewStats.RatingsOf(s.reviews, review.productId) == [] && review.rating != 0
    ensures !RatingsMatchReviews(WithReview(s, review).products, WithReview(s, review).reviews)
  {
    var pid := review.productId;
    ReviewStats.RatingsOfAppend(s.reviews, review, pid);
    assert ReviewStats.RatingsOf(s.reviews + [review], pid) == [review.rating];
    assert ReviewStats.Sum([review.rating]) == review.rating;
  }

  /**
   * The rating update in `ReviewProduct` never answers "no rows": the
   * product lookup before it found the row, and inserting a review keeps it.
   */
  lemma RatingUpdateFindsRow(s: Snapshot, id: int, review: Model.ProductReview)
    requires ProductOutcome(s, id).Ok?
    ensures !RowOutcome(WithReview(s, review), UpdateProductRatingPort, id).NoRows?
  {
  }

  /**
   * The rating update is not atomic. Two first reviews of a product, rated
   * 1 and 5, that both read the empty statistic before either is inserted,
   * are both stored; the later write leaves rating 5, although the two
   * reviews average 3.
   */
  lemma LostUpdate(s: Snapshot, pid: int, first: Model.ProductReview, second: Model.ProductReview)
    requires pid in s.products && ReviewStats.RatingsOf(s.reviews, pid) == []
    requires first.productId == pid && first.rating == 1
    requires second.productId == pid && second.rating == 5
    ensures var stale := ReviewStats.StatisticOf(s.reviews, pid);
      var stored := WithReview(WithReview(s, first), second);
      var after := Rated(Rated(stored, pid, ReviewStats.NextRating(stale, first.rating)),
                         pid, ReviewStats.NextRating(stale, second.rating));
      after.products[pid].rating == 5.0
      && ReviewStats.Mean(ReviewStats.RatingsOf(after.reviews, pid)) == 3.0
  {
    ReviewStats.RatingsOfAppend(s.reviews, first, pid);
    ReviewStats.RatingsOfAppend(s.reviews + [first], second, pid);
    assert ReviewStats.RatingsOf(s.reviews + [first] + [second], pid) == [1, 5];
    assert ReviewStats.Sum([1, 5]) == 6 by {
      assert [1, 5][1..] == [5];
      assert [5][1..] == [];
    }
  }

  /** In a consistent store every displayed rating is 0 (no reviews yet) or lies in 1..5. */
  lemma RatingInRange(s: Snapshot, id: int)
    requires Consistent(s) && RatingsMatchReviews(s.products, s.reviews)
    requires id in s.products
    ensures s.products[id].rating == 0.0 || 1.0 <= s.products[id].rating <= 5.0
  {
    var rs := ReviewStats.RatingsOf(s.reviews, id);
    if |rs| > 0 {
      ReviewStats.RatingsOfInRange(s.reviews, id);
      ReviewStats.MeanBounds(rs);
    }
  }

  class Service {
    const store: Store

    constructor (store: Store)
      ensures this.store == store
    {
      this.store := store;
    }

    method CreateProduct(req: Schema.Product, now: int) returns (resp: MutationResponse, err: Option<Error>)
      requires store.Valid()
      modifies store
      ensures store.Valid()
      ensures resp.success <==> err.None?
      ensures err.None? <==> GetCode(err) == StatusOK
      ensures SkusUnique(old(store.State()).products) ==> SkusUnique(store.State().products)
      ensures RatingsMatchReviews(old(store.State()).products, old(store.State()).reviews) ==> RatingsMatchReviews(store.State().products, store.State().reviews)
      ensures
        var st := old(store.State());
        var v := Schema.ValidateCreate(req);
        var cat := CategoryOutcome(st, req.category.id);
        var sku := SkuOutcome(st, req.sku);
        var row := InsertRow(req, now);
        var before := old(store.calls);
        var looked := before + [GetCategoryCall(req.category.id)];
        var looked2 := looked + [GetProductBySkuCall(req.sku)];
        if v.Some? then
          err == Some(WrapWithCode(v, "invalid request payload", StatusBadRequest))
          && store.calls == before && store.State() == st
        else if cat.Fail? then
          err == Some(WrapWithCode(Some(cat.cause), "error when get category", StatusInternalServerError))
          && store.calls == looked && store.State() == st
        else if cat.NoRows? then
          err == Some(NewWithCode("category not found", StatusBadRequest))
          && store.calls == looked && store.State() == st
        else if sku.Fail? then
          err == Some(WrapWithCode(Some(sku.cause), "error when get product by sku", StatusInternalServerError))
          && store.calls == looked2 && store.State() == st
        else if sku.Ok? then
          err == Some(NewWithCode("sku already exist", StatusBadRequest))
          && store.calls == looked2 && store.State() == st
        else if InsertProductPort in st.faults then
          err == Some(WrapWithCode(Some(st.faults[InsertProductPort]), "error when insert product", StatusInternalServerError))
          && store.calls == looked2 + [InsertProductCall(row)] && store.State() == st
        else
          err.None?
          && store.calls == looked2 + [InsertProductCall(row)]
          && store.State() == Inserted(st, row)
    {
      var verr := Schema.ValidateCreate(req);
      if verr.Some? {
        return Failed, Some(WrapWithCode(verr, "invalid request payload", StatusBadRequest));
      }

      var cat := store.GetCategory(req.category.id);
      if cat.Fail? {
        return Failed, Some(WrapWithCode(cat.Err(), "error when get category", StatusInternalServerError));
      }
      if cat.NoRows? {
        return Failed, Some(NewWithCode("category not found", StatusBadRequest));
      }

      var found := store.GetProductBySku(req.sku);
      if found.Fail? {
        return Failed, Some(WrapWithCode(found.Err(), "error when get product by sku", StatusInternalServerError));
      }
      if found.Ok? {
        return Failed, Some(NewWithCode("sku already exist", StatusBadRequest));
      }

      ghost var st := store.State();
      var ins := store.InsertProduct(InsertRow(req, now));
      if ins.Err().Some? {
        return Failed, Some(WrapWithCode(ins.Err(), "error when insert product", StatusInternalServerError));
      }
      CreateKeepsInvariants(st, InsertRow(req, now));
      return Succeeded, None;
    }

    method UpdateProduct(id: int, req: Schema.Product) returns (resp: MutationResponse, err: Option<Error>)
      requires store.Valid()
      modifies store
      ensures store.Valid()
      ensures resp.success <==> err.None?
      ensures err.None? <==> GetCode(err) == StatusOK
      ensures RatingsMatchReviews(old(store.State()).products, old(store.State()).reviews) ==> RatingsMatchReviews(store.State().products, store.State().reviews)
      ensures
        var st := old(store.State());
        var v := Schema.ValidateUpdate(req);
        var cat := CategoryOutcome(st, req.category.id);
        var before := old(store.calls);
        var looked := before + [GetCategoryCall(req.category.id)];
        if id <= 0 then
          err == Some(NewWithCode("invalid id", StatusBadRequest))
          && store.calls == before && store.State() == st
        else if v.Some? then
          err == Some(WrapWithCode(v, "invalid request payload", StatusBadRequest))
          && store.calls == before && store.State() == st
        else if cat.Fail? then
          err == Some(WrapWithCode(Some(cat.cause), "error when get category", StatusInternalServerError))
          && store.calls == looked && store.State() == st
        else if cat.NoRows? then
          err == Some(NewWithCode("category not found", StatusBadRequest))
          && store.calls == looked && store.State() == st
        else if UpdateProductPort in st.faults then
          err == Some(WrapWithCode(Some(st.faults[UpdateProductPort]), "error when update product", StatusInternalServerError))
          && store.calls == looked + [UpdateProductCall(id, UpdateRow(req))] && store.State() == st
        else
          // an id without a row is not an error: nothing is written and the call succeeds
          err.None?
          && store.calls == looked + [UpdateProductCall(id, UpdateRow(req))]
          && store.State() == Updated(st, id, UpdateRow(req))
    {
      if id <= 0 {
        return Failed, Some(NewWithCode("invalid id", StatusBadRequest));
      }

      var verr := Schema.ValidateUpdate(req);
      if verr.Some? {
        return Failed, Some(WrapWithCode(verr, "invalid request payload", StatusBadRequest));
      }

      var cat := store.GetCategory(req.category.id);
      if cat.Fail? {
        return Failed, Some(WrapWithCode(cat.Err(), "error when get category", StatusInternalServerError));
      }
      if cat.NoRows? {
        return Failed, Some(NewWithCode("category not found", StatusBadRequest));
      }

      ghost var st := store.State();
      var upd := store.UpdateProduct(id, UpdateRow(req));
      UpdateKeepsInvariants(st, id, UpdateRow(req));
      if upd.Fail? {
        return Failed, Some(WrapWithCode(upd.Err(), "error when update product", StatusInternalServerError));
      }
      return Succeeded, None;
    }

    method GetProduct(id: int) returns (p: Schema.Product, err: Option<Error>)
      modifies store`calls
      ensures store.State() == old(store.State())
      ensures err.None? <==> GetCode(err) == StatusOK
      ensures
        var st := old(store.State());
        var o := ProductOutcome(st, id);
        var before := old(store.calls);
        if id <= 0 then
          p == Schema.ZeroProduct && err == Some(NewWithCode("invalid id", StatusBadRequest))
          && store.calls == before
        else
          store.calls == before + [GetProductCall(id)]
          && if o.Fail? then
               p == Schema.ZeroProduct
               && err == Some(WrapWithCode(Some(o.cause), "error when get product", StatusInternalServerError))
             else if o.NoRows? then
               p == Schema.ZeroProduct && err == Some(NewWithCode("product not found", StatusNotFound))
             else
               p == ToApi(o.value) && err.None?
    {
      if id <= 0 {
        return Schema.ZeroProduct, Some(NewWithCode("invalid id", StatusBadRequest));
      }

      var product := store.GetProduct(id);
      if product.Fail? {
        return Schema.ZeroProduct, Some(WrapWithCode(product.Err(), "error when get product", StatusInternalServerError));
      }
      if product.NoRows? {
        return Schema.ZeroProduct, Some(NewWithCode("product not found", StatusNotFound));
      }

      return ToApi(product.value), None;
    }

    method GetProductList(filter: Request.ListFilter) returns (res: array?<Schema.Product>, err: Option<Error>)
      modifies store`calls
      ensures store.State() == old(store.State())
      ensures err.None? <==> GetCode(err) == StatusOK
      ensures err.None? <==> res != null
      ensures
        var st := old(store.State());
        var ferr := Request.FilterError(filter);
        var o := ListOutcome(st);
        var before := old(store.calls);
        if ferr.Some? then
          err == Some(WrapWithCode(ferr, "invalid request", StatusBadRequest))
          && store.calls == before
        else
          store.calls == before + [GetProductListCall(ListQuery(Request.Normalize(filter)))]
          && if o.Fail? then
               err == Some(WrapWithCode(Some(o.cause), "error when get product list", StatusInternalServerError))
             else
               res != null && fresh(res) && res.Length == |o.value|
               && forall i :: 0 <= i < res.Length ==> res[i] == ToApi(o.value[i])
    {
      var f := new Request.GetProductListFilter(filter);
      var ferr := f.Validate();
      if ferr.Some? {
        return null, Some(WrapWithCode(ferr, "invalid request", StatusBadRequest));
      }

      var query := Model.GetProductListFilter(f.search, f.categoryId, f.sortColumn, f.sortType,
                                              f.size, Wrap64((f.page - 1) * f.size));
      assert query == ListQuery(f.Value());
      var products := store.GetProductList(query);
      if products.Err().Some? {
        return null, Some(WrapWithCode(products.Err(), "error when get product list", StatusInternalServerError));
      }

      var rows := products.value;
      res := new Schema.Product[|rows|];
      for i := 0 to |rows|
        modifies res
        invariant forall k :: 0 <= k < i ==> res[k] == ToApi(rows[k])
      {
        res[i] := ToApi(rows[i]);
      }
      return res, None;
    }

    method ReviewProduct(productId: int, req: Request.ReviewProductRequest, seed: nat)
      returns (resp: MutationResponse, err: Option<Error>)
      requires store.Valid()
      modifies store
      ensures store.Valid()
      ensures resp.success <==> err.None?
      ensures err.None? <==> GetCode(err) == StatusOK
      ensures SkusUnique(old(store.State()).products) ==> SkusUnique(store.State().products)
      ensures RatingsMatchReviews(old(store.State()).products, old(store.State()).reviews) && err.None? ==> RatingsMatchReviews(store.State().products, store.State().reviews)
      ensures
        var st := old(store.State());
        var v := Request.ValidateReview(req);
        var po := ProductOutcome(st, productId);
        var so := StatisticOutcome(st, productId);
        var stat := if so.Ok? then so.value else ZeroStatistic;
        var review := ReviewRow(productId, req, seed);
        var rating := ReviewStats.NextRating(stat, req.rating);
        var before := old(store.calls);
        var looked := before + [GetProductCall(productId)];
        var looked2 := looked + [GetReviewStatisticCall(productId)];
        var inserted := looked2 + [InsertReviewCall(review)];
        if productId <= 0 then
          err == Some(NewWithCode("invalid id", StatusBadRequest))
          && store.calls == before && store.State() == st
        else if v.Some? then
          err == Some(WrapWithCode(v, "invalid request", StatusBadRequest))
          && store.calls == before && store.State() == st
        else if po.Fail? then
          err == Some(WrapWithCode(Some(po.cause), "error when get product", StatusInternalServerError))
          && store.calls == looked && store.State() == st
        else if po.NoRows? then
          err == Some(NewWithCode("product not found", StatusNotFound))
          && store.calls == looked && store.State() == st
        else if so.Fail? then
          err == Some(WrapWithCode(Some(so.cause), "error when get statistic review", StatusInternalServerError))
          && store.calls == looked2 && store.State() == st
        else if InsertReviewPort in st.faults then
          err == Some(WrapWithCode(Some(st.faults[InsertReviewPort]), "error when insert review", StatusInternalServerError))
          && store.calls == inserted && store.State() == st
        else if UpdateProductRatingPort in st.faults then
          // the review is stored but the rating is not refreshed
          err == Some(WrapWithCode(Some(st.faults[UpdateProductRatingPort]), "error when update product rating", StatusInternalServerError))
          && store.calls == inserted + [UpdateProductRatingCall(productId, rating)]
          && store.State() == WithReview(st, review)
        else
          err.None?
          && store.calls == inserted + [UpdateProductRatingCall(productId, rating)]
          && store.State() == Rated(WithReview(st, review), productId, rating)
    {
      if productId <= 0 {
        return Failed, Some(NewWithCode("invalid id", StatusBadRequest));
      }

      var verr := Request.ValidateReview(req);
      if verr.Some? {
        return Failed, Some(WrapWithCode(verr, "invalid request", StatusBadRequest));
      }

      var product := store.GetProduct(productId);
      if product.Fail? {
        return Failed, Some(WrapWithCode(product.Err(), "error when get product", StatusInternalServerError));
      }
      if product.NoRows? {
        return Failed, Some(NewWithCode("product not found", StatusNotFound));
      }

      var so := store.GetReviewStatistic(productId);
      if so.Fail? {
        return Failed, Some(WrapWithCode(so.Err(), "error when get statistic review", StatusInternalServerError));
      }
      var stat := if so.Ok? then so.value else ZeroStatistic;

      ghost var st := store.State();
      var review := ReviewRow(productId, req, seed);
      var ins := store.InsertReview(review);
      if ins.Err().Some? {
        return Failed, Some(WrapWithCode(ins.Err(), "error when insert review", StatusInternalServerError));
      }

      var rating := ReviewStats.NextRating(stat, req.rating);
      assert stat == ReviewStats.StatisticOf(st.reviews, productId);
      ReviewKeepsInvariants(st, review, rating);
      if RatingsMatchReviews(st.products, st.reviews) {
        ReviewKeepsRatings(st, review, rating);
      }
      var upd := store.UpdateProductRating(productId, rating);
      if upd.Err().Some? {
        return Failed, Some(WrapWithCode(upd.Err(), "error when update product rating", StatusInternalServerError));
      }

      return Succeeded, None;
    }
  }
}
