/**
 * The three repository ports the service depends on (product, category and
 * review repositories), served by one abstract store. Whether a read finds a
 * row follows from the store's tables; any port can be made to fail with an
 * injected error, which is how every error branch of the service is reached.
 * Every call is logged, so that the order of calls and their arguments can
 * be stated.
 */
module Adapter {

  import opened Wrappers
  import opened ErrorHelper
  import Model
  import ReviewStats

  /** `sql.ErrNoRows`. */
  const ErrNoRows := Plain("sql: no rows in result set")

  /**
   * What a repository call answers: a value, `sql.ErrNoRows`, or another error.
   * The service compares errors with `sql.ErrNoRows` by identity, so an
   * injected fault that merely has the same text is a `Fail`, not `NoRows`.
   */
  datatype Outcome<T> = Ok(value: T) | NoRows | Fail(cause: Error)
  {
    /** The Go `error` this answer carries: nil, `sql.ErrNoRows`, or the cause. */
    function Err(): (e: Option<Error>)
      ensures e.None? <==> Ok?
      ensures NoRows? ==> e == Some(ErrNoRows)
      ensures Fail? ==> e == Some(cause)
    {
      match this
      case Ok(_) => None
      case NoRows => Some(ErrNoRows)
      case Fail(c) => Some(c)
    }
  }

  /** Which of the three answers an outcome is, forgetting the value. */
  function Kind<T>(o: Outcome<T>): Outcome<()>
  {
    match o
    case Ok(_) => Ok(())
    case NoRows => NoRows
    case Fail(c) => Fail(c)
  }

  /** The nine repository operations. */
  datatype Port =
    | GetProductPort | GetProductBySkuPort | GetProductListPort | InsertProductPort
    | UpdateProductPort | UpdateProductRatingPort
    | GetCategoryPort
    | InsertReviewPort | GetReviewStatisticPort

  /** One repository call with its arguments. */
  datatype Call =
    | GetProductCall(id: int)
    | GetProductBySkuCall(sku: string)
    | GetProductListCall(filter: Model.GetProductListFilter)
    | InsertProductCall(product: Model.Product)
    | UpdateProductCall(id: int, product: Model.Product)
    | UpdateProductRatingCall(id: int, rating: real)
    | GetCategoryCall(id: int)
    | InsertReviewCall(review: Model.ProductReview)
    | GetReviewStatisticCall(productId: int)

  /** Everything the store holds except its call log. */
  datatype Snapshot = Snapshot(
    products: map<int, Model.Product>,
    categories: map<int, string>,
    reviews: seq<Model.ProductReview>,
    nextProductId: int,
    listing: seq<Model.Product>,
    faults: map<Port, Error>)

  /**
   * The tables' invariant: ids are positive, below the next id and match
   * their key; every product's category exists; every review belongs to an
   * existing product and rates it 1..5.
   */
  ghost predicate Consistent(s: Snapshot)
  {
    && s.nextProductId > 0
    && (forall id :: id in s.products ==>
          0 < id < s.nextProductId && s.products[id].id == id && s.products[id].category.id in s.categories)
    && (forall i :: 0 <= i < |s.reviews| ==> s.reviews[i].productId in s.products && 1 <= s.reviews[i].rating <= 5)
  }

  /** Every product's displayed rating is the mean of its reviews' ratings (0 without reviews). */
  ghost predicate RatingsMatchReviews(products: map<int, Model.Product>, reviews: seq<Model.ProductReview>)
  {
    forall id :: id in products ==> products[id].rating == ReviewStats.Mean(ReviewStats.RatingsOf(reviews, id))
  }

  /** No two product rows share a SKU. */
  ghost predicate SkusUnique(products: map<int, Model.Product>)
  {
    forall a, b :: a in products && b in products && products[a].sku == products[b].sku ==> a == b
  }

  /** The rows of the `product` table after `UpdateProduct(id, p)`: four columns of row `id` change. */
  function UpdatedRows(products: map<int, Model.Product>, id: int, p: Model.Product): (r: map<int, Model.Product>)
    ensures r.Keys == products.Keys
    ensures forall k :: k in products && k != id ==> r[k] == products[k]
    ensures id in products ==>
              (r[id].sku == p.sku && r[id].title == p.title
               && r[id].description == p.description && r[id].category == p.category)
    ensures id in products ==>
              r[id].(sku := products[id].sku, title := products[id].title,
                     description := products[id].description, category := products[id].category)
              == products[id]
  {
    if id in products then
      products[id := products[id].(sku := p.sku, title := p.title, description := p.description, category := p.category)]
    else products
  }

  /** The tables after `UpdateProduct(id, p)` finds row `id`. */
  function Updated(s: Snapshot, id: int, p: Model.Product): Snapshot
  {
    s.(products := UpdatedRows(s.products, id, p))
  }

  /** The tables after `row` is inserted under the next id; the row's own id is ignored. */
  function Inserted(s: Snapshot, row: Model.Product): Snapshot
  {
    s.(products := s.products[s.nextProductId := row.(id := s.nextProductId)],
       nextProductId := s.nextProductId + 1)
  }

  /** The tables after `review` is inserted. */
  function WithReview(s: Snapshot, review: Model.ProductReview): Snapshot
  {
    s.(reviews := s.reviews + [review])
  }

  /** The tables after product `pid`'s rating is set. */
  function Rated(s: Snapshot, pid: int, rating: real): Snapshot
    requires pid in s.products
  {
    s.(products := s.products[pid := s.products[pid].(rating := rating)])
  }

  /** Row `id` as the product queries return it: joined with its category. */
  function JoinedRow(s: Snapshot, id: int): (p: Model.Product)
    requires id in s.products && s.products[id].category.id in s.categories
    ensures p.(category := s.products[id].category) == s.products[id]
    ensures p.category == Model.Category(s.products[id].category.id, s.categories[s.products[id].category.id])
  {
    var p := s.products[id];
    p.(category := Model.Category(p.category.id, s.categories[p.category.id]))
  }

  /** The answer of `GetProduct(id)`: the inner join finds no row when the category is missing. */
  function ProductOutcome(s: Snapshot, id: int): Outcome<Model.Product>
  {
    if GetProductPort in s.faults then Fail(s.faults[GetProductPort])
    else if id in s.products && s.products[id].category.id in s.categories then Ok(JoinedRow(s, id))
    else NoRows
  }

  /** Some joined row carries this SKU. */
  ghost predicate SkuTaken(s: Snapshot, sku: string)
  {
    exists id :: id in s.products && s.products[id].category.id in s.categories && s.products[id].sku == sku
  }

  /** The kind of answer `GetProductBySKU(sku)` gives. */
  ghost function SkuOutcome(s: Snapshot, sku: string): Outcome<()>
  {
    if GetProductBySkuPort in s.faults then Fail(s.faults[GetProductBySkuPort])
    else if SkuTaken(s, sku) then Ok(())
    else NoRows
  }

  function CategoryOutcome(s: Snapshot, id: int): Outcome<Model.Category>
  {
    if GetCategoryPort in s.faults then Fail(s.faults[GetCategoryPort])
    else if id in s.categories then Ok(Model.Category(id, s.categories[id]))
    else NoRows
  }

  /** The answer of `GetReviewStatistic(pid)`: the grouped query has no row for a product without reviews. */
  function StatisticOutcome(s: Snapshot, pid: int): Outcome<Model.Statistic>
  {
    if GetReviewStatisticPort in s.faults then Fail(s.faults[GetReviewStatisticPort])
    else if |ReviewStats.RatingsOf(s.reviews, pid)| == 0 then NoRows
    else Ok(ReviewStats.StatisticOf(s.reviews, pid))
  }

  function ListOutcome(s: Snapshot): Outcome<seq<Model.Product>>
  {
    if GetProductListPort in s.faults then Fail(s.faults[GetProductListPort]) else Ok(s.listing)
  }

  /** The answer of an insert on `port`: it either runs or fails. */
  function ExecOutcome(s: Snapshot, port: Port): Outcome<()>
  {
    if port in s.faults then Fail(s.faults[port]) else Ok(())
  }

  /** The answer of an update of row `id` on `port`: no row affected is `NoRows`. */
  function RowOutcome(s: Snapshot, port: Port, id: int): Outcome<()>
  {
    if port in s.faults then Fail(s.faults[port]) else if id in s.products then Ok(()) else NoRows
  }

  /** The update statement does not re-check SKU uniqueness: it can give two rows the same SKU. */
  lemma UpdateCanDuplicateSku()
    ensures var a := Model.Product(1, "IND001", "a", "a", Model.Category(1, ""), "", 0, 0, 0.0, 0);
      var b := Model.Product(2, "IND002", "b", "b", Model.Category(1, ""), "", 0, 0, 0.0, 0);
      var before := map[1 := a, 2 := b];
      SkusUnique(before) && !SkusUnique(UpdatedRows(before, 2, a))
  {
    var a := Model.Product(1, "IND001", "a", "a", Model.Category(1, ""), "", 0, 0, 0.0, 0);
    var b := Model.Product(2, "IND002", "b", "b", Model.Category(1, ""), "", 0, 0, 0.0, 0);
    var after := UpdatedRows(map[1 := a, 2 := b], 2, a);
    assert after[1].sku == after[2].sku;
  }

  class Store {
    /** The `products` table by id; the category name in a row is not stored, only its id. */
    var products: map<int, Model.Product>
    /** The `categories` table: id to name. */
    var categories: map<int, string>
    /** The `product_reviews` table, in insertion order. */
    var reviews: seq<Model.ProductReview>
    /** The id the next inserted product receives. */
    var nextProductId: int
    /** The rows a list query answers with (filtering and sorting are the database's). */
    var listing: seq<Model.Product>
    /** Ports that fail, with the error they fail with. */
    var faults: map<Port, Error>
    /** Every call made so far, oldest first. */
    var calls: seq<Call>

    function State(): Snapshot
      reads this
    {
      Snapshot(products, categories, reviews, nextProductId, listing, faults)
    }

    /** The store's invariant, over its tables. */
    ghost predicate Valid()
      reads this
    {
      Consistent(State())
    }

    /** Every product's displayed rating is the mean of its reviews' ratings. */
    ghost predicate RatingsConsistent()
      reads this
    {
      RatingsMatchReviews(products, reviews)
    }

    constructor (categories: map<int, string>, listing: seq<Model.Product>, faults: map<Port, Error>)
      ensures Valid() && RatingsConsistent() && SkusUnique(products)
      ensures State() == Snapshot(map[], categories, [], 1, listing, faults)
      ensures calls == []
    {
      this.products := map[];
      this.categories := categories;
      this.reviews := [];
      this.nextProductId := 1;
      this.listing := listing;
      this.faults := faults;
      this.calls := [];
    }

    method GetProduct(id: int) returns (o: Outcome<Model.Product>)
      modifies this`calls
      ensures calls == old(calls) + [GetProductCall(id)]
      ensures o == ProductOutcome(State(), id)
    {
      calls := calls + [GetProductCall(id)];
      if GetProductPort in faults {
        return Fail(faults[GetProductPort]);
      }
      if id in products && products[id].category.id in categories {
        return Ok(JoinedRow(State(), id));
      }
      return NoRows;
    }

    /** Any row with the SKU may answer, as for a query without ORDER BY. */
    method GetProductBySku(sku: string) returns (o: Outcome<Model.Product>)
      modifies this`calls
      ensures calls == old(calls) + [GetProductBySkuCall(sku)]
      ensures Kind(o) == SkuOutcome(State(), sku)
      ensures o.Ok? ==> o.value.sku == sku
      ensures o.Ok? ==> exists id :: id in products && products[id].category.id in categories
                         && products[id].sku == sku && o.value == JoinedRow(State(), id)
    {
      calls := calls + [GetProductBySkuCall(sku)];
      if GetProductBySkuPort in faults {
        return Fail(faults[GetProductBySkuPort]);
      }
      if exists id :: id in products && products[id].category.id in categories && products[id].sku == sku {
        var id :| id in products && products[id].category.id in categories && products[id].sku == sku;
        return Ok(JoinedRow(State(), id));
      }
      return NoRows;
    }

    method GetProductList(filter: Model.GetProductListFilter) returns (o: Outcome<seq<Model.Product>>)
      modifies this`calls
      ensures calls == old(calls) + [GetProductListCall(filter)]
      ensures o == ListOutcome(State())
    {
      calls := calls + [GetProductListCall(filter)];
      if GetProductListPort in faults {
        return Fail(faults[GetProductListPort]);
      }
      return Ok(listing);
    }

    /** Inserts a row under the next id, as an auto-increment column does. */
    method InsertProduct(product: Model.Product) returns (o: Outcome<()>)
      modifies this`calls, this`products, this`nextProductId
      ensures calls == old(calls) + [InsertProductCall(product)]
      ensures o == ExecOutcome(old(State()), InsertProductPort)
      ensures State() == if o.Ok? then Inserted(old(State()), product) else old(State())
    {
      calls := calls + [InsertProductCall(product)];
      if InsertProductPort in faults {
        return Fail(faults[InsertProductPort]);
      }
      products := products[nextProductId := product.(id := nextProductId)];
      nextProductId := nextProductId + 1;
      return Ok(());
    }

    /** Sets SKU, title, description and category of row `id`. */
    method UpdateProduct(id: int, product: Model.Product) returns (o: Outcome<()>)
      modifies this`calls, this`products
      ensures calls == old(calls) + [UpdateProductCall(id, product)]
      ensures o == RowOutcome(old(State()), UpdateProductPort, id)
      ensures State() == if o.Ok? then Updated(old(State()), id, product) else old(State())
    {
      calls := calls + [UpdateProductCall(id, product)];
      if UpdateProductPort in faults {
        return Fail(faults[UpdateProductPort]);
      }
      if id !in products {
        return NoRows;
      }
      products := UpdatedRows(products, id, product);
      return Ok(());
    }

    /** Sets the rating of row `id`. */
    method UpdateProductRating(id: int, rating: real) returns (o: Outcome<()>)
      modifies this`calls, this`products
      ensures calls == old(calls) + [UpdateProductRatingCall(id, rating)]
      ensures o == RowOutcome(old(State()), UpdateProductRatingPort, id)
      ensures State() == if o.Ok? then Rated(old(State()), id, rating) else old(State())
    {
      calls := calls + [UpdateProductRatingCall(id, rating)];
      if UpdateProductRatingPort in faults {
        return Fail(faults[UpdateProductRatingPort]);
      }
      if id !in products {
        return NoRows;
      }
      products := products[id := products[id].(rating := rating)];
      return Ok(());
    }

    method GetCategory(id: int) returns (o: Outcome<Model.Category>)
      modifies this`calls
      ensures calls == old(calls) + [GetCategoryCall(id)]
      ensures o == CategoryOutcome(State(), id)
    {
      calls := calls + [GetCategoryCall(id)];
      if GetCategoryPort in faults {
        return Fail(faults[GetCategoryPort]);
      }
      if id in categories {
        return Ok(Model.Category(id, categories[id]));
      }
      return NoRows;
    }

    method InsertReview(review: Model.ProductReview) returns (o: Outcome<()>)
      modifies this`calls, this`reviews
      ensures calls == old(calls) + [InsertReviewCall(review)]
      ensures o == ExecOutcome(old(State()), InsertReviewPort)
      ensures State() == if o.Ok? then WithReview(old(State()), review) else old(State())
    {
      calls := calls + [InsertReviewCall(review)];
      if InsertReviewPort in faults {
        return Fail(faults[InsertReviewPort]);
      }
      reviews := reviews + [review];
      return Ok(());
    }

    method GetReviewStatistic(productId: int) returns (o: Outcome<Model.Statistic>)
      modifies this`calls
      ensures calls == old(calls) + [GetReviewStatisticCall(productId)]
      ensures o == StatisticOutcome(State(), productId)
    {
      calls := calls + [GetReviewStatisticCall(productId)];
      if GetReviewStatisticPort in faults {
        return Fail(faults[GetReviewStatisticPort]);
      }
      if |ReviewStats.RatingsOf(reviews, productId)| == 0 {
        return NoRows;
      }
      return Ok(ReviewStats.StatisticOf(reviews, productId));
    }
  }
}
