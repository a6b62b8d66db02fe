/** The rows the repositories read and write. */
module Model {

  import opened GoInts

  datatype Category = Category(id: int, name: string)

  /**
   * A product row. The rating is a Go `float32`, modelled as a real; the
   * creation time is an opaque timestamp.
   */
  datatype Product = Product(
    id: int,
    sku: string,
    title: string,
    description: string,
    category: Category,
    imageUrl: string,
    weight: int,
    price: int,
    rating: real,
    createdAt: int)

  /** The repository form of a list query: paging as limit and offset. */
  datatype GetProductListFilter = GetProductListFilter(
    search: string,
    categoryId: int,
    sortColumn: string,
    sortType: string,
    limit: Int64,
    offset: Int64)

  datatype ProductReview = ProductReview(id: int, userId: int, productId: int, rating: int, comment: string)

  /** The count and mean rating of a product's reviews; a SQL COUNT is never negative. */
  datatype Statistic = Statistic(count: nat, average: real)
}
