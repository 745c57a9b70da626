/**
 * The persisted entities the cache holds. Only the columns the caching code looks at are named;
 * the business columns of a row are kept together, unexamined, in `info`.
 */
module Entity {
  import opened Wrappers

  /** A row of the shop table. The id is a nullable Long in Java. */
  datatype Shop = Shop(id: Option<int>, info: string)

  /** A row of the shop-type table; `sort` is the column the type list is ordered by. */
  datatype ShopType = ShopType(id: Option<int>, sort: int, info: string)
}
