/**
 * The product listing request and response shapes, and the pagination
 * defaulting that the request applies to itself.
 */
module ProductEntity {

  const MinInt64: int := -0x8000_0000_0000_0000
  const MaxInt64: int := 0x7fff_ffff_ffff_ffff

  /** Go's `int` on a 64-bit platform. */
  type Int64 = x: int | MinInt64 <= x <= MaxInt64

  /** Two's-complement wrap-around of Go's 64-bit integer arithmetic. */
  function Wrap64(x: int): (r: Int64)
    ensures MinInt64 <= x <= MaxInt64 ==> r == x
    ensures (r - x) % 0x1_0000_0000_0000_0000 == 0
  {
    (x - MinInt64) % 0x1_0000_0000_0000_0000 + MinInt64
  }

  /** The page used when a request asks for a page below 1. */
  const DefaultPage: Int64 := 1
  /** The page size used when a request asks for a page size below 1. */
  const DefaultPaginate: Int64 := 10

  /** The optional listing filters of a request, as the repository reads them. */
  datatype ListingFilter = ListingFilter(
    productName: string,
    categoryId: string,
    brand: string,
    minPrice: int,
    maxPrice: int)

  /** The page number after defaulting: at least 1, and unchanged when it already was. */
  function DefaultedPage(page: Int64): (r: Int64)
    ensures r >= 1
    ensures page >= 1 ==> r == page
    ensures page < 1 ==> r == DefaultPage
  {
    if page < 1 then DefaultPage else page
  }

  /** The page size after defaulting: at least 1, and unchanged when it already was. */
  function DefaultedPaginate(paginate: Int64): (r: Int64)
    ensures r >= 1
    ensures paginate >= 1 ==> r == paginate
    ensures paginate < 1 ==> r == DefaultPaginate
  {
    if paginate < 1 then DefaultPaginate else paginate
  }

  /** Defaulting a second time changes nothing. */
  lemma DefaultingIsIdempotent(page: Int64, paginate: Int64)
    ensures DefaultedPage(DefaultedPage(page)) == DefaultedPage(page)
    ensures DefaultedPaginate(DefaultedPaginate(paginate)) == DefaultedPaginate(paginate)
  {
  }

  /** The query of `GET /product`: who asks, the optional filters, and the page wanted. */
  class GetProductsRequest {
    var userId: string
    var productName: string
    var brand: string
    var categoryId: string
    var minPrice: int
    var maxPrice: int
    var page: Int64
    var paginate: Int64

    constructor (userId: string, productName: string, brand: string, categoryId: string,
                 minPrice: int, maxPrice: int, page: Int64, paginate: Int64)
      ensures this.userId == userId && this.productName == productName && this.brand == brand
      ensures this.categoryId == categoryId && this.minPrice == minPrice && this.maxPrice == maxPrice
      ensures this.page == page && this.paginate == paginate
    {
      this.userId := userId;
      this.productName := productName;
      this.brand := brand;
      this.categoryId := categoryId;
      this.minPrice := minPrice;
      this.maxPrice := maxPrice;
      this.page := page;
      this.paginate := paginate;
    }

    /** The filter fields of this request. */
    function Filter(): (f: ListingFilter)
      reads this
      ensures f.productName == productName && f.categoryId == categoryId && f.brand == brand
      ensures f.minPrice == minPrice && f.maxPrice == maxPrice
    {
      ListingFilter(productName, categoryId, brand, minPrice, maxPrice)
    }

    /**
     * Clamps the page and the page size in place. The frame allows only
     * those two fields to change; a request that is already defaulted is
     * left as it is, so applying it twice is the same as applying it once.
     */
    method SetDefault()
      modifies this`page, this`paginate
      ensures page == DefaultedPage(old(page)) && paginate == DefaultedPaginate(old(paginate))
      ensures page >= 1 && paginate >= 1
      ensures old(page) >= 1 ==> page == old(page)
      ensures old(paginate) >= 1 ==> paginate == old(paginate)
    {
      if page < 1 {
        page := DefaultPage;
      }
      if paginate < 1 {
        paginate := DefaultPaginate;
      }
    }
  }

  /** One product of a listing page. Prices are modelled as integers. */
  datatype ProductItem = ProductItem(
    id: string,
    name: string,
    brand: string,
    price: int,
    stock: int,
    categoryId: string,
    shopId: string,
    description: string,
    imageUrl: string)

  /** The paging data of a listing response; only the total row count is modelled. */
  datatype Meta = Meta(totalData: Int64)

  /** A page of products with its paging data. */
  datatype GetProductsResponse = GetProductsResponse(items: seq<ProductItem>, meta: Meta)
}
