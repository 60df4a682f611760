/** The customer product grid of `src/components/customer/productList.tsx`:
    paging and sorting state, the page-link window, the sort select's
    value encoding, applying a fetched page, and the quick-add button that
    puts one unit in the cart. */
module ProductList {
  import opened Wrappers
  import opened JsStrings
  import opened PageWindow
  import opened CartSlice

  /** The gap marker of the product list. */
  const Gap: string := "ellipsis"

  datatype SortField = Name | Price | Stock | DiscountPercent | CreatedAt
  datatype SortOrder = Asc | Desc
  datatype Sort = Sort(field: SortField, order: SortOrder)

  function FieldKey(f: SortField): string {
    match f
    case Name => "name"
    case Price => "price"
    case Stock => "stock"
    case DiscountPercent => "discountPercent"
    case CreatedAt => "createdAt"
  }

  function OrderKey(o: SortOrder): string {
    match o
    case Asc => "asc"
    case Desc => "desc"
  }

  function FieldFromKey(key: string): (r: Option<SortField>)
    ensures r.Some? ==> FieldKey(r.value) == key
  {
    if key == "name" then Some(Name)
    else if key == "price" then Some(Price)
    else if key == "stock" then Some(Stock)
    else if key == "discountPercent" then Some(DiscountPercent)
    else if key == "createdAt" then Some(CreatedAt)
    else None
  }

  function OrderFromKey(key: string): (r: Option<SortOrder>)
    ensures r.Some? ==> OrderKey(r.value) == key
  {
    if key == "asc" then Some(Asc) else if key == "desc" then Some(Desc) else None
  }

  /** The select's value: `${sortField}-${sortOrder}`. */
  function EncodeSort(s: Sort): (value: string)
    ensures Split(value, '-') == [FieldKey(s.field), OrderKey(s.order)]
  {
    var f, o := FieldKey(s.field), OrderKey(s.order);
    NoHyphenInKeys(s);
    SplitAtFirst(f, '-', o);
    SplitNoSeparator(o, '-');
    assert f + "-" + o == f + ['-'] + o;
    f + "-" + o
  }

  /** `value.split("-")[0]` and `[1]`, read back as a field and an order;
      `None` when a part is missing or not a known name (the source casts
      without checking, which no offered option exercises). */
  function DecodeSort(value: string): (r: Option<Sort>)
    ensures r.Some? ==> var parts := Split(value, '-');
      |parts| >= 2 && parts[0] == FieldKey(r.value.field) && parts[1] == OrderKey(r.value.order)
  {
    var parts := Split(value, '-');
    if |parts| < 2 then None
    else
      var f, o := FieldFromKey(parts[0]), OrderFromKey(parts[1]);
      if f.Some? && o.Some? then Some(Sort(f.value, o.value)) else None
  }

  lemma NoHyphenInKeys(s: Sort)
    ensures '-' !in FieldKey(s.field) && '-' !in OrderKey(s.order)
  {
  }

  /** Splitting the select value on "-" gives back the field and the order,
      because no field or order name contains "-". */
  lemma SortRoundTrip(s: Sort)
    ensures DecodeSort(EncodeSort(s)) == Some(s)
  {
  }

  /** The values of the sort select, in menu order. */
  const SortOptions: seq<Sort> := [
    Sort(Name, Asc), Sort(Name, Desc), Sort(Price, Asc), Sort(Price, Desc),
    Sort(DiscountPercent, Asc), Sort(DiscountPercent, Desc), Sort(CreatedAt, Asc), Sort(CreatedAt, Desc)
  ]

  /** The texts of the page-size select. */
  const PageSizeTexts: seq<string> := ["3", "8", "12", "16", "24", "36"]

  /** The page-size options are digit strings of positive sizes. */
  lemma PageSizeTextsArePositive(t: string)
    requires t in PageSizeTexts
    ensures AllDigits(t) && DigitsValue(t) > 0
  {
  }

  /** `parseInt(text)` for an offered page size. */
  function ParsePageSize(text: string): (size: int)
    requires text in PageSizeTexts
    ensures size > 0
  {
    PageSizeTextsArePositive(text);
    DigitsValue(text)
  }

  /** One page of products as the server returns it. */
  datatype ProductPage = ProductPage(data: seq<Product>, page: int, pageSize: int, total: int)

  class ProductGrid {
    var products: seq<Product>
    var page: int
    var pageSize: int
    var total: int
    var sort: Sort
    var isLoading: bool
    const keyword: Option<string>

    predicate Valid()
      reads this
    {
      pageSize > 0
    }

    /** The initial state: the server-rendered page, newest first. */
    constructor (initial: ProductPage, keyword: Option<string>)
      requires initial.pageSize > 0
      ensures Valid()
      ensures products == initial.data && page == initial.page && pageSize == initial.pageSize && total == initial.total
      ensures sort == Sort(CreatedAt, Desc) && !isLoading && this.keyword == keyword
    {
      products := initial.data;
      page := initial.page;
      pageSize := initial.pageSize;
      total := initial.total;
      sort := Sort(CreatedAt, Desc);
      isLoading := false;
      this.keyword := keyword;
    }

    /** `Math.ceil(total / pageSize)`. */
    function TotalPagesNow(): int
      reads this
      requires Valid()
    {
      TotalPages(total, pageSize)
    }

    /** `handlePageChange(newPage)`: move only to a different real page. */
    method HandlePageChange(newPage: int)
      modifies this
      requires Valid()
      ensures Valid()
      ensures old(1 <= newPage <= TotalPagesNow() && newPage != page) ==> page == newPage
      ensures !old(1 <= newPage <= TotalPagesNow() && newPage != page) ==> page == old(page)
      ensures 1 <= old(page) <= TotalPagesNow() ==> 1 <= page <= TotalPagesNow()
      ensures pageSize == old(pageSize) && total == old(total) && products == old(products) && sort == old(sort)
      ensures isLoading == old(isLoading)
    {
      if newPage >= 1 && newPage <= TotalPagesNow() && newPage != page {
        page := newPage;
      }
    }

    /** `handlePageSizeChange(text)`: a different size is taken and the
      page goes back to 1; the same size changes nothing. */
    method HandlePageSizeChange(text: string)
      modifies this
      requires text in PageSizeTexts
      ensures Valid()
      ensures ParsePageSize(text) != old(pageSize) ==> pageSize == ParsePageSize(text) && page == 1
      ensures ParsePageSize(text) == old(pageSize) ==> pageSize == old(pageSize) && page == old(page)
      ensures total == old(total) && products == old(products) && sort == old(sort) && isLoading == old(isLoading)
    {
      var size := ParsePageSize(text);
      if size != pageSize {
        pageSize := size;
        page := 1;
      }
    }

    /** The sort select: the field and order read back from the value. */
    method HandleSortChange(value: string)
      modifies this
      requires exists s :: s in SortOptions && value == EncodeSort(s)
      ensures DecodeSort(value).Some? && sort == DecodeSort(value).value
      ensures EncodeSort(sort) == value
      ensures page == old(page) && pageSize == old(pageSize) && total == old(total) && products == old(products)
      ensures isLoading == old(isLoading)
    {
      ghost var s :| s in SortOptions && value == EncodeSort(s);
      SortRoundTrip(s);
      sort := DecodeSort(value).value;
    }

    /** The fetch effect given `getProducts`' result: a page replaces the
      products, page, size and total; no result keeps them; loading ends.
      The reply's page size is stored unchecked, so the grid stays valid
      exactly when the reply's size is positive. */
    method FetchProducts(response: Option<ProductPage>)
      modifies this
      requires Valid()
      ensures response.None? ==> Valid()
      ensures response.Some? ==> (Valid() <==> response.value.pageSize > 0)
      ensures response.Some? ==>
        (products == response.value.data && page == response.value.page &&
         pageSize == response.value.pageSize && total == response.value.total)
      ensures response.None? ==>
        (products == old(products) && page == old(page) && pageSize == old(pageSize) && total == old(total))
      ensures !isLoading && sort == old(sort)
    {
      isLoading := true;
      if response.Some? {
        products := response.value.data;
        page := response.value.page;
        pageSize := response.value.pageSize;
        total := response.value.total;
      }
      isLoading := false;
    }

    /** The page links. */
    method PageLinks() returns (pages: seq<PageEntry>)
      requires Valid()
      ensures pages == Window(page, TotalPagesNow(), Gap)
    {
      pages := GetPageNumbers(page, TotalPagesNow(), Gap);
    }
  }

  /** The QUICK ADD button: `addToCart({ product, quantity: 1 })`. */
  method QuickAdd(cart: CartState, product: Product)
    modifies cart
    ensures cart.items == Added(old(cart.items), product, 1)
  {
    cart.AddToCart(product, 1);
  }
}
