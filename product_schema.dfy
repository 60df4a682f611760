/** The product schemas of `src/schemaValidation/product.schema.ts`: the
    create and edit forms' bodies and the product list's query
    parameters. All three drop unknown keys. */
module ProductSchema {
  import opened Wrappers
  import opened Zod
  import ProductList

  /** A form value that should hold a `File`: a file (by name) or any
      other value. */
  datatype Attachment = FileUpload(fileName: string) | NotAFile

  const NameRequired: string := "Name is required"
  const ImageInvalid: string := "Please select a valid image file"
  const SkuRequired: string := "SKU is required"
  const PriceRequired: string := "Price is required"
  const StockRequired: string := "Stock is required"
  const DiscountTooLow: string := "Discount percent must be at least 0"
  const DiscountTooHigh: string := "Discount percent cannot exceed 100"

  datatype ProductInput = ProductInput(
    name: Option<string>, thumbnail: Option<Attachment>, sku: Option<string>,
    price: Option<real>, stock: Option<real>, description: Option<string>,
    discountPercent: Option<real>, images: Option<seq<Attachment>>,
    categories: Option<seq<real>>, createdAt: Option<string>)

  /** The parsed body. The create form always has a thumbnail and an image
      list; the edit form may lack either. */
  datatype ProductFields = ProductFields(
    name: string, thumbnail: Option<string>, sku: string, price: real, stock: real,
    description: Option<string>, discountPercent: real, images: Option<seq<string>>,
    categories: seq<real>, createdAt: Option<string>)

  /** `z.instanceof(File)`; an absent value is not a file either. */
  function FileIssues(path: seq<PathKey>, a: Option<Attachment>): (issues: seq<Issue>)
    ensures issues == [] <==> a.Some? && a.value.FileUpload?
  {
    if a.Some? && a.value.FileUpload? then [] else [Message(path, ImageInvalid)]
  }

  /** The issues of the image list, numbered from `start`. */
  function ImagesIssues(items: seq<Attachment>, start: nat): seq<Issue>
    decreases |items|
  {
    if items == [] then []
    else FileIssues([Key("images"), Index(start)], Some(items[0])) + ImagesIssues(items[1..], start + 1)
  }

  predicate AllFiles(items: seq<Attachment>) {
    forall i :: 0 <= i < |items| ==> items[i].FileUpload?
  }

  lemma {:induction false} ImagesAcceptedIff(items: seq<Attachment>, start: nat)
    ensures ImagesIssues(items, start) == [] <==> AllFiles(items)
    decreases |items|
  {
    if items != [] {
      ImagesAcceptedIff(items[1..], start + 1);
      assert forall i :: 1 <= i < |items| ==> items[i] == items[1..][i - 1];
    }
  }

  /** Each image that is not a file is reported at its own index. */
  lemma {:induction false} BadImageReported(items: seq<Attachment>, start: nat, i: nat)
    requires i < |items| && items[i].NotAFile?
    ensures Message([Key("images"), Index(start + i)], ImageInvalid) in ImagesIssues(items, start)
    decreases |items|
  {
    if i == 0 {
      assert ImagesIssues(items, start)[0] == Message([Key("images"), Index(start)], ImageInvalid);
    } else {
      BadImageReported(items[1..], start + 1, i - 1);
      assert ImagesIssues(items, start) ==
        FileIssues([Key("images"), Index(start)], Some(items[0])) + ImagesIssues(items[1..], start + 1);
    }
  }

  function DiscountIssues(d: real): (issues: seq<Issue>)
    ensures issues == [] <==> 0.0 <= d <= 100.0
  {
    Check("discountPercent", d >= 0.0, DiscountTooLow) + Check("discountPercent", d <= 100.0, DiscountTooHigh)
  }

  /** A required text that must not be empty. */
  function NonEmptyIssues(field: string, v: Option<string>, message: string): (issues: seq<Issue>)
    ensures issues == [] <==> v.Some? && |v.value| >= 1
  {
    if v.None? then [Missing([Key(field)])] else Check(field, |v.value| >= 1, message)
  }

  /** A required number of at least 1. */
  function AtLeastOneIssues(field: string, v: Option<real>, message: string): (issues: seq<Issue>)
    ensures issues == [] <==> v.Some? && v.value >= 1.0
  {
    if v.None? then [Missing([Key(field)])] else Check(field, v.value >= 1.0, message)
  }

  /** The thumbnail: a file, or (when editing) absent. */
  function ThumbnailIssues(v: Option<Attachment>, edit: bool): (issues: seq<Issue>)
    ensures issues == [] <==> (v.Some? ==> v.value.FileUpload?) && (!edit ==> v.Some?)
  {
    if edit && v.None? then [] else FileIssues([Key("thumbnail")], v)
  }

  /** The image list: files only, and (unless editing) present. */
  function ImageListIssues(v: Option<seq<Attachment>>, edit: bool): (issues: seq<Issue>)
    ensures issues == [] <==> (v.Some? ==> AllFiles(v.value)) && (!edit ==> v.Some?)
  {
    if v.None? then (if edit then [] else [Missing([Key("images")])])
    else
      ImagesAcceptedIff(v.value, 0);
      ImagesIssues(v.value, 0)
  }

  function DiscountFieldIssues(v: Option<real>): (issues: seq<Issue>)
    ensures issues == [] <==> v.Some? && 0.0 <= v.value <= 100.0
  {
    if v.None? then [Missing([Key("discountPercent")])] else DiscountIssues(v.value)
  }

  /** The issues of `ProductBody` (`edit` false) or `ProductEditBody`
      (`edit` true), field by field in declaration order: the same rules,
      except that the edit form's thumbnail and images may be absent. The
      optional description and creation date have no rule. */
  function ProductIssues(input: ProductInput, edit: bool): (issues: seq<Issue>)
    ensures issues == [] <==> ProductAccepted(input, edit)
  {
    NonEmptyIssues("name", input.name, NameRequired) +
    ThumbnailIssues(input.thumbnail, edit) +
    NonEmptyIssues("sku", input.sku, SkuRequired) +
    AtLeastOneIssues("price", input.price, PriceRequired) +
    AtLeastOneIssues("stock", input.stock, StockRequired) +
    DiscountFieldIssues(input.discountPercent) +
    ImageListIssues(input.images, edit) +
    (if input.categories.None? then [Missing([Key("categories")])] else [])
  }

  /** When a product body is accepted: name and SKU are non-empty, price
      and stock are at least 1 (fractions allowed), the discount is within
      0 to 100 inclusive, categories are present, and the thumbnail and
      every image are files (required for creation, optional for
      editing). */
  predicate ProductAccepted(input: ProductInput, edit: bool) {
    input.name.Some? && |input.name.value| >= 1 &&
    (input.thumbnail.Some? ==> input.thumbnail.value.FileUpload?) && (!edit ==> input.thumbnail.Some?) &&
    input.sku.Some? && |input.sku.value| >= 1 &&
    input.price.Some? && input.price.value >= 1.0 &&
    input.stock.Some? && input.stock.value >= 1.0 &&
    input.discountPercent.Some? && 0.0 <= input.discountPercent.value <= 100.0 &&
    (input.images.Some? ==> AllFiles(input.images.value)) && (!edit ==> input.images.Some?) &&
    input.categories.Some?
  }

  /** `ProductBody.safeParse` and `ProductEditBody.safeParse`. */
  function ParseProduct(input: ProductInput, edit: bool): (r: Result<ProductFields, seq<Issue>>)
    ensures r.Ok? <==> ProductAccepted(input, edit)
    ensures r.Err? ==> r.error == ProductIssues(input, edit)
    ensures r.Ok? ==>
      (r.value.name == input.name.value && r.value.sku == input.sku.value &&
       r.value.price == input.price.value && r.value.stock == input.stock.value &&
       r.value.discountPercent == input.discountPercent.value && r.value.categories == input.categories.value &&
       r.value.description == input.description && r.value.createdAt == input.createdAt &&
       (r.value.thumbnail.Some? <==> input.thumbnail.Some?) &&
       (r.value.images.Some? <==> input.images.Some?) &&
       (r.value.images.Some? ==> |r.value.images.value| == |input.images.value|))
    ensures r.Ok? && r.value.thumbnail.Some? ==>
      input.thumbnail.value.FileUpload? && r.value.thumbnail.value == input.thumbnail.value.fileName
    ensures r.Ok? && r.value.images.Some? ==>
      forall i :: 0 <= i < |input.images.value| ==>
        input.images.value[i].FileUpload? && r.value.images.value[i] == input.images.value[i].fileName
    ensures r.Ok? && !edit ==> r.value.thumbnail.Some? && r.value.images.Some?
  {
    var issues := ProductIssues(input, edit);
    if issues != [] then Err(issues)
    else
      var thumbnail := if input.thumbnail.Some? then Some(input.thumbnail.value.fileName) else None;
      var images :=
        if input.images.Some? then
          var items := input.images.value;
          Some(seq(|items|, i requires 0 <= i < |items| && items[i].FileUpload? => items[i].fileName))
        else None;
      Ok(ProductFields(input.name.value, thumbnail, input.sku.value, input.price.value, input.stock.value,
        input.description, input.discountPercent.value, images, input.categories.value, input.createdAt))
  }

  /** Whatever the create form accepts, the edit form accepts, giving the
      same fields; the edit form accepts more only by lacking the
      thumbnail or the images. */
  lemma EditAcceptsCreate(input: ProductInput)
    ensures ParseProduct(input, false).Ok? ==> ParseProduct(input, true) == ParseProduct(input, false)
    ensures ParseProduct(input, true).Ok? && input.thumbnail.Some? && input.images.Some? ==> ParseProduct(input, false).Ok?
  {
  }

  // ProductParams

  const SortFieldKeys: seq<string> := ["createdAt", "name", "price", "stock", "discountPercent"]
  const SortByKeys: seq<string> := ["asc", "desc"]

  /** The sort-field enum is exactly the fields the product list sorts by. */
  lemma SortFieldKeysAreTheFields(key: string)
    ensures key in SortFieldKeys <==> ProductList.FieldFromKey(key).Some?
  {
  }

  lemma SortByKeysAreTheOrders(key: string)
    ensures key in SortByKeys <==> ProductList.OrderFromKey(key).Some?
  {
  }

  datatype ParamsInput = ParamsInput(
    page: Option<real>, pageSize: Option<real>, name: Option<string>, category: Option<string>,
    sortField: Option<string>, sortBy: Option<string>, fromAmount: Option<string>, toAmount: Option<string>)

  datatype ProductParams = ProductParams(
    page: Option<real>, pageSize: Option<real>, name: Option<string>, category: Option<string>,
    sortField: Option<ProductList.SortField>, sortBy: Option<ProductList.SortOrder>,
    fromAmount: Option<string>, toAmount: Option<string>)

  /** `ProductParams.safeParse`: every parameter may be absent; a present
      sort field or direction must be one of the enum's keys. */
  function ParseProductParams(input: ParamsInput): (r: Result<ProductParams, seq<Issue>>)
    ensures r.Ok? <==>
      (input.sortField.Some? ==> input.sortField.value in SortFieldKeys) &&
      (input.sortBy.Some? ==> input.sortBy.value in SortByKeys)
    ensures r.Ok? ==>
      (r.value.page == input.page && r.value.pageSize == input.pageSize && r.value.name == input.name &&
       r.value.category == input.category && r.value.fromAmount == input.fromAmount && r.value.toAmount == input.toAmount &&
       (r.value.sortField.Some? <==> input.sortField.Some?) && (r.value.sortBy.Some? <==> input.sortBy.Some?) &&
       (r.value.sortField.Some? ==> ProductList.FieldKey(r.value.sortField.value) == input.sortField.value) &&
       (r.value.sortBy.Some? ==> ProductList.OrderKey(r.value.sortBy.value) == input.sortBy.value))
    ensures r.Err? ==> forall i :: 0 <= i < |r.error| ==> r.error[i].InvalidOption?
  {
    var issues :=
      Optional(input.sortField, s => OneOf("sortField", s, SortFieldKeys)) +
      Optional(input.sortBy, s => OneOf("sortBy", s, SortByKeys));
    if issues != [] then Err(issues)
    else
      var field := if input.sortField.Some? then (SortFieldKeysAreTheFields(input.sortField.value); ProductList.FieldFromKey(input.sortField.value)) else None;
      var order := if input.sortBy.Some? then (SortByKeysAreTheOrders(input.sortBy.value); ProductList.OrderFromKey(input.sortBy.value)) else None;
      Ok(ProductParams(input.page, input.pageSize, input.name, input.category, field, order, input.fromAmount, input.toAmount))
  }

  /** The parameters of a query with no parameters at all are accepted. */
  lemma EmptyParamsAccepted()
    ensures ParseProductParams(ParamsInput(None, None, None, None, None, None, None, None)).Ok?
  {
  }
}
