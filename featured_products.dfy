/**
 * The "Featured Products" screen of the storefront: the product list it
 * fetches, the product-details dialog with its image gallery, and the
 * "Request Quote" hand-off to the quote-request screen.
 */
module FeaturedProducts {
  import opened Text
  import opened Http
  import opened Gallery

  /** A catalog product as the backend sends it; `price` is decimal text. */
  datatype Product = Product(
    id: int,
    name: string,
    description: string,
    price: string,
    category: string,
    brand: string,
    model: string,
    specifications: seq<string>,
    features: seq<string>,
    images: seq<string>,
    availability: bool,
    featured: bool,
    createdAt: string)

  /**
   * The JSON body of `GET /products/featured`. A key that is absent or null is
   * `None`; a present list, even an empty one, is `Some`.
   */
  datatype FeaturedBody = FeaturedBody(products: Option<seq<Product>>, data: Option<seq<Product>>)

  /** `data.products || data.data || []`: a JavaScript array is truthy even when empty. */
  function DecodeProducts(body: FeaturedBody): seq<Product> {
    match body
    case FeaturedBody(Some(ps), _) => ps
    case FeaturedBody(None, Some(ds)) => ds
    case FeaturedBody(None, None) => []
  }

  /** Either accepted shape yields its list, and a body with neither yields no products. */
  lemma DecodeAcceptsBothShapes(ps: seq<Product>)
    ensures DecodeProducts(FeaturedBody(Some(ps), None)) == ps
    ensures DecodeProducts(FeaturedBody(None, Some(ps))) == ps
    ensures DecodeProducts(FeaturedBody(None, None)) == []
  {
  }

  /** `products` wins over `data` whenever it is present, even when it is empty. */
  lemma DecodePrefersProducts(ps: seq<Product>, ds: seq<Product>)
    ensures DecodeProducts(FeaturedBody(Some(ps), Some(ds))) == ps
  {
  }

  /** The image of the add-to-quote item when a product has none (or an empty first URL). */
  const ItemPlaceholder := "/placeholder.svg"

  /** The item handed to the shared quote accumulator; `price` keeps the product's text. */
  datatype QuoteItem = QuoteItem(
    id: int,
    name: string,
    price: string,
    category: string,
    brand: string,
    model: string,
    image: string,
    quantity: nat)

  /** The product summary passed to the quote-request screen on navigation. */
  datatype QuoteSummary = QuoteSummary(
    id: int,
    name: string,
    description: string,
    price: string,
    category: string,
    brand: string,
    model: string,
    code: string)

  /** What `handleAddToQuote` produces: the accumulator item and the navigation payload. */
  datatype QuoteHandoff = QuoteHandoff(item: QuoteItem, summary: QuoteSummary)

  /** `` `${brand}-${model}`.toUpperCase() `` */
  function QuoteCode(brand: string, model: string): string {
    Upper(brand + "-" + model)
  }

  /** `images[0] || "/placeholder.svg"`: the empty string is falsy as well. */
  function PrimaryImage(images: seq<string>): string {
    if |images| > 0 && images[0] != "" then images[0] else ItemPlaceholder
  }

  function QuoteItemFor(p: Product): QuoteItem {
    QuoteItem(p.id, p.name, p.price, p.category, p.brand, p.model, PrimaryImage(p.images), 1)
  }

  function QuoteSummaryFor(p: Product): QuoteSummary {
    QuoteSummary(p.id, p.name, p.description, p.price, p.category, p.brand, p.model,
                 QuoteCode(p.brand, p.model))
  }

  /**
   * A click on a "Request Quote" button, on a card or in the dialog: the
   * button is disabled unless the product is available, and an enabled click
   * runs `handleAddToQuote`.
   */
  function RequestQuote(p: Product): (r: Option<QuoteHandoff>)
    ensures r.Some? <==> p.availability
    ensures r.Some? ==> r.value.item.id == p.id && r.value.summary.id == p.id
  {
    if p.availability then Some(QuoteHandoff(QuoteItemFor(p), QuoteSummaryFor(p))) else None
  }

  /**
   * The code is the upper-cased brand, a dash and the upper-cased model; it
   * is already upper case, and the brand and model can be read back from it
   * given the brand's length.
   */
  lemma QuoteCodeShape(brand: string, model: string)
    ensures QuoteCode(brand, model) == Upper(brand) + "-" + Upper(model)
    ensures Upper(QuoteCode(brand, model)) == QuoteCode(brand, model)
    ensures |QuoteCode(brand, model)| == |brand| + 1 + |model|
    ensures QuoteCode(brand, model)[..|brand|] == Upper(brand)
    ensures QuoteCode(brand, model)[|brand|] == '-'
    ensures QuoteCode(brand, model)[|brand| + 1..] == Upper(model)
  {
    UpperAppend(brand, "-" + model);
    UpperAppend("-", model);
    assert Upper("-") == "-";
    assert brand + "-" + model == brand + ("-" + model);
    UpperIdempotent(brand + "-" + model);
  }

  /**
   * The item is one unit of the product, pictured by its first image when
   * that is a non-empty URL and by the placeholder otherwise.
   */
  lemma QuoteItemShape(p: Product)
    ensures QuoteItemFor(p).quantity == 1
    ensures QuoteItemFor(p).image != ""
    ensures |p.images| > 0 && p.images[0] != "" ==> QuoteItemFor(p).image == p.images[0]
    ensures |p.images| == 0 || p.images[0] == "" ==> QuoteItemFor(p).image == ItemPlaceholder
    ensures QuoteItemFor(p).image == ItemPlaceholder || QuoteItemFor(p).image in p.images
  {
  }

  /** The featured-products screen's component state. */
  class FeaturedProductsScreen {
    var products: seq<Product>
    var loading: bool
    var selectedProduct: Option<Product>
    var showViewDialog: bool
    var currentImageIndex: int

    /** Number of images of the selected product (none when nothing is selected). */
    function ImageCount(): nat
      reads this
    {
      if selectedProduct.Some? then |selectedProduct.value.images| else 0
    }

    /** The gallery index names an image of the selected product, or is 0 when there is none. */
    ghost predicate Valid()
      reads this
    {
      currentImageIndex == 0 || 0 <= currentImageIndex < ImageCount()
    }

    constructor ()
      ensures products == [] && loading
      ensures selectedProduct == None && !showViewDialog && currentImageIndex == 0
      ensures Valid()
    {
      products := [];
      loading := true;
      selectedProduct := None;
      showViewDialog := false;
      currentImageIndex := 0;
    }

    /**
     * `fetchFeaturedProducts`: a decoded body replaces the list, a failure
     * keeps it, and loading ends either way.
     */
    method FetchFeaturedProducts(response: Outcome<FeaturedBody>)
      modifies this`products, this`loading
      ensures products == if response.Ok? then DecodeProducts(response.body) else old(products)
      ensures !loading
      ensures old(Valid()) ==> Valid()
    {
      if response.Ok? {
        products := DecodeProducts(response.body);
      }
      loading := false;
    }

    /** `handleViewProduct`: select the product, show its first image, open the dialog. */
    method ViewProduct(p: Product)
      modifies this`selectedProduct, this`currentImageIndex, this`showViewDialog
      ensures selectedProduct == Some(p) && currentImageIndex == 0 && showViewDialog
      ensures Valid()
      ensures |p.images| > 0 ==> 0 <= currentImageIndex < |p.images|
    {
      selectedProduct := Some(p);
      currentImageIndex := 0;
      showViewDialog := true;
    }

    /** `nextImage`: step forward cyclically; nothing happens with at most one image. */
    method NextImage()
      modifies this`currentImageIndex
      ensures currentImageIndex ==
        if selectedProduct.Some? && ImageCount() > 1
        then NextIndex(old(currentImageIndex), ImageCount())
        else old(currentImageIndex)
      ensures old(Valid()) ==> Valid()
    {
      if selectedProduct.Some? && |selectedProduct.value.images| > 1 {
        currentImageIndex := JsRemainder(currentImageIndex + 1, |selectedProduct.value.images|);
      }
    }

    /** `prevImage`: step backward cyclically; nothing happens with at most one image. */
    method PrevImage()
      modifies this`currentImageIndex
      ensures currentImageIndex ==
        if selectedProduct.Some? && ImageCount() > 1
        then PrevIndex(old(currentImageIndex), ImageCount())
        else old(currentImageIndex)
      ensures old(Valid()) ==> Valid()
    {
      if selectedProduct.Some? && |selectedProduct.value.images| > 1 {
        var n := |selectedProduct.value.images|;
        currentImageIndex := JsRemainder(currentImageIndex - 1 + n, n);
      }
    }

    /**
     * A click on the i-th gallery dot; the dots are drawn only for a selected
     * product with more than one image, one per image.
     */
    method ShowImage(i: int)
      requires selectedProduct.Some? && ImageCount() > 1 && 0 <= i < ImageCount()
      modifies this`currentImageIndex
      ensures currentImageIndex == i
      ensures Valid()
    {
      currentImageIndex := i;
    }

    /** Dismissing the dialog closes it and keeps the selection and the index. */
    method CloseDialog()
      modifies this`showViewDialog
      ensures !showViewDialog
      ensures old(Valid()) ==> Valid()
    {
      showViewDialog := false;
    }

    /**
     * The "Request Quote" button of a product card; cards are drawn once
     * loading is over, one per fetched product.
     */
    method RequestQuoteFromCard(p: Product) returns (handoff: Option<QuoteHandoff>)
      requires !loading && p in products
      ensures handoff.Some? <==> p.availability
      ensures handoff.Some? ==> handoff.value == QuoteHandoff(QuoteItemFor(p), QuoteSummaryFor(p))
    {
      handoff := RequestQuote(p);
    }

    /**
     * The "Request Quote" button of the open dialog: an enabled click hands
     * the selected product off and closes the dialog; a disabled one does
     * nothing.
     */
    method RequestQuoteFromDialog() returns (handoff: Option<QuoteHandoff>)
      requires showViewDialog && selectedProduct.Some?
      modifies this`showViewDialog
      ensures handoff.Some? <==> selectedProduct.value.availability
      ensures handoff.Some? ==>
        handoff.value == QuoteHandoff(QuoteItemFor(selectedProduct.value), QuoteSummaryFor(selectedProduct.value))
      ensures showViewDialog == !selectedProduct.value.availability
      ensures old(Valid()) ==> Valid()
    {
      handoff := RequestQuote(selectedProduct.value);
      if handoff.Some? {
        showViewDialog := false;
      }
    }
  }
}
