/**
 * The product page of src/pages/productPage.tsx: the product list with in-place editing
 * and deletion, the search-driven fetch, the cart badge, and the order in which the login
 * prompt, the loading message, the error message and the grid take precedence.
 */
module ProductPage {
  import opened Wrappers
  import opened CartContext
  import opened Search
  import opened Lists

  /** The product fields the page reads or writes; the others stay as they came. */
  datatype Product = Product(
    id: int, title: string, description: string, price: real, category: string,
    thumbnail: string, brand: string, rating: real)

  /** The four editable fields: the edit buffers, the PUT body and the fields taken back from
      the server's response. */
  datatype ProductFields = ProductFields(title: string, price: real, description: string, category: string)

  /** How `axios.put` settled: thrown, or resolved with the response's data. */
  datatype SaveOutcome = PutThrew | PutResolved(data: ProductFields)

  /** How `axios.delete` settled. */
  datatype DeleteOutcome = DeleteThrew | DeleteResolved

  /** How `axios.get` settled: thrown, or resolved with `response.data.products`. */
  datatype FetchOutcome = GetThrew | GetResolved(products: seq<Product>)

  /** What the page renders. In the grid, the row whose id is `editingId` shows the edit form,
      and `notFound` is the "can't be found" line. */
  datatype PageView =
    | LoginPrompt
    | LoadingProducts
    | ErrorMessage(message: string)
    | ProductGrid(badge: nat, products: seq<Product>, editingId: Option<int>, notFound: bool)

  const CatalogUrl := "https://dummyjson.com/products"
  const SearchUrlPrefix := "https://dummyjson.com/products/search?q="
  const UpdateError := "Failed to update product"
  const DeleteError := "Failed to delete product"
  const FetchError := "Failed to fetch products. Please try again."

  function FieldsOf(p: Product): ProductFields {
    ProductFields(p.title, p.price, p.description, p.category)
  }

  /** The line `addToCart` receives for a product: `Product` has no quantity, and addToCart
      never reads the one given. */
  function CartItemOf(p: Product): CartItem {
    CartItem(p.id, p.title, p.price, 0, p.thumbnail)
  }

  /** The `prev.map(...)` of a successful save: products with the id take the four fields of
      the response. */
  function ApplySave(products: seq<Product>, id: int, data: ProductFields): (r: seq<Product>)
    ensures |r| == |products| && forall i :: 0 <= i < |r| ==> r[i].id == products[i].id
    ensures forall i :: 0 <= i < |r| ==> products[i].id != id ==> r[i] == products[i]
  {
    seq(|products|, i requires 0 <= i < |products| =>
      if products[i].id == id
      then products[i].(title := data.title, price := data.price,
                        description := data.description, category := data.category)
      else products[i])
  }

  /** A product's key for the id filter of a delete, `prev.filter(product => product.id !== id)`. */
  function ProductId(p: Product): int {
    p.id
  }

  /** The URL the fetch effect requests: an empty (falsy) query fetches the whole catalogue,
      any other query the search endpoint with `q=` and the query verbatim. */
  function ProductsUrl(searchQuery: string): (url: string)
    ensures url == CatalogUrl <==> searchQuery == ""
    ensures searchQuery != "" ==>
      |url| > |SearchUrlPrefix| && url[..|SearchUrlPrefix|] == SearchUrlPrefix &&
      url[|SearchUrlPrefix|..] == searchQuery
  {
    assert |SearchUrlPrefix| > |CatalogUrl|;
    if searchQuery != "" then SearchUrlPrefix + searchQuery else CatalogUrl
  }

  /** The render's precedence: no user, then loading, then a truthy error, then the grid. */
  function PageViewOf(signedIn: bool, loading: bool, error: Option<string>, products: seq<Product>,
                      editing: Option<Product>, cartLines: nat): (v: PageView)
    ensures !signedIn ==> v == LoginPrompt
    ensures signedIn && loading ==> v == LoadingProducts
    ensures signedIn && !loading && Truthy(error) ==> v == ErrorMessage(error.value)
    ensures signedIn && !loading && !Truthy(error) ==>
      v.ProductGrid? && v.badge == cartLines && v.products == products &&
      (v.notFound <==> products == []) &&
      (v.editingId.Some? <==> editing.Some?) &&
      (editing.Some? ==> v.editingId.value == editing.value.id)
  {
    if !signedIn then LoginPrompt
    else if loading then LoadingProducts
    else if Truthy(error) then ErrorMessage(error.value)
    else ProductGrid(cartLines, products,
                     if editing.Some? then Some(editing.value.id) else None, |products| == 0)
  }

  // ---------------------------------------------------------------------------
  // Properties of the list transforms and the URL choice

  /** A save replaces title, price, description and category of exactly the products with the
      id, from the response, and keeps every other field, every other product, the length and
      the order. */
  lemma SaveEditsMatchingOnly(products: seq<Product>, id: int, data: ProductFields)
    ensures var r := ApplySave(products, id, data);
      |r| == |products| &&
      forall i :: 0 <= i < |r| ==>
        r[i].id == products[i].id && r[i].thumbnail == products[i].thumbnail &&
        r[i].brand == products[i].brand && r[i].rating == products[i].rating &&
        (products[i].id == id ==> FieldsOf(r[i]) == data) &&
        (products[i].id != id ==> r[i] == products[i])
  {
  }

  /** Saving the same response twice is saving it once; saving for an id no product has
      changes nothing. */
  lemma SaveIdempotent(products: seq<Product>, id: int, data: ProductFields)
    ensures ApplySave(ApplySave(products, id, data), id, data) == ApplySave(products, id, data)
    ensures (forall i :: 0 <= i < |products| ==> products[i].id != id) ==> ApplySave(products, id, data) == products
  {
  }

  /** Different queries request different URLs: the query can be read back from the URL. */
  lemma ProductsUrlInjective(a: string, b: string)
    requires ProductsUrl(a) == ProductsUrl(b)
    ensures a == b
  {
  }

  /** What the search box submits (its text trimmed) fetches the whole catalogue exactly
      when the typed text is empty or all whitespace. */
  lemma SubmittedSearchUrl(typed: string)
    ensures ProductsUrl(Trim(typed)) == CatalogUrl <==> AllWhitespace(typed)
  {
    TrimEmptyIffWhitespace(typed);
  }

  // ---------------------------------------------------------------------------
  // The page's state

  class ProductsPage {
    const cart: CartProvider
    var products: seq<Product>
    var loading: bool
    var error: Option<string>
    var searchQuery: string
    var editingProduct: Option<Product>
    var editTitle: string
    var editPrice: real
    var editDescription: string
    var editCategory: string

    ghost predicate Valid()
      reads this, cart
    {
      cart.Valid()
    }

    /** The `useState` initial values; the page shares the provider's cart. */
    constructor (cart: CartProvider)
      requires cart.Valid()
      ensures Valid() && this.cart == cart
      ensures products == [] && loading && error == None && searchQuery == ""
      ensures editingProduct == None && editTitle == "" && editPrice == 0.0
      ensures editDescription == "" && editCategory == ""
    {
      this.cart := cart;
      products, loading, error, searchQuery := [], true, None, "";
      editingProduct := None;
      editTitle, editPrice, editDescription, editCategory := "", 0.0, "", "";
    }

    /** The four edit buffers, in the order of the PUT body. */
    function EditBuffers(): ProductFields
      reads this
    {
      ProductFields(editTitle, editPrice, editDescription, editCategory)
    }

    function View(signedIn: bool): PageView
      reads this, cart
    {
      PageViewOf(signedIn, loading, error, products, editingProduct, |cart.cartItems|)
    }

    /** handleEditClick: enter edit mode for the product, with its four fields in the
        buffers. */
    method HandleEditClick(product: Product)
      requires Valid()
      modifies this
      ensures Valid()
      ensures editingProduct == Some(product)
      ensures EditBuffers() == FieldsOf(product)
      ensures products == old(products) && loading == old(loading) && error == old(error)
      ensures searchQuery == old(searchQuery)
    {
      editingProduct := Some(product);
      editTitle := product.title;
      editPrice := product.price;
      editDescription := product.description;
      editCategory := product.category;
    }

    /** The four inputs' onChange handlers: each overwrites its own buffer. */
    method EditInput(fields: ProductFields)
      requires Valid()
      modifies this
      ensures Valid()
      ensures EditBuffers() == fields
      ensures products == old(products) && editingProduct == old(editingProduct)
      ensures loading == old(loading) && error == old(error) && searchQuery == old(searchQuery)
    {
      editTitle := fields.title;
      editPrice := fields.price;
      editDescription := fields.description;
      editCategory := fields.category;
    }

    /** handleSaveEdit: PUT the buffers; on success take the response's four fields into the
        products with the id and leave edit mode; on failure keep the list and edit mode and
        set the error. */
    method HandleSaveEdit(id: int, outcome: SaveOutcome) returns (request: ProductFields)
      requires Valid()
      modifies this
      ensures Valid()
      ensures request == old(EditBuffers())
      ensures outcome.PutResolved? ==>
        products == ApplySave(old(products), id, outcome.data) && editingProduct == None &&
        error == old(error)
      ensures outcome.PutThrew? ==>
        products == old(products) && editingProduct == old(editingProduct) &&
        error == Some(UpdateError)
      ensures loading == old(loading) && searchQuery == old(searchQuery)
      ensures EditBuffers() == request
    {
      request := ProductFields(editTitle, editPrice, editDescription, editCategory);
      match outcome
      case PutResolved(data) =>
        products := ApplySave(products, id, data);
        editingProduct := None;
      case PutThrew =>
        error := Some(UpdateError);
    }

    /** handleCancelEdit: leave edit mode, touching nothing else. */
    method HandleCancelEdit()
      requires Valid()
      modifies this
      ensures Valid()
      ensures editingProduct == None
      ensures products == old(products) && loading == old(loading) && error == old(error)
      ensures searchQuery == old(searchQuery)
      ensures EditBuffers() == old(EditBuffers())
    {
      editingProduct := None;
    }

    /** handleDelete: nothing unless the user confirms; then a resolved DELETE removes the
        product from the list and a thrown one sets the error. */
    method HandleDelete(id: int, confirmed: bool, outcome: DeleteOutcome)
      requires Valid()
      modifies this
      ensures Valid()
      ensures !confirmed ==> products == old(products) && error == old(error)
      ensures confirmed && outcome.DeleteResolved? ==>
        products == FilterOutId(old(products), ProductId, id) && error == old(error)
      ensures confirmed && outcome.DeleteThrew? ==>
        products == old(products) && error == Some(DeleteError)
      ensures editingProduct == old(editingProduct) && loading == old(loading)
      ensures searchQuery == old(searchQuery) && EditBuffers() == old(EditBuffers())
    {
      if !confirmed {
        return;
      }
      match outcome
      case DeleteResolved =>
        products := FilterOutId(products, ProductId, id);
      case DeleteThrew =>
        error := Some(DeleteError);
    }

    /** The search box's `onSearch`: store the query; the fetch effect runs again only when
        the query differs from the stored one. */
    method OnSearch(query: string) returns (refetch: bool)
      requires Valid()
      modifies this
      ensures Valid()
      ensures searchQuery == query && refetch == (query != old(searchQuery))
      ensures products == old(products) && loading == old(loading) && error == old(error)
      ensures editingProduct == old(editingProduct) && EditBuffers() == old(EditBuffers())
    {
      refetch := query != searchQuery;
      searchQuery := query;
    }

    /** The start of the fetch effect: loading is set and the URL chosen from the query. */
    method StartFetch() returns (url: string)
      requires Valid()
      modifies this
      ensures Valid()
      ensures loading && url == ProductsUrl(searchQuery)
      ensures products == old(products) && error == old(error) && searchQuery == old(searchQuery)
      ensures editingProduct == old(editingProduct) && EditBuffers() == old(EditBuffers())
    {
      loading := true;
      url := ProductsUrl(searchQuery);
    }

    /** The end of the fetch effect: the fetched list replaces the products, or the fetch
        error is set; loading ends either way. A success does not clear an earlier error. */
    method FinishFetch(outcome: FetchOutcome)
      requires Valid()
      modifies this
      ensures Valid()
      ensures !loading
      ensures outcome.GetResolved? ==> products == outcome.products && error == old(error)
      ensures outcome.GetThrew? ==> products == old(products) && error == Some(FetchError)
      ensures searchQuery == old(searchQuery) && editingProduct == old(editingProduct)
      ensures EditBuffers() == old(EditBuffers())
    {
      match outcome {
        case GetResolved(fetched) =>
          products := fetched;
        case GetThrew =>
          error := Some(FetchError);
      }
      loading := false;
    }

    /** The grid's "Add to Cart" button: hands the product to the shared cart. */
    method OnAddToCart(product: Product, outcome: PostOutcome) returns (request: AddCartPayload)
      requires Valid()
      modifies cart
      ensures Valid()
      ensures request.userId == RequestUserId && request.products == [ProductQuantity(product.id, 1)]
      ensures outcome.Parsed? ==> cart.cartItems == AddUpdate(old(cart.cartItems), CartItemOf(product))
      ensures !outcome.Parsed? ==> cart.cartItems == old(cart.cartItems)
    {
      request := cart.AddToCart(CartItemOf(product), outcome);
    }
  }

  /** The badge the grid shows counts cart lines, which in a well-formed cart is the number
      of distinct products and at most the total quantity. */
  lemma CartBadge(page: ProductsPage)
    requires page.Valid() && page.View(true).ProductGrid?
    ensures page.View(true).badge == |IdSet(page.cart.cartItems)|
    ensures page.View(true).badge <= TotalQuantity(page.cart.cartItems)
  {
    BadgeCountsDistinctProducts(page.cart.cartItems);
    BadgeAtMostTotalQuantity(page.cart.cartItems);
  }
}
