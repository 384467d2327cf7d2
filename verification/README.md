# Storefront state model

A Dafny model of the state logic in a React storefront that talks to the dummyjson
catalogue API. The model covers:

- **the cart provider**: a list of cart lines keyed by product id. `addToCart` merges or
  appends a line, `removeFromCart` filters lines out and `clearCart` empties the list;
- **the product page**: editing a product in place, deleting a product after confirmation,
  choosing the fetch URL from the search query, the cart badge, and which view takes
  precedence;
- **the two category views**: the hyphen-to-space label, normalising the categories payload,
  and the "All" / per-category highlight rule;
- **the search box**: typing into it, and trimming the submitted query.

Every remote call (`fetch`, `axios`, `response.json()`) is an input to the model. The input
says how the call settled (it resolved with a value, or it threw). The model states only the
state change that follows. Each React component with state is a class. Its `useState` slots
are fields, and each handler is a method whose `ensures` gives the whole new state. The list
transforms inside the handlers (`find`, `map`, `filter`, the spread-append) are pure
functions, and the lemmas state their properties.

Module layout, one per source file:

| module | file |
|---|---|
| `Wrappers` | `Option` for `null`/`undefined`, and JavaScript truthiness of `string \| null` |
| `Lists` | `lists.dfy`: the id filter that the cart's remove and the page's delete both apply |
| `CartContext` | `cart_context.dfy`: src/context/CartContext.tsx |
| `ProductPage` | `product_page.dfy`: src/pages/productPage.tsx |
| `CategoryLabel` | `category_label.dfy`: the `replace(/-/g, ' ')` label both category views use |
| `CategoryListForm` | `category_list_form.dfy`: src/pages/CategoryListForm.tsx |
| `CategoryList` | `category_list.dfy`: src/pages/CategoryList.tsx |
| `Search` | `search_bar.dfy`: src/pages/SearchBar.tsx |

The cart follows the code, which updates only after the server answers. `addToCart` waits
for the POST and its JSON body, and only then updates the list. A non-OK HTTP status still
counts as success. A thrown call leaves the list as it was. The code has no optimistic update
with rollback, no set-quantity operation and no price total, so the model has none either.
The badge shows the number of lines, not the sum of quantities.

Other behaviour of the code that the model keeps:

- The product page never clears `error`. A later successful fetch, save or delete leaves an
  earlier error in place, so the page keeps showing the error message.
- `if (error)` treats `""` as false, and so does the model.
- An object payload with no `categories` field sets the category list to `undefined`. The
  model renders that as `RenderThrows`, because `.map` throws on `undefined`.

## Model

| member | source | states |
|---|---|---|
| `CartContext.Find` | APi-project/src/context/CartContext.tsx:41 | finds a line exactly when the id is in the cart; the line found has that id and is the first line with it |
| `CartContext.IncrementLine` | APi-project/src/context/CartContext.tsx:43-47 | the `map` keeps length, positions and the id set; a line changes only in its quantity, and changes exactly when its id is the added one |
| `CartContext.AddUpdate` | APi-project/src/context/CartContext.tsx:40-50 | after an add, the ids are the old ids plus the product's; the cart grows by one line exactly when the id was new (AddExisting, AddAbsent, AddIncrementsQuantity and AddPreservesWellformed give the rest) |
| `CartContext.AddRequest` | APi-project/src/context/CartContext.tsx:30-33 | the POST body names user 1 and exactly one product, this product's id with quantity 1 |
| `CartContext.AddExisting` | APi-project/src/context/CartContext.tsx:41-47 | adding a product already in the cart keeps the length; each line with that id gains exactly 1 in quantity and keeps its id, title, price and thumbnail; every other line is unchanged |
| `CartContext.AddAbsent` | APi-project/src/context/CartContext.tsx:49 | adding a product not in the cart keeps the existing lines in order and appends one line with its id, title, price and thumbnail and quantity 1, whatever quantity the argument carried |
| `CartContext.AddPreservesWellformed` | APi-project/src/context/CartContext.tsx:40-50 | the add updater keeps ids unique and every quantity at least 1 |
| `CartContext.AddIncrementsQuantity` | APi-project/src/context/CartContext.tsx:41-49 | in a well-formed cart, an add raises that product's quantity by exactly 1 (from 0 when absent) and leaves every other product's quantity alone |
| `CartContext.FindInWellformed` | APi-project/src/context/CartContext.tsx:41 | when ids are unique, `find` returns the one line with the id |
| `CartContext.AddRepeated` | APi-project/src/context/CartContext.tsx:40-50 | n parsed adds of one product raise its quantity by exactly n and keep the cart well formed |
| `CartContext.RemoveUpdate` | APi-project/src/context/CartContext.tsx:57 | after removal, the ids are the old ids minus the removed one; it is the shared id filter (`Lists.FilterOutId`) keyed on the line id |
| `CartContext.RemoveKeepsUnique` | APi-project/src/context/CartContext.tsx:57 | filtering keeps ids unique |
| `CartContext.RemovePreservesWellformed` | APi-project/src/context/CartContext.tsx:57 | removal keeps ids unique and quantities at least 1 |
| `CartContext.RemoveAbsentIsNoOp` | APi-project/src/context/CartContext.tsx:57 | removal leaves the cart unchanged if and only if the id is not in it |
| `CartContext.Apply` | APi-project/src/context/CartContext.tsx:25-62 | one add, remove or clear: an add whose POST or JSON body threw leaves the cart as it was; a parsed add adds the product's id; a remove takes exactly its id out; a clear empties the cart; each keeps ids unique and quantities at least 1 |
| `CartContext.Replay` | APi-project/src/context/CartContext.tsx:22-61 | from a well-formed cart (the empty initial one included), any sequence of add (whatever its outcome), remove and clear leaves ids unique and quantities at least 1 |
| `Lists.FilterOutId` | APi-project/src/context/CartContext.tsx:57 | the id filter shared by `removeFromCart` and the product delete (productPage.tsx:84): the elements kept are exactly those whose id differs, and the list never grows |
| `Lists.FilterDistributes` | APi-project/src/context/CartContext.tsx:57 | filtering a concatenation filters each part in place, so the surviving elements keep their relative order (for cart lines and for products alike) |
| `Lists.FilterNoOpIffAbsent` | APi-project/src/pages/productPage.tsx:84 | the filter leaves the list unchanged if and only if no element has the id |
| `CartContext.CartProvider.constructor` | APi-project/src/context/CartContext.tsx:22 | the cart starts empty, and empty is well formed |
| `CartContext.CartProvider.AddToCart` | APi-project/src/context/CartContext.tsx:25-54 | sends quantity 1 for the one product; when the POST and `response.json()` resolve, whatever the HTTP status, the cart becomes the merge/append update; when either throws, the cart is unchanged; the invariant holds |
| `CartContext.CartProvider.RemoveFromCart` | APi-project/src/context/CartContext.tsx:56-58 | the cart becomes the filtered list; the invariant holds |
| `CartContext.CartProvider.ClearCart` | APi-project/src/context/CartContext.tsx:60-62 | the cart becomes empty whatever it held, so a second call changes nothing |
| `CartContext.BadgeCountsDistinctProducts` | APi-project/src/pages/productPage.tsx:141 | when ids are unique, the number of cart lines equals the number of distinct product ids |
| `CartContext.BadgeAtMostTotalQuantity` | APi-project/src/pages/productPage.tsx:141 | in a well-formed cart the line count is at most the sum of quantities, and equals it exactly when every quantity is 1 |
| `ProductPage.CartBadge` | APi-project/src/pages/productPage.tsx:141 | the badge the grid shows equals the number of distinct products in the cart, and is never more than the total quantity |
| `ProductPage.PageViewOf` | APi-project/src/pages/productPage.tsx:110-141 | no user shows the login prompt; otherwise loading shows the loading message; otherwise a truthy error shows the error message; otherwise the grid shows, with the cart line count as badge, the row being edited, and the "can't be found" line exactly when the list is empty |
| `ProductPage.ApplySave` | APi-project/src/pages/productPage.tsx:53-65 | the save's `map` keeps the length and each position's id, and leaves every product with another id as it was |
| `ProductPage.SaveEditsMatchingOnly` | APi-project/src/pages/productPage.tsx:53-65 | a save keeps length, order and each product's id, thumbnail, brand and rating; products with the id take the response's title, price, description and category; all other products are unchanged |
| `ProductPage.SaveIdempotent` | APi-project/src/pages/productPage.tsx:53-65 | applying the same response twice gives the same list as applying it once; a save for an absent id changes nothing |
| `ProductPage.ProductsUrl` | APi-project/src/pages/productPage.tsx:95-97 | the full-catalogue URL is chosen if and only if the query is empty; any other query gives the search URL followed by the query verbatim |
| `ProductPage.ProductsUrlInjective` | APi-project/src/pages/productPage.tsx:95-97 | different queries request different URLs, so a non-empty query is carried verbatim after `q=` |
| `ProductPage.SubmittedSearchUrl` | APi-project/src/pages/productPage.tsx:95-97 | a query submitted from the search box fetches the full catalogue exactly when the typed text is empty or all whitespace |
| `ProductPage.ProductsPage.constructor` | APi-project/src/pages/productPage.tsx:11-25 | initial state: no products, loading, no error, empty query, not editing, empty buffers and price 0 |
| `ProductPage.ProductsPage.HandleEditClick` | APi-project/src/pages/productPage.tsx:32-38 | edit mode holds the product, and the four buffers hold its title, price, description and category; the list, loading, error and query are unchanged |
| `ProductPage.ProductsPage.EditInput` | APi-project/src/pages/productPage.tsx:165-186 | the inputs overwrite the buffers and nothing else |
| `ProductPage.ProductsPage.HandleSaveEdit` | APi-project/src/pages/productPage.tsx:41-71 | the PUT carries the four buffers; on success the list takes the response's fields for that id and edit mode ends; on failure the list and edit mode stay and the error becomes 'Failed to update product' |
| `ProductPage.ProductsPage.HandleCancelEdit` | APi-project/src/pages/productPage.tsx:74-76 | edit mode ends; the list, buffers, loading, error and query are unchanged |
| `ProductPage.ProductsPage.HandleDelete` | APi-project/src/pages/productPage.tsx:79-89 | a declined confirmation changes nothing (list, error, edit mode, buffers, loading, query); a resolved DELETE removes that id's products; a thrown one keeps the list and sets 'Failed to delete product' |
| `ProductPage.ProductsPage.OnSearch` | APi-project/src/pages/productPage.tsx:150 | the submitted query is stored, and the fetch effect runs again only when the query changed; nothing else changes, edit buffers included |
| `ProductPage.ProductsPage.StartFetch` | APi-project/src/pages/productPage.tsx:93-98 | loading starts, and the URL is the one the query selects; nothing else changes |
| `ProductPage.ProductsPage.FinishFetch` | APi-project/src/pages/productPage.tsx:99-105 | a resolved GET replaces the list and a thrown one sets the fetch error; loading ends either way; an earlier error is never cleared; edit mode and buffers stay |
| `ProductPage.ProductsPage.OnAddToCart` | APi-project/src/pages/productPage.tsx:227 | the grid's button runs the cart's add on the product, with the same outcomes as `addToCart` |
| `CategoryLabel.FormatLabel` | APi-project/src/pages/CategoryListForm.tsx:49 | the label has the category's length; each `-` becomes a space and every other character is kept in place |
| `CategoryLabel.LabelHasNoHyphen` | APi-project/src/pages/CategoryListForm.tsx:49 | no label contains `-` |
| `CategoryLabel.LabelUnchangedIffNoHyphen` | APi-project/src/pages/CategoryList.tsx:35 | a category is shown exactly as written if and only if it has no `-` |
| `CategoryLabel.FormatLabelIdempotent` | APi-project/src/pages/CategoryListForm.tsx:49 | formatting a label again returns the same string |
| `CategoryListForm.Normalise` | APi-project/src/pages/CategoryListForm.tsx:12 | an array payload is the category list as it is; otherwise the object's `categories` field is the list (undefined when missing) |
| `CategoryListForm.FormViewOf` | APi-project/src/pages/CategoryListForm.tsx:23-52 | while loading, the loading message shows even when an error is set; then a truthy error; then one formatted label per category, or a failing render when the list is undefined |
| `CategoryListForm.ItemsHaveNoHyphen` | APi-project/src/pages/CategoryListForm.tsx:43-52 | every rendered label is free of `-` and as long as its category |
| `CategoryListForm.CategoryListForm.constructor` | APi-project/src/pages/CategoryListForm.tsx:4-6 | the initial state is an empty list, loading, and no error |
| `CategoryListForm.CategoryListForm.FetchSettled` | APi-project/src/pages/CategoryListForm.tsx:9-20 | on success the normalised payload becomes the list; on failure the error is 'Failed to fetch categories.' and the list stays; loading ends either way |
| `CategoryListForm.LoadPage` | APi-project/src/pages/CategoryListForm.tsx:8-37 | a fresh page first shows the loading message; after the fetch settles it shows the error message on failure, or the labels of the normalised payload (a failing render when the payload has no list) |
| `CategoryList.AllButton` | APi-project/src/pages/CategoryList.tsx:12-22 | the "All" button selects `null` and is highlighted exactly when the selection is `null` |
| `CategoryList.CategoryButtons` | APi-project/src/pages/CategoryList.tsx:23-38 | one button per category, in order; each passes its raw category to the click handler, shows the formatted label, and is highlighted exactly when it equals the selection |
| `CategoryList.Buttons` | APi-project/src/pages/CategoryList.tsx:11-39 | "All" comes first; when the categories are not an array or are empty, only "All" is produced; otherwise the category buttons follow |
| `CategoryList.HighlightedIffSelected` | APi-project/src/pages/CategoryList.tsx:16-30 | every button is highlighted exactly when the value its click passes equals the current selection |
| `CategoryList.AllExcludesCategories` | APi-project/src/pages/CategoryList.tsx:16-30 | "All" and a category button are never highlighted together |
| `CategoryList.CategoryButtonPassesRawName` | APi-project/src/pages/CategoryList.tsx:28-35 | a category's button passes the raw category and shows a label with no `-`, of the same length |
| `Search.TrimStart` | APi-project/src/pages/SearchBar.tsx:12 | the result is the suffix left once the all-whitespace prefix is dropped, and it does not start with whitespace |
| `Search.TrimEnd` | APi-project/src/pages/SearchBar.tsx:12 | the result is the prefix left once the all-whitespace suffix is dropped, and it does not end with whitespace |
| `Search.Trim` | APi-project/src/pages/SearchBar.tsx:12 | `trim` returns a string no longer than the input, with no whitespace at either end |
| `Search.TrimIsInfix` | APi-project/src/pages/SearchBar.tsx:12 | the trimmed query is a contiguous slice of the typed text, with only whitespace cut from either side |
| `Search.TrimOfTrimmed` | APi-project/src/pages/SearchBar.tsx:12 | a string with no whitespace at either end trims to itself |
| `Search.TrimIdempotent` | APi-project/src/pages/SearchBar.tsx:12 | trimming again changes nothing |
| `Search.TrimEmptyIffWhitespace` | APi-project/src/pages/SearchBar.tsx:12 | the query trims to `""` if and only if it is empty or all whitespace |
| `Search.SearchBar.constructor` | APi-project/src/pages/SearchBar.tsx:8 | the query starts as `""` |
| `Search.SearchBar.OnChange` | APi-project/src/pages/SearchBar.tsx:26 | the query becomes the input's value, untrimmed |
| `Search.SearchBar.HandleSubmit` | APi-project/src/pages/SearchBar.tsx:10-13 | the submitted string is the trimmed query; it has no surrounding whitespace, and it is `""` exactly when the query is empty or all whitespace |

## Left out

- All HTTP transport (`fetch`, `axios`): each call is an outcome parameter, resolved or thrown. Overlapping requests that settle out of order are not modelled.
- The request URLs of the PUT and DELETE (`/products/${id}`) are not modelled. URL-encoding of the search query is also left out: the model treats the URL as a plain string.
- Fields of the server's responses that are missing (`undefined`) are not modelled. A resolved save always carries the four fields, and a resolved fetch always carries a product list.
- JavaScript numbers are modelled as unbounded integers (ids, quantities) and as `real` (prices). Floating-point rounding of `quantity + 1` beyond 2^53 is not modelled.
- Cart lines carry id, title, price, quantity and thumbnail. The other product fields that the spread copies into a line are not modelled.
- Categories are strings only. The `JSON.stringify` fallback and the `Math.random()` key for non-string categories are not modelled.
- `useCart`/`useAuth` throw outside their providers; this is not modelled. The signed-in user is a boolean input to the page view, and the login itself is not modelled.
- `handleViewDetails` (navigation) and all markup apart from the view choices above are not modelled.
- React batching and re-render scheduling are not modelled. Each handler is one atomic state update, and the fetch effect is split at its `await` into `StartFetch` and `FinishFetch`.
