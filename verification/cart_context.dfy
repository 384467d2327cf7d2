/**
 * The cart provider of src/context/CartContext.tsx: a list of cart lines keyed by
 * product id, updated by addToCart (after the remote POST and its JSON body resolve),
 * removeFromCart and clearCart.
 */
module CartContext {
  import opened Wrappers
  import opened Lists

  /** One cart line; `price` is carried, never computed with. */
  datatype CartItem = CartItem(id: int, title: string, price: real, quantity: int, thumbnail: string)

  /** One entry of the request body's `products` array. */
  datatype ProductQuantity = ProductQuantity(id: int, quantity: int)

  /** The JSON body that addToCart POSTs to the remote cart service. */
  datatype AddCartPayload = AddCartPayload(userId: int, products: seq<ProductQuantity>)

  /** How the `fetch` call and the following `response.json()` ended. */
  datatype PostOutcome =
    | FetchThrew            // transport failure: `fetch` rejected
    | JsonThrew(status: int) // a response arrived but its body was not JSON
    | Parsed(status: int)    // a response arrived and its body parsed, whatever its status

  /** The user id the request hard-codes. */
  const RequestUserId := 1

  /** No two lines share a product id. */
  ghost predicate UniqueIds(items: seq<CartItem>) {
    forall i, j :: 0 <= i < j < |items| ==> items[i].id != items[j].id
  }

  /** The invariant the cart keeps: unique ids and every quantity at least 1. */
  ghost predicate Wellformed(items: seq<CartItem>) {
    UniqueIds(items) && forall i :: 0 <= i < |items| ==> items[i].quantity >= 1
  }

  /** The set of product ids present in the cart. */
  ghost function IdSet(items: seq<CartItem>): set<int> {
    set i | 0 <= i < |items| :: items[i].id
  }

  /** Two lists with the same ids position by position have the same id set. */
  lemma IdSetOfSameIds(a: seq<CartItem>, b: seq<CartItem>)
    requires |a| == |b| && forall i :: 0 <= i < |a| ==> a[i].id == b[i].id
    ensures IdSet(a) == IdSet(b)
  {
    forall x | x in IdSet(a) ensures x in IdSet(b) {
      var i :| 0 <= i < |a| && a[i].id == x;
      assert b[i].id == x;
    }
    forall x | x in IdSet(b) ensures x in IdSet(a) {
      var i :| 0 <= i < |b| && b[i].id == x;
      assert a[i].id == x;
    }
  }

  /** Appending a line adds exactly its id. */
  lemma IdSetOfAppend(a: seq<CartItem>, line: CartItem)
    ensures IdSet(a + [line]) == IdSet(a) + {line.id}
  {
    var r := a + [line];
    forall x | x in IdSet(r) ensures x in IdSet(a) + {line.id} {
      var i :| 0 <= i < |r| && r[i].id == x;
      if i < |a| { assert a[i].id == x; }
    }
    forall x | x in IdSet(a) ensures x in IdSet(r) {
      var i :| 0 <= i < |a| && a[i].id == x;
      assert r[i].id == x;
    }
    assert r[|a|].id == line.id;
  }

  /** `prev.find(item => item.id === id)`: the first line with that id, if any. */
  function Find(items: seq<CartItem>, id: int): (r: Option<CartItem>)
    ensures r.Some? <==> id in IdSet(items)
    ensures r.Some? ==> r.value.id == id
    ensures r.Some? ==> exists k :: (0 <= k < |items| && items[k] == r.value &&
                                     forall j :: 0 <= j < k ==> items[j].id != id)
  {
    if items == [] then None
    else if items[0].id == id then
      Some(items[0])
    else
      var r := Find(items[1..], id);
      assert IdSet(items) == {items[0].id} + IdSet(items[1..]) by {
        forall x | x in IdSet(items) ensures x in {items[0].id} + IdSet(items[1..]) {
          var i :| 0 <= i < |items| && items[i].id == x;
          if i > 0 { assert items[1..][i - 1].id == x; }
        }
        forall x | x in IdSet(items[1..]) ensures x in IdSet(items) {
          var i :| 0 <= i < |items[1..]| && items[1..][i].id == x;
          assert items[i + 1].id == x;
        }
      }
      if r.Some? then
        assert exists k :: (0 <= k < |items| && items[k] == r.value &&
          forall j :: 0 <= j < k ==> items[j].id != id) by {
          var k :| 0 <= k < |items[1..]| && items[1..][k] == r.value &&
            forall j :: 0 <= j < k ==> items[1..][j].id != id;
          assert items[k + 1] == r.value;
          forall j | 0 <= j < k + 1 ensures items[j].id != id {
            if j > 0 { assert items[j] == items[1..][j - 1]; }
          }
        }
        r
      else r
  }

  /** `prev.map(...)`: every line with the id gets its quantity raised by one. The lines keep
      their places and ids, and only a quantity ever changes. */
  function IncrementLine(items: seq<CartItem>, id: int): (r: seq<CartItem>)
    ensures |r| == |items| && IdSet(r) == IdSet(items)
    ensures forall i :: 0 <= i < |r| ==> r[i] == items[i].(quantity := r[i].quantity)
    ensures forall i :: 0 <= i < |r| ==> (r[i] == items[i] <==> items[i].id != id)
  {
    var r := seq(|items|, i requires 0 <= i < |items| =>
      if items[i].id == id then items[i].(quantity := items[i].quantity + 1) else items[i]);
    IdSetOfSameIds(r, items);
    r
  }

  /** The state updater addToCart hands to `setCartItems`: afterwards the product's id is in
      the cart, no other id appears, and the cart grows by one line exactly when the id was
      new. */
  function AddUpdate(prev: seq<CartItem>, product: CartItem): (r: seq<CartItem>)
    ensures IdSet(r) == IdSet(prev) + {product.id}
    ensures |r| == if product.id in IdSet(prev) then |prev| else |prev| + 1
  {
    if Find(prev, product.id).Some? then IncrementLine(prev, product.id)
    else
      IdSetOfAppend(prev, product.(quantity := 1));
      prev + [product.(quantity := 1)]
  }

  /** A line's key for the id filter. */
  function LineId(item: CartItem): int {
    item.id
  }

  /** The state updater removeFromCart hands to `setCartItems`,
      `prev.filter(item => item.id !== id)`: the id is gone and every other id stays. */
  function RemoveUpdate(prev: seq<CartItem>, id: int): (r: seq<CartItem>)
    ensures IdSet(r) == IdSet(prev) - {id}
  {
    var r := FilterOutId(prev, LineId, id);
    assert IdSet(r) == IdSet(prev) - {id} by {
      forall x | x in IdSet(r) ensures x in IdSet(prev) - {id} {
        var i :| 0 <= i < |r| && r[i].id == x;
        assert r[i] in r;
        var k :| 0 <= k < |prev| && prev[k] == r[i];
      }
      forall x | x in IdSet(prev) - {id} ensures x in IdSet(r) {
        var k :| 0 <= k < |prev| && prev[k].id == x;
        assert prev[k] in prev;
        assert prev[k] in r;
        var i :| 0 <= i < |r| && r[i] == prev[k];
      }
    }
    r
  }

  /** The request body addToCart sends: always the one product, with quantity 1. */
  function AddRequest(product: CartItem): (req: AddCartPayload)
    ensures req.userId == RequestUserId
    ensures |req.products| == 1 && req.products[0].id == product.id && req.products[0].quantity == 1
  {
    AddCartPayload(RequestUserId, [ProductQuantity(product.id, 1)])
  }

  /** The quantity the cart holds for a product id, 0 when it has no line. */
  function QuantityOf(items: seq<CartItem>, id: int): int {
    match Find(items, id)
    case Some(line) => line.quantity
    case None => 0
  }

  /** The sum of all quantities (which the cart badge does NOT show). */
  function TotalQuantity(items: seq<CartItem>): int {
    if items == [] then 0 else items[0].quantity + TotalQuantity(items[1..])
  }

  // ---------------------------------------------------------------------------
  // Properties of addToCart's updater

  /** Adding a product already in the cart raises each of its lines by exactly one and keeps
      every other field and every other line. */
  lemma AddExisting(prev: seq<CartItem>, product: CartItem)
    requires product.id in IdSet(prev)
    ensures var r := AddUpdate(prev, product);
      |r| == |prev| &&
      forall i :: 0 <= i < |prev| ==>
        if prev[i].id == product.id then
          r[i].quantity == prev[i].quantity + 1 && r[i].id == prev[i].id &&
          r[i].title == prev[i].title && r[i].price == prev[i].price &&
          r[i].thumbnail == prev[i].thumbnail
        else r[i] == prev[i]
  {
  }

  /** Adding a product absent from the cart appends exactly one line, with quantity 1 whatever
      the argument's quantity, after the untouched existing lines. */
  lemma AddAbsent(prev: seq<CartItem>, product: CartItem)
    requires product.id !in IdSet(prev)
    ensures var r := AddUpdate(prev, product);
      |r| == |prev| + 1 && r[..|prev|] == prev &&
      r[|prev|].id == product.id && r[|prev|].quantity == 1 &&
      r[|prev|].title == product.title && r[|prev|].price == product.price &&
      r[|prev|].thumbnail == product.thumbnail
  {
  }

  /** addToCart keeps the cart invariant. */
  lemma AddPreservesWellformed(prev: seq<CartItem>, product: CartItem)
    requires Wellformed(prev)
    ensures Wellformed(AddUpdate(prev, product))
  {
    var r := AddUpdate(prev, product);
    if Find(prev, product.id).None? {
      forall i, j | 0 <= i < j < |r| ensures r[i].id != r[j].id {
        if j == |prev| {
          assert r[i].id in IdSet(prev) by { assert r[i] == prev[i]; }
        }
      }
    }
  }

  lemma {:induction false} RemoveKeepsUnique(prev: seq<CartItem>, id: int)
    requires UniqueIds(prev)
    ensures UniqueIds(RemoveUpdate(prev, id))
  {
    if prev != [] {
      RemoveKeepsUnique(prev[1..], id);
      var rest := RemoveUpdate(prev[1..], id);
      if prev[0].id != id {
        var r := [prev[0]] + rest;
        forall i, j | 0 <= i < j < |r| ensures r[i].id != r[j].id {
          if i == 0 {
            assert r[j] in rest;
            var k :| 0 <= k < |prev[1..]| && prev[1..][k] == r[j];
            assert prev[k + 1] == r[j];
          } else {
            assert r[i] == rest[i - 1] && r[j] == rest[j - 1];
          }
        }
      }
    }
  }

  /** removeFromCart keeps the cart invariant. */
  lemma RemovePreservesWellformed(prev: seq<CartItem>, id: int)
    requires Wellformed(prev)
    ensures Wellformed(RemoveUpdate(prev, id))
  {
    RemoveKeepsUnique(prev, id);
    var r := RemoveUpdate(prev, id);
    forall i | 0 <= i < |r| ensures r[i].quantity >= 1 {
      assert r[i] in r;
    }
  }

  /** Removing an id the cart lacks changes nothing; removing one it holds changes the cart. */
  lemma RemoveAbsentIsNoOp(prev: seq<CartItem>, id: int)
    ensures RemoveUpdate(prev, id) == prev <==> id !in IdSet(prev)
  {
    FilterNoOpIffAbsent(prev, LineId, id);
    if id in IdSet(prev) {
      var k :| 0 <= k < |prev| && prev[k].id == id;
      assert prev[k] in prev && LineId(prev[k]) == id;
    } else {
      forall x | x in prev ensures LineId(x) != id {
        var k :| 0 <= k < |prev| && prev[k] == x;
        assert prev[k].id in IdSet(prev);
      }
    }
  }

  /** Each successful add raises the product's quantity by one and no other product's. */
  lemma AddIncrementsQuantity(prev: seq<CartItem>, product: CartItem, other: int)
    requires Wellformed(prev)
    ensures QuantityOf(AddUpdate(prev, product), product.id) == QuantityOf(prev, product.id) + 1
    ensures other != product.id ==> QuantityOf(AddUpdate(prev, product), other) == QuantityOf(prev, other)
  {
    var r := AddUpdate(prev, product);
    AddPreservesWellformed(prev, product);
    FindInWellformed(r, product.id);
    FindInWellformed(prev, product.id);
    FindInWellformed(r, other);
    FindInWellformed(prev, other);
  }

  /** In a well-formed cart, Find returns the unique line with that id. */
  lemma FindInWellformed(items: seq<CartItem>, id: int)
    requires UniqueIds(items)
    ensures forall k :: 0 <= k < |items| && items[k].id == id ==> Find(items, id) == Some(items[k])
  {
  }

  /** One parsed add: the invariant holds and the product's quantity rises by one. */
  lemma AddStep(before: seq<CartItem>, product: CartItem)
    requires Wellformed(before)
    ensures Wellformed(AddUpdate(before, product))
    ensures QuantityOf(AddUpdate(before, product), product.id) == QuantityOf(before, product.id) + 1
  {
    AddIncrementsQuantity(before, product, product.id);
    AddPreservesWellformed(before, product);
  }

  /** Adding the same product n times (all remote calls parsed) raises its quantity by n. */
  lemma {:induction false} AddRepeated(prev: seq<CartItem>, product: CartItem, n: nat)
    requires Wellformed(prev)
    ensures Wellformed(AddTimes(prev, product, n))
    ensures QuantityOf(AddTimes(prev, product, n), product.id) == QuantityOf(prev, product.id) + n
  {
    if n > 0 {
      AddRepeated(prev, product, n - 1);
      AddStep(AddTimes(prev, product, n - 1), product);
    }
  }

  function AddTimes(prev: seq<CartItem>, product: CartItem, n: nat): seq<CartItem> {
    if n == 0 then prev else AddUpdate(AddTimes(prev, product, n - 1), product)
  }

  // ---------------------------------------------------------------------------
  // The cart badge (src/pages/productPage.tsx shows `cartItems.length`)

  /** In a well-formed cart the badge's line count is the number of distinct products. */
  lemma {:induction false} BadgeCountsDistinctProducts(items: seq<CartItem>)
    requires UniqueIds(items)
    ensures |items| == |IdSet(items)|
  {
    if items != [] {
      var init := items[..|items| - 1];
      var last := items[|items| - 1];
      assert UniqueIds(init);
      BadgeCountsDistinctProducts(init);
      assert IdSet(items) == IdSet(init) + {last.id} by {
        forall x | x in IdSet(items) ensures x in IdSet(init) + {last.id} {
          var i :| 0 <= i < |items| && items[i].id == x;
          if i < |items| - 1 { assert init[i].id == x; }
        }
        forall x | x in IdSet(init) ensures x in IdSet(items) {
          var i :| 0 <= i < |init| && init[i].id == x;
          assert items[i].id == x;
        }
      }
      assert last.id !in IdSet(init) by {
        forall i | 0 <= i < |init| ensures init[i].id != last.id {
          assert init[i] == items[i];
        }
      }
    }
  }

  /** The line count never exceeds the sum of quantities, and equals it exactly when every
      line holds quantity 1. */
  lemma {:induction false} BadgeAtMostTotalQuantity(items: seq<CartItem>)
    requires Wellformed(items)
    ensures |items| <= TotalQuantity(items)
    ensures |items| == TotalQuantity(items) <==> forall i :: 0 <= i < |items| ==> items[i].quantity == 1
  {
    if items != [] {
      assert Wellformed(items[1..]) by {
        forall i, j | 0 <= i < j < |items[1..]| ensures items[1..][i].id != items[1..][j].id {
          assert items[1..][i] == items[i + 1] && items[1..][j] == items[j + 1];
        }
        forall i | 0 <= i < |items[1..]| ensures items[1..][i].quantity >= 1 {
          assert items[1..][i] == items[i + 1];
        }
      }
      BadgeAtMostTotalQuantity(items[1..]);
      assert items[0].quantity >= 1;
      if forall i :: 0 <= i < |items[1..]| ==> items[1..][i].quantity == 1 {
        if items[0].quantity == 1 {
          forall i | 0 <= i < |items| ensures items[i].quantity == 1 {
            if i > 0 { assert items[i] == items[1..][i - 1]; }
          }
        }
      } else {
        var k :| 0 <= k < |items[1..]| && items[1..][k].quantity != 1;
        assert items[k + 1].quantity != 1;
      }
    }
  }

  // ---------------------------------------------------------------------------
  // Any sequence of cart operations

  datatype CartOp = Add(product: CartItem, outcome: PostOutcome) | Remove(id: int) | Clear

  /** The cart after one operation. An add whose POST or JSON body threw leaves the cart as
      it was; one that parsed adds the product's id; a remove takes exactly its id out; a
      clear empties the cart. Each keeps the invariant. */
  function Apply(items: seq<CartItem>, op: CartOp): (r: seq<CartItem>)
    ensures Wellformed(items) ==> Wellformed(r)
    ensures op.Add? && !op.outcome.Parsed? ==> r == items
    ensures op.Add? && op.outcome.Parsed? ==> IdSet(r) == IdSet(items) + {op.product.id}
    ensures op.Remove? ==> IdSet(r) == IdSet(items) - {op.id}
    ensures op.Clear? ==> r == []
  {
    match op
    case Add(product, outcome) =>
      if outcome.Parsed? then
        assert Wellformed(items) ==> Wellformed(AddUpdate(items, product)) by {
          if Wellformed(items) { AddPreservesWellformed(items, product); }
        }
        AddUpdate(items, product)
      else items
    case Remove(id) =>
      assert Wellformed(items) ==> Wellformed(RemoveUpdate(items, id)) by {
        if Wellformed(items) { RemovePreservesWellformed(items, id); }
      }
      RemoveUpdate(items, id)
    case Clear => []
  }

  /** The cart after a sequence of operations. From a well-formed cart (the empty initial
      cart included), every sequence of add, remove and clear, whatever the adds' outcomes,
      leaves ids unique and every quantity at least 1. */
  function Replay(items: seq<CartItem>, ops: seq<CartOp>): (r: seq<CartItem>)
    ensures Wellformed(items) ==> Wellformed(r)
    decreases |ops|
  {
    if ops == [] then items else Replay(Apply(items, ops[0]), ops[1..])
  }

  // ---------------------------------------------------------------------------
  // The provider's state

  class CartProvider {
    /** `useState<CartItem[]>([])` */
    var cartItems: seq<CartItem>

    ghost predicate Valid()
      reads this
    {
      Wellformed(cartItems)
    }

    constructor ()
      ensures Valid() && cartItems == []
    {
      cartItems := [];
    }

    /** addToCart: POST the one product with quantity 1; only when the response and its
        JSON body resolve is the local list updated, whatever the HTTP status. */
    method AddToCart(product: CartItem, outcome: PostOutcome) returns (request: AddCartPayload)
      requires Valid()
      modifies this
      ensures Valid()
      ensures request.userId == RequestUserId && request.products == [ProductQuantity(product.id, 1)]
      ensures outcome.Parsed? ==> cartItems == AddUpdate(old(cartItems), product)
      ensures !outcome.Parsed? ==> cartItems == old(cartItems)
    {
      request := AddRequest(product);
      if outcome.Parsed? {
        AddPreservesWellformed(cartItems, product);
        cartItems := AddUpdate(cartItems, product);
      }
    }

    method RemoveFromCart(id: int)
      requires Valid()
      modifies this
      ensures Valid()
      ensures cartItems == RemoveUpdate(old(cartItems), id)
    {
      RemovePreservesWellformed(cartItems, id);
      cartItems := RemoveUpdate(cartItems, id);
    }

    /** clearCart: empties the list, so a second call leaves it as the first did. */
    method ClearCart()
      requires Valid()
      modifies this
      ensures Valid() && cartItems == []
    {
      cartItems := [];
    }
  }
}
