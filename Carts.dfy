/** The cart service of backend/src/services/CartService.ts: one cart per
    user, a list of lines that snapshot a product, and a total that is
    recomputed after every change. */
module Carts {
  import opened Wrappers
  import opened Catalog

  type UserId = string

  /** A cart line: the product it came from and a snapshot of its name,
      image, price, unit and pack size when the line was created. */
  datatype CartItem = CartItem(
    productId: ProductId,
    name: string,
    imageUrl: Option<string>,
    quantity: int,
    pricePerUnit: real,
    unit: Unit,
    unitQuantity: real)

  datatype Cart = Cart(userId: UserId, items: seq<CartItem>, totalPrice: real)

  /** One entry of an add request. */
  datatype AddRequest = AddRequest(productId: string, quantity: int)

  datatype CartError =
    | QuantityNotPositive  // "Quantity must be greater than zero."
    | InvalidProductId     // "Invalid Product ID format."
    | ItemNotFound         // "Item not found in cart."

  /** What one line costs. */
  function LineTotal(item: CartItem): real
  {
    item.quantity as real * item.pricePerUnit
  }

  /** `calculateCartTotal`: quantity times price per unit, summed from the
      first line to the last. */
  function Total(items: seq<CartItem>): real
  {
    if items == [] then 0.0 else Total(items[..|items| - 1]) + LineTotal(items[|items| - 1])
  }

  /** The total of a concatenation is the sum of the totals. */
  lemma {:induction false} TotalAppend(xs: seq<CartItem>, ys: seq<CartItem>)
    ensures Total(xs + ys) == Total(xs) + Total(ys)
  {
    if ys == [] {
      assert xs + ys == xs;
    } else {
      assert (xs + ys)[..|xs + ys| - 1] == xs + ys[..|ys| - 1];
      TotalAppend(xs, ys[..|ys| - 1]);
    }
  }

  /** With no negative quantity or price the total is not negative. */
  lemma {:induction false} TotalNonNegative(items: seq<CartItem>)
    requires forall i :: 0 <= i < |items| ==> items[i].quantity >= 0 && items[i].pricePerUnit >= 0.0
    ensures Total(items) >= 0.0
  {
    if items != [] {
      TotalNonNegative(items[..|items| - 1]);
      var last := items[|items| - 1];
      assert LineTotal(last) >= 0.0;
    }
  }

  /** Setting one line's quantity moves the total by the change in quantity
      times that line's price. */
  lemma {:induction false} TotalSetQuantity(items: seq<CartItem>, k: nat, q: int)
    requires k < |items|
    ensures Total(items[k := items[k].(quantity := q)])
         == Total(items) + (q - items[k].quantity) as real * items[k].pricePerUnit
  {
    var updated := items[k := items[k].(quantity := q)];
    var n := |items| - 1;
    if k == n {
      assert updated[..n] == items[..n];
    } else {
      assert updated[..n] == items[..n][k := items[k].(quantity := q)];
      TotalSetQuantity(items[..n], k, q);
    }
  }

  /** Raising one line's quantity by `more` raises the total by `more`
      times that line's price. */
  lemma TotalRaiseQuantity(items: seq<CartItem>, k: nat, more: int)
    requires k < |items|
    ensures Total(items[k := items[k].(quantity := items[k].quantity + more)])
         == Total(items) + more as real * items[k].pricePerUnit
  {
    var q := items[k].quantity + more;
    TotalSetQuantity(items, k, q);
    assert q - items[k].quantity == more;
  }

  /** Appending a line adds its cost to the total. */
  lemma TotalAppendLine(items: seq<CartItem>, line: CartItem)
    ensures Total(items + [line]) == Total(items) + LineTotal(line)
  {
    TotalAppend(items, [line]);
    assert [line][..0] == [];
  }

  /** `items.findIndex(line => line.productId === pid)`: the first line of
      that product, or -1. */
  function FindLine(items: seq<CartItem>, pid: ProductId): (r: int)
    ensures -1 <= r < |items|
    ensures r >= 0 ==> items[r].productId == pid
  {
    if items == [] then -1
    else if items[0].productId == pid then 0
    else
      var k := FindLine(items[1..], pid);
      if k == -1 then -1 else k + 1
  }

  /** `FindLine` gives the first line of the product, and -1 exactly when
      no line is of that product. */
  lemma {:induction false} FindLineSpec(items: seq<CartItem>, pid: ProductId)
    ensures FindLine(items, pid) == -1 <==> forall i :: 0 <= i < |items| ==> items[i].productId != pid
    ensures forall i :: 0 <= i < FindLine(items, pid) ==> items[i].productId != pid
  {
    if items != [] && items[0].productId != pid {
      FindLineSpec(items[1..], pid);
      assert forall i :: 1 <= i < |items| ==> items[1..][i - 1] == items[i];
    }
  }

  /** No product has two lines. */
  predicate DistinctIds(items: seq<CartItem>)
  {
    forall i, j :: 0 <= i < j < |items| ==> items[i].productId != items[j].productId
  }

  /** Every line asks for at least one unit. */
  predicate PositiveQuantities(items: seq<CartItem>)
  {
    forall i :: 0 <= i < |items| ==> items[i].quantity > 0
  }

  /** What every stored cart satisfies: the total is the sum of its lines,
      each product has one line, and every quantity is positive. */
  predicate WellFormed(cart: Cart)
  {
    && cart.totalPrice == Total(cart.items)
    && DistinctIds(cart.items)
    && PositiveQuantities(cart.items)
  }

  /** `Product.findById` over a catalogue stored by id: every product is
      stored under its own id. */
  predicate Keyed(products: map<ProductId, Product>)
  {
    forall id :: id in products ==> products[id].id == id
  }

  /** A new line for `quantity` units of `product`, with the product's
      current details. */
  function Snapshot(product: Product, quantity: int): (line: CartItem)
    ensures line.productId == product.id && line.quantity == quantity
    ensures line.pricePerUnit == product.price && line.name == product.name
    ensures line.unit == product.unit && line.unitQuantity == product.unitQuantity
    ensures line.imageUrl == product.imageUrl
  {
    CartItem(product.id, product.name, product.imageUrl, quantity, product.price, product.unit, product.unitQuantity)
  }

  /** Whether `addItemsToCart` skips a request: a malformed id, a quantity
      that is not positive, or a product that does not exist. */
  predicate Skipped(products: map<ProductId, Product>, isValidId: string -> bool, req: AddRequest)
  {
    !isValidId(req.productId) || req.quantity <= 0 || req.productId !in products
  }

  /** The second half of one iteration of the loop in `addItemsToCart`,
      once the index `k` of the product's line is known (-1 for none):
      raise that line's quantity, or append a snapshot line. */
  function Place(items: seq<CartItem>, k: int, product: Product, quantity: int): seq<CartItem>
    requires -1 <= k < |items|
  {
    if k > -1 then items[k := items[k].(quantity := items[k].quantity + quantity)]
    else items + [Snapshot(product, quantity)]
  }

  /** One iteration of the loop in `addItemsToCart`: skip, raise the
      quantity of the product's line, or append a snapshot line. */
  function AddLine(items: seq<CartItem>, products: map<ProductId, Product>, isValidId: string -> bool,
                   req: AddRequest): seq<CartItem>
  {
    if !isValidId(req.productId) || req.quantity <= 0 then items
    else if req.productId !in products then items
    else Place(items, FindLine(items, req.productId), products[req.productId], req.quantity)
  }

  /** A request leaves the lines untouched exactly when it is skipped. */
  lemma AddLineUnchangedIffSkipped(items: seq<CartItem>, products: map<ProductId, Product>,
                                   isValidId: string -> bool, req: AddRequest)
    ensures AddLine(items, products, isValidId, req) == items <==> Skipped(products, isValidId, req)
  {
    var r := AddLine(items, products, isValidId, req);
    if !Skipped(products, isValidId, req) {
      var k := FindLine(items, req.productId);
      if k > -1 {
        assert r[k].quantity != items[k].quantity;
      } else {
        assert |r| != |items|;
      }
    }
  }

  /** An accepted request for a product already in the cart adds to that
      line's quantity; an accepted request for a new product appends one
      snapshot line at the end. Lines of other products never change. */
  lemma AddLineEffect(items: seq<CartItem>, products: map<ProductId, Product>,
                      isValidId: string -> bool, req: AddRequest)
    requires !Skipped(products, isValidId, req)
    ensures var r := AddLine(items, products, isValidId, req);
      var k := FindLine(items, req.productId);
      && (k >= 0 ==>
            && |r| == |items|
            && r[k] == items[k].(quantity := items[k].quantity + req.quantity)
            && forall i :: 0 <= i < |items| && i != k ==> r[i] == items[i])
      && (k == -1 ==> r == items + [Snapshot(products[req.productId], req.quantity)])
  {
  }

  /** Raising line `k` by `quantity` raises the total by `quantity` times
      that line's price: the price snapshotted when the line was created,
      not the product's current price. */
  lemma PlaceRaisesTotal(items: seq<CartItem>, k: nat, product: Product, quantity: int)
    requires k < |items|
    ensures Total(Place(items, k, product, quantity)) == Total(items) + quantity as real * items[k].pricePerUnit
  {
    TotalRaiseQuantity(items, k, quantity);
  }

  /** Appending a line for `product` raises the total by `quantity` times
      the product's current price. */
  lemma PlaceAppendsTotal(items: seq<CartItem>, product: Product, quantity: int)
    ensures Total(Place(items, -1, product, quantity)) == Total(items) + quantity as real * product.price
  {
    TotalAppendLine(items, Snapshot(product, quantity));
  }

  /** Adding keeps one line per product and positive quantities. */
  lemma AddLineKeepsWellFormed(items: seq<CartItem>, products: map<ProductId, Product>,
                               isValidId: string -> bool, req: AddRequest)
    requires Keyed(products)
    requires DistinctIds(items) && PositiveQuantities(items)
    ensures var r := AddLine(items, products, isValidId, req);
      DistinctIds(r) && PositiveQuantities(r)
  {
    var r := AddLine(items, products, isValidId, req);
    if !Skipped(products, isValidId, req) {
      var k := FindLine(items, req.productId);
      if k == -1 {
        FindLineSpec(items, req.productId);
        assert r[|items|].productId == req.productId;
      }
    }
  }

  /** The loop of `addItemsToCart`: the requests applied one after another. */
  function AddAll(items: seq<CartItem>, products: map<ProductId, Product>, isValidId: string -> bool,
                  reqs: seq<AddRequest>): seq<CartItem>
  {
    if reqs == [] then items
    else AddLine(AddAll(items, products, isValidId, reqs[..|reqs| - 1]), products, isValidId, reqs[|reqs| - 1])
  }

  /** Adding two batches one after the other is adding them as one batch. */
  lemma {:induction false} AddAllConcat(items: seq<CartItem>, products: map<ProductId, Product>,
                                        isValidId: string -> bool, xs: seq<AddRequest>, ys: seq<AddRequest>)
    ensures AddAll(items, products, isValidId, xs + ys)
         == AddAll(AddAll(items, products, isValidId, xs), products, isValidId, ys)
  {
    if ys == [] {
      assert xs + ys == xs;
    } else {
      assert (xs + ys)[..|xs + ys| - 1] == xs + ys[..|ys| - 1];
      AddAllConcat(items, products, isValidId, xs, ys[..|ys| - 1]);
    }
  }

  /** One more request is applied after the ones before it. */
  lemma AddAllStep(items: seq<CartItem>, products: map<ProductId, Product>,
                   isValidId: string -> bool, reqs: seq<AddRequest>, i: nat)
    requires i < |reqs|
    ensures AddAll(items, products, isValidId, reqs[..i + 1])
         == AddLine(AddAll(items, products, isValidId, reqs[..i]), products, isValidId, reqs[i])
  {
    assert reqs[..i + 1][..i] == reqs[..i];
  }

  /** A batch of requests keeps one line per product and positive quantities. */
  lemma {:induction false} AddAllKeepsWellFormed(items: seq<CartItem>, products: map<ProductId, Product>,
                                                 isValidId: string -> bool, reqs: seq<AddRequest>)
    requires Keyed(products)
    requires DistinctIds(items) && PositiveQuantities(items)
    ensures var r := AddAll(items, products, isValidId, reqs);
      DistinctIds(r) && PositiveQuantities(r)
  {
    if reqs != [] {
      AddAllKeepsWellFormed(items, products, isValidId, reqs[..|reqs| - 1]);
      AddLineKeepsWellFormed(AddAll(items, products, isValidId, reqs[..|reqs| - 1]), products, isValidId,
                             reqs[|reqs| - 1]);
    }
  }

  /** `items.filter(line => line.productId !== pid)`. */
  function RemoveLines(items: seq<CartItem>, pid: ProductId): seq<CartItem>
  {
    if items == [] then []
    else
      var last := items[|items| - 1];
      RemoveLines(items[..|items| - 1], pid) + (if last.productId != pid then [last] else [])
  }

  /** Removal keeps the surviving lines in their order: filtering two
      runs of lines one after the other is filtering their concatenation. */
  lemma {:induction false} RemoveLinesDistributes(xs: seq<CartItem>, ys: seq<CartItem>, pid: ProductId)
    ensures RemoveLines(xs + ys, pid) == RemoveLines(xs, pid) + RemoveLines(ys, pid)
  {
    if ys == [] {
      assert xs + ys == xs;
    } else {
      var init := ys[..|ys| - 1];
      assert (xs + ys)[..|xs + ys| - 1] == xs + init;
      RemoveLinesDistributes(xs, init, pid);
    }
  }

  /** Removing keeps exactly the lines of other products. */
  lemma {:induction false} RemoveLinesKeepsOthers(items: seq<CartItem>, pid: ProductId)
    ensures forall x :: x in RemoveLines(items, pid) <==> x in items && x.productId != pid
  {
    if items != [] {
      RemoveLinesKeepsOthers(items[..|items| - 1], pid);
      assert items == items[..|items| - 1] + [items[|items| - 1]];
    }
  }

  /** Removing shortens the list exactly when the product has a line. */
  lemma {:induction false} RemoveLinesShortens(items: seq<CartItem>, pid: ProductId)
    ensures |RemoveLines(items, pid)| <= |items|
    ensures |RemoveLines(items, pid)| == |items| <==> FindLine(items, pid) == -1
  {
    if items != [] {
      var init := items[..|items| - 1];
      RemoveLinesShortens(init, pid);
      FindLineSpec(init, pid);
      FindLineSpec(items, pid);
      if FindLine(init, pid) != -1 {
        var k := FindLine(init, pid);
        assert items[k].productId == pid;
      }
      if FindLine(items, pid) == -1 {
        assert forall i :: 0 <= i < |init| ==> init[i] == items[i];
      }
    }
  }

  /** Removing keeps one line per product and positive quantities. */
  lemma {:induction false} RemoveLinesKeepsWellFormed(items: seq<CartItem>, pid: ProductId)
    requires DistinctIds(items) && PositiveQuantities(items)
    ensures DistinctIds(RemoveLines(items, pid)) && PositiveQuantities(RemoveLines(items, pid))
  {
    if items != [] {
      var init, last := items[..|items| - 1], items[|items| - 1];
      RemoveLinesKeepsWellFormed(init, pid);
      RemoveLinesKeepsOthers(init, pid);
      var kept := RemoveLines(init, pid);
      forall i | 0 <= i < |kept|
        ensures kept[i].productId != last.productId && kept[i].quantity > 0
      {
        assert kept[i] in init;
        var j :| 0 <= j < |init| && init[j] == kept[i];
        assert items[j] == kept[i];
      }
    }
  }

  /** With one line per product, removing a product takes exactly that
      line's cost off the total. */
  lemma {:induction false} RemoveLinesTotal(items: seq<CartItem>, pid: ProductId)
    requires DistinctIds(items)
    ensures var k := FindLine(items, pid);
      && (k == -1 ==> Total(RemoveLines(items, pid)) == Total(items))
      && (k >= 0 ==> Total(RemoveLines(items, pid)) == Total(items) - LineTotal(items[k]))
  {
    if items != [] {
      var init, last := items[..|items| - 1], items[|items| - 1];
      assert items == init + [last];
      assert DistinctIds(init);
      RemoveLinesTotal(init, pid);
      FindLineAppend(init, last, pid);
      var rest := RemoveLines(init, pid);
      if last.productId != pid {
        TotalAppendLine(rest, last);
      } else {
        assert rest + [] == rest;
        assert FindLine(init, pid) == -1 by {
          FindLineSpec(init, pid);
          FindLineSpec(items, pid);
          assert forall i :: 0 <= i < |init| ==> items[i] == init[i];
        }
      }
    }
  }

  /** Where the first line of a product is once a line is appended. */
  lemma FindLineAppend(items: seq<CartItem>, line: CartItem, pid: ProductId)
    ensures var k := FindLine(items, pid);
      FindLine(items + [line], pid)
        == if k >= 0 then k else if line.productId == pid then |items| else -1
  {
    var all := items + [line];
    var k, r := FindLine(items, pid), FindLine(all, pid);
    FindLineSpec(items, pid);
    FindLineSpec(all, pid);
    assert forall i :: 0 <= i < |items| ==> all[i] == items[i];
    if k >= 0 {
      assert all[k].productId == pid;
      assert r <= k;
    } else if line.productId == pid {
      assert all[|items|].productId == pid;
    } else {
      assert forall i :: 0 <= i < |all| ==> all[i].productId != pid;
    }
  }

  /** An empty cart for a user. */
  function EmptyCart(userId: UserId): (cart: Cart)
    ensures cart.userId == userId && cart.items == [] && cart.totalPrice == 0.0
    ensures WellFormed(cart)
  {
    Cart(userId, [], 0.0)
  }

  /** The cart `getCart` returns: the stored one, or a new empty one. */
  function CartOf(carts: map<UserId, Cart>, userId: UserId): (cart: Cart)
    ensures userId in carts ==> cart == carts[userId]
    ensures userId !in carts ==> cart == EmptyCart(userId)
  {
    if userId in carts then carts[userId] else EmptyCart(userId)
  }

  /** The store after `getCart`: a cart is created only when the user has
      none, and no other cart changes. Calling it twice is calling it once. */
  function WithCart(carts: map<UserId, Cart>, userId: UserId): (r: map<UserId, Cart>)
    ensures userId in r && r[userId] == CartOf(carts, userId)
    ensures forall u :: u != userId ==> (u in r <==> u in carts)
    ensures forall u :: u in carts ==> u in r && r[u] == carts[u]
    ensures userId in carts ==> r == carts
  {
    if userId in carts then carts else carts[userId := EmptyCart(userId)]
  }

  /** `getCart` is idempotent: the second call finds the cart the first one
      made and changes nothing. */
  lemma GetCartIdempotent(carts: map<UserId, Cart>, userId: UserId)
    ensures WithCart(WithCart(carts, userId), userId) == WithCart(carts, userId)
    ensures CartOf(WithCart(carts, userId), userId) == CartOf(carts, userId)
  {
  }

  /** The carts of all users, stored by user id. */
  class CartStore {
    var carts: map<UserId, Cart>

    /** Each user's cart is filed under that user and is well formed. */
    ghost predicate Valid()
      reads this
    {
      forall u :: u in carts ==> carts[u].userId == u && WellFormed(carts[u])
    }

    constructor()
      ensures carts == map[] && Valid()
    {
      carts := map[];
    }

    /** `getCart`: the user's cart, created empty when there is none. */
    method GetCart(userId: UserId) returns (cart: Cart)
      requires Valid()
      modifies this
      ensures Valid()
      ensures carts == WithCart(old(carts), userId)
      ensures cart == CartOf(old(carts), userId) && cart.userId == userId
    {
      if userId in carts {
        cart := carts[userId];
      } else {
        cart := Cart(userId, [], 0.0);
        carts := carts[userId := cart];
      }
    }

    /** `addItemsToCart`: applies the requests in order, skipping the ones
        that are malformed or name a missing product, then stores the cart
        with its total recomputed. */
    method AddItemsToCart(userId: UserId, itemsToAdd: seq<AddRequest>,
                          products: map<ProductId, Product>, isValidId: string -> bool)
      returns (cart: Cart)
      requires Valid() && Keyed(products)
      modifies this
      ensures Valid()
      ensures var items := AddAll(CartOf(old(carts), userId).items, products, isValidId, itemsToAdd);
        cart == Cart(userId, items, Total(items))
      ensures carts == old(carts)[userId := cart]
    {
      cart := GetCart(userId);
      ghost var start := cart.items;
      ghost var fetched := carts;
      var items := cart.items;
      for i := 0 to |itemsToAdd|
        invariant items == AddAll(start, products, isValidId, itemsToAdd[..i])
        invariant carts == fetched
      {
        var item := itemsToAdd[i];
        AddAllStep(start, products, isValidId, itemsToAdd, i);
        if !isValidId(item.productId) || item.quantity <= 0 {
          continue;
        }
        if item.productId !in products {
          continue;
        }
        var product := products[item.productId];
        var existingItemIndex := FindLine(items, item.productId);
        if existingItemIndex > -1 {
          items := items[existingItemIndex := items[existingItemIndex].(quantity := items[existingItemIndex].quantity + item.quantity)];
        } else {
          var cartItem := CartItem(product.id, product.name, product.imageUrl, item.quantity,
                                   product.price, product.unit, product.unitQuantity);
          items := items + [cartItem];
        }
      }
      assert itemsToAdd[..|itemsToAdd|] == itemsToAdd;
      assert WellFormed(carts[userId]);
      AddAllKeepsWellFormed(start, products, isValidId, itemsToAdd);
      cart := Cart(userId, items, Total(items));
      assert WellFormed(cart);
      ghost var before := carts;
      carts := carts[userId := cart];
      assert carts == old(carts)[userId := cart] by {
        assert before == WithCart(old(carts), userId);
      }
    }

    /** `updateCartItemQuantity`: refuses a quantity that is not positive,
        then a malformed id (both before the cart is fetched, so nothing is
        created); then fetches the cart and refuses a product without a
        line; otherwise sets that line's quantity and the total. */
    method UpdateCartItemQuantity(userId: UserId, productId: string, newQuantity: int, isValidId: string -> bool)
      returns (r: Result<Cart, CartError>)
      requires Valid()
      modifies this
      ensures Valid()
      ensures newQuantity <= 0 ==> r == Failure(QuantityNotPositive) && carts == old(carts)
      ensures newQuantity > 0 && !isValidId(productId) ==> r == Failure(InvalidProductId) && carts == old(carts)
      ensures newQuantity > 0 && isValidId(productId) ==>
        var before := CartOf(old(carts), userId);
        var k := FindLine(before.items, productId);
        && (k == -1 ==> r == Failure(ItemNotFound) && carts == WithCart(old(carts), userId))
        && (k >= 0 ==>
              var items := before.items[k := before.items[k].(quantity := newQuantity)];
              && r == Success(Cart(userId, items, Total(items)))
              && carts == old(carts)[userId := r.value])
    {
      if newQuantity <= 0 {
        return Failure(QuantityNotPositive);
      }
      if !isValidId(productId) {
        return Failure(InvalidProductId);
      }
      var cart := GetCart(userId);
      var itemIndex := FindLine(cart.items, productId);
      if itemIndex == -1 {
        return Failure(ItemNotFound);
      }
      var items := cart.items[itemIndex := cart.items[itemIndex].(quantity := newQuantity)];
      cart := cart.(items := items, totalPrice := Total(items));
      carts := carts[userId := cart];
      r := Success(cart);
    }

    /** `removeCartItem`: refuses a malformed id; then fetches the cart,
        drops every line of the product, and refuses (without storing the
        filtered list) when no line was dropped; otherwise stores the cart
        with its total recomputed. */
    method RemoveCartItem(userId: UserId, productId: string, isValidId: string -> bool)
      returns (r: Result<Cart, CartError>)
      requires Valid()
      modifies this
      ensures Valid()
      ensures !isValidId(productId) ==> r == Failure(InvalidProductId) && carts == old(carts)
      ensures isValidId(productId) ==>
        var before := CartOf(old(carts), userId);
        var items := RemoveLines(before.items, productId);
        && (|items| == |before.items| ==> r == Failure(ItemNotFound) && carts == WithCart(old(carts), userId))
        && (|items| < |before.items| ==>
              && r == Success(Cart(userId, items, Total(items)))
              && carts == old(carts)[userId := r.value])
    {
      if !isValidId(productId) {
        return Failure(InvalidProductId);
      }
      var cart := GetCart(userId);
      var initialLength := |cart.items|;
      RemoveLinesShortens(cart.items, productId);
      RemoveLinesKeepsWellFormed(cart.items, productId);
      var items := RemoveLines(cart.items, productId);
      if |items| == initialLength {
        return Failure(ItemNotFound);
      }
      cart := cart.(items := items, totalPrice := Total(items));
      carts := carts[userId := cart];
      r := Success(cart);
    }

    /** `clearCart`: the user's cart is stored empty with total 0. */
    method ClearCart(userId: UserId) returns (cart: Cart)
      requires Valid()
      modifies this
      ensures Valid()
      ensures cart == EmptyCart(userId)
      ensures carts == old(carts)[userId := cart]
    {
      cart := GetCart(userId);
      cart := cart.(items := [], totalPrice := 0.0);
      carts := carts[userId := cart];
    }
  }
}
