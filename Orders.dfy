/** The order service of backend/src/services/OrderService.ts: an order is
    a snapshot of a user's cart, and orders are read back only by their
    owner. */
module Orders {
  import opened Wrappers
  import opened Catalog
  import opened Carts

  type OrderId = string

  datatype OrderStatus = Pending | Confirmed | Processing | Shipped | Delivered | Cancelled

  /** An order line: the cart line as it was when the order was placed. */
  datatype OrderItem = OrderItem(
    productId: ProductId,
    name: string,
    imageUrl: Option<string>,
    quantity: int,
    pricePerUnit: real,
    unit: Unit,
    unitQuantity: real)

  /** An order; `orderDate` is the clock reading when it was placed. */
  datatype Order = Order(
    id: OrderId,
    userId: UserId,
    items: seq<OrderItem>,
    totalAmount: real,
    status: OrderStatus,
    orderDate: int)

  datatype OrderError =
    | CartIsEmpty     // "Cannot create order: Cart is empty."
    | InvalidOrderId  // "Invalid Order ID format."

  /** One cart line copied field by field into an order line. */
  function ToOrderItem(line: CartItem): (item: OrderItem)
    ensures item.productId == line.productId && item.name == line.name && item.imageUrl == line.imageUrl
    ensures item.quantity == line.quantity && item.pricePerUnit == line.pricePerUnit
    ensures item.unit == line.unit && item.unitQuantity == line.unitQuantity
  {
    OrderItem(line.productId, line.name, line.imageUrl, line.quantity, line.pricePerUnit, line.unit, line.unitQuantity)
  }

  /** `cart.items.map(...)`: the order lines, one per cart line, in order. */
  function SnapshotItems(lines: seq<CartItem>): (items: seq<OrderItem>)
    ensures |items| == |lines|
    ensures forall i :: 0 <= i < |lines| ==> items[i] == ToOrderItem(lines[i])
  {
    if lines == [] then [] else SnapshotItems(lines[..|lines| - 1]) + [ToOrderItem(lines[|lines| - 1])]
  }

  /** The amount an order's lines add up to. */
  function ItemsTotal(items: seq<OrderItem>): real
  {
    if items == [] then 0.0
    else ItemsTotal(items[..|items| - 1]) + items[|items| - 1].quantity as real * items[|items| - 1].pricePerUnit
  }

  /** The snapshot costs what the cart lines cost. */
  lemma {:induction false} SnapshotKeepsTotal(lines: seq<CartItem>)
    ensures ItemsTotal(SnapshotItems(lines)) == Total(lines)
  {
    if lines != [] {
      var init := lines[..|lines| - 1];
      SnapshotKeepsTotal(init);
      assert SnapshotItems(lines)[..|lines| - 1] == SnapshotItems(init);
    }
  }

  /** The order `createOrder` builds from a cart: the cart's lines and
      total, status Confirmed, dated `now`. */
  function PlaceOrder(orderId: OrderId, userId: UserId, cart: Cart, now: int): (order: Order)
    ensures order.id == orderId && order.userId == userId && order.orderDate == now
    ensures order.items == SnapshotItems(cart.items) && order.totalAmount == cart.totalPrice
    ensures order.status == Confirmed
  {
    Order(orderId, userId, SnapshotItems(cart.items), cart.totalPrice, Confirmed, now)
  }

  /** An order placed from a well-formed cart charges exactly what its own
      lines add up to, and has at least one line when the cart had one. */
  lemma PlacedOrderIsConsistent(orderId: OrderId, userId: UserId, cart: Cart, now: int)
    requires WellFormed(cart)
    ensures var order := PlaceOrder(orderId, userId, cart, now);
      && order.totalAmount == ItemsTotal(order.items)
      && |order.items| == |cart.items|
  {
    SnapshotKeepsTotal(cart.items);
  }

  /** `Order.find({ userId })`: that user's orders, in store order. */
  function OfUser(orders: seq<Order>, userId: UserId): (r: seq<Order>)
    ensures forall o :: o in r ==> o.userId == userId
    ensures forall o: Order :: o.userId == userId ==> multiset(r)[o] == multiset(orders)[o]
  {
    if orders == [] then []
    else
      assert orders == [orders[0]] + orders[1..];
      (if orders[0].userId == userId then [orders[0]] else []) + OfUser(orders[1..], userId)
  }

  /** `.sort({ orderDate: -1 })`: newest first. */
  predicate NewestFirst(s: seq<Order>)
  {
    forall i, j :: 0 <= i < j < |s| ==> s[i].orderDate >= s[j].orderDate
  }

  /** Puts an order into a newest-first list, before the first order that
      is not newer. */
  function Insert(o: Order, s: seq<Order>): (r: seq<Order>)
    requires NewestFirst(s)
    ensures NewestFirst(r)
    ensures multiset(r) == multiset(s) + multiset{o}
  {
    if s == [] then [o]
    else if o.orderDate >= s[0].orderDate then [o] + s
    else
      var rest := Insert(o, s[1..]);
      assert s == [s[0]] + s[1..];
      NewerHeadKeepsOrder(s[0], s[1..], o, rest);
      [s[0]] + rest
  }

  /** An order newer than everything in a newest-first list can go first. */
  lemma NewerHeadKeepsOrder(head: Order, tail: seq<Order>, o: Order, rest: seq<Order>)
    requires NewestFirst([head] + tail) && NewestFirst(rest)
    requires o.orderDate < head.orderDate
    requires multiset(rest) == multiset(tail) + multiset{o}
    ensures NewestFirst([head] + rest)
  {
    var all := [head] + tail;
    forall y | y in rest
      ensures head.orderDate >= y.orderDate
    {
      assert y in multiset(rest);
      if y != o {
        assert y in multiset(tail);
        var k :| 0 <= k < |tail| && tail[k] == y;
        assert all[0] == head && all[k + 1] == y;
      }
    }
    var r := [head] + rest;
    forall i, j | 0 <= i < j < |r|
      ensures r[i].orderDate >= r[j].orderDate
    {
      if i == 0 {
        assert r[j] in rest;
      } else {
        assert r[i] == rest[i - 1] && r[j] == rest[j - 1];
      }
    }
  }

  /** Newest-first order of any list of orders. */
  function SortNewestFirst(s: seq<Order>): (r: seq<Order>)
    ensures NewestFirst(r)
    ensures multiset(r) == multiset(s)
  {
    if s == [] then []
    else
      assert s == [s[0]] + s[1..];
      Insert(s[0], SortNewestFirst(s[1..]))
  }

  /** Sorting a user's orders brings in no order of another user and none
      that is not stored. */
  lemma SortedOwnOrders(orders: seq<Order>, userId: UserId)
    ensures forall o :: o in SortNewestFirst(OfUser(orders, userId)) ==> o.userId == userId && o in orders
  {
    var mine := OfUser(orders, userId);
    forall o | o in SortNewestFirst(mine)
      ensures o.userId == userId && o in orders
    {
      assert o in multiset(SortNewestFirst(mine));
      assert o in multiset(mine);
      assert o in mine;
      assert multiset(orders)[o] > 0;
    }
  }

  /** `Order.findOne({ _id: orderId, userId })`: the first order with that
      id and that owner. */
  function FindOrder(orders: seq<Order>, orderId: OrderId, userId: UserId): (r: Option<Order>)
    ensures r.Some? ==> r.value in orders && r.value.id == orderId && r.value.userId == userId
    ensures r.None? <==> forall o :: o in orders ==> !(o.id == orderId && o.userId == userId)
  {
    if orders == [] then None
    else if orders[0].id == orderId && orders[0].userId == userId then Some(orders[0])
    else
      assert orders == [orders[0]] + orders[1..];
      FindOrder(orders[1..], orderId, userId)
  }

  /** An order saved under a fresh id is found under that id by its owner. */
  lemma {:induction false} FindAppended(orders: seq<Order>, o: Order)
    requires forall x :: x in orders ==> x.id != o.id
    ensures FindOrder(orders + [o], o.id, o.userId) == Some(o)
  {
    if orders != [] {
      assert (orders + [o])[1..] == orders[1..] + [o];
      FindAppended(orders[1..], o);
    }
  }

  /** All orders, oldest saved first. */
  class OrderStore {
    var orders: seq<Order>

    constructor()
      ensures orders == []
    {
      orders := [];
    }

    /** `createOrder`: fetches the user's cart (creating an empty one if
        needed) and refuses an empty cart without saving anything;
        otherwise saves an order snapshotting the cart and then clears the
        cart. A failure to clear (`clearSucceeds` false) is swallowed: the
        order stays saved and the cart keeps its lines. `orderId` is fresh,
        as Mongo gives every new document an id of its own, so the new order
        is the one `getOrderById` finds under it. */
    method CreateOrder(carts: CartStore, userId: UserId, orderId: OrderId, now: int, clearSucceeds: bool)
      returns (r: Result<Order, OrderError>)
      requires carts.Valid()
      requires forall o :: o in orders ==> o.id != orderId
      modifies this, carts
      ensures carts.Valid()
      ensures var cart := CartOf(old(carts.carts), userId);
        && (cart.items == [] ==>
              && r == Failure(CartIsEmpty)
              && orders == old(orders)
              && carts.carts == WithCart(old(carts.carts), userId))
        && (cart.items != [] ==>
              && r == Success(PlaceOrder(orderId, userId, cart, now))
              && orders == old(orders) + [r.value]
              && FindOrder(orders, orderId, userId) == Some(r.value)
              && carts.carts == if clearSucceeds then old(carts.carts)[userId := EmptyCart(userId)]
                                else old(carts.carts))
    {
      var cart := carts.GetCart(userId);
      if |cart.items| == 0 {
        return Failure(CartIsEmpty);
      }
      var orderItems := SnapshotItems(cart.items);
      var newOrder := Order(orderId, userId, orderItems, cart.totalPrice, Confirmed, now);
      FindAppended(orders, newOrder);
      orders := orders + [newOrder];
      if clearSucceeds {
        var _ := carts.ClearCart(userId);
      }
      r := Success(newOrder);
    }

    /** `getOrdersByUser`: exactly the user's orders, newest first. */
    function OrdersByUser(userId: UserId): (r: seq<Order>)
      reads this
      ensures forall o :: o in r ==> o.userId == userId && o in orders
      ensures forall o: Order :: o.userId == userId ==> multiset(r)[o] == multiset(orders)[o]
      ensures NewestFirst(r)
    {
      SortedOwnOrders(orders, userId);
      SortNewestFirst(OfUser(orders, userId))
    }

    /** `getOrderById`: refuses a malformed id; otherwise the order with
        that id if it belongs to the user, and nothing if it does not. */
    function OrderById(userId: UserId, orderId: OrderId, isValidId: string -> bool): (r: Result<Option<Order>, OrderError>)
      reads this
      ensures !isValidId(orderId) ==> r == Failure(InvalidOrderId)
      ensures isValidId(orderId) ==> r.Success?
      ensures r.Success? && r.value.Some? ==>
        r.value.value in orders && r.value.value.id == orderId && r.value.value.userId == userId
      ensures r.Success? && r.value.None? ==>
        forall o :: o in orders ==> !(o.id == orderId && o.userId == userId)
    {
      if !isValidId(orderId) then Failure(InvalidOrderId)
      else Success(FindOrder(orders, orderId, userId))
    }
  }
}
