/** Orders: how an order is built from a cart, the shipping rule, and how a
    verified payment confirms an order. */
module Orders {
  import opened Common
  import opened Catalog
  import opened Cart

  /** A line of an order. The product's name and price are copied at order
      time, so later catalogue changes do not alter the order. */
  datatype OrderItem = OrderItem(productId: ProductId, productName: string, price: int, quantity: int)

  /** The address is stored as sent; the server does not validate it. */
  datatype ShippingAddress = ShippingAddress(
    fullName: string, phone: string, addressLine1: string, addressLine2: Option<string>,
    city: string, state: string, pincode: string)

  datatype OrderStatus = Pending | Confirmed | Shipped | Delivered | Cancelled

  datatype Order = Order(
    id: Uuid, userId: Uuid, items: seq<OrderItem>, shippingAddress: ShippingAddress,
    paymentMethod: string, subtotal: int, shippingFee: int, total: int,
    status: OrderStatus, gatewayPaymentId: Option<string>)

  /** Orders strictly above this subtotal ship free. */
  const FreeShippingAbove := 5000

  const FlatShippingFee := 99

  /** The shipping fee of an order: free only when the subtotal is strictly
      above 5000, 99 otherwise (a subtotal of exactly 5000 pays 99). */
  function ShippingFee(subtotal: int): (fee: int)
    ensures fee == 0 <==> subtotal > FreeShippingAbove
    ensures fee == 0 || fee == FlatShippingFee
  {
    if subtotal > FreeShippingAbove then 0 else FlatShippingFee
  }

  /** Totals at and around the threshold. */
  lemma ShippingExamples()
    ensures ShippingFee(4000) == 99 && 4000 + ShippingFee(4000) == 4099
    ensures ShippingFee(5000) == 99 && ShippingFee(5001) == 0
    ensures ShippingFee(6000) == 0 && 6000 + ShippingFee(6000) == 6000
  {
  }

  /** The order line for a cart-view entry. */
  function ItemOf(e: CartEntry): OrderItem {
    OrderItem(e.productId, e.product.name, e.product.price, e.quantity)
  }

  /** The order lines built from a cart: one per cart line whose product is
      in the catalogue, in cart order, carrying that product's name and price. */
  function OrderItems(lines: seq<CartLine>, products: Products): seq<OrderItem>
    decreases |lines|
  {
    if lines == [] then []
    else OrderItems(lines[..|lines| - 1], products) + ItemsOf(lines[|lines| - 1], products)
  }

  /** The order lines correspond position by position to the cart view's
      entries: an order shows what the cart showed at checkout. */
  lemma {:induction false} OrderItemsMatchCartView(lines: seq<CartLine>, products: Products)
    ensures |OrderItems(lines, products)| == |CartEntries(lines, products)|
    ensures forall k :: 0 <= k < |OrderItems(lines, products)| ==>
              OrderItems(lines, products)[k] == ItemOf(CartEntries(lines, products)[k])
    decreases |lines|
  {
    if lines != [] {
      var n := |lines| - 1;
      OrderItemsMatchCartView(lines[..n], products);
      assert ItemsOf(lines[n], products)
          == if lines[n].productId in products then [ItemOf(EntryOf(lines[n], products)[0])] else [];
    }
  }

  /** The order line of one cart line: none when its product is not listed. */
  function ItemsOf(line: CartLine, products: Products): seq<OrderItem>
  {
    if line.productId in products
    then [OrderItem(line.productId, products[line.productId].name, products[line.productId].price, line.quantity)]
    else []
  }

  /** The amount of an order line. */
  function ItemAmount(item: OrderItem): int {
    item.price * item.quantity
  }

  /** The sum of price times quantity over an order's lines. */
  function ItemsTotal(items: seq<OrderItem>): int {
    if items == [] then 0 else ItemAmount(items[0]) + ItemsTotal(items[1..])
  }

  lemma {:induction false} ItemsTotalAppend(a: seq<OrderItem>, b: seq<OrderItem>)
    ensures ItemsTotal(a + b) == ItemsTotal(a) + ItemsTotal(b)
  {
    if a != [] {
      assert (a + b)[1..] == a[1..] + b;
      ItemsTotalAppend(a[1..], b);
    } else {
      assert a + b == b;
    }
  }

  /** The cart total (accumulated line by line over the cart) equals the sum
      over the order lines built from the same cart. */
  lemma {:induction false} SubtotalIsItemsTotal(lines: seq<CartLine>, products: Products)
    ensures Subtotal(lines, products) == ItemsTotal(OrderItems(lines, products))
    decreases |lines|
  {
    if lines != [] {
      var n := |lines| - 1;
      SubtotalIsItemsTotal(lines[..n], products);
      ItemsTotalAppend(OrderItems(lines[..n], products), ItemsOf(lines[n], products));
      assert ItemsTotal(ItemsOf(lines[n], products)) == LineAmount(lines[n], products) by {
        var t := ItemsOf(lines[n], products);
        if t != [] {
          assert t[1..] == [];
        }
      }
    }
  }

  /** The bookkeeping every stored order satisfies: its subtotal is the sum
      over its lines, its fee follows the shipping rule, and its total is
      subtotal plus fee. */
  predicate WellFormed(o: Order) {
    && o.subtotal == ItemsTotal(o.items)
    && o.shippingFee == ShippingFee(o.subtotal)
    && o.total == o.subtotal + o.shippingFee
  }

  predicate DistinctIds(orders: seq<Order>) {
    forall i, j :: 0 <= i < j < |orders| ==> orders[i].id != orders[j].id
  }

  /** The bookkeeping of the stored orders: ids distinct and below `bound`
      (the next id to hand out), every order well formed. */
  predicate OrdersWellKept(orders: seq<Order>, bound: nat) {
    && DistinctIds(orders)
    && forall k :: 0 <= k < |orders| ==> orders[k].id < bound && WellFormed(orders[k])
  }

  /** Handing out more ids keeps the bookkeeping. */
  lemma OrdersWellKeptRaise(orders: seq<Order>, bound: nat, bound': nat)
    requires OrdersWellKept(orders, bound) && bound <= bound'
    ensures OrdersWellKept(orders, bound')
  {
  }

  /** Appending a well-formed order with the next id keeps the bookkeeping,
      with the next id one higher. */
  lemma AppendFreshOrder(orders: seq<Order>, o: Order, bound: nat)
    requires OrdersWellKept(orders, bound)
    requires o.id == bound && WellFormed(o)
    ensures OrdersWellKept(orders + [o], bound + 1)
  {
  }

  /** The order a lookup by id and owner finds: the first one with both, or
      `|orders|` when there is none. */
  function FindOrder(orders: seq<Order>, id: Uuid, userId: Uuid): (i: nat)
    ensures i <= |orders|
    ensures i < |orders| ==> orders[i].id == id && orders[i].userId == userId
    ensures forall k :: 0 <= k < i ==> !(orders[k].id == id && orders[k].userId == userId)
  {
    FirstIndex(orders, (o: Order) => o.id == id && o.userId == userId)
  }

  /** get_order: the caller's order with that id, or 404. */
  function GetOrder(orders: seq<Order>, id: Uuid, userId: Uuid): (r: Result<Order>)
    ensures r.Ok? <==> exists k :: 0 <= k < |orders| && orders[k].id == id && orders[k].userId == userId
    ensures r.Ok? ==> r.value in orders && r.value.id == id && r.value.userId == userId
    ensures r.Err? ==> r.error == OrderNotFound
  {
    var i := FindOrder(orders, id, userId);
    if i < |orders| then Ok(orders[i]) else Err(OrderNotFound)
  }

  /** An order after its payment was verified. */
  function Confirm(o: Order, gatewayPaymentId: string): Order {
    o.(status := Confirmed, paymentMethod := "razorpay", gatewayPaymentId := Some(gatewayPaymentId))
  }

  /** The orders after verify_payment's update: the first order with that id
      belonging to that user is confirmed; no other order changes, and no
      order's lines or amounts change. */
  function ConfirmOrder(orders: seq<Order>, id: Uuid, userId: Uuid, gatewayPaymentId: string): (r: seq<Order>)
    ensures |r| == |orders|
    ensures forall k :: 0 <= k < |orders| && (orders[k].id != id || orders[k].userId != userId) ==> r[k] == orders[k]
    ensures forall k :: 0 <= k < |orders| ==>
              && r[k].id == orders[k].id && r[k].userId == orders[k].userId && r[k].items == orders[k].items
              && r[k].subtotal == orders[k].subtotal && r[k].shippingFee == orders[k].shippingFee
              && r[k].total == orders[k].total
    ensures (forall k :: 0 <= k < |orders| ==> !(orders[k].id == id && orders[k].userId == userId)) ==> r == orders
  {
    var i := FindOrder(orders, id, userId);
    if i < |orders| then orders[i := Confirm(orders[i], gatewayPaymentId)] else orders
  }

  /** With distinct order ids, the order with that id and owner is confirmed
      whatever its previous status, and every other order is left as it was. */
  lemma ConfirmOrderEffect(orders: seq<Order>, id: Uuid, userId: Uuid, gatewayPaymentId: string, k: nat)
    requires DistinctIds(orders) && k < |orders|
    ensures ConfirmOrder(orders, id, userId, gatewayPaymentId)[k]
         == if orders[k].id == id && orders[k].userId == userId then Confirm(orders[k], gatewayPaymentId) else orders[k]
  {
  }

  /** Confirming an order keeps every order well formed and ids distinct. */
  lemma ConfirmOrderKeepsBookkeeping(orders: seq<Order>, id: Uuid, userId: Uuid, gatewayPaymentId: string, bound: nat)
    requires OrdersWellKept(orders, bound)
    ensures OrdersWellKept(ConfirmOrder(orders, id, userId, gatewayPaymentId), bound)
  {
  }
}
