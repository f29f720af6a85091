/** The server's database as one in-memory store, and each API endpoint of
    the cart, order, payment and account groups as one atomic step on it.
    The endpoints receive the id of the authenticated user; `Authenticate`
    models how a bearer token resolves to that user. */
module Server {
  import opened Common
  import opened Catalog
  import opened Cart
  import opened Orders
  import opened Payments
  import opened Accounts

  class Store {
    /** The gateway's key secret and public key id (from the environment). */
    const keySecret: string
    const keyId: string
    /** HMAC-SHA256 keyed by the first argument, as a hex digest. */
    const sign: (string, string) -> string
    /** The SHA-256 hex digest of a password. */
    const hashPassword: string -> string

    /** The product catalogue; no modelled endpoint changes it. */
    const products: Products
    /** Cart items by user id; a user without a cart document has no key. */
    var carts: map<Uuid, seq<CartLine>>
    var orders: seq<Order>
    var payments: seq<Payment>
    var users: seq<UserRecord>
    var sessions: seq<Session>
    /** Every id and token handed out so far is below this one. */
    var nextId: nat

    ghost predicate Valid()
      reads this
    {
      CartsValid() && OrdersValid() && AccountsValid() && SessionsFresh()
    }

    /** Every cart holds at most one line per product. */
    ghost predicate CartsValid()
      reads this`carts
    {
      forall u :: u in carts ==> UniqueProducts(carts[u])
    }

    /** Order ids are fresh and distinct, and every order's amounts follow
        from its lines and the shipping rule. */
    ghost predicate OrdersValid()
      reads this`orders, this`nextId
    {
      OrdersWellKept(orders, nextId)
    }

    /** No two users share an email and no two sessions share a token. */
    ghost predicate AccountsValid()
      reads this`users, this`sessions
    {
      DistinctEmails(users) && DistinctTokens(sessions)
    }

    /** Every session token was handed out before `nextId`. */
    ghost predicate SessionsFresh()
      reads this`sessions, this`nextId
    {
      TokensBelow(sessions, nextId)
    }

    constructor (keySecret: string, keyId: string, sign: (string, string) -> string,
                 hashPassword: string -> string, catalogue: Products)
      ensures Valid()
      ensures this.keySecret == keySecret && this.keyId == keyId
      ensures this.sign == sign && this.hashPassword == hashPassword
      ensures products == catalogue && carts == map[] && orders == [] && payments == []
      ensures users == [] && sessions == []
    {
      this.keySecret, this.keyId := keySecret, keyId;
      this.sign, this.hashPassword := sign, hashPassword;
      products := catalogue;
      carts, orders, payments := map[], [], [];
      users, sessions, nextId := [], [], 0;
    }

    /** GET /cart: the lines whose product is listed, each with its product,
        and the total of price times quantity over them; an empty view when
        the user has no cart. */
    method GetCart(userId: Uuid) returns (entries: seq<CartEntry>, total: int)
      ensures userId !in carts ==> entries == [] && total == 0
      ensures userId in carts ==>
                entries == CartEntries(carts[userId], products) && total == Subtotal(carts[userId], products)
    {
      if userId !in carts {
        return [], 0;
      }
      entries, total := ViewCart(carts[userId], products);
    }

    /** POST /cart/add: an unlisted product is refused with 404 and the cart
        is left alone; otherwise a user without a cart gets one holding the
        item, and an existing cart has the item merged or appended. */
    method AddToCart(userId: Uuid, item: CartLine) returns (r: Result<()>)
      requires Valid()
      modifies this`carts
      ensures Valid()
      ensures r.Err? <==> item.productId !in products
      ensures r.Err? ==> r.error == ProductNotFound && carts == old(carts)
      ensures r.Ok? ==> carts == old(carts)[userId := if userId in old(carts) then AddLine(old(carts)[userId], item) else [item]]
    {
      if item.productId !in products {
        return Err(ProductNotFound);
      }
      if userId !in carts {
        StoreCart(carts, userId, [item]);
        carts := carts[userId := [item]];
        return Ok(());
      }
      var lines := carts[userId];
      var i := FindLine(lines, item.productId);
      var updated := if i < |lines| then lines[i := CartLine(item.productId, lines[i].quantity + item.quantity)]
                     else lines + [item];
      IndexOfFirstMatch(lines, item.productId, i);
      assert updated == AddLine(lines, item);
      StoreCart(carts, userId, updated);
      carts := carts[userId := updated];
      r := Ok(());
    }

    /** PUT /cart/update: in an existing cart, a quantity of zero or less
        removes the product's lines and a positive one overwrites its line;
        a user without a cart is left without one. */
    method UpdateCartItem(userId: Uuid, item: CartLine)
      requires Valid()
      modifies this`carts
      ensures Valid()
      ensures carts == if userId in old(carts) then old(carts)[userId := UpdateLine(old(carts)[userId], item)] else old(carts)
    {
      if userId in carts {
        StoreCart(carts, userId, UpdateLine(carts[userId], item));
        carts := carts[userId := UpdateLine(carts[userId], item)];
      }
    }

    /** DELETE /cart/remove/{product_id}: every line of the product goes. */
    method RemoveFromCart(userId: Uuid, productId: ProductId)
      requires Valid()
      modifies this`carts
      ensures Valid()
      ensures carts == if userId in old(carts) then old(carts)[userId := WithoutProduct(old(carts)[userId], productId)] else old(carts)
    {
      if userId in carts {
        StoreCart(carts, userId, WithoutProduct(carts[userId], productId));
        carts := carts[userId := WithoutProduct(carts[userId], productId)];
      }
    }

    /** DELETE /cart/clear: an existing cart is emptied (the document stays). */
    method ClearCart(userId: Uuid)
      requires Valid()
      modifies this`carts
      ensures Valid()
      ensures carts == Cleared(old(carts), userId)
    {
      if userId in carts {
        StoreCart(carts, userId, []);
        carts := carts[userId := []];
      }
    }

    /** POST /orders: a missing or empty cart is refused with 400 and nothing
        changes. Otherwise exactly one pending order is added, holding one
        line per cart line whose product is listed, the subtotal over them,
        the shipping fee and the total, and the user's cart is emptied. The
        payment method is recorded as given: cash on delivery and online
        payment are treated alike here. */
    method CreateOrder(userId: Uuid, address: ShippingAddress, paymentMethod: string) returns (r: Result<Order>)
      requires Valid()
      modifies this`orders, this`carts, this`nextId
      ensures Valid()
      ensures r.Err? <==> userId !in old(carts) || old(carts)[userId] == []
      ensures r.Err? ==> r.error == CartEmpty && orders == old(orders) && carts == old(carts) && nextId == old(nextId)
      ensures r.Ok? ==>
                var lines, o := old(carts)[userId], r.value;
                && o.id == old(nextId) && o.userId == userId
                && o.shippingAddress == address && o.paymentMethod == paymentMethod
                && o.items == OrderItems(lines, products)
                && o.subtotal == Subtotal(lines, products)
                && o.shippingFee == ShippingFee(o.subtotal)
                && o.total == o.subtotal + o.shippingFee
                && o.status == Pending && o.gatewayPaymentId == None
                && orders == old(orders) + [o]
                && carts == old(carts)[userId := []]
                && nextId == old(nextId) + 1
    {
      if userId !in carts || carts[userId] == [] {
        return Err(CartEmpty);
      }
      var lines := carts[userId];
      var items, subtotal := PriceOrderLines(lines, products);
      var shippingFee := ShippingFee(subtotal);
      var order := Order(nextId, userId, items, address, paymentMethod, subtotal, shippingFee,
                         subtotal + shippingFee, Pending, None);
      AppendFreshOrder(orders, order, nextId);
      TokensBelowRaise(sessions, nextId, nextId + 1);
      StoreCart(carts, userId, []);
      orders, carts, nextId := orders + [order], carts[userId := []], nextId + 1;
      r := Ok(order);
    }

    /** POST /payments/create-order: `gatewayOrder` is the id of the order the
        payment gateway created for `amount` paise, or None when the gateway
        call failed (500, nothing stored). On success a payment record in
        state created is added and the checkout parameters are returned. */
    method CreatePaymentIntent(userId: Uuid, amount: int, gatewayOrder: Option<string>) returns (r: Result<PaymentIntent>)
      requires Valid()
      modifies this`payments, this`nextId
      ensures Valid()
      ensures r.Err? <==> gatewayOrder.None?
      ensures r.Err? ==> r.error == PaymentOrderFailed && payments == old(payments) && nextId == old(nextId)
      ensures r.Ok? ==>
                && r.value == PaymentIntent(gatewayOrder.value, amount, Currency, keyId)
                && payments == old(payments) + [Payment(old(nextId), userId, gatewayOrder.value, amount, Currency, Created, None, None)]
                && nextId == old(nextId) + 1
    {
      if gatewayOrder.None? {
        return Err(PaymentOrderFailed);
      }
      OrdersWellKeptRaise(orders, nextId, nextId + 1);
      TokensBelowRaise(sessions, nextId, nextId + 1);
      payments, nextId := payments + [Payment(nextId, userId, gatewayOrder.value, amount, Currency, Created, None, None)], nextId + 1;
      r := Ok(PaymentIntent(gatewayOrder.value, amount, Currency, keyId));
    }

    /** POST /payments/verify: a signature other than the HMAC of
        "gateway order id|gateway payment id" is refused with 400 and changes
        nothing. A matching one marks the gateway order's payment record paid
        and confirms the caller's order with the given id. */
    method VerifyPayment(userId: Uuid, proof: PaymentVerification) returns (r: Result<()>)
      requires Valid()
      modifies this`payments, this`orders
      ensures Valid()
      ensures r.Ok? <==> proof.signature == sign(keySecret, SignedMessage(proof.gatewayOrderId, proof.gatewayPaymentId))
      ensures r.Err? ==> r.error == InvalidSignature && payments == old(payments) && orders == old(orders)
      ensures r.Ok? ==>
                && payments == MarkPaid(old(payments), proof.gatewayOrderId, proof.gatewayPaymentId, proof.signature)
                && orders == ConfirmOrder(old(orders), proof.orderId, userId, proof.gatewayPaymentId)
    {
      var expected := sign(keySecret, SignedMessage(proof.gatewayOrderId, proof.gatewayPaymentId));
      if expected != proof.signature {
        return Err(InvalidSignature);
      }
      payments := MarkPaid(payments, proof.gatewayOrderId, proof.gatewayPaymentId, proof.signature);
      ConfirmOrderKeepsBookkeeping(orders, proof.orderId, userId, proof.gatewayPaymentId, nextId);
      orders := ConfirmOrder(orders, proof.orderId, userId, proof.gatewayPaymentId);
      r := Ok(());
    }

    /** POST /auth/register: a taken email is refused with 400 and nothing
        changes; otherwise a new user (with the password's hash) and a new
        session for them are stored. */
    method Register(email: string, password: string, name: string, phone: Option<string>) returns (r: Result<UserResponse>)
      requires Valid()
      modifies this`users, this`sessions, this`nextId
      ensures Valid()
      ensures r.Err? <==> EmailTaken(old(users), email)
      ensures r.Err? ==> r.error == EmailRegistered && users == old(users) && sessions == old(sessions) && nextId == old(nextId)
      ensures r.Ok? ==>
                var user := User(old(nextId), email, name, phone);
                && users == old(users) + [UserRecord(user, hashPassword(password))]
                && sessions == old(sessions) + [Session(old(nextId) + 1, user.id)]
                && nextId == old(nextId) + 2
                && r.value == UserResponse(user, old(nextId) + 1)
    {
      if FindByEmail(users, email) < |users| {
        return Err(EmailRegistered);
      }
      var user := User(nextId, email, name, phone);
      RegisterKeepsEmailsDistinct(users, UserRecord(user, hashPassword(password)));
      NewSessionKeepsTokensDistinct(sessions, nextId, Session(nextId + 1, user.id), nextId + 2);
      OrdersWellKeptRaise(orders, nextId, nextId + 2);
      r := Ok(UserResponse(user, nextId + 1));
      users, sessions, nextId := users + [UserRecord(user, hashPassword(password))], sessions + [Session(nextId + 1, user.id)], nextId + 2;
    }

    /** POST /auth/login: an unknown email or a wrong password is refused with
        401 and nothing changes; otherwise a new session for the user with
        that email is stored. */
    method Login(email: string, password: string) returns (r: Result<UserResponse>)
      requires Valid()
      modifies this`sessions, this`nextId
      ensures Valid()
      ensures r.Ok? <==> exists k :: 0 <= k < |users| && users[k].user.email == email
                                  && users[k].passwordHash == hashPassword(password)
      ensures r.Err? ==> r.error == InvalidCredentials && sessions == old(sessions) && nextId == old(nextId)
      ensures r.Ok? ==>
                exists k ::
                  && 0 <= k < |users| && users[k].user.email == email
                  && sessions == old(sessions) + [Session(old(nextId), users[k].user.id)]
                  && r.value == UserResponse(users[k].user, old(nextId))
                  && nextId == old(nextId) + 1
    {
      var i := FindByEmail(users, email);
      if i == |users| || users[i].passwordHash != hashPassword(password) {
        if i < |users| {
          forall k | 0 <= k < |users| && users[k].user.email == email
            ensures users[k].passwordHash != hashPassword(password)
          {
            FindByEmailUnique(users, k);
          }
        }
        return Err(InvalidCredentials);
      }
      NewSessionKeepsTokensDistinct(sessions, nextId, Session(nextId, users[i].user.id), nextId + 1);
      OrdersWellKeptRaise(orders, nextId, nextId + 1);
      r := Ok(UserResponse(users[i].user, nextId));
      sessions, nextId := sessions + [Session(nextId, users[i].user.id)], nextId + 1;
    }

    /** POST /auth/logout: a token that does not authenticate is refused with
        401; otherwise its session is deleted. */
    method Logout(token: Option<Uuid>) returns (r: Result<()>)
      requires Valid()
      modifies this`sessions
      ensures Valid()
      ensures r.Ok? <==> Authenticate(old(sessions), users, token).Some?
      ensures r.Err? ==> r.error == AuthenticationRequired && sessions == old(sessions)
      ensures r.Ok? ==> sessions == WithoutSession(old(sessions), token.value)
    {
      if Authenticate(sessions, users, token).None? {
        return Err(AuthenticationRequired);
      }
      LogoutKeepsTokensBelow(sessions, token.value, nextId);
      sessions := WithoutSession(sessions, token.value);
      r := Ok(());
    }
  }

  /** The line lookup of add_to_cart: the position of the first line of the
      product, or the number of lines when it has none. */
  method FindLine(lines: seq<CartLine>, productId: ProductId) returns (i: nat)
    ensures i <= |lines|
    ensures i < |lines| ==> lines[i].productId == productId
    ensures forall k :: 0 <= k < i ==> lines[k].productId != productId
  {
    i := 0;
    while i < |lines| && lines[i].productId != productId
      invariant i <= |lines|
      invariant forall k :: 0 <= k < i ==> lines[k].productId != productId
    {
      i := i + 1;
    }
  }

  /** The loop of get_cart: walks the cart lines in order, listing each line
      whose product is in the catalogue with its product and adding price
      times quantity to the total. */
  method ViewCart(lines: seq<CartLine>, products: Products) returns (entries: seq<CartEntry>, total: int)
    ensures entries == CartEntries(lines, products)
    ensures total == Subtotal(lines, products)
  {
    entries, total := [], 0;
    for i := 0 to |lines|
      invariant entries == CartEntries(lines[..i], products)
      invariant total == Subtotal(lines[..i], products)
    {
      assert lines[..i + 1][..i] == lines[..i];
      var line := lines[i];
      if line.productId in products {
        var product := products[line.productId];
        entries := entries + [CartEntry(line.productId, line.quantity, product)];
        total := total + product.price * line.quantity;
      }
    }
    assert lines[..|lines|] == lines;
  }

  /** The loop of create_order: walks the cart lines in order, building an
      order line for each line whose product is in the catalogue and adding
      price times quantity to the subtotal. */
  method PriceOrderLines(lines: seq<CartLine>, products: Products) returns (items: seq<OrderItem>, subtotal: int)
    ensures items == OrderItems(lines, products)
    ensures subtotal == Subtotal(lines, products)
    ensures subtotal == ItemsTotal(items)
  {
    items, subtotal := [], 0;
    for i := 0 to |lines|
      invariant items == OrderItems(lines[..i], products)
      invariant subtotal == Subtotal(lines[..i], products)
    {
      assert lines[..i + 1][..i] == lines[..i];
      var line := lines[i];
      if line.productId in products {
        var product := products[line.productId];
        items := items + [OrderItem(line.productId, product.name, product.price, line.quantity)];
        subtotal := subtotal + product.price * line.quantity;
      }
    }
    assert lines[..|lines|] == lines;
    SubtotalIsItemsTotal(lines, products);
  }

  /** A checkout with cash on delivery below the free-shipping threshold:
      the order carries the cart's total, pays 99 for shipping, and the cart
      is empty afterwards. */
  method CheckoutBelowThreshold(address: ShippingAddress, sign: (string, string) -> string, hash: string -> string)
  {
    var store := new Store("secret", "key", sign, hash, map["drill" := Product("Drill", 4000)]);
    var added := store.AddToCart(7, CartLine("drill", 1));
    assert added.Ok?;
    var entries, total := store.GetCart(7);
    assert [CartLine("drill", 1)][..0] == [];
    assert total == 4000;
    var placed := store.CreateOrder(7, address, "cod");
    assert placed.Ok?;
    assert placed.value.subtotal == total && placed.value.shippingFee == 99 && placed.value.total == 4099;
    entries, total := store.GetCart(7);
    assert entries == [] && total == 0;
  }
}
