/** The items of one user's cart and the rules by which the cart endpoints
    change them. A cart is a sequence of lines, kept in the order they were
    added; the catalogue is consulted only to price the lines. */
module Cart {
  import opened Common
  import opened Catalog

  /** One cart line. The quantity is an unconstrained integer: the endpoints
      do not validate it. */
  datatype CartLine = CartLine(productId: ProductId, quantity: int)

  /** A cart line joined with its catalogue product, as the cart view lists it. */
  datatype CartEntry = CartEntry(productId: ProductId, quantity: int, product: Product)

  predicate HasProduct(lines: seq<CartLine>, pid: ProductId) {
    exists k :: 0 <= k < |lines| && lines[k].productId == pid
  }

  /** The cart invariant: each product has at most one line. */
  predicate UniqueProducts(lines: seq<CartLine>) {
    forall i, j :: 0 <= i < j < |lines| ==> lines[i].productId != lines[j].productId
  }

  /** Storing a cart with one line per product in a map of carts that all
      have that property keeps it for every cart. */
  lemma StoreCart<K>(carts: map<K, seq<CartLine>>, key: K, lines: seq<CartLine>)
    requires forall u :: u in carts ==> UniqueProducts(carts[u])
    requires UniqueProducts(lines)
    ensures var stored := carts[key := lines];
      forall u :: u in stored ==> UniqueProducts(stored[u])
  {
  }

  /** The line a positional update (`items.$`) addresses: the first line of
      the product, or `|lines|` when the product has none. */
  function IndexOf(lines: seq<CartLine>, pid: ProductId): (i: nat)
    ensures i <= |lines|
    ensures i < |lines| <==> HasProduct(lines, pid)
    ensures i < |lines| ==> lines[i].productId == pid
    ensures forall k :: 0 <= k < i ==> lines[k].productId != pid
  {
    FirstIndex(lines, (l: CartLine) => l.productId == pid)
  }

  /** Any position before which no line has the product, and at which the
      product's line sits (or the end), is the one `IndexOf` gives. */
  lemma IndexOfFirstMatch(lines: seq<CartLine>, pid: ProductId, i: nat)
    requires i <= |lines|
    requires i < |lines| ==> lines[i].productId == pid
    requires forall k :: 0 <= k < i ==> lines[k].productId != pid
    ensures i == IndexOf(lines, pid)
  {
  }

  /** In a cart without duplicate lines, the line of a product is the only one. */
  lemma IndexOfUnique(lines: seq<CartLine>, k: nat)
    requires UniqueProducts(lines) && k < |lines|
    ensures IndexOf(lines, lines[k].productId) == k
  {
  }

  /** What a line contributes to the quantity held of `pid`. */
  function Held(line: CartLine, pid: ProductId): int {
    if line.productId == pid then line.quantity else 0
  }

  /** The quantity of `pid` the cart holds, summed over all its lines: the
      cart seen as a bag of products, independent of how lines are laid out. */
  function QuantityOf(lines: seq<CartLine>, pid: ProductId): int {
    if lines == [] then 0 else Held(lines[0], pid) + QuantityOf(lines[1..], pid)
  }

  lemma {:induction false} QuantityOfAppend(lines: seq<CartLine>, line: CartLine, pid: ProductId)
    ensures QuantityOf(lines + [line], pid) == QuantityOf(lines, pid) + Held(line, pid)
  {
    if lines != [] {
      assert (lines + [line])[1..] == lines[1..] + [line];
      QuantityOfAppend(lines[1..], line, pid);
    }
  }

  lemma {:induction false} QuantityOfUpdate(lines: seq<CartLine>, k: nat, line: CartLine, pid: ProductId)
    requires k < |lines|
    ensures QuantityOf(lines[k := line], pid) == QuantityOf(lines, pid) - Held(lines[k], pid) + Held(line, pid)
  {
    if k > 0 {
      assert lines[k := line][1..] == lines[1..][k - 1 := line];
      QuantityOfUpdate(lines[1..], k - 1, line, pid);
    }
  }

  /** A product without a line is held in quantity zero. */
  lemma {:induction false} QuantityOfAbsent(lines: seq<CartLine>, pid: ProductId)
    requires !HasProduct(lines, pid)
    ensures QuantityOf(lines, pid) == 0
  {
    if lines != [] {
      assert !HasProduct(lines[1..], pid) by {
        forall k | 0 <= k < |lines[1..]| ensures lines[1..][k].productId != pid {
          assert lines[1..][k] == lines[k + 1];
        }
      }
      QuantityOfAbsent(lines[1..], pid);
    }
  }

  /** In a cart without duplicate lines, the quantity held of a product is
      the quantity on its line. */
  lemma {:induction false} QuantityOfLine(lines: seq<CartLine>, k: nat)
    requires UniqueProducts(lines) && k < |lines|
    ensures QuantityOf(lines, lines[k].productId) == lines[k].quantity
  {
    var pid := lines[k].productId;
    if k == 0 {
      assert !HasProduct(lines[1..], pid) by {
        forall j | 0 <= j < |lines[1..]| ensures lines[1..][j].productId != pid {
          assert lines[1..][j] == lines[j + 1];
        }
      }
      QuantityOfAbsent(lines[1..], pid);
    } else {
      assert lines[1..][k - 1] == lines[k];
      QuantityOfLine(lines[1..], k - 1);
    }
  }

  /** The items of an existing cart after add_to_cart: the added quantity is
      merged into the product's line when it has one; otherwise the item is
      appended as a new last line. */
  function AddLine(lines: seq<CartLine>, item: CartLine): (r: seq<CartLine>)
    ensures HasProduct(r, item.productId)
    ensures HasProduct(lines, item.productId) ==>
              |r| == |lines| &&
              r[IndexOf(lines, item.productId)].quantity == lines[IndexOf(lines, item.productId)].quantity + item.quantity
    ensures !HasProduct(lines, item.productId) ==> |r| == |lines| + 1 && r[|lines|] == item
    ensures forall k :: 0 <= k < |lines| && k != IndexOf(lines, item.productId) ==> r[k] == lines[k]
    ensures UniqueProducts(lines) ==> UniqueProducts(r)
  {
    var i := IndexOf(lines, item.productId);
    if i < |lines| then lines[i := CartLine(item.productId, lines[i].quantity + item.quantity)]
    else lines + [item]
  }

  /** Adding raises the quantity held of the added product by the added
      quantity and leaves every other product's quantity as it was. */
  lemma AddLineQuantity(lines: seq<CartLine>, item: CartLine, pid: ProductId)
    ensures QuantityOf(AddLine(lines, item), pid)
         == QuantityOf(lines, pid) + (if pid == item.productId then item.quantity else 0)
  {
    var i := IndexOf(lines, item.productId);
    if i < |lines| {
      QuantityOfUpdate(lines, i, CartLine(item.productId, lines[i].quantity + item.quantity), pid);
    } else {
      QuantityOfAppend(lines, item, pid);
    }
  }

  /** The items after a `$pull` of `pid`: every line of that product goes,
      the other lines stay. */
  function WithoutProduct(lines: seq<CartLine>, pid: ProductId): (r: seq<CartLine>)
    ensures |r| <= |lines|
    ensures !HasProduct(r, pid)
    ensures forall other :: !HasProduct(lines, other) ==> !HasProduct(r, other)
    ensures !HasProduct(lines, pid) ==> r == lines
    ensures UniqueProducts(lines) ==> UniqueProducts(r)
  {
    if lines == [] then []
    else
      var rest := WithoutProduct(lines[1..], pid);
      assert forall other :: !HasProduct(lines, other) ==> !HasProduct(lines[1..], other) by {
        forall other | !HasProduct(lines, other) ensures !HasProduct(lines[1..], other) {
          forall j | 0 <= j < |lines[1..]| ensures lines[1..][j].productId != other {
            assert lines[1..][j] == lines[j + 1];
          }
        }
      }
      if lines[0].productId == pid then rest
      else
        assert UniqueProducts(lines) ==> !HasProduct(lines[1..], lines[0].productId) by {
          if UniqueProducts(lines) {
            forall j | 0 <= j < |lines[1..]| ensures lines[1..][j].productId != lines[0].productId {
              assert lines[1..][j] == lines[j + 1];
            }
          }
        }
        assert !HasProduct(lines, pid) ==> rest == lines[1..];
        [lines[0]] + rest
  }

  /** In a cart without duplicate lines, removing a product that has a line
      takes out exactly that line and keeps the others in their order. */
  lemma {:induction false} WithoutProductDropsLine(lines: seq<CartLine>, i: nat)
    requires UniqueProducts(lines) && i < |lines|
    ensures WithoutProduct(lines, lines[i].productId) == lines[..i] + lines[i + 1..]
  {
    if i == 0 {
      WithoutFirstProduct(lines);
      assert lines[..i] + lines[i + 1..] == lines[1..];
    } else {
      var tail, pid := lines[1..], lines[i].productId;
      TailUnique(lines);
      WithoutProductDropsLine(tail, i - 1);
      assert tail[i - 1] == lines[i];
      assert lines[0].productId != pid;
      WithoutProductKeepsHead(lines, pid);
      DropLineSplit(lines, i);
    }
  }

  lemma WithoutProductKeepsHead(lines: seq<CartLine>, pid: ProductId)
    requires lines != [] && lines[0].productId != pid
    ensures WithoutProduct(lines, pid) == [lines[0]] + WithoutProduct(lines[1..], pid)
  {
  }

  lemma DropLineSplit(lines: seq<CartLine>, i: nat)
    requires 0 < i < |lines|
    ensures lines[..i] + lines[i + 1..] == [lines[0]] + (lines[1..][..i - 1] + lines[1..][i..])
  {
  }

  lemma TailUnique(lines: seq<CartLine>)
    requires UniqueProducts(lines) && lines != []
    ensures UniqueProducts(lines[1..])
  {
  }

  lemma WithoutFirstProduct(lines: seq<CartLine>)
    requires UniqueProducts(lines) && lines != []
    ensures WithoutProduct(lines, lines[0].productId) == lines[1..]
  {
  }

  /** Removing a product leaves none of it and every other product's
      quantity as it was. */
  lemma {:induction false} WithoutProductQuantity(lines: seq<CartLine>, pid: ProductId, other: ProductId)
    ensures QuantityOf(WithoutProduct(lines, pid), pid) == 0
    ensures other != pid ==> QuantityOf(WithoutProduct(lines, pid), other) == QuantityOf(lines, other)
  {
    QuantityOfAbsent(WithoutProduct(lines, pid), pid);
    if lines != [] {
      WithoutProductQuantity(lines[1..], pid, other);
    }
  }

  /** The items after a positional `$set` of the quantity: the first line of
      `pid` gets the new quantity; nothing happens when it has no line. */
  function SetQuantity(lines: seq<CartLine>, pid: ProductId, quantity: int): (r: seq<CartLine>)
    ensures |r| == |lines|
    ensures HasProduct(lines, pid) ==> r[IndexOf(lines, pid)] == CartLine(pid, quantity)
    ensures forall k :: 0 <= k < |lines| && k != IndexOf(lines, pid) ==> r[k] == lines[k]
    ensures !HasProduct(lines, pid) ==> r == lines
    ensures UniqueProducts(lines) ==> UniqueProducts(r)
  {
    var i := IndexOf(lines, pid);
    if i < |lines| then lines[i := CartLine(pid, quantity)] else lines
  }

  /** The items of an existing cart after update_cart_item: a quantity of
      zero or less removes the product, a positive one overwrites its line. */
  function UpdateLine(lines: seq<CartLine>, item: CartLine): (r: seq<CartLine>)
    ensures item.quantity <= 0 ==> !HasProduct(r, item.productId) && r == WithoutProduct(lines, item.productId)
    ensures item.quantity > 0 ==>
              && |r| == |lines|
              && (HasProduct(lines, item.productId) ==> r[IndexOf(lines, item.productId)] == item)
              && forall k :: 0 <= k < |lines| && k != IndexOf(lines, item.productId) ==> r[k] == lines[k]
    ensures !HasProduct(lines, item.productId) ==> r == lines
    ensures UniqueProducts(lines) ==> UniqueProducts(r)
  {
    if item.quantity <= 0 then WithoutProduct(lines, item.productId)
    else SetQuantity(lines, item.productId, item.quantity)
  }

  /** The carts after clear_cart: an existing cart keeps its document but
      has no lines; a user without a cart still has none. */
  function Cleared(carts: map<Uuid, seq<CartLine>>, userId: Uuid): (r: map<Uuid, seq<CartLine>>)
    ensures r.Keys == carts.Keys
    ensures userId in carts ==> r[userId] == []
    ensures forall u :: u in carts && u != userId ==> r[u] == carts[u]
  {
    if userId in carts then carts[userId := []] else carts
  }

  /** Clearing a cart twice leaves the same carts as clearing it once. */
  lemma ClearedIdempotent(carts: map<Uuid, seq<CartLine>>, userId: Uuid)
    ensures Cleared(Cleared(carts, userId), userId) == Cleared(carts, userId)
  {
  }

  /** In a cart without duplicate lines, an update leaves the product held
      in the requested quantity (none when it is not positive or the product
      had no line) and every other product's quantity as it was. */
  lemma UpdateLineQuantity(lines: seq<CartLine>, item: CartLine, pid: ProductId)
    requires UniqueProducts(lines)
    ensures QuantityOf(UpdateLine(lines, item), pid)
         == if pid != item.productId then QuantityOf(lines, pid)
            else if item.quantity > 0 && HasProduct(lines, pid) then item.quantity
            else 0
  {
    if item.quantity <= 0 {
      WithoutProductQuantity(lines, item.productId, pid);
    } else if HasProduct(lines, item.productId) {
      var i := IndexOf(lines, item.productId);
      QuantityOfUpdate(lines, i, CartLine(item.productId, item.quantity), pid);
      QuantityOfLine(lines, i);
    } else if pid == item.productId {
      QuantityOfAbsent(lines, pid);
    }
  }

  /** What a line adds to the cart total: price times quantity when the
      product is in the catalogue, nothing otherwise. */
  function LineAmount(line: CartLine, products: Products): int {
    if line.productId in products then products[line.productId].price * line.quantity else 0
  }

  /** The total of a cart: price times quantity summed over the lines whose
      product is in the catalogue, accumulated in line order. */
  function Subtotal(lines: seq<CartLine>, products: Products): int
    decreases |lines|
  {
    if lines == [] then 0
    else Subtotal(lines[..|lines| - 1], products) + LineAmount(lines[|lines| - 1], products)
  }

  /** The lines of the cart view: the cart lines whose product is in the
      catalogue, in cart order, each with its product. */
  function CartEntries(lines: seq<CartLine>, products: Products): seq<CartEntry>
    decreases |lines|
  {
    if lines == [] then []
    else CartEntries(lines[..|lines| - 1], products) + EntryOf(lines[|lines| - 1], products)
  }

  /** The cart view lists no more entries than there are lines, every entry
      carries the catalogue's current product, and when every product is
      listed there is one entry per line. */
  lemma {:induction false} CartEntriesListed(lines: seq<CartLine>, products: Products)
    ensures |CartEntries(lines, products)| <= |lines|
    ensures forall k :: 0 <= k < |CartEntries(lines, products)| ==>
              var e := CartEntries(lines, products)[k];
              e.productId in products && e.product == products[e.productId]
    ensures (forall k :: 0 <= k < |lines| ==> lines[k].productId in products) ==>
              |CartEntries(lines, products)| == |lines|
    decreases |lines|
  {
    if lines != [] {
      var n := |lines| - 1;
      CartEntriesListed(lines[..n], products);
      assert (forall k :: 0 <= k < |lines| ==> lines[k].productId in products) ==>
             (forall k :: 0 <= k < n ==> lines[..n][k].productId in products);
    }
  }

  /** The cart-view entry of one line: none when its product is not listed. */
  function EntryOf(line: CartLine, products: Products): seq<CartEntry> {
    if line.productId in products then [CartEntry(line.productId, line.quantity, products[line.productId])] else []
  }

  lemma {:induction false} SubtotalAppend(a: seq<CartLine>, b: seq<CartLine>, products: Products)
    ensures Subtotal(a + b, products) == Subtotal(a, products) + Subtotal(b, products)
    decreases |b|
  {
    if b == [] {
      assert a + b == a;
    } else {
      var n := |b| - 1;
      assert (a + b)[..|a + b| - 1] == a + b[..n];
      SubtotalAppend(a, b[..n], products);
    }
  }

  /** The cart view keeps cart order: the entries of two runs of lines are
      the entries of the first run followed by those of the second. */
  lemma {:induction false} CartEntriesAppend(a: seq<CartLine>, b: seq<CartLine>, products: Products)
    ensures CartEntries(a + b, products) == CartEntries(a, products) + CartEntries(b, products)
    decreases |b|
  {
    if b == [] {
      assert a + b == a;
    } else {
      var n := |b| - 1;
      assert CartEntries(a + b, products) == CartEntries(a + b[..n], products) + EntryOf(b[n], products) by {
        assert (a + b)[..|a + b| - 1] == a + b[..n];
        assert (a + b)[|a + b| - 1] == b[n];
      }
      CartEntriesAppend(a, b[..n], products);
    }
  }

  /** When every product is in the catalogue the cart view has one entry per
      line, position by position. */
  lemma {:induction false} CartEntriesAllListed(lines: seq<CartLine>, products: Products, k: nat)
    requires forall j :: 0 <= j < |lines| ==> lines[j].productId in products
    requires k < |lines|
    ensures |CartEntries(lines, products)| == |lines|
    ensures CartEntries(lines, products)[k]
         == CartEntry(lines[k].productId, lines[k].quantity, products[lines[k].productId])
    decreases |lines|
  {
    var n := |lines| - 1;
    CartEntriesListed(lines, products);
    if k < n {
      CartEntriesAllListed(lines[..n], products, k);
    } else {
      CartEntriesListed(lines[..n], products);
    }
  }

  /** Changing one line changes the total by the difference of the two
      lines' amounts. */
  lemma {:induction false} SubtotalUpdate(lines: seq<CartLine>, k: nat, line: CartLine, products: Products)
    requires k < |lines|
    ensures Subtotal(lines[k := line], products)
         == Subtotal(lines, products) - LineAmount(lines[k], products) + LineAmount(line, products)
    decreases |lines|
  {
    var n := |lines| - 1;
    if k < n {
      assert lines[k := line][..n] == lines[..n][k := line];
      SubtotalUpdate(lines[..n], k, line, products);
    } else {
      assert lines[k := line][..n] == lines[..n];
    }
  }

  /** Adding an item raises the cart total by the item's amount, whether it
      was merged into a line or appended. */
  lemma SubtotalAfterAdd(lines: seq<CartLine>, item: CartLine, products: Products)
    ensures Subtotal(AddLine(lines, item), products) == Subtotal(lines, products) + LineAmount(item, products)
  {
    var i := IndexOf(lines, item.productId);
    if i < |lines| {
      var merged := CartLine(item.productId, lines[i].quantity + item.quantity);
      assert AddLine(lines, item) == lines[i := merged];
      SubtotalUpdate(lines, i, merged, products);
      MergedAmount(lines[i], item, products);
    } else {
      assert AddLine(lines, item) == lines + [item];
      assert (lines + [item])[..|lines|] == lines;
    }
  }

  /** Merging a quantity into a line of the same product adds the amounts. */
  lemma MergedAmount(line: CartLine, item: CartLine, products: Products)
    requires line.productId == item.productId
    ensures LineAmount(CartLine(item.productId, line.quantity + item.quantity), products)
         == LineAmount(line, products) + LineAmount(item, products)
  {
  }

  /** In a cart without duplicate lines, removing a product lowers the total
      by the amount of its line (by nothing when it had none). */
  lemma SubtotalAfterRemove(lines: seq<CartLine>, pid: ProductId, products: Products)
    requires UniqueProducts(lines)
    ensures Subtotal(WithoutProduct(lines, pid), products)
         == Subtotal(lines, products) - if HasProduct(lines, pid) then LineAmount(lines[IndexOf(lines, pid)], products) else 0
  {
    if HasProduct(lines, pid) {
      var i := IndexOf(lines, pid);
      WithoutProductDropsLine(lines, i);
      assert lines == lines[..i] + [lines[i]] + lines[i + 1..];
      SubtotalAppend(lines[..i] + [lines[i]], lines[i + 1..], products);
      SubtotalAppend(lines[..i], [lines[i]], products);
      SubtotalAppend(lines[..i], lines[i + 1..], products);
      assert Subtotal([lines[i]], products) == LineAmount(lines[i], products) by {
        assert [lines[i]][..0] == [];
      }
    }
  }
}
