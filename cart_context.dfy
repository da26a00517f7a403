/**
 * The cart store: the signed-in user's `cart_items` rows and the local list `cartItems` that
 * mirrors them, with the two values derived from that list (`totalPrice`, `requiresPrescription`).
 */
module CartContext {
  import opened Options
  import opened Records
  import opened Store
  import Seqs

  /** A row of the local cart: the `cart_items` row joined with its product. */
  datatype CartLine = CartLine(id: Id, productId: Id, quantity: int, product: Product)

  /** What one line adds to the total: price times quantity. */
  function LineAmount(l: CartLine): int {
    l.product.price * l.quantity
  }

  /** `cartItems.reduce((sum, item) => sum + item.product.price * item.quantity, 0)`, a left fold. */
  function TotalPrice(lines: seq<CartLine>): (r: int)
    ensures lines == [] ==> r == 0
    ensures |lines| == 1 ==> r == lines[0].product.price * lines[0].quantity
  {
    if lines == [] then 0
    else TotalPrice(lines[..|lines| - 1]) + LineAmount(lines[|lines| - 1])
  }

  /** The total of two carts laid end to end is the sum of their totals. */
  lemma {:induction false} TotalPriceConcat(a: seq<CartLine>, b: seq<CartLine>)
    ensures TotalPrice(a + b) == TotalPrice(a) + TotalPrice(b)
  {
    if b == [] {
      assert a + b == a;
    } else {
      var init := b[..|b| - 1];
      assert (a + b)[..|a + b| - 1] == a + init;
      TotalPriceConcat(a, init);
    }
  }

  /** The total is never negative when no price and no quantity is. */
  lemma {:induction false} TotalPriceNonNegative(lines: seq<CartLine>)
    requires forall i :: 0 <= i < |lines| ==> lines[i].product.price >= 0 && lines[i].quantity >= 0
    ensures TotalPrice(lines) >= 0
  {
    if lines != [] {
      TotalPriceNonNegative(lines[..|lines| - 1]);
    }
  }

  /** `cartItems.some(item => item.product.requires_prescription)`. */
  function RequiresPrescription(lines: seq<CartLine>): (r: bool)
    ensures r <==> exists i :: 0 <= i < |lines| && lines[i].product.requiresPrescription
  {
    if lines == [] then false
    else
      var rest := RequiresPrescription(lines[1..]);
      assert forall i :: 1 <= i < |lines| ==> lines[i] == lines[1..][i - 1];
      lines[0].product.requiresPrescription || rest
  }

  /** `cartItems.find(item => item.product_id === productId)`: the first line for that product. */
  function FindByProduct(lines: seq<CartLine>, productId: Id): (r: Option<CartLine>)
    ensures r.None? <==> forall i :: 0 <= i < |lines| ==> lines[i].productId != productId
    ensures r.Some? ==> exists k :: 0 <= k < |lines| && lines[k] == r.value && r.value.productId == productId
                          && forall j :: 0 <= j < k ==> lines[j].productId != productId
  {
    if lines == [] then None
    else if lines[0].productId == productId then Some(lines[0])
    else
      var r := FindByProduct(lines[1..], productId);
      assert forall i :: 1 <= i < |lines| ==> lines[i] == lines[1..][i - 1];
      r
  }

  /** Every cart row names an existing product. */
  predicate ReferencesProducts(rows: seq<CartItemRow>, products: map<Id, Product>) {
    forall i :: 0 <= i < |rows| ==> rows[i].productId in products
  }

  function LineOf(row: CartItemRow, products: map<Id, Product>): CartLine
    requires row.productId in products
  {
    CartLine(row.id, row.productId, row.quantity, products[row.productId])
  }

  /** `fetchCart`: the user's rows, in table order, each joined with its product. */
  function UserLines(rows: seq<CartItemRow>, products: map<Id, Product>, user: UserId): seq<CartLine>
    requires ReferencesProducts(rows, products)
  {
    if rows == [] then []
    else (if rows[0].userId == user then [LineOf(rows[0], products)] else [])
         + UserLines(rows[1..], products, user)
  }

  /** The fetched cart holds a line for exactly the user's rows. */
  lemma {:induction false} UserLinesMembership(rows: seq<CartItemRow>, products: map<Id, Product>, user: UserId, l: CartLine)
    requires ReferencesProducts(rows, products)
    ensures l in UserLines(rows, products, user) <==>
            exists i :: 0 <= i < |rows| && rows[i].userId == user && l == LineOf(rows[i], products)
  {
    if rows != [] {
      UserLinesMembership(rows[1..], products, user, l);
      assert forall i :: 1 <= i < |rows| ==> rows[i] == rows[1..][i - 1];
      if l in UserLines(rows[1..], products, user) {
        var i :| 0 <= i < |rows[1..]| && rows[1..][i].userId == user && l == LineOf(rows[1..][i], products);
        assert rows[i + 1] == rows[1..][i];
      }
    }
  }

  /** A user with no rows has an empty cart. */
  lemma {:induction false} UserLinesOfAbsentUser(rows: seq<CartItemRow>, products: map<Id, Product>, user: UserId)
    requires ReferencesProducts(rows, products)
    requires forall i :: 0 <= i < |rows| ==> rows[i].userId != user
    ensures UserLines(rows, products, user) == []
  {
    if rows != [] {
      UserLinesOfAbsentUser(rows[1..], products, user);
    }
  }

  class Cart {
    const db: Database
    /** The signed-in user, if any. */
    const user: Option<UserId>
    /** The local `cartItems` state. */
    var items: seq<CartLine>

    /** The local list mirrors the user's rows, joined with the products; without a user it is empty. */
    ghost predicate Valid()
      reads this, db
    {
      db.Valid()
      && items == if user.Some? then UserLines(db.cartItems, db.products, user.value) else []
    }

    constructor (db: Database, user: Option<UserId>)
      requires db.Valid()
      ensures Valid() && this.db == db && this.user == user
    {
      this.db := db;
      this.user := user;
      items := if user.Some? then UserLines(db.cartItems, db.products, user.value) else [];
    }

    /** Re-read the user's rows after a write; it does nothing without a user. */
    method FetchCart()
      requires db.Valid()
      requires user.None? ==> items == []
      modifies this`items
      ensures Valid()
    {
      if user.None? {
        return;
      }
      items := UserLines(db.cartItems, db.products, user.value);
    }

    /**
     * `addToCart`: without a user nothing happens. A product already in the local cart gets its
     * quantity raised through `updateQuantity`; otherwise one row is inserted. `writeOk` is the
     * outcome of that write; an insert naming an unknown product fails on the foreign key.
     */
    method AddToCart(productId: Id, writeOk: bool, quantity: int := 1)
      requires Valid()
      modifies this, db
      ensures Valid() && db.OnlyCartItemsChanged()
      ensures user.None? ==> db.cartItems == old(db.cartItems) && items == old(items)
      ensures user.Some? && FindByProduct(old(items), productId).Some? ==>
        var line := FindByProduct(old(items), productId).value;
        db.cartItems == if writeOk && line.quantity + quantity >= 1
                        then SetQuantity(old(db.cartItems), line.id, line.quantity + quantity)
                        else old(db.cartItems)
      ensures user.Some? && FindByProduct(old(items), productId).None? ==>
        db.cartItems == if writeOk && productId in db.products
                        then old(db.cartItems) + [CartItemRow(old(db.nextId), user.value, productId, quantity)]
                        else old(db.cartItems)
    {
      if user.None? {
        return;
      }
      var existing := FindByProduct(items, productId);
      if existing.Some? {
        var line := existing.value;
        UpdateQuantity(line.id, line.quantity + quantity, writeOk);
        assert FindByProduct(old(items), productId) == existing;
      } else {
        InsertRow(productId, quantity, writeOk);
        assert FindByProduct(old(items), productId).None?;
      }
    }

    /**
     * The insert branch of `addToCart`: one new row for a product the user's cart does not hold,
     * when the write succeeds; an unknown product fails on the foreign key and changes nothing.
     */
    method InsertRow(productId: Id, quantity: int, writeOk: bool)
      requires Valid() && user.Some?
      requires FindByProduct(items, productId).None?
      modifies this, db
      ensures Valid() && db.OnlyCartItemsChanged()
      ensures db.cartItems == if writeOk && productId in db.products
                              then old(db.cartItems) + [CartItemRow(old(db.nextId), user.value, productId, quantity)]
                              else old(db.cartItems)
    {
      if !writeOk || productId !in db.products {
        return;
      }
      ghost var rows := db.cartItems;
      forall i | 0 <= i < |rows| && rows[i].userId == user.value
        ensures rows[i].productId != productId
      {
        UserLinesMembership(rows, db.products, user.value, LineOf(rows[i], db.products));
      }
      var id := db.FreshId();
      var row := CartItemRow(id, user.value, productId, quantity);
      db.cartItems := db.cartItems + [row];
      assert Seqs.Pairwise(db.cartItems, DistinctRows) by {
        forall i, j | 0 <= i < j < |db.cartItems| ensures DistinctRows(db.cartItems[i], db.cartItems[j]) {
          if j < |rows| {
            assert db.cartItems[i] == rows[i] && db.cartItems[j] == rows[j];
          } else {
            assert db.cartItems[i] == rows[i] && db.cartItems[j] == row;
          }
        }
      }
      FetchCart();
    }

    /**
     * `updateQuantity`: a quantity below 1 is ignored; otherwise, when the write succeeds, the row
     * with that id takes the new quantity and every other row stays as it was.
     */
    method UpdateQuantity(cartItemId: Id, quantity: int, writeOk: bool)
      requires Valid()
      modifies this, db
      ensures Valid() && db.OnlyCartItemsChanged()
      ensures db.cartItems == if quantity >= 1 && writeOk
                              then SetQuantity(old(db.cartItems), cartItemId, quantity)
                              else old(db.cartItems)
      ensures db.cartItems == old(db.cartItems) ==> items == old(items)
    {
      if quantity < 1 {
        return;
      }
      if writeOk {
        ghost var rows := db.cartItems;
        db.cartItems := SetQuantity(db.cartItems, cartItemId, quantity);
        assert Seqs.Pairwise(db.cartItems, DistinctRows) by {
          forall i, j | 0 <= i < j < |db.cartItems| ensures DistinctRows(db.cartItems[i], db.cartItems[j]) {
            assert DistinctRows(rows[i], rows[j]);
          }
        }
        FetchCart();
      }
    }

    /** `removeFromCart`: when the delete succeeds, exactly the rows with that id are gone. */
    method RemoveFromCart(cartItemId: Id, writeOk: bool)
      requires Valid()
      modifies this, db
      ensures Valid() && db.OnlyCartItemsChanged()
      ensures db.cartItems == if writeOk then WithoutId(old(db.cartItems), cartItemId) else old(db.cartItems)
      ensures !writeOk ==> items == old(items)
    {
      if writeOk {
        WithoutIdKeepsDistinct(db.cartItems, cartItemId);
        db.cartItems := WithoutId(db.cartItems, cartItemId);
        FetchCart();
      }
    }

    /** `clearCart`: with a user and a successful delete, all the user's rows go and the local cart empties. */
    method ClearCart(writeOk: bool)
      requires Valid()
      modifies this, db
      ensures Valid() && db.OnlyCartItemsChanged()
      ensures db.cartItems == if user.Some? && writeOk then WithoutUser(old(db.cartItems), user.value)
                              else old(db.cartItems)
      ensures items == if user.Some? && writeOk then [] else old(items)
    {
      if user.None? {
        return;
      }
      if writeOk {
        WithoutUserKeepsDistinct(db.cartItems, user.value);
        db.cartItems := WithoutUser(db.cartItems, user.value);
        items := [];
        forall i | 0 <= i < |db.cartItems| ensures db.cartItems[i].userId != user.value {
          assert db.cartItems[i] in db.cartItems;
        }
        UserLinesOfAbsentUser(db.cartItems, db.products, user.value);
      }
    }
  }
}
