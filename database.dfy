/** The backing store: the storefront's tables held in memory. */
module Store {
  import opened Options
  import opened Records
  import Seqs

  /** Two different `cart_items` rows: distinct ids, and distinct products when they belong to one user. */
  predicate DistinctRows(a: CartItemRow, b: CartItemRow) {
    a.id != b.id && (a.userId == b.userId ==> a.productId != b.productId)
  }

  /** `update({ quantity }).eq("id", id)`: every row with that id gets the new quantity. */
  function SetQuantity(rows: seq<CartItemRow>, id: Id, quantity: int): (r: seq<CartItemRow>)
    ensures |r| == |rows|
    ensures forall i :: 0 <= i < |rows| ==>
      r[i] == if rows[i].id == id then rows[i].(quantity := quantity) else rows[i]
  {
    seq(|rows|, i requires 0 <= i < |rows| =>
      if rows[i].id == id then rows[i].(quantity := quantity) else rows[i])
  }

  function IdIsNot(id: Id): CartItemRow -> bool {
    (x: CartItemRow) => x.id != id
  }

  function UserIsNot(user: UserId): CartItemRow -> bool {
    (x: CartItemRow) => x.userId != user
  }

  /** `delete().eq("id", id)`: the rows without that id, in their order. */
  function WithoutId(rows: seq<CartItemRow>, id: Id): (r: seq<CartItemRow>)
    ensures forall x :: x in r <==> x in rows && x.id != id
  {
    Seqs.Filter(rows, IdIsNot(id))
  }

  /** `delete().eq("user_id", user)`: the other users' rows, in their order. */
  function WithoutUser(rows: seq<CartItemRow>, user: UserId): (r: seq<CartItemRow>)
    ensures forall x :: x in r <==> x in rows && x.userId != user
  {
    Seqs.Filter(rows, UserIsNot(user))
  }

  /** Deleting by id deletes nothing else and keeps the remaining rows in order. */
  lemma WithoutIdKeepsDistinct(rows: seq<CartItemRow>, id: Id)
    requires Seqs.Pairwise(rows, DistinctRows)
    ensures Seqs.Pairwise(WithoutId(rows, id), DistinctRows)
    ensures Seqs.IsSubsequence(WithoutId(rows, id), rows)
  {
    Seqs.FilterKeepsPairwise(rows, IdIsNot(id), DistinctRows);
    Seqs.FilterIsSubsequence(rows, IdIsNot(id));
  }

  /** Deleting a user's rows keeps the other users' rows, in order. */
  lemma WithoutUserKeepsDistinct(rows: seq<CartItemRow>, user: UserId)
    requires Seqs.Pairwise(rows, DistinctRows)
    ensures Seqs.Pairwise(WithoutUser(rows, user), DistinctRows)
    ensures Seqs.IsSubsequence(WithoutUser(rows, user), rows)
  {
    Seqs.FilterKeepsPairwise(rows, UserIsNot(user), DistinctRows);
    Seqs.FilterIsSubsequence(rows, UserIsNot(user));
  }

  class Database {
    var products: map<Id, Product>
    var cartItems: seq<CartItemRow>
    var orders: map<Id, Order>
    var orderItems: seq<OrderItemRow>
    var prescriptions: map<Id, Prescription>
    /** `profiles.full_name` by user; a null name is the empty string. */
    var profiles: map<UserId, string>
    /** Every id the database has handed out is below this one. */
    var nextId: Id

    /**
     * Ids are unique and below `nextId`, a cart row's product exists (a foreign key), and a
     * user has at most one cart row per product.
     */
    ghost predicate Valid()
      reads this
    {
      && (forall i :: 0 <= i < |cartItems| ==> cartItems[i].id < nextId && cartItems[i].productId in products)
      && Seqs.Pairwise(cartItems, DistinctRows)
      && (forall id :: id in orders ==> id < nextId)
      && (forall id :: id in prescriptions ==> id < nextId)
    }

    constructor (products: map<Id, Product>, profiles: map<UserId, string>)
      ensures Valid()
      ensures this.products == products && this.profiles == profiles
      ensures cartItems == [] && orders == map[] && orderItems == [] && prescriptions == map[]
    {
      this.products := products;
      this.profiles := profiles;
      cartItems, orders, orderItems, prescriptions := [], map[], [], map[];
      nextId := 0;
    }

    /** The id the database assigns to the next inserted row. */
    method FreshId() returns (id: Id)
      requires Valid()
      modifies this`nextId
      ensures Valid()
      ensures id == old(nextId) && nextId == id + 1
      ensures id !in orders && id !in prescriptions
      ensures forall i :: 0 <= i < |cartItems| ==> cartItems[i].id != id
    {
      id := nextId;
      nextId := nextId + 1;
    }

    /** `insert(...).select().single()` on `prescriptions`: the new row under a fresh id. */
    method InsertPrescription(p: Prescription) returns (id: Id)
      requires Valid()
      modifies this`nextId, this`prescriptions
      ensures Valid()
      ensures id == old(nextId) && nextId == id + 1
      ensures id !in old(prescriptions) && prescriptions == old(prescriptions)[id := p]
    {
      id := FreshId();
      prescriptions := prescriptions[id := p];
    }

    /** `insert(...).select().single()` on `orders`: the new row under a fresh id. */
    method InsertOrder(o: Order) returns (id: Id)
      requires Valid()
      modifies this`nextId, this`orders
      ensures Valid()
      ensures id == old(nextId) && nextId == id + 1
      ensures id !in old(orders) && orders == old(orders)[id := o]
    {
      id := FreshId();
      orders := orders[id := o];
    }

    /** Only `cart_items` (and the id counter) may differ from the pre-state. */
    twostate predicate OnlyCartItemsChanged()
      reads this
    {
      products == old(products) && orders == old(orders) && orderItems == old(orderItems)
      && prescriptions == old(prescriptions) && profiles == old(profiles)
    }
  }
}
