/**
 * The checkout page: prescription-file selection, order assembly from the cart, and the
 * payment-gateway callbacks.
 */
module Checkout {
  import opened Options
  import opened Records
  import opened Store
  import opened CartContext
  import Text

  /** The selected file as the browser describes it: name, MIME type and size in bytes. */
  datatype File = File(name: string, mimeType: string, size: int)

  const ValidTypes: seq<string> := ["application/pdf", "image/jpeg", "image/png"]

  /** 5 MiB. */
  const MaxFileSize: int := 5 * 1024 * 1024

  /** The verdict of `handleFileChange` on a file: the type is checked before the size. */
  datatype FileCheck = Accepted | WrongType | TooLarge

  function CheckFile(f: File): FileCheck {
    if f.mimeType !in ValidTypes then WrongType
    else if f.size > MaxFileSize then TooLarge
    else Accepted
  }

  /** Only PDF, JPEG and PNG files of at most 5 MiB are accepted; exactly 5 MiB is still accepted. */
  lemma CheckFileAccepts(f: File)
    ensures CheckFile(f) == Accepted <==>
      (f.mimeType == "application/pdf" || f.mimeType == "image/jpeg" || f.mimeType == "image/png")
      && f.size <= 5242880
    ensures f.size == 5242880 && f.mimeType == "image/png" ==> CheckFile(f) == Accepted
    ensures f.size == 5242881 && f.mimeType == "image/png" ==> CheckFile(f) == TooLarge
  {
  }

  /** The storage key of an uploaded prescription: `${user.id}/${Date.now()}.${fileExt}`. */
  function PrescriptionPath(user: UserId, stamp: string, fileName: string): string {
    user + "/" + stamp + "." + Text.AfterLastDot(fileName)
  }

  /**
   * The key starts with the user's id and "/", and ends with "." and the file name's extension:
   * the text after its last ".", which is the whole name when it has none.
   */
  lemma PrescriptionPathShape(user: UserId, stamp: string, fileName: string)
    ensures var path, ext := PrescriptionPath(user, stamp, fileName), Text.AfterLastDot(fileName);
      && user + "/" <= path
      && |ext| + 1 <= |path| && path[|path| - |ext| - 1..] == "." + ext
      && '.' !in ext
      && |ext| <= |fileName| && ('.' in fileName ==> |ext| < |fileName|)
      && ('.' in fileName ==> fileName == fileName[..|fileName| - |ext| - 1] + "." + ext)
      && ('.' !in fileName ==> ext == fileName)
  {
    var ext := Text.AfterLastDot(fileName);
    Text.AfterLastDotShape(fileName);
    JoinedPathShape(user, stamp, ext);
    ExtensionSplitsName(fileName, ext);
  }

  lemma JoinedPathShape(user: string, stamp: string, ext: string)
    ensures var path := user + "/" + stamp + "." + ext;
      user + "/" <= path && |ext| + 1 <= |path| && path[|path| - |ext| - 1..] == "." + ext
  {
    var head, dotExt := user + "/", "." + ext;
    var path := head + stamp + dotExt;
    assert user + "/" + stamp + "." + ext == path;
    assert path[..|head|] == head;
    assert path[|path| - |dotExt|..] == dotExt;
  }

  lemma ExtensionSplitsName(fileName: string, ext: string)
    requires |ext| <= |fileName| && ext == fileName[|fileName| - |ext|..]
    requires |ext| < |fileName| ==> fileName[|fileName| - |ext| - 1] == '.'
    requires ext == fileName <==> '.' !in fileName
    ensures '.' in fileName ==> fileName == fileName[..|fileName| - |ext| - 1] + "." + ext
  {
    if '.' in fileName {
      var k := |fileName| - |ext| - 1;
      assert fileName == fileName[..k] + [fileName[k]] + fileName[k + 1..];
    }
  }

  /** A freshly inserted prescription: only `user_id` and `file_url` are written; the rest take their defaults. */
  function NewPrescription(user: UserId, path: string): Prescription {
    Prescription(user, path, RxPending, None, None, None, None)
  }

  /** `cartItems.map(...)`: one order item per cart line, with the line's product, quantity and current price. */
  function OrderItemsFor(lines: seq<CartLine>, orderId: Id): (items: seq<OrderItemRow>)
    ensures |items| == |lines|
    ensures forall i :: 0 <= i < |lines| ==>
      items[i] == OrderItemRow(orderId, lines[i].productId, lines[i].quantity, lines[i].product.price)
  {
    seq(|lines|, i requires 0 <= i < |lines| =>
      OrderItemRow(orderId, lines[i].productId, lines[i].quantity, lines[i].product.price))
  }

  /** The sum of price times quantity over order items. */
  function ItemsTotal(items: seq<OrderItemRow>): int {
    if items == [] then 0
    else ItemsTotal(items[..|items| - 1]) + items[|items| - 1].price * items[|items| - 1].quantity
  }

  /** The order's `total_amount` (the cart total) equals the sum over the order items it was created with. */
  lemma {:induction false} OrderTotalMatchesItems(lines: seq<CartLine>, orderId: Id)
    ensures ItemsTotal(OrderItemsFor(lines, orderId)) == TotalPrice(lines)
  {
    if lines != [] {
      var init := lines[..|lines| - 1];
      assert OrderItemsFor(lines, orderId)[..|lines| - 1] == OrderItemsFor(init, orderId);
      OrderTotalMatchesItems(init, orderId);
    }
  }

  /** The order row `handleCheckout` inserts. */
  function NewOrder(user: UserId, lines: seq<CartLine>, address: string, prescriptionId: Option<Id>, paymentMethod: string): Order {
    Order(user, TotalPrice(lines), address, prescriptionId, Pending, PaymentPending, paymentMethod, None, None)
  }

  /** The update `handlePaymentSuccess` makes: paid, with both gateway ids recorded. */
  function MarkPaid(o: Order, paymentId: string, gatewayOrderId: string): Order {
    o.(paymentStatus := Paid, razorpayPaymentId := Some(paymentId), razorpayOrderId := Some(gatewayOrderId))
  }

  /** The outcome of each remote call `handleCheckout` may make (true: no error). */
  datatype CheckoutCalls = CheckoutCalls(
    upload: bool, prescriptionInsert: bool, orderInsert: bool, itemsInsert: bool, clearCart: bool)

  class CheckoutPage {
    const cart: Cart
    const db: Database
    var deliveryAddress: string
    var prescriptionFile: Option<File>
    var paymentMethod: string
    /** The order awaiting payment, set once its items are inserted. */
    var orderId: Option<Id>

    ghost predicate Valid()
      reads this, cart, db
    {
      db == cart.db && cart.Valid()
    }

    constructor (cart: Cart)
      requires cart.Valid()
      ensures Valid() && this.cart == cart
      ensures deliveryAddress == "" && prescriptionFile == None && paymentMethod == "cod" && orderId == None
    {
      this.cart := cart;
      this.db := cart.db;
      deliveryAddress, prescriptionFile, paymentMethod, orderId := "", None, "cod", None;
    }

    /** `handleFileChange`: a selected file replaces the current one only if it passes both checks. */
    method HandleFileChange(selected: Option<File>)
      modifies this`prescriptionFile
      ensures prescriptionFile == if selected.Some? && CheckFile(selected.value) == Accepted
                                  then selected else old(prescriptionFile)
    {
      if selected.Some? {
        var file := selected.value;
        if file.mimeType !in ValidTypes {
          return;
        }
        if file.size > MaxFileSize {
          return;
        }
        prescriptionFile := Some(file);
      }
    }

    /** The guards of `handleCheckout`: a user, a non-blank address, and a file when the cart needs one. */
    ghost predicate MayPlaceOrder()
      reads this, cart
    {
      cart.user.Some? && Text.Trim(deliveryAddress) != ""
      && !(RequiresPrescription(cart.items) && prescriptionFile.None?)
    }

    /**
     * `handleCheckout`. `rxRow` and `orderRow` name the prescription and order rows it inserted.
     * A failed step ends the handler with the earlier rows left in place (there is no rollback).
     */
    method HandleCheckout(stamp: string, calls: CheckoutCalls) returns (ghost rxRow: Option<Id>, ghost orderRow: Option<Id>)
      requires Valid()
      modifies this`orderId, cart, db
      ensures Valid()
      ensures db.products == old(db.products) && db.profiles == old(db.profiles)
      ensures rxRow.Some? <==>
        old(MayPlaceOrder()) && prescriptionFile.Some? && calls.upload && calls.prescriptionInsert
      ensures rxRow.Some? ==> rxRow.value !in old(db.prescriptions)
      ensures db.prescriptions == if rxRow.None? then old(db.prescriptions)
        else old(db.prescriptions)[rxRow.value :=
          NewPrescription(cart.user.value, PrescriptionPath(cart.user.value, stamp, prescriptionFile.value.name))]
      ensures orderRow.Some? <==>
        old(MayPlaceOrder()) && (prescriptionFile.None? || (calls.upload && calls.prescriptionInsert)) && calls.orderInsert
      ensures orderRow.Some? ==> orderRow.value !in old(db.orders)
      ensures db.orders == if orderRow.None? then old(db.orders)
        else old(db.orders)[orderRow.value :=
          NewOrder(cart.user.value, old(cart.items), deliveryAddress, rxRow, paymentMethod)]
      ensures db.orderItems == if orderRow.Some? && calls.itemsInsert
        then old(db.orderItems) + OrderItemsFor(old(cart.items), orderRow.value) else old(db.orderItems)
      ensures orderId == if orderRow.Some? && calls.itemsInsert then orderRow else old(orderId)
      ensures var cleared := orderRow.Some? && calls.itemsInsert && paymentMethod == "cod" && calls.clearCart;
        && db.cartItems == (if cleared then WithoutUser(old(db.cartItems), cart.user.value) else old(db.cartItems))
        && cart.items == (if cleared then [] else old(cart.items))
    {
      rxRow, orderRow := None, None;
      if cart.user.None? || Text.Trim(deliveryAddress) == "" {
        return;
      }
      if RequiresPrescription(cart.items) && prescriptionFile.None? {
        return;
      }
      var user := cart.user.value;
      var prescriptionId: Option<Id> := None;
      if prescriptionFile.Some? {
        var fileName := PrescriptionPath(user, stamp, prescriptionFile.value.name);
        if !calls.upload || !calls.prescriptionInsert {
          return;
        }
        var id := db.InsertPrescription(NewPrescription(user, fileName));
        prescriptionId := Some(id);
        rxRow := prescriptionId;
      }
      orderRow := CreateOrder(user, prescriptionId, calls);
    }

    /**
     * The second half of `handleCheckout`: the order row, then its items, then (for cash on
     * delivery) the cart. A failed items insert leaves the order in place and `orderId` unset.
     */
    method CreateOrder(user: UserId, prescriptionId: Option<Id>, calls: CheckoutCalls) returns (ghost orderRow: Option<Id>)
      requires Valid() && cart.user == Some(user)
      modifies this`orderId, cart, db
      ensures Valid()
      ensures db.products == old(db.products) && db.profiles == old(db.profiles)
      ensures db.prescriptions == old(db.prescriptions)
      ensures orderRow.Some? <==> calls.orderInsert
      ensures orderRow.Some? ==> orderRow.value !in old(db.orders)
      ensures db.orders == if orderRow.None? then old(db.orders)
        else old(db.orders)[orderRow.value := NewOrder(user, old(cart.items), deliveryAddress, prescriptionId, paymentMethod)]
      ensures db.orderItems == if orderRow.Some? && calls.itemsInsert
        then old(db.orderItems) + OrderItemsFor(old(cart.items), orderRow.value) else old(db.orderItems)
      ensures orderId == if orderRow.Some? && calls.itemsInsert then orderRow else old(orderId)
      ensures var cleared := orderRow.Some? && calls.itemsInsert && paymentMethod == "cod" && calls.clearCart;
        && db.cartItems == (if cleared then WithoutUser(old(db.cartItems), user) else old(db.cartItems))
        && cart.items == (if cleared then [] else old(cart.items))
    {
      orderRow := None;
      if !calls.orderInsert {
        return;
      }
      var newId := db.InsertOrder(NewOrder(user, cart.items, deliveryAddress, prescriptionId, paymentMethod));
      orderRow := Some(newId);
      if !calls.itemsInsert {
        return;
      }
      db.orderItems := db.orderItems + OrderItemsFor(cart.items, newId);
      orderId := Some(newId);
      if paymentMethod == "cod" {
        cart.ClearCart(calls.clearCart);
      }
    }

    /**
     * `handlePaymentSuccess`: without a stored order id nothing happens. Otherwise the order is
     * marked paid with both gateway ids (when that update succeeds; its error is not inspected)
     * and the cart is cleared either way. There is no check that the order was still unpaid.
     */
    method HandlePaymentSuccess(paymentId: string, gatewayOrderId: string, updateOk: bool, clearOk: bool)
      requires Valid()
      modifies cart, db
      ensures Valid()
      ensures db.products == old(db.products) && db.orderItems == old(db.orderItems)
      ensures db.prescriptions == old(db.prescriptions) && db.profiles == old(db.profiles)
      ensures orderId.None? ==> db.orders == old(db.orders) && db.cartItems == old(db.cartItems) && cart.items == old(cart.items)
      ensures orderId.Some? ==>
        && db.orders == (if updateOk && orderId.value in old(db.orders)
                         then old(db.orders)[orderId.value := MarkPaid(old(db.orders)[orderId.value], paymentId, gatewayOrderId)]
                         else old(db.orders))
        && db.cartItems == (if cart.user.Some? && clearOk then WithoutUser(old(db.cartItems), cart.user.value) else old(db.cartItems))
        && cart.items == (if cart.user.Some? && clearOk then [] else old(cart.items))
    {
      if orderId.None? {
        return;
      }
      var id := orderId.value;
      if updateOk && id in db.orders {
        db.orders := db.orders[id := MarkPaid(db.orders[id], paymentId, gatewayOrderId)];
      }
      cart.ClearCart(clearOk);
    }

    /** `handlePaymentError`: only a message and a redirect; the order and the cart stay as they are. */
    method HandlePaymentError()
      requires Valid()
      ensures Valid() && unchanged(this, cart, db)
    {
    }
  }
}
