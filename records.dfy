/**
 * The rows of the storefront's tables (`products`, `cart_items`, `orders`, `order_items`,
 * `prescriptions`) and the body of the prescription-notification request.
 * Row ids are generated by the database; prices are integers in minor currency units (paise).
 */
module Records {
  import opened Options

  /** The source's prices and price bounds are rupees; the model counts paise. */
  const PaisePerRupee: int := 100

  type Id = nat
  type UserId = string

  datatype Product = Product(
    id: Id,
    name: string,
    description: string,
    price: int,
    category: string,
    requiresPrescription: bool,
    stockQuantity: int,
    imageUrl: string,
    brand: Option<string>)

  datatype CartItemRow = CartItemRow(id: Id, userId: UserId, productId: Id, quantity: int)

  /** The six values of an order's `status` column. */
  datatype OrderStatus = Pending | Approved | Processing | Shipped | Delivered | Cancelled

  datatype PaymentStatus = PaymentPending | Paid

  datatype Order = Order(
    userId: UserId,
    totalAmount: int,
    deliveryAddress: string,
    prescriptionId: Option<Id>,
    status: OrderStatus,
    paymentStatus: PaymentStatus,
    paymentMethod: string,
    razorpayPaymentId: Option<string>,
    razorpayOrderId: Option<string>)

  datatype OrderItemRow = OrderItemRow(orderId: Id, productId: Id, quantity: int, price: int)

  datatype PrescriptionStatus = RxPending | RxApproved | RxRejected

  datatype Prescription = Prescription(
    userId: UserId,
    fileUrl: string,
    status: PrescriptionStatus,
    pharmacistId: Option<UserId>,
    reviewedAt: Option<int>,
    approvalComments: Option<string>,
    rejectionReason: Option<string>)

  /** The text the client and the notification function use for a review decision. */
  function StatusName(s: PrescriptionStatus): string {
    match s
    case RxPending => "pending"
    case RxApproved => "approved"
    case RxRejected => "rejected"
  }

  /** The JSON body sent to the `notify-prescription-update` function. */
  datatype NotifyRequest = NotifyRequest(
    prescriptionId: Id,
    status: string,
    pharmacistName: string,
    comments: Option<string>,
    rejectionReason: Option<string>)

  /** A JavaScript string in a condition: present and non-empty. */
  predicate Truthy(s: Option<string>) {
    s.Some? && s.value != ""
  }
}
