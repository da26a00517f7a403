/**
 * The pharmacist's dashboard: the review queue and order list it fetches, its weekly metrics,
 * and its three actions (review a prescription, set an order's status, set a product's stock).
 */
module PharmacistDashboard {
  import opened Options
  import opened Records
  import opened Store

  /** The review queue: the prescriptions whose status is pending. */
  function PendingQueue(ps: map<Id, Prescription>): (q: map<Id, Prescription>)
    ensures forall id :: id in q <==> id in ps && ps[id].status == RxPending
    ensures forall id :: id in q ==> q[id] == ps[id]
  {
    map id | id in ps && ps[id].status == RxPending :: ps[id]
  }

  /**
   * The review queue as the query is written: the `!inner` join on the reviewing pharmacist's
   * profile drops every row that has no reviewer with a profile.
   */
  function PendingQueueAsWritten(ps: map<Id, Prescription>, profiles: map<UserId, string>): map<Id, Prescription> {
    map id | id in ps && ps[id].status == RxPending && ps[id].pharmacistId.Some? && ps[id].pharmacistId.value in profiles :: ps[id]
  }

  /** A prescription fresh from checkout has no reviewer, so the queue as written never shows it. */
  lemma NewPrescriptionHiddenAsWritten(ps: map<Id, Prescription>, profiles: map<UserId, string>, id: Id, owner: UserId, path: string)
    ensures var ps' := ps[id := Prescription(owner, path, RxPending, None, None, None, None)];
      id in ps' && ps'[id].status == RxPending && id !in PendingQueueAsWritten(ps', profiles)
  {
  }

  /** The queue as intended shows a prescription fresh from checkout. */
  lemma NewPrescriptionJoinsQueue(ps: map<Id, Prescription>, id: Id, owner: UserId, path: string)
    ensures var ps' := ps[id := Prescription(owner, path, RxPending, None, None, None, None)];
      id in PendingQueue(ps') && PendingQueue(ps')[id] == ps'[id]
  {
  }

  /**
   * The queue as written is part of the queue as intended, and the two agree exactly when every
   * pending prescription already names a reviewer who has a profile.
   */
  lemma QueueAsWrittenWithinQueue(ps: map<Id, Prescription>, profiles: map<UserId, string>)
    ensures forall id :: id in PendingQueueAsWritten(ps, profiles) ==>
      id in PendingQueue(ps) && PendingQueueAsWritten(ps, profiles)[id] == PendingQueue(ps)[id]
    ensures PendingQueueAsWritten(ps, profiles) == PendingQueue(ps) <==>
      forall id :: id in PendingQueue(ps) ==> ps[id].pharmacistId.Some? && ps[id].pharmacistId.value in profiles
  {
    if PendingQueueAsWritten(ps, profiles) == PendingQueue(ps) {
      forall id | id in PendingQueue(ps)
        ensures ps[id].pharmacistId.Some? && ps[id].pharmacistId.value in profiles
      {
        assert id in PendingQueueAsWritten(ps, profiles);
      }
    }
  }

  /** The order list: every order that is not delivered (cancelled ones included). */
  function OpenOrders(os: map<Id, Order>): (r: map<Id, Order>)
    ensures forall id :: id in r <==> id in os && os[id].status != Delivered
    ensures forall id :: id in r ==> r[id] == os[id]
  {
    map id | id in os && os[id].status != Delivered :: os[id]
  }

  /** The prescriptions with `status` that were reviewed at or after `since`. */
  function ReviewedSince(ps: map<Id, Prescription>, status: PrescriptionStatus, since: int): (r: set<Id>)
    ensures r <= ps.Keys
    ensures forall id :: id in r <==>
      id in ps && ps[id].status == status && ps[id].reviewedAt.Some? && ps[id].reviewedAt.value >= since
  {
    set id | id in ps && ps[id].status == status && ps[id].reviewedAt.Some? && ps[id].reviewedAt.value >= since
  }

  datatype Metrics = Metrics(approvedThisWeek: nat, rejectedThisWeek: nat, pendingCount: nat, totalProcessed: nat)

  /**
   * Reviewing a pending prescription at a time inside the window takes it out of the queue and
   * adds it to exactly one of the two weekly counts: the pending count drops by one and the
   * processed total grows by one.
   */
  lemma ReviewMovesOneToProcessed(ps: map<Id, Prescription>, id: Id, q: Prescription, since: int)
    requires id in ps && ps[id].status == RxPending
    requires q.status == RxApproved || q.status == RxRejected
    requires q.reviewedAt.Some? && q.reviewedAt.value >= since
    ensures |PendingQueue(ps[id := q])| == |PendingQueue(ps)| - 1
    ensures |ReviewedSince(ps[id := q], RxApproved, since)| + |ReviewedSince(ps[id := q], RxRejected, since)|
         == |ReviewedSince(ps, RxApproved, since)| + |ReviewedSince(ps, RxRejected, since)| + 1
  {
    var ps' := ps[id := q];
    assert PendingQueue(ps').Keys == PendingQueue(ps).Keys - {id};
    assert |PendingQueue(ps').Keys| == |PendingQueue(ps).Keys| - 1;
    var other := if q.status == RxApproved then RxRejected else RxApproved;
    assert ReviewedSince(ps', q.status, since) == ReviewedSince(ps, q.status, since) + {id};
    assert id !in ReviewedSince(ps, q.status, since);
    assert ReviewedSince(ps', other, since) == ReviewedSince(ps, other, since);
  }

  /** The keys `updateData` sets; an absent optional key is `None`. */
  datatype ReviewPatch = ReviewPatch(
    status: PrescriptionStatus,
    pharmacistId: UserId,
    reviewedAt: int,
    rejectionReason: Option<string>,
    approvalComments: Option<string>)

  /** `update(patch)`: the keys the patch holds overwrite the row's; the others keep their values. */
  function ApplyPatch(p: Prescription, patch: ReviewPatch): (q: Prescription)
    ensures q.status == patch.status && q.pharmacistId == Some(patch.pharmacistId) && q.reviewedAt == Some(patch.reviewedAt)
    ensures q.rejectionReason == if patch.rejectionReason.Some? then patch.rejectionReason else p.rejectionReason
    ensures q.approvalComments == if patch.approvalComments.Some? then patch.approvalComments else p.approvalComments
    ensures q.userId == p.userId && q.fileUrl == p.fileUrl
  {
    p.(status := patch.status,
       pharmacistId := Some(patch.pharmacistId),
       reviewedAt := Some(patch.reviewedAt),
       rejectionReason := if patch.rejectionReason.Some? then patch.rejectionReason else p.rejectionReason,
       approvalComments := if patch.approvalComments.Some? then patch.approvalComments else p.approvalComments)
  }

  /** `obj[key]` on a string-valued object: `undefined` when the key is absent. */
  function Lookup(m: map<Id, string>, k: Id): Option<string> {
    if k in m then Some(m[k]) else None
  }

  /** `profile?.full_name || "Pharmacist"`. */
  function PharmacistName(profiles: map<UserId, string>, user: UserId): (r: string)
    ensures r != ""
    ensures user in profiles && profiles[user] != "" ==> r == profiles[user]
    ensures !(user in profiles && profiles[user] != "") ==> r == "Pharmacist"
  {
    if user in profiles && profiles[user] != "" then profiles[user] else "Pharmacist"
  }

  class Dashboard {
    const db: Database
    /** The signed-in pharmacist. */
    const user: UserId
    var prescriptionQueue: map<Id, Prescription>
    var orderList: map<Id, Order>
    var productList: map<Id, Product>
    /** Draft rejection reasons and approval comments, by prescription. */
    var rejectionReason: map<Id, string>
    var approvalComments: map<Id, string>
    /** Draft stock values, by product. */
    var newStock: map<Id, int>
    var editingProduct: Option<Id>
    var metrics: Metrics

    ghost predicate Valid()
      reads this, db
    {
      db.Valid()
    }

    constructor (db: Database, user: UserId)
      requires db.Valid()
      ensures Valid() && this.db == db && this.user == user
      ensures prescriptionQueue == map[] && orderList == map[] && productList == map[]
      ensures rejectionReason == map[] && approvalComments == map[] && newStock == map[]
      ensures editingProduct == None && metrics == Metrics(0, 0, 0, 0)
    {
      this.db := db;
      this.user := user;
      prescriptionQueue, orderList, productList := map[], map[], map[];
      rejectionReason, approvalComments, newStock := map[], map[], map[];
      editingProduct, metrics := None, Metrics(0, 0, 0, 0);
    }

    /**
     * `fetchData`: when the three list queries succeed, the queue, the order list and the
     * products are replaced and the metrics recomputed; a failed metrics query counts as zero
     * reviews. `since` is the instant one week before now.
     */
    method FetchData(since: int, listsOk: bool, metricsOk: bool)
      modifies this`prescriptionQueue, this`orderList, this`productList, this`metrics
      ensures !listsOk ==> prescriptionQueue == old(prescriptionQueue) && orderList == old(orderList)
                           && productList == old(productList) && metrics == old(metrics)
      ensures listsOk ==>
        && prescriptionQueue == PendingQueue(db.prescriptions)
        && orderList == OpenOrders(db.orders)
        && productList == db.products
        && metrics.approvedThisWeek == (if metricsOk then |ReviewedSince(db.prescriptions, RxApproved, since)| else 0)
        && metrics.rejectedThisWeek == (if metricsOk then |ReviewedSince(db.prescriptions, RxRejected, since)| else 0)
        && metrics.pendingCount == |prescriptionQueue|
        && metrics.totalProcessed == metrics.approvedThisWeek + metrics.rejectedThisWeek
    {
      if !listsOk {
        return;
      }
      prescriptionQueue := PendingQueue(db.prescriptions);
      orderList := OpenOrders(db.orders);
      productList := db.products;
      var approved := if metricsOk then |ReviewedSince(db.prescriptions, RxApproved, since)| else 0;
      var rejected := if metricsOk then |ReviewedSince(db.prescriptions, RxRejected, since)| else 0;
      metrics := Metrics(approved, rejected, |prescriptionQueue|, approved + rejected);
    }

    /**
     * `handlePrescriptionAction`. When the update succeeds, the notification request is sent
     * (its failure is swallowed, so `notifyOk` changes nothing) and both drafts for the
     * prescription are discarded; when it fails, nothing else happens. There is no check that
     * the prescription is still pending.
     */
    method HandlePrescriptionAction(prescriptionId: Id, action: PrescriptionStatus, now: int, updateOk: bool, notifyOk: bool)
      returns (sent: Option<NotifyRequest>)
      requires Valid()
      requires action == RxApproved || action == RxRejected
      modifies this`rejectionReason, this`approvalComments, db`prescriptions
      ensures Valid()
      ensures !updateOk ==>
        && sent == None && db.prescriptions == old(db.prescriptions)
        && rejectionReason == old(rejectionReason) && approvalComments == old(approvalComments)
      ensures updateOk ==>
        && db.prescriptions.Keys == old(db.prescriptions).Keys
        && (forall id :: id in db.prescriptions && id != prescriptionId ==> db.prescriptions[id] == old(db.prescriptions)[id])
        && rejectionReason == old(rejectionReason) - {prescriptionId}
        && approvalComments == old(approvalComments) - {prescriptionId}
        && sent == Some(NotifyRequest(prescriptionId, StatusName(action), PharmacistName(db.profiles, user),
                                      Lookup(old(approvalComments), prescriptionId),
                                      Lookup(old(rejectionReason), prescriptionId)))
      ensures updateOk && prescriptionId in old(db.prescriptions) ==>
        var p, q := old(db.prescriptions)[prescriptionId], db.prescriptions[prescriptionId];
        && q.status == action && q.pharmacistId == Some(user) && q.reviewedAt == Some(now)
        && q.rejectionReason == (if action == RxRejected && Truthy(Lookup(old(rejectionReason), prescriptionId))
                                 then Lookup(old(rejectionReason), prescriptionId) else p.rejectionReason)
        && q.approvalComments == (if action == RxApproved && Truthy(Lookup(old(approvalComments), prescriptionId))
                                  then Lookup(old(approvalComments), prescriptionId) else p.approvalComments)
        && q.userId == p.userId && q.fileUrl == p.fileUrl
    {
      var updateData := ReviewPatch(action, user, now, None, None);
      var reason := Lookup(rejectionReason, prescriptionId);
      var comments := Lookup(approvalComments, prescriptionId);
      if action == RxRejected && Truthy(reason) {
        updateData := updateData.(rejectionReason := reason);
      }
      if action == RxApproved && Truthy(comments) {
        updateData := updateData.(approvalComments := comments);
      }
      if !updateOk {
        sent := None;
        return;
      }
      if prescriptionId in db.prescriptions {
        db.prescriptions := db.prescriptions[prescriptionId := ApplyPatch(db.prescriptions[prescriptionId], updateData)];
      }
      var pharmacistName := PharmacistName(db.profiles, user);
      sent := Some(NotifyRequest(prescriptionId, StatusName(action), pharmacistName, comments, reason));
      rejectionReason := rejectionReason - {prescriptionId};
      approvalComments := approvalComments - {prescriptionId};
    }

    /** `handleOrderStatusUpdate`: overwrites the status of that order with any status; no transition is refused. */
    method HandleOrderStatusUpdate(orderId: Id, newStatus: OrderStatus, writeOk: bool)
      requires Valid()
      modifies db`orders
      ensures Valid()
      ensures db.orders == if writeOk && orderId in old(db.orders)
                           then old(db.orders)[orderId := old(db.orders)[orderId].(status := newStatus)]
                           else old(db.orders)
    {
      if writeOk && orderId in db.orders {
        db.orders := db.orders[orderId := db.orders[orderId].(status := newStatus)];
      }
    }

    /**
     * `handleStockUpdate`: a missing or negative draft value writes nothing; otherwise the stock
     * becomes exactly that value and, when the write succeeds, editing ends.
     */
    method HandleStockUpdate(productId: Id, writeOk: bool)
      requires Valid()
      modifies db`products, this`editingProduct
      ensures Valid()
      ensures productId !in newStock || newStock[productId] < 0 ==>
        db.products == old(db.products) && editingProduct == old(editingProduct)
      ensures productId in newStock && newStock[productId] >= 0 ==>
        && db.products == (if writeOk && productId in old(db.products)
                           then old(db.products)[productId := old(db.products)[productId].(stockQuantity := newStock[productId])]
                           else old(db.products))
        && editingProduct == if writeOk then None else old(editingProduct)
    {
      if productId !in newStock || newStock[productId] < 0 {
        return;
      }
      var stockValue := newStock[productId];
      if writeOk {
        if productId in db.products {
          db.products := db.products[productId := db.products[productId].(stockQuantity := stockValue)];
        }
        editingProduct := None;
      }
    }
  }

  /** After a successful review the prescription has left the review queue, whatever its status was. */
  lemma ReviewedLeavesQueue(ps: map<Id, Prescription>, id: Id, patch: ReviewPatch)
    requires id in ps && patch.status != RxPending
    ensures id !in PendingQueue(ps[id := ApplyPatch(ps[id], patch)])
    ensures forall k :: k != id ==> (k in PendingQueue(ps[id := ApplyPatch(ps[id], patch)]) <==> k in PendingQueue(ps))
  {
  }

  /** An order leaves the order list exactly when its status is set to delivered; the others are untouched. */
  lemma StatusUpdateAndOrderList(os: map<Id, Order>, id: Id, s: OrderStatus)
    requires id in os
    ensures var os' := os[id := os[id].(status := s)];
      && (id in OpenOrders(os') <==> s != Delivered)
      && forall k :: k != id ==> (k in OpenOrders(os') <==> k in OpenOrders(os))
  {
  }
}
