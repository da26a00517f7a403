/** The order timeline: which of the five delivery steps are completed and which is current. */
module OrderTimeline {
  import opened Options
  import opened Records
  import Seqs

  /** The progress order of the statuses; `Cancelled` is not in it. */
  const StatusOrder: seq<OrderStatus> := [Pending, Approved, Processing, Shipped, Delivered]

  datatype Step = Step(key: OrderStatus, caption: string)

  const Steps: seq<Step> := [
    Step(Pending, "Order Placed"),
    Step(Approved, "Approved"),
    Step(Processing, "Processing"),
    Step(Shipped, "Shipped"),
    Step(Delivered, "Delivered")
  ]

  /**
   * One rendered step. A connector is `None` where the step has none (no left connector on the
   * first step, no right connector on the last) and otherwise tells whether it is highlighted.
   */
  datatype StepView = StepView(
    key: OrderStatus,
    caption: string,
    completed: bool,
    current: bool,
    leftConnector: Option<bool>,
    rightConnector: Option<bool>)

  datatype TimelineView = CancelledBanner | StepList(steps: seq<StepView>)

  /**
   * `statusOrder.indexOf(status)`: the status's position in the progress order, -1 for a
   * cancelled order. Written as a table; `CurrentIndexIsIndexOf` proves it is the `indexOf`.
   */
  function CurrentIndex(status: OrderStatus): int {
    match status
    case Pending => 0
    case Approved => 1
    case Processing => 2
    case Shipped => 3
    case Delivered => 4
    case Cancelled => -1
  }

  function RenderStep(i: nat, currentIndex: int): StepView
    requires i < |Steps|
  {
    StepView(
      Steps[i].key,
      Steps[i].caption,
      i <= currentIndex,
      i == currentIndex,
      if i > 0 then Some(i <= currentIndex) else None,
      if i < |Steps| - 1 then Some(i < currentIndex) else None)
  }

  function Render(status: OrderStatus): TimelineView {
    if status == Cancelled then CancelledBanner
    else
      var currentIndex := CurrentIndex(status);
      StepList(seq(|Steps|, i requires 0 <= i < |Steps| => RenderStep(i, currentIndex)))
  }

  /** The banner is shown exactly for a cancelled order. */
  lemma CancelledShowsBanner(status: OrderStatus)
    ensures Render(status) == CancelledBanner <==> status == Cancelled
  {
  }

  /** The step keys follow the progress order, and every status but `Cancelled` has its place in it. */
  lemma StepsFollowStatusOrder()
    ensures |Steps| == |StatusOrder| == 5
    ensures forall i :: 0 <= i < |Steps| ==> Steps[i].key == StatusOrder[i]
    ensures forall s :: s in StatusOrder <==> s != Cancelled
    ensures Seqs.NoDuplicates(StatusOrder)
  {
  }

  /** A status found at position `i` of the progress order is first found there by `indexOf`. */
  lemma IndexOfAt(status: OrderStatus, i: nat)
    requires i < |StatusOrder| && StatusOrder[i] == status
    ensures Seqs.IndexOf(StatusOrder, status) == i
  {
    var k := Seqs.IndexOf(StatusOrder, status);
    assert status in StatusOrder;
    assert 0 <= k && StatusOrder[k] == StatusOrder[i];
  }

  /** The table agrees with `statusOrder.indexOf(status)` on every status. */
  lemma CurrentIndexIsIndexOf(status: OrderStatus)
    ensures CurrentIndex(status) == Seqs.IndexOf(StatusOrder, status)
  {
    match status
    case Pending => IndexOfAt(status, 0);
    case Approved => IndexOfAt(status, 1);
    case Processing => IndexOfAt(status, 2);
    case Shipped => IndexOfAt(status, 3);
    case Delivered => IndexOfAt(status, 4);
    case Cancelled => assert Cancelled !in StatusOrder;
  }

  /** The position of a non-cancelled status in the progress order; a cancelled order has none. */
  lemma CurrentIndexIsPosition(status: OrderStatus)
    ensures status == Cancelled <==> CurrentIndex(status) == -1
    ensures status != Cancelled ==>
      && 0 <= CurrentIndex(status) < |StatusOrder| && StatusOrder[CurrentIndex(status)] == status
      && forall i :: 0 <= i < |StatusOrder| && StatusOrder[i] == status ==> i == CurrentIndex(status)
  {
  }

  /**
   * For a status other than cancelled: step i is completed iff it is at or before the status's
   * position and current iff it is the status's own step; the completed steps form a prefix.
   */
  lemma StepFlags(status: OrderStatus)
    requires status != Cancelled
    ensures Render(status).StepList?
    ensures var v := Render(status).steps;
      && |v| == 5
      && (forall i :: 0 <= i < 5 ==> v[i].key == StatusOrder[i] && v[i].caption == Steps[i].caption)
      && (forall i :: 0 <= i < 5 ==> (v[i].completed <==> i <= CurrentIndex(status)))
      && (forall i :: 0 <= i < 5 ==> (v[i].current <==> v[i].key == status))
      && (forall i, j :: 0 <= i <= j < 5 && v[j].completed ==> v[i].completed)
  {
    CurrentIndexIsPosition(status);
    var p := CurrentIndex(status);
    var v := Render(status).steps;
    forall i | 0 <= i < 5
      ensures v[i] == RenderStep(i, p) && v[i].key == StatusOrder[i]
    {
    }
  }

  /** Exactly one step is current. */
  lemma ExactlyOneCurrent(status: OrderStatus)
    requires status != Cancelled
    ensures Render(status).StepList?
    ensures var v := Render(status).steps;
      && (exists i :: 0 <= i < |v| && v[i].current)
      && (forall i, j :: 0 <= i < |v| && 0 <= j < |v| && v[i].current && v[j].current ==> i == j)
  {
    CurrentIndexIsPosition(status);
    var p := CurrentIndex(status);
    var v := Render(status).steps;
    forall i | 0 <= i < |v|
      ensures v[i].current <==> i == p
    {
      assert v[i] == RenderStep(i, p);
    }
    assert v[p].current;
  }

  /** A delivered order has all five steps completed. */
  lemma DeliveredCompletesAll()
    ensures Render(Delivered).StepList?
    ensures forall i :: 0 <= i < |Render(Delivered).steps| ==> Render(Delivered).steps[i].completed
  {
  }

  /**
   * The connector to the right of step i is highlighted iff i is before the current step, and
   * the two halves of each connector between neighbouring steps agree in colour.
   */
  lemma ConnectorsAgree(status: OrderStatus)
    requires status != Cancelled
    ensures Render(status).StepList?
    ensures var v := Render(status).steps;
      && v[0].leftConnector == None && v[4].rightConnector == None
      && (forall i :: 0 <= i < 4 ==> v[i].rightConnector == Some(i < CurrentIndex(status)))
      && (forall i :: 0 <= i < 4 ==> v[i].rightConnector == v[i + 1].leftConnector)
  {
    var v := Render(status).steps;
    assert forall i :: 0 <= i < 5 ==> v[i] == RenderStep(i, CurrentIndex(status));
  }

  /** Moving forward in the progress order never un-completes a step. */
  lemma ProgressKeepsCompleted(a: OrderStatus, b: OrderStatus)
    requires a != Cancelled && b != Cancelled
    requires CurrentIndex(a) <= CurrentIndex(b)
    ensures Render(a).StepList? && Render(b).StepList?
    ensures forall i :: 0 <= i < 5 && Render(a).steps[i].completed ==> Render(b).steps[i].completed
  {
    var va, vb := Render(a).steps, Render(b).steps;
    assert forall i :: 0 <= i < 5 ==> va[i] == RenderStep(i, CurrentIndex(a)) && vb[i] == RenderStep(i, CurrentIndex(b));
  }
}
