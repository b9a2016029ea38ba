/** The Order record (server/models/Order.js): line items are copies of the
    course id, title and price taken at purchase time, never references to
    the live catalog record. */
module OrderModel {
  import opened Common

  datatype PaymentStatus = Pending | Completed | Failed

  /** One entry of `courses`: `{course, title, price}`. */
  datatype LineItem = LineItem(course: CourseId, title: string, price: int)

  datatype Order = Order(
    id: nat,
    user: UserId,
    items: seq<LineItem>,
    totalAmount: int,
    paymentStatus: PaymentStatus,
    paymentIntentId: string,
    createdAt: int)

  function SumItems(items: seq<LineItem>): int
    decreases |items|
  {
    if |items| == 0 then 0 else SumItems(items[..|items| - 1]) + items[|items| - 1].price
  }

  /** `courses.map(course => ({course: course._id, title: course.title, price: course.price}))`. */
  function Snapshot(cs: seq<Course>): (r: seq<LineItem>)
    ensures |r| == |cs|
    ensures forall i :: 0 <= i < |cs| ==>
      r[i].course == cs[i].id && r[i].title == cs[i].title && r[i].price == cs[i].price
    decreases |cs|
  {
    if |cs| == 0 then []
    else
      var last := cs[|cs| - 1];
      Snapshot(cs[..|cs| - 1]) + [LineItem(last.id, last.title, last.price)]
  }

  /** The line items of a snapshot add up to the total of the courses it was taken from. */
  lemma {:induction false} SnapshotTotal(cs: seq<Course>)
    ensures SumItems(Snapshot(cs)) == SumPrices(cs)
    decreases |cs|
  {
    if |cs| > 0 {
      var init := cs[..|cs| - 1];
      SnapshotTotal(init);
      var r := Snapshot(cs);
      assert r[..|r| - 1] == Snapshot(init);
    }
  }

  /** The record invariant every order written by checkout keeps. */
  predicate TotalMatchesItems(o: Order) {
    o.totalAmount == SumItems(o.items)
  }
}
