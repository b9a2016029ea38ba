/** The order read (server/routes/orders.js): the caller's orders, with each
    line item's course reference resolved against the live catalog to its
    title, image and video link. A pure read of the ledger. */
module OrderHistory {
  import opened Common
  import opened OrderModel

  /** `Order.find({user: req.user.id})`, in ledger order. */
  function OwnedBy(ledger: seq<Order>, user: UserId): (r: seq<Order>)
    ensures forall o :: o in r <==> o in ledger && o.user == user
    ensures |r| <= |ledger|
    decreases |ledger|
  {
    if |ledger| == 0 then []
    else
      assert forall o :: o in ledger[1..] ==> o in ledger;
      (if ledger[0].user == user then [ledger[0]] else []) + OwnedBy(ledger[1..], user)
  }

  /** The filter keeps the ledger's order: it commutes with concatenation. */
  lemma {:induction false} OwnedByDistributes(a: seq<Order>, b: seq<Order>, user: UserId)
    ensures OwnedBy(a + b, user) == OwnedBy(a, user) + OwnedBy(b, user)
    decreases |a|
  {
    if |a| == 0 {
      assert a + b == b;
    } else {
      assert (a + b)[0] == a[0];
      assert (a + b)[1..] == a[1..] + b;
      OwnedByDistributes(a[1..], b, user);
    }
  }

  /** An order appended by someone else does not show up in the caller's list;
      one appended by the caller shows up last. */
  lemma OwnedByAppend(ledger: seq<Order>, o: Order, user: UserId)
    ensures OwnedBy(ledger + [o], user) == OwnedBy(ledger, user) + (if o.user == user then [o] else [])
  {
    OwnedByDistributes(ledger, [o], user);
    assert [o][1..] == [];
  }

  /** The four fields `populate` selects from the referenced course. */
  datatype CourseView = CourseView(id: CourseId, title: string, image: string, videoUrl: string)

  /** A line item as returned: the reference resolved (or null once the
      course is gone), the snapshot title and price as stored. */
  datatype ShownItem = ShownItem(course: Option<CourseView>, title: string, price: int)

  datatype ShownOrder = ShownOrder(
    id: nat,
    user: UserId,
    items: seq<ShownItem>,
    totalAmount: int,
    paymentStatus: PaymentStatus,
    paymentIntentId: string,
    createdAt: int)

  function Resolve(catalog: map<CourseId, Course>, li: LineItem): ShownItem {
    var ref := if li.course in catalog
      then Some(CourseView(li.course, catalog[li.course].title, catalog[li.course].image, catalog[li.course].videoUrl))
      else None;
    ShownItem(ref, li.title, li.price)
  }

  /** `populate('courses.course', ['title', 'image', 'videoUrl'])` on one order. */
  function Populate(catalog: map<CourseId, Course>, o: Order): (s: ShownOrder)
    ensures s.id == o.id && s.user == o.user && s.totalAmount == o.totalAmount
    ensures s.paymentStatus == o.paymentStatus && s.paymentIntentId == o.paymentIntentId
    ensures s.createdAt == o.createdAt
    ensures |s.items| == |o.items|
    ensures forall i :: 0 <= i < |o.items| ==>
      && s.items[i].title == o.items[i].title && s.items[i].price == o.items[i].price
      && (s.items[i].course.Some? <==> o.items[i].course in catalog)
      && (s.items[i].course.Some? ==>
            var live := catalog[o.items[i].course];
            s.items[i].course.value == CourseView(o.items[i].course, live.title, live.image, live.videoUrl))
  {
    var items := seq(|o.items|, i requires 0 <= i < |o.items| => Resolve(catalog, o.items[i]));
    ShownOrder(o.id, o.user, items, o.totalAmount, o.paymentStatus, o.paymentIntentId, o.createdAt)
  }

  /** The snapshot part of a returned order does not depend on the catalog:
      editing or deleting a course never changes a past order's titles,
      prices or total. */
  lemma SnapshotsIgnoreCatalog(c1: map<CourseId, Course>, c2: map<CourseId, Course>, o: Order)
    ensures var s1, s2 := Populate(c1, o), Populate(c2, o);
      && s1.totalAmount == s2.totalAmount && |s1.items| == |s2.items|
      && forall i :: 0 <= i < |s1.items| ==> s1.items[i].title == s2.items[i].title && s1.items[i].price == s2.items[i].price
  {
  }

  datatype OrdersReply = OrdersJson(orders: seq<ShownOrder>) | Failure(status: nat, msg: string)

  /** GET /: the caller's orders, populated; a failing query gives 500. */
  function GetOrders(ledger: seq<Order>, catalog: map<CourseId, Course>, caller: UserId, findFails: bool): (r: OrdersReply)
    ensures findFails ==> r == Failure(500, ServerErrorMsg)
    ensures !findFails ==> r.OrdersJson?
    ensures !findFails ==> forall s :: s in r.orders ==> s.user == caller
    ensures !findFails ==> forall o :: o in ledger && o.user == caller ==> Populate(catalog, o) in r.orders
    ensures !findFails ==> forall s :: s in r.orders ==> exists o :: o in ledger && o.user == caller && s == Populate(catalog, o)
  {
    if findFails then Failure(500, ServerErrorMsg)
    else
      var mine := OwnedBy(ledger, caller);
      var shown := seq(|mine|, i requires 0 <= i < |mine| => Populate(catalog, mine[i]));
      assert forall o :: o in mine ==> Populate(catalog, o) in shown by {
        forall o | o in mine ensures Populate(catalog, o) in shown {
          var k :| 0 <= k < |mine| && mine[k] == o;
          assert shown[k] == Populate(catalog, o);
        }
      }
      assert forall s :: s in shown ==> exists o :: o in mine && s == Populate(catalog, o) by {
        forall s | s in shown ensures exists o :: o in mine && s == Populate(catalog, o) {
          var k :| 0 <= k < |shown| && shown[k] == s;
          assert mine[k] in mine;
        }
      }
      OrdersJson(shown)
  }
}
