/** The server's two stores side by side: the catalog that course routes
    edit and the order ledger that checkout appends to. Line items are
    copied values, so catalog edits after a purchase leave past orders as
    they were. */
module Kernel {
  import opened Common
  import opened OrderModel
  import Catalog
  import Checkout

  /** A successful checkout followed by an admin update of a course: the new
      order keeps the titles and prices the catalog had at purchase time. */
  method PurchaseThenUpdate(store: Catalog.CourseStore, ledger: Checkout.OrderLedger, buyer: UserId,
                            req: Checkout.CheckoutRequest, found: seq<Course>, intent: Checkout.IntentResult,
                            now: int, admin: User, id: CourseId, body: Catalog.PartialCourse)
    returns (reply: Checkout.CheckoutReply, edit: Catalog.Reply)
    requires store.Valid() && ledger.Valid()
    requires Checkout.IsFindResult(store.courses, req.courseIds, found)
    modifies store, ledger
    ensures store.Valid() && ledger.Valid()
    ensures reply.Success? ==>
      && |ledger.orders| == |old(ledger.orders)| + 1
      && ledger.orders[|old(ledger.orders)|].items == Snapshot(found)
      && ledger.orders[..|old(ledger.orders)|] == old(ledger.orders)
    ensures !reply.Success? ==> ledger.orders == old(ledger.orders)
  {
    var charge;
    reply, charge := ledger.Checkout(store.courses, buyer, req, Some(found), intent, false, now);
    ghost var afterCheckout := ledger.orders;
    edit := store.Update(admin, id, body, Catalog.NoFault);
    assert ledger.orders == afterCheckout;
  }

  /** A successful checkout followed by an admin deleting a course: the
      orders already written are untouched. */
  method PurchaseThenDelete(store: Catalog.CourseStore, ledger: Checkout.OrderLedger, buyer: UserId,
                            req: Checkout.CheckoutRequest, found: seq<Course>, intent: Checkout.IntentResult,
                            now: int, admin: User, id: CourseId)
    returns (reply: Checkout.CheckoutReply, edit: Catalog.Reply)
    requires store.Valid() && ledger.Valid()
    requires Checkout.IsFindResult(store.courses, req.courseIds, found)
    modifies store, ledger
    ensures store.Valid() && ledger.Valid()
    ensures reply.Success? ==>
      |ledger.orders| == |old(ledger.orders)| + 1 && ledger.orders[|old(ledger.orders)|].items == Snapshot(found)
    ensures store.courses == old(store.courses) || store.courses == old(store.courses) - {id}
  {
    var charge;
    reply, charge := ledger.Checkout(store.courses, buyer, req, Some(found), intent, false, now);
    edit := store.Delete(admin, id, Catalog.NoFault);
  }
}
