/** The checkout handler (server/routes/checkout.js): recompute the total
    from the catalog, refuse a mismatch before any charge, charge the amount
    in cents, and on a succeeded intent append exactly one completed order.

    The store query `Course.find({_id: {$in: courseIds}})` and the payment
    gateway are replaced by inputs: `lookup` is what the query answered
    (`None` when it threw) and `intent` is what the gateway answered. */
module Checkout {
  import opened Common
  import opened OrderModel

  // ---------------------------------------------------------------------
  // Pricing verifier: the authoritative total
  // ---------------------------------------------------------------------

  /** The ids the `$in` query can match: those requested that the catalog holds. */
  function Matched(catalog: map<CourseId, Course>, ids: seq<CourseId>): set<CourseId> {
    set i | i in ids && i in catalog
  }

  ghost function Pick(s: set<CourseId>): CourseId
    requires s != {}
  {
    var k :| k in s; k
  }

  /** The sum of the current catalog prices of a set of ids, each counted once. */
  ghost function SetTotal(catalog: map<CourseId, Course>, s: set<CourseId>): int
    requires s <= catalog.Keys
    decreases |s|
  {
    if s == {} then 0
    else
      var k := Pick(s);
      catalog[k].price + SetTotal(catalog, s - {k})
  }

  /** The reference total: each matched catalog course counted once. */
  ghost function ServerTotal(catalog: map<CourseId, Course>, ids: seq<CourseId>): int {
    SetTotal(catalog, Matched(catalog, ids))
  }

  /** Any id of the set can be taken out first. */
  lemma {:induction false} SetTotalRemove(catalog: map<CourseId, Course>, s: set<CourseId>, k: CourseId)
    requires s <= catalog.Keys && k in s
    ensures SetTotal(catalog, s) == catalog[k].price + SetTotal(catalog, s - {k})
    decreases |s|
  {
    var j := Pick(s);
    if j != k {
      SetTotalRemove(catalog, s - {j}, k);
      SetTotalRemove(catalog, s - {k}, j);
      assert s - {j} - {k} == s - {k} - {j};
    }
  }

  function IdSet(found: seq<Course>): set<CourseId> {
    set i | 0 <= i < |found| :: found[i].id
  }

  /** `found` lists, each once, exactly the catalog records of the ids in `s`. */
  ghost predicate Enumerates(catalog: map<CourseId, Course>, found: seq<Course>, s: set<CourseId>) {
    && (forall i :: 0 <= i < |found| ==> found[i].id in catalog && catalog[found[i].id] == found[i])
    && UniqueIds(found)
    && IdSet(found) == s
  }

  /** What the store's `$in` query may answer, in whatever order it chooses. */
  ghost predicate IsFindResult(catalog: map<CourseId, Course>, ids: seq<CourseId>, found: seq<Course>) {
    Enumerates(catalog, found, Matched(catalog, ids))
  }

  /** Summing an enumeration in any order gives the set's total. */
  lemma {:induction false} EnumerationTotal(catalog: map<CourseId, Course>, found: seq<Course>, s: set<CourseId>)
    requires Enumerates(catalog, found, s)
    ensures s <= catalog.Keys
    ensures SumPrices(found) == SetTotal(catalog, s)
    decreases |found|
  {
    if |found| == 0 {
      assert s == {};
    } else {
      var n := |found| - 1;
      var init, last := found[..n], found[n];
      assert IdSet(init) == s - {last.id} by {
        forall i | i in IdSet(init) ensures i in s - {last.id} {
          var j :| 0 <= j < |init| && init[j].id == i;
          assert found[j].id == i;
        }
        forall i | i in s - {last.id} ensures i in IdSet(init) {
          var j :| 0 <= j < |found| && found[j].id == i;
          assert j != n;
          assert init[j].id == i;
        }
      }
      assert Enumerates(catalog, init, s - {last.id});
      EnumerationTotal(catalog, init, s - {last.id});
      assert last.id in s;
      SetTotalRemove(catalog, s, last.id);
    }
  }

  /** The handler's `reduce` over the query's answer is the reference total. */
  lemma FindResultTotal(catalog: map<CourseId, Course>, ids: seq<CourseId>, found: seq<Course>)
    requires IsFindResult(catalog, ids, found)
    ensures SumPrices(found) == ServerTotal(catalog, ids)
  {
    EnumerationTotal(catalog, found, Matched(catalog, ids));
  }

  /** A duplicated id is counted once, and an unknown id contributes nothing. */
  lemma ExtraIdChangesNothing(catalog: map<CourseId, Course>, ids: seq<CourseId>, i: CourseId)
    requires i in ids || i !in catalog
    ensures ServerTotal(catalog, ids + [i]) == ServerTotal(catalog, ids)
  {
    assert Matched(catalog, ids + [i]) == Matched(catalog, ids);
  }

  // ---------------------------------------------------------------------
  // The handler
  // ---------------------------------------------------------------------

  /** The request body `{courseIds, totalAmount, paymentMethodId}`, amounts in cents. */
  datatype CheckoutRequest = CheckoutRequest(courseIds: seq<CourseId>, totalAmount: int, paymentMethodId: string)

  /** The gateway's answer to `paymentIntents.create`: an intent, or a thrown error. */
  datatype IntentResult = Intent(id: string, status: string) | GatewayError

  /** What the handler asks the gateway to charge (`confirm: true`). */
  datatype ChargeRequest = ChargeRequest(amount: int, currency: string, paymentMethod: string)

  datatype CheckoutReply =
    | Success(orderId: nat, paymentIntentId: string)   // 200 {success: true, orderId, paymentIntentId}
    | TotalMismatch                                    // 400 {msg: "Total amount mismatch"}
    | PaymentFailed(intentStatus: string)              // 400 {msg: "Payment failed", paymentIntentStatus}
    | ServerError                                      // 500 "Server Error"
  {
    function Status(): nat {
      match this
      case Success(_, _) => 200
      case TotalMismatch => 400
      case PaymentFailed(_) => 400
      case ServerError => 500
    }
  }

  /** Everything one checkout does: the reply, the charge it requested, the
      order it saved. */
  datatype Outcome = Outcome(reply: CheckoutReply, charge: Option<ChargeRequest>, recorded: Option<Order>)

  /** The handler's decision, given the store's and the gateway's answers,
      the id the new order document receives and the clock. */
  function Decide(caller: UserId, req: CheckoutRequest, lookup: Option<seq<Course>>, intent: IntentResult,
                  saveFails: bool, orderId: nat, now: int): (o: Outcome)
    ensures o.reply.TotalMismatch? <==> lookup.Some? && SumPrices(lookup.value) != req.totalAmount
    ensures o.reply.Status() == 200 <==> o.recorded.Some?
    ensures o.reply.Status() == 400 <==> o.reply.TotalMismatch? || o.reply.PaymentFailed?
    ensures o.reply.Status() == 500 ==> o.recorded.None?
    ensures o.charge.Some? <==> lookup.Some? && SumPrices(lookup.value) == req.totalAmount
    ensures o.charge.Some? ==> o.charge.value == ChargeRequest(SumPrices(lookup.value), "usd", req.paymentMethodId)
    ensures o.recorded.Some? <==> o.reply.Success?
    ensures o.recorded.Some? ==>
      && lookup.Some? && o.charge.Some? && intent.Intent? && intent.status == "succeeded" && !saveFails
      && o.reply == Success(orderId, intent.id)
      && o.recorded.value == Order(orderId, caller, Snapshot(lookup.value), req.totalAmount, Completed, intent.id, now)
      && TotalMatchesItems(o.recorded.value)
    ensures o.reply.PaymentFailed? <==> o.charge.Some? && intent.Intent? && intent.status != "succeeded"
    ensures o.reply.PaymentFailed? ==> o.reply.intentStatus == intent.status
    ensures o.reply.ServerError? <==>
      lookup.None? || (o.charge.Some? && (intent.GatewayError? || (intent.status == "succeeded" && saveFails)))
  {
    match lookup
    case None => Outcome(ServerError, None, None)
    case Some(courses) =>
      var calculatedTotal := SumPrices(courses);
      if calculatedTotal != req.totalAmount then Outcome(TotalMismatch, None, None)
      else
        var charge := Some(ChargeRequest(req.totalAmount, "usd", req.paymentMethodId));
        match intent
        case GatewayError => Outcome(ServerError, charge, None)
        case Intent(intentId, status) =>
          if status != "succeeded" then Outcome(PaymentFailed(status), charge, None)
          else if saveFails then Outcome(ServerError, charge, None)
          else
            SnapshotTotal(courses);
            var order := Order(orderId, caller, Snapshot(courses), req.totalAmount, Completed, intentId, now);
            Outcome(Success(orderId, intentId), charge, Some(order))
  }

  /** Against the catalog: the guard compares the client's total with the
      reference total, and the amount charged is the reference total. */
  lemma DecideAgainstCatalog(catalog: map<CourseId, Course>, caller: UserId, req: CheckoutRequest, found: seq<Course>,
                             intent: IntentResult, saveFails: bool, orderId: nat, now: int)
    requires IsFindResult(catalog, req.courseIds, found)
    ensures var o := Decide(caller, req, Some(found), intent, saveFails, orderId, now);
      && (o.reply.TotalMismatch? <==> ServerTotal(catalog, req.courseIds) != req.totalAmount)
      && (o.reply.TotalMismatch? ==> o.charge.None? && o.recorded.None?)
      && (o.charge.Some? ==> o.charge.value.amount == ServerTotal(catalog, req.courseIds)
                             && o.charge.value.currency == "usd")
      && (o.recorded.Some? ==> SumItems(o.recorded.value.items) == ServerTotal(catalog, req.courseIds)
                               && |o.recorded.value.items| == |Matched(catalog, req.courseIds)|)
  {
    FindResultTotal(catalog, req.courseIds, found);
    assert |found| == |Matched(catalog, req.courseIds)| by {
      UniqueIdsCardinality(found);
    }
  }

  /** Distinct ids: as many ids as entries. */
  lemma {:induction false} UniqueIdsCardinality(found: seq<Course>)
    requires UniqueIds(found)
    ensures |IdSet(found)| == |found|
    decreases |found|
  {
    if |found| > 0 {
      var n := |found| - 1;
      var init := found[..n];
      UniqueIdsCardinality(init);
      assert IdSet(found) == IdSet(init) + {found[n].id} by {
        forall i | i in IdSet(found) ensures i in IdSet(init) + {found[n].id} {
          var j :| 0 <= j < |found| && found[j].id == i;
          if j < n { assert init[j].id == i; }
        }
        forall i | i in IdSet(init) ensures i in IdSet(found) {
          var j :| 0 <= j < |init| && init[j].id == i;
          assert found[j].id == i;
        }
      }
      assert found[n].id !in IdSet(init) by {
        forall j | 0 <= j < |init| ensures init[j].id != found[n].id {
          assert init[j] == found[j];
        }
      }
    }
  }

  /** The handler does not reject an empty cart: no ids and a total of 0 reach the gateway with a charge of 0. */
  lemma EmptyCartReachesGateway(catalog: map<CourseId, Course>, caller: UserId, method_: string,
                                intent: IntentResult, saveFails: bool, orderId: nat, now: int)
    ensures IsFindResult(catalog, [], [])
    ensures Decide(caller, CheckoutRequest([], 0, method_), Some([]), intent, saveFails, orderId, now).charge
            == Some(ChargeRequest(0, "usd", method_))
  {
    assert Matched(catalog, []) == {};
  }

  /** The order store: append-only, each order valid when written. */
  class OrderLedger {
    var orders: seq<Order>
    var nextId: nat

    /** Every stored order is a completed one whose total equals its line
        items' sum; ids increase along the ledger and stay below `nextId`. */
    ghost predicate Valid()
      reads this
    {
      && (forall i :: 0 <= i < |orders| ==>
            orders[i].id < nextId && orders[i].paymentStatus == Completed && TotalMatchesItems(orders[i]))
      && (forall i, j :: 0 <= i < j < |orders| ==> orders[i].id < orders[j].id)
    }

    constructor ()
      ensures Valid() && orders == []
    {
      orders := [];
      nextId := 0;
    }

    /** POST /: a sequential handler with early returns. `catalog` is the
        store the query ran against. */
    method Checkout(ghost catalog: map<CourseId, Course>, caller: UserId, req: CheckoutRequest,
                    lookup: Option<seq<Course>>, intent: IntentResult, saveFails: bool, now: int)
      returns (reply: CheckoutReply, charge: Option<ChargeRequest>)
      requires Valid()
      requires lookup.Some? ==> IsFindResult(catalog, req.courseIds, lookup.value)
      modifies this
      ensures Valid()
      ensures var o := Decide(caller, req, lookup, intent, saveFails, old(nextId), now);
        && reply == o.reply && charge == o.charge
        && orders == old(orders) + (if o.recorded.Some? then [o.recorded.value] else [])
      ensures reply.TotalMismatch? <==> lookup.Some? && ServerTotal(catalog, req.courseIds) != req.totalAmount
      ensures charge.Some? ==> charge.value.amount == ServerTotal(catalog, req.courseIds) && charge.value.currency == "usd"
      ensures !reply.Success? ==> orders == old(orders)
      ensures reply.Success? ==> |orders| == |old(orders)| + 1 && orders[|old(orders)|].user == caller
      ensures nextId == old(nextId) + (if reply.Success? then 1 else 0)
    {
      ghost var o := Decide(caller, req, lookup, intent, saveFails, nextId, now);
      if lookup.None? {
        assert o == Outcome(ServerError, None, None);
        return ServerError, None;
      }
      DecideAgainstCatalog(catalog, caller, req, lookup.value, intent, saveFails, nextId, now);
      var courses := lookup.value;
      var calculatedTotal := SumPrices(courses);
      if calculatedTotal != req.totalAmount {
        assert o == Outcome(TotalMismatch, None, None);
        return TotalMismatch, None;
      }
      charge := Some(ChargeRequest(req.totalAmount, "usd", req.paymentMethodId));
      if intent.GatewayError? {
        assert o == Outcome(ServerError, charge, None);
        return ServerError, charge;
      }
      if intent.status != "succeeded" {
        assert o == Outcome(PaymentFailed(intent.status), charge, None);
        return PaymentFailed(intent.status), charge;
      }
      var order := Order(nextId, caller, Snapshot(courses), req.totalAmount, Completed, intent.id, now);
      if saveFails {
        assert o == Outcome(ServerError, charge, None);
        return ServerError, charge;
      }
      assert o == Outcome(Success(nextId, intent.id), charge, Some(order));
      SnapshotTotal(courses);
      orders := orders + [order];
      nextId := nextId + 1;
      reply := Success(order.id, intent.id);
    }
  }

  /** A worked example: courses at 1000 and 2550 cents and a claimed total
      of 3550 are charged 3550; a claim of 3549 is refused before any charge. */
  lemma TwoCourseScenario(caller: UserId, intentId: string, orderId: nat, now: int)
    ensures var a := Course(1, "A", "", 1000, "", "");
      var b := Course(2, "B", "", 2550, "", "");
      var ok := Decide(caller, CheckoutRequest([1, 2], 3550, "pm"), Some([a, b]), Intent(intentId, "succeeded"), false, orderId, now);
      var off := Decide(caller, CheckoutRequest([1, 2], 3549, "pm"), Some([a, b]), Intent(intentId, "succeeded"), false, orderId, now);
      && ok.charge == Some(ChargeRequest(3550, "usd", "pm"))
      && ok.recorded.Some? && ok.recorded.value.totalAmount == 3550 && |ok.recorded.value.items| == 2
      && off.reply == TotalMismatch && off.charge.None?
  {
    var a := Course(1, "A", "", 1000, "", "");
    var b := Course(2, "B", "", 2550, "", "");
    assert [a][..0] == [];
    assert SumPrices([a]) == 1000;
    assert [a, b][..1] == [a];
    assert SumPrices([a, b]) == SumPrices([a]) + 2550;
  }
}
