/** The client-side cart (client/src/context/CartContext.js): an ordered list
    of courses, keyed by course id, that the provider replaces through
    `setCartItems`. The transitions are pure functions on the list; the
    `CartStore` class holds the list and applies them. */
module Cart {
  import opened Common

  /** `items.find(item => item._id === id)` finds something. */
  predicate Contains(items: seq<Course>, id: CourseId) {
    exists j :: 0 <= j < |items| && items[j].id == id
  }

  /** `addToCart`: a course already present leaves the list as it is, a new
      one is copied to the end. */
  function Add(items: seq<Course>, course: Course): (r: seq<Course>)
    ensures Contains(r, course.id)
    ensures |items| <= |r| <= |items| + 1 && r[..|items|] == items
    ensures |r| == |items| + 1 <==> !Contains(items, course.id)
    ensures |r| == |items| + 1 ==> r[|items|] == course
    ensures UniqueIds(items) ==> UniqueIds(r)
  {
    if Contains(items, course.id) then items
    else
      var r := items + [course];
      assert r[|items|].id == course.id;
      r
  }

  /** `removeFromCart`: `items.filter(item => item._id !== id)`. */
  function Remove(items: seq<Course>, id: CourseId): (r: seq<Course>)
    ensures !Contains(r, id)
    ensures forall x :: x in r <==> x in items && x.id != id
    ensures |r| <= |items|
    ensures UniqueIds(items) ==> UniqueIds(r)
    decreases |items|
  {
    if |items| == 0 then []
    else
      var rest := Remove(items[1..], id);
      assert forall x :: x in items[1..] ==> x in items;
      if items[0].id == id then rest else [items[0]] + rest
  }

  /** Filtering commutes with concatenation, so the items that survive a
      removal keep their relative order. */
  lemma {:induction false} RemoveDistributes(a: seq<Course>, b: seq<Course>, id: CourseId)
    ensures Remove(a + b, id) == Remove(a, id) + Remove(b, id)
    decreases |a|
  {
    if |a| == 0 {
      assert a + b == b;
    } else {
      assert (a + b)[0] == a[0];
      assert (a + b)[1..] == a[1..] + b;
      RemoveDistributes(a[1..], b, id);
    }
  }

  /** A one-element list keeps its item exactly when the ids differ. */
  lemma RemoveSingleton(x: Course, id: CourseId)
    ensures Remove([x], id) == if x.id == id then [] else [x]
  {
    assert [x][1..] == [];
  }

  /** Removing an id that is not in the cart leaves the cart unchanged. */
  lemma {:induction false} RemoveAbsent(items: seq<Course>, id: CourseId)
    requires !Contains(items, id)
    ensures Remove(items, id) == items
    decreases |items|
  {
    if |items| > 0 {
      assert items[0].id != id;
      assert !Contains(items[1..], id) by {
        forall j | 0 <= j < |items[1..]| ensures items[1..][j].id != id {
          assert items[1..][j] == items[j + 1];
        }
      }
      RemoveAbsent(items[1..], id);
      assert items == [items[0]] + items[1..];
    }
  }

  /** Adding a course that is not yet in the cart, then removing its id,
      gives back the original cart. */
  lemma AddThenRemove(items: seq<Course>, course: Course)
    requires !Contains(items, course.id)
    ensures Remove(Add(items, course), course.id) == items
  {
    RemoveDistributes(items, [course], course.id);
    RemoveAbsent(items, course.id);
    RemoveSingleton(course, course.id);
  }

  /** Adding a course twice is the same as adding it once. */
  lemma AddIdempotent(items: seq<Course>, course: Course)
    ensures Add(Add(items, course), course) == Add(items, course)
  {
  }

  /** Removing the id of an item that occurs nowhere else cuts exactly that item out. */
  lemma RemoveSoleOccurrence(a: seq<Course>, x: Course, b: seq<Course>)
    requires !Contains(a, x.id) && !Contains(b, x.id)
    ensures Remove(a + [x] + b, x.id) == a + b
  {
    var id := x.id;
    var ax := a + [x];
    RemoveDistributes(ax, b, id);
    assert Remove(ax + b, id) == Remove(ax, id) + Remove(b, id);
    RemoveDistributes(a, [x], id);
    assert Remove(ax, id) == Remove(a, id) + Remove([x], id);
    RemoveSingleton(x, id);
    RemoveAbsent(a, id);
    RemoveAbsent(b, id);
    assert Remove(ax, id) == a;
    assert ax + b == a + [x] + b;
  }

  /** In a cart with distinct ids, removing the item at position `k` lowers
      the total by exactly that item's price. */
  lemma RemoveLowersTotal(items: seq<Course>, k: nat)
    requires UniqueIds(items) && k < |items|
    ensures SumPrices(Remove(items, items[k].id)) == SumPrices(items) - items[k].price
  {
    var x := items[k];
    var a, b := items[..k], items[k + 1..];
    assert items == a + [x] + b;
    assert !Contains(a, x.id) by {
      forall j | 0 <= j < |a| ensures a[j].id != x.id {
        assert a[j] == items[j];
      }
    }
    assert !Contains(b, x.id) by {
      forall j | 0 <= j < |b| ensures b[j].id != x.id {
        assert b[j] == items[k + 1 + j];
      }
    }
    RemoveSoleOccurrence(a, x, b);
    SumPricesAppend(a, b);
    SumPricesAppend(a + [x], b);
    assert SumPrices(a + [x]) == SumPrices(a) + x.price by {
      assert (a + [x])[..|a|] == a;
    }
  }

  /** The three transitions the provider exposes. */
  datatype CartOp = AddOp(course: Course) | RemoveOp(id: CourseId) | ClearOp

  function Step(items: seq<Course>, op: CartOp): seq<Course> {
    match op
    case AddOp(c) => Add(items, c)
    case RemoveOp(id) => Remove(items, id)
    case ClearOp => []
  }

  /** The cart reached from the empty cart by applying `ops` in order. */
  function Replay(ops: seq<CartOp>): seq<Course>
    decreases |ops|
  {
    if |ops| == 0 then [] else Step(Replay(ops[..|ops| - 1]), ops[|ops| - 1])
  }

  /** Every reachable cart has pairwise-distinct ids. */
  lemma {:induction false} ReachableCartsHaveUniqueIds(ops: seq<CartOp>)
    ensures UniqueIds(Replay(ops))
    decreases |ops|
  {
    if |ops| > 0 {
      ReachableCartsHaveUniqueIds(ops[..|ops| - 1]);
    }
  }

  /** The React state holding `cartItems`. Loading from and saving to
      browser storage is not modelled, so a fresh store starts empty. */
  class CartStore {
    var cartItems: seq<Course>

    ghost predicate Valid()
      reads this
    {
      UniqueIds(cartItems)
    }

    constructor ()
      ensures Valid() && cartItems == []
    {
      cartItems := [];
    }

    method AddToCart(course: Course)
      modifies this
      ensures cartItems == Add(old(cartItems), course)
      ensures old(Valid()) ==> Valid()
    {
      var existing := Contains(cartItems, course.id);
      if !existing {
        cartItems := cartItems + [course];
      }
    }

    method RemoveFromCart(id: CourseId)
      modifies this
      ensures cartItems == Remove(old(cartItems), id)
      ensures !Contains(cartItems, id)
      ensures old(Valid()) ==> Valid()
    {
      cartItems := Remove(cartItems, id);
    }

    method ClearCart()
      modifies this
      ensures cartItems == [] && Valid()
      ensures SumPrices(cartItems) == 0
    {
      cartItems := [];
    }

    /** `getTotalPrice`, in cents; the `toFixed(2)` formatting is not modelled. */
    method GetTotalPrice() returns (total: int)
      ensures total == SumPrices(cartItems)
    {
      total := SumPrices(cartItems);
    }
  }
}
