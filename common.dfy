/** Shared vocabulary of the course store: identifiers, the Course record,
    callers and the price arithmetic used by both the cart and the server.
    Every price is an integer number of cents. */
module Common {

  datatype Option<+T> = None | Some(value: T)

  /** Document identifiers. The store hands out fresh ones (Mongo's ObjectId). */
  type CourseId = nat
  type UserId = nat

  /** A catalog course; `price` is in cents. */
  datatype Course = Course(
    id: CourseId,
    title: string,
    description: string,
    price: int,
    image: string,
    videoUrl: string)

  /** The caller as the authentication middleware leaves it in `req.user`. */
  datatype User = User(id: UserId, role: string)

  /** The one role check every admin-only handler performs: `role === 'admin'`. */
  predicate IsAdmin(u: User) {
    u.role == "admin"
  }

  /** No course id appears twice: the cart invariant, and what a store query returns. */
  predicate UniqueIds(cs: seq<Course>) {
    forall i, j :: 0 <= i < j < |cs| ==> cs[i].id != cs[j].id
  }

  const ServerErrorMsg: string := "Server Error"

  /** `items.reduce((total, item) => total + item.price, 0)`: a left fold. */
  function SumPrices(cs: seq<Course>): int
    decreases |cs|
  {
    if |cs| == 0 then 0 else SumPrices(cs[..|cs| - 1]) + cs[|cs| - 1].price
  }

  /** The total of a concatenation is the sum of the totals. */
  lemma {:induction false} SumPricesAppend(a: seq<Course>, b: seq<Course>)
    ensures SumPrices(a + b) == SumPrices(a) + SumPrices(b)
    decreases |b|
  {
    if |b| == 0 {
      assert a + b == a;
    } else {
      assert (a + b)[..|a + b| - 1] == a + b[..|b| - 1];
      SumPricesAppend(a, b[..|b| - 1]);
    }
  }
}
