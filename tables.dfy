/** The collections as in-memory tables (sequences in natural order) and the
    queries and updates the routes run on them: findOne by email or id,
    find by email, deleteOne / deleteMany by id, and the role update. */
module Tables {
  import opened Records

  /** The unique index on `_id` that every collection carries. */
  ghost predicate UserIdsUnique(users: seq<User>) {
    forall i, j :: 0 <= i < j < |users| ==> users[i].id != users[j].id
  }

  ghost predicate CartIdsUnique(carts: seq<CartLine>) {
    forall i, j :: 0 <= i < j < |carts| ==> carts[i].id != carts[j].id
  }

  ghost predicate PaymentIdsUnique(payments: seq<Payment>) {
    forall i, j :: 0 <= i < j < |payments| ==> payments[i].id != payments[j].id
  }

  /** No two users share an email: what POST /users tries to keep. */
  ghost predicate EmailsUnique(users: seq<User>) {
    forall i, j :: 0 <= i < j < |users| ==> users[i].email != users[j].email
  }

  predicate IsAdmin(user: Option<User>) {
    user.Some? && user.value.role == Some(ADMIN_ROLE)
  }

  /** The position findOne({ email }) returns: the first user with that email. */
  function FirstWithEmail(users: seq<User>, email: string): (r: Option<nat>)
    ensures r.Some? ==> r.value < |users| && users[r.value].email == email
    ensures r.Some? ==> forall j :: 0 <= j < r.value ==> users[j].email != email
    ensures r.None? <==> forall j :: 0 <= j < |users| ==> users[j].email != email
  {
    if users == [] then None
    else if users[0].email == email then Some(0)
    else match FirstWithEmail(users[1..], email)
      case None => None
      case Some(i) => Some(i + 1)
  }

  /** findOne({ email }) on the users collection. */
  function FindUserByEmail(users: seq<User>, email: string): (r: Option<User>)
    ensures r.Some? ==> r.value in users && r.value.email == email
    ensures r.None? <==> forall u :: u in users ==> u.email != email
  {
    match FirstWithEmail(users, email)
    case None => None
    case Some(i) => Some(users[i])
  }

  /** With unique emails, the stored user for an email is an admin exactly
      when some user with that email has the admin role. */
  lemma FindUserByEmailAdmin(users: seq<User>, email: string)
    requires EmailsUnique(users)
    ensures IsAdmin(FindUserByEmail(users, email))
        <==> exists u :: u in users && u.email == email && u.role == Some(ADMIN_ROLE)
  {
  }

  /** The position in the users collection that findOne({ _id }) / updateOne /
      deleteOne act on. */
  function FirstUserWithId(users: seq<User>, id: Id): (r: Option<nat>)
    ensures r.Some? ==> r.value < |users| && users[r.value].id == id
    ensures r.None? <==> forall j :: 0 <= j < |users| ==> users[j].id != id
  {
    if users == [] then None
    else if users[0].id == id then Some(0)
    else match FirstUserWithId(users[1..], id)
      case None => None
      case Some(i) => Some(i + 1)
  }

  /** Whether insertOne into payments meets the unique `_id` index. */
  function HasPaymentId(payments: seq<Payment>, id: Id): (b: bool)
    ensures b <==> exists p :: p in payments && p.id == id
  {
    if payments == [] then false
    else
      assert forall p :: p in payments <==> p == payments[0] || p in payments[1..];
      payments[0].id == id || HasPaymentId(payments[1..], id)
  }

  /** find({ email }) on the carts collection, in natural order. */
  function CartsOf(carts: seq<CartLine>, email: string): (r: seq<CartLine>)
    ensures forall l :: l in r <==> l in carts && l.email == email
    ensures |r| <= |carts|
  {
    if carts == [] then []
    else (if carts[0].email == email then [carts[0]] else []) + CartsOf(carts[1..], email)
  }

  /** The query of a cart list keeps store order: it distributes over
      concatenation of the table. */
  lemma {:induction false} CartsOfAppend(a: seq<CartLine>, b: seq<CartLine>, email: string)
    ensures CartsOf(a + b, email) == CartsOf(a, email) + CartsOf(b, email)
  {
    if a == [] {
      assert a + b == b;
    } else {
      assert (a + b)[1..] == a[1..] + b;
      CartsOfAppend(a[1..], b, email);
    }
  }

  /** deleteMany({ _id: { $in: ids } }) (and deleteOne for one id under the
      unique index): the cart lines whose id is not in `ids`, in order. */
  function CartsWithout(carts: seq<CartLine>, ids: set<Id>): (r: seq<CartLine>)
    ensures forall l :: l in r <==> l in carts && l.id !in ids
    ensures forall k :: 0 <= k < |r| ==> r[k].id !in ids
    ensures |r| <= |carts|
  {
    if carts == [] then []
    else (if carts[0].id in ids then [] else [carts[0]]) + CartsWithout(carts[1..], ids)
  }

  /** Deleting ids that no line carries changes nothing. */
  lemma {:induction false} CartsWithoutAbsent(carts: seq<CartLine>, ids: set<Id>)
    requires forall l :: l in carts ==> l.id !in ids
    ensures CartsWithout(carts, ids) == carts
  {
    if carts != [] {
      assert carts[0] in carts;
      forall l | l in carts[1..] ensures l.id !in ids { assert l in carts; }
      CartsWithoutAbsent(carts[1..], ids);
      assert [carts[0]] + carts[1..] == carts;
    }
  }

  /** Retrying the cart clear is a no-op. */
  lemma CartsWithoutIdempotent(carts: seq<CartLine>, ids: set<Id>)
    ensures CartsWithout(CartsWithout(carts, ids), ids) == CartsWithout(carts, ids)
  {
    CartsWithoutAbsent(CartsWithout(carts, ids), ids);
  }

  /** Order is kept: the lines that survive are a subsequence of the table. */
  lemma {:induction false} CartsWithoutAppend(a: seq<CartLine>, b: seq<CartLine>, ids: set<Id>)
    ensures CartsWithout(a + b, ids) == CartsWithout(a, ids) + CartsWithout(b, ids)
  {
    if a == [] {
      assert a + b == b;
    } else {
      assert (a + b)[1..] == a[1..] + b;
      CartsWithoutAppend(a[1..], b, ids);
    }
  }

  /** Clearing two id sets one after the other clears their union. */
  lemma {:induction false} CartsWithoutUnion(carts: seq<CartLine>, a: set<Id>, b: set<Id>)
    ensures CartsWithout(CartsWithout(carts, a), b) == CartsWithout(carts, a + b)
  {
    if carts != [] {
      CartsWithoutUnion(carts[1..], a, b);
      var head := if carts[0].id in a then [] else [carts[0]];
      CartsWithoutAppend(head, CartsWithout(carts[1..], a), b);
      assert CartsWithout(head, b) == if carts[0].id in a + b then [] else [carts[0]] by {
        if head != [] { assert head[1..] == []; }
      }
    }
  }

  /** A line removal keeps the unique index. */
  lemma {:induction false} CartsWithoutKeepsIds(carts: seq<CartLine>, ids: set<Id>)
    requires CartIdsUnique(carts)
    ensures CartIdsUnique(CartsWithout(carts, ids))
  {
    if carts != [] {
      CartsWithoutKeepsIds(carts[1..], ids);
      var rest := CartsWithout(carts[1..], ids);
      forall l | l in rest ensures l.id != carts[0].id {
        assert l in carts[1..];
        var k :| 0 <= k < |carts[1..]| && carts[1..][k] == l;
        assert carts[k + 1] == l;
      }
    }
  }

  /** Under the unique index, a single id removes at most one line. */
  lemma {:induction false} CartsWithoutOne(carts: seq<CartLine>, id: Id)
    requires CartIdsUnique(carts)
    ensures (exists l :: l in carts && l.id == id) ==> |CartsWithout(carts, {id})| == |carts| - 1
    ensures (forall l :: l in carts ==> l.id != id) ==> CartsWithout(carts, {id}) == carts
  {
    if forall l :: l in carts ==> l.id != id {
      CartsWithoutAbsent(carts, {id});
    } else if carts != [] {
      if carts[0].id == id {
        forall l | l in carts[1..] ensures l.id != id {
          var k :| 0 <= k < |carts[1..]| && carts[1..][k] == l;
          assert carts[k + 1] == l;
        }
        CartsWithoutAbsent(carts[1..], {id});
      } else {
        var l :| l in carts && l.id == id;
        assert l in carts[1..];
        CartsWithoutOne(carts[1..], id);
      }
    }
  }
}
