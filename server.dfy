/** The routes of index.js that read or change the collections, as methods
    on one store object that holds the four tables. Each route method runs
    its gates first and returns, in order, every reply the route sends; when
    a gate sends a 403 and falls through, the list holds the 403 and then the
    handler's own reply (the client receives the first one). */
module Server {
  import opened Records
  import opened Tables
  import opened AuthGate
  import opened Analytics

  class Store {
    var users: seq<User>
    var carts: seq<CartLine>
    var payments: seq<Payment>
    var menu: seq<MenuItem>

    /** The unique `_id` index of each collection the routes write to. */
    ghost predicate Valid()
      reads this
    {
      UserIdsUnique(users) && CartIdsUnique(carts) && PaymentIdsUnique(payments)
    }

    constructor (users0: seq<User>, carts0: seq<CartLine>, payments0: seq<Payment>, menu0: seq<MenuItem>)
      requires UserIdsUnique(users0) && CartIdsUnique(carts0) && PaymentIdsUnique(payments0)
      ensures Valid()
      ensures users == users0 && carts == carts0 && payments == payments0 && menu == menu0
    {
      users, carts, payments, menu := users0, carts0, payments0, menu0;
    }

    /** POST /users behind verifyJWT and verifyAdmin: insert the posted user
        unless one with its email exists. A duplicate `_id` makes insertOne
        throw, so nothing more is sent and nothing changes. */
    method PostUsers(authorization: Option<string>, verify: string -> Option<Claim>, user: User)
      returns (sent: seq<Reply>)
      requires Valid()
      modifies this
      ensures Valid()
      ensures carts == old(carts) && payments == old(payments) && menu == old(menu)
      ensures users == old(users) || users == old(users) + [user]
      ensures EmailsUnique(old(users)) ==> EmailsUnique(users)
      ensures VerifyJwt(authorization, verify).Reject? ==> sent == [UNAUTHORIZED] && users == old(users)
      ensures VerifyJwt(authorization, verify).Proceed? ==>
        var gate := VerifyAdmin(old(users), VerifyJwt(authorization, verify).claim);
        if exists u :: u in old(users) && u.email == user.email then
          users == old(users) && sent == gate.sent + [Ok(MessageBody("user already exist"))]
        else if exists u :: u in old(users) && u.id == user.id then
          users == old(users) && sent == gate.sent
        else
          users == old(users) + [user] && sent == gate.sent + [Ok(InsertBody(user.id))]
    {
      var decision := VerifyJwt(authorization, verify);
      if decision.Reject? {
        return [decision.reply];
      }
      var gate := VerifyAdmin(users, decision.claim);
      sent := gate.sent;
      var existing := FindUserByEmail(users, user.email);
      if existing.Some? {
        return sent + [Ok(MessageBody("user already exist"))];
      }
      var clash := FirstUserWithId(users, user.id);
      if clash.Some? {
        assert users[clash.value] in users;
        return;
      }
      users := users + [user];
      sent := sent + [Ok(InsertBody(user.id))];
    }

    /** PATCH /users/admin/:id (no gate): updateOne setting `role` to admin
        on the user with that id; the reply counts the matched and the
        changed documents. */
    method PromoteToAdmin(id: Id) returns (sent: seq<Reply>)
      requires Valid()
      modifies this
      ensures Valid()
      ensures carts == old(carts) && payments == old(payments) && menu == old(menu)
      ensures |users| == |old(users)|
      ensures forall k :: 0 <= k < |users| ==>
        users[k] == if old(users)[k].id == id then old(users)[k].(role := Some(ADMIN_ROLE)) else old(users)[k]
      ensures EmailsUnique(old(users)) ==> EmailsUnique(users)
      ensures (forall u :: u in old(users) ==> u.id != id) ==> sent == [Ok(UpdateBody(0, 0))]
      ensures forall k :: 0 <= k < |old(users)| && old(users)[k].id == id ==>
        sent == [Ok(UpdateBody(1, if old(users)[k].role == Some(ADMIN_ROLE) then 0 else 1))]
    {
      var found := FirstUserWithId(users, id);
      if found.None? {
        return [Ok(UpdateBody(0, 0))];
      }
      var k := found.value;
      var modified := if users[k].role == Some(ADMIN_ROLE) then 0 else 1;
      users := users[k := users[k].(role := Some(ADMIN_ROLE))];
      sent := [Ok(UpdateBody(1, modified))];
    }

    /** GET /user/admin/:email behind verifyJWT. The 403 for a caller asking
        about another email has no `return`: the lookup of the asked email
        runs and its answer is sent after the 403. */
    method AdminStatus(authorization: Option<string>, verify: string -> Option<Claim>, email: string)
      returns (sent: seq<Reply>)
      ensures VerifyJwt(authorization, verify).Reject? ==> sent == [UNAUTHORIZED]
      ensures VerifyJwt(authorization, verify).Proceed? ==>
        |sent| >= 1 && sent[|sent| - 1] == Ok(AdminBody(IsAdmin(FindUserByEmail(users, email))))
      ensures VerifyJwt(authorization, verify).Proceed? ==>
        (sent[0] == FORBIDDEN <==> email != VerifyJwt(authorization, verify).claim.email)
      ensures VerifyJwt(authorization, verify).Proceed? ==>
        |sent| == if email == VerifyJwt(authorization, verify).claim.email then 1 else 2
    {
      var decision := VerifyJwt(authorization, verify);
      if decision.Reject? {
        return [decision.reply];
      }
      sent := if email != decision.claim.email then [FORBIDDEN] else [];
      var user := FindUserByEmail(users, email);
      sent := sent + [Ok(AdminBody(IsAdmin(user)))];
    }

    /** DELETE /user/:id (no gate): deleteOne by id; an absent id changes
        nothing and reports 0 deleted. */
    method DeleteUser(id: Id) returns (sent: seq<Reply>)
      requires Valid()
      modifies this
      ensures Valid()
      ensures carts == old(carts) && payments == old(payments) && menu == old(menu)
      ensures (forall u :: u in old(users) ==> u.id != id) ==> users == old(users) && sent == [Ok(DeleteBody(0))]
      ensures forall k :: 0 <= k < |old(users)| && old(users)[k].id == id ==>
        users == old(users)[..k] + old(users)[k + 1..] && sent == [Ok(DeleteBody(1))]
      ensures EmailsUnique(old(users)) ==> EmailsUnique(users)
    {
      var found := FirstUserWithId(users, id);
      if found.None? {
        assert forall u :: u in users ==> u.id != id;
        return [Ok(DeleteBody(0))];
      }
      var k := found.value;
      ghost var was := users;
      users := users[..k] + users[k + 1..];
      sent := [Ok(DeleteBody(1))];
      assert forall j :: 0 <= j < |users| ==> users[j] == if j < k then was[j] else was[j + 1];
    }

    /** GET /carts behind verifyJWT. A falsy `email` query first sends an
        empty list and carries on; an email other than the claim's gets a 403;
        otherwise the caller's own cart lines are sent. */
    method GetCarts(authorization: Option<string>, verify: string -> Option<Claim>, email: Option<string>)
      returns (sent: seq<Reply>)
      ensures VerifyJwt(authorization, verify).Reject? ==> sent == [UNAUTHORIZED]
      ensures (VerifyJwt(authorization, verify).Proceed? && Present(email)
               && email.value != VerifyJwt(authorization, verify).claim.email) ==> sent == [FORBIDDEN]
      ensures (VerifyJwt(authorization, verify).Proceed? && Present(email)
               && email.value == VerifyJwt(authorization, verify).claim.email) ==>
        sent == [Ok(CartsBody(CartsOf(carts, email.value)))]
      ensures VerifyJwt(authorization, verify).Proceed? && !Present(email) ==>
        sent == [Ok(CartsBody([]))]
          + if email == Some(VerifyJwt(authorization, verify).claim.email) then [Ok(CartsBody(CartsOf(carts, [])))]
            else [FORBIDDEN]
    {
      var decision := VerifyJwt(authorization, verify);
      if decision.Reject? {
        return [decision.reply];
      }
      sent := if !Present(email) then [Ok(CartsBody([]))] else [];
      if email != Some(decision.claim.email) {
        sent := sent + [FORBIDDEN];
      } else {
        sent := sent + [Ok(CartsBody(CartsOf(carts, email.value)))];
      }
    }

    /** DELETE /carts/:id (no gate): deleteOne by id. */
    method DeleteCart(id: Id) returns (sent: seq<Reply>)
      requires Valid()
      modifies this
      ensures Valid()
      ensures users == old(users) && payments == old(payments) && menu == old(menu)
      ensures carts == CartsWithout(old(carts), {id})
      ensures (forall l :: l in old(carts) ==> l.id != id) ==> carts == old(carts) && sent == [Ok(DeleteBody(0))]
      ensures (exists l :: l in old(carts) && l.id == id) ==>
        |carts| == |old(carts)| - 1 && sent == [Ok(DeleteBody(1))]
    {
      CartsWithoutOne(carts, id);
      CartsWithoutKeepsIds(carts, {id});
      var kept := CartsWithout(carts, {id});
      sent := [Ok(DeleteBody(|carts| - |kept|))];
      carts := kept;
    }

    /** POST /payments behind verifyJWT: insert the posted payment, then
        delete every cart line whose id is in its `itemID` list. A duplicate
        `_id` makes insertOne throw before anything changes; a missing
        `itemID` throws after the insert, before the cart is touched. */
    method PostPayments(authorization: Option<string>, verify: string -> Option<Claim>, payment: Payment)
      returns (sent: seq<Reply>)
      requires Valid()
      modifies this
      ensures Valid()
      ensures users == old(users) && menu == old(menu)
      ensures VerifyJwt(authorization, verify).Reject? ==>
        sent == [UNAUTHORIZED] && payments == old(payments) && carts == old(carts)
      ensures VerifyJwt(authorization, verify).Proceed? && (exists p :: p in old(payments) && p.id == payment.id) ==>
        sent == [] && payments == old(payments) && carts == old(carts)
      ensures VerifyJwt(authorization, verify).Proceed? && (forall p :: p in old(payments) ==> p.id != payment.id) ==>
        payments == old(payments) + [payment]
          && (payment.itemIds.None? ==> sent == [] && carts == old(carts))
          && (payment.itemIds.Some? ==>
                var ids := set i | i in payment.itemIds.value;
                carts == CartsWithout(old(carts), ids)
                && sent == [Ok(CheckoutBody(payment.id, |old(carts)| - |carts|))])
    {
      var decision := VerifyJwt(authorization, verify);
      if decision.Reject? {
        return [decision.reply];
      }
      sent := [];
      if HasPaymentId(payments, payment.id) {
        return;
      }
      payments := payments + [payment];
      if payment.itemIds.None? {
        return;
      }
      var ids := set i | i in payment.itemIds.value;
      CartsWithoutKeepsIds(carts, ids);
      var kept := CartsWithout(carts, ids);
      sent := [Ok(CheckoutBody(payment.id, |carts| - |kept|))];
      carts := kept;
    }

    /** GET /admin-statue behind verifyJWT and verifyAdmin: the revenue is the
        `reduce` of `price` over all payments, from 0. The 403 of a non-admin
        caller falls through, so the revenue is computed and sent after it. */
    method AdminStats(authorization: Option<string>, verify: string -> Option<Claim>)
      returns (sent: seq<Reply>)
      ensures VerifyJwt(authorization, verify).Reject? ==> sent == [UNAUTHORIZED]
      ensures VerifyJwt(authorization, verify).Proceed? ==>
        sent == VerifyAdmin(users, VerifyJwt(authorization, verify).claim).sent + [Ok(StatsBody(TotalPrice(payments)))]
    {
      var decision := VerifyJwt(authorization, verify);
      if decision.Reject? {
        return [decision.reply];
      }
      var gate := VerifyAdmin(users, decision.claim);
      var revenue := 0;
      var i := 0;
      while i < |payments|
        invariant 0 <= i <= |payments|
        invariant RevenueFrom(revenue, payments[i..]) == Revenue(payments)
      {
        assert payments[i..][1..] == payments[i + 1..];
        revenue := revenue + payments[i].price;
        i := i + 1;
      }
      sent := gate.sent + [Ok(StatsBody(revenue))];
    }

    /** GET /oder-status (no gate): the `$lookup` / `$unwind` / `$group`
        pipeline over the payments and the menu. */
    method OrderStatus() returns (sent: seq<Reply>)
      ensures sent == [Ok(CategoryBody(CategoryBreakdown(payments, menu)))]
      ensures payments == [] ==> sent == [Ok(CategoryBody(map[]))]
    {
      sent := [Ok(CategoryBody(CategoryBreakdown(payments, menu)))];
    }
  }
}
