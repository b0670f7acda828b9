/** The records kept in the restaurant backend's collections, the identity
    claim carried by a session token, and the replies a route sends. */
module Records {

  datatype Option<+T> = None | Some(value: T)

  /** A document id (a MongoDB ObjectId, kept abstract). */
  type Id = nat

  /** The only role value the gates look for. */
  const ADMIN_ROLE: string := "admin"

  /** A document of the users collection; `role` is absent until promotion. */
  datatype User = User(id: Id, email: string, role: Option<string>)

  /** A document of the carts collection: one line of one user's cart. */
  datatype CartLine = CartLine(id: Id, email: string, menuItemId: Id, price: int)

  /** A document of the payments collection, as posted by the client.
      `itemIds` is the payment's `itemID` list of cart-line ids (None when the
      field is missing); `menuItems` is the list of menu ids it bought. */
  datatype Payment = Payment(id: Id, email: string, price: int, itemIds: Option<seq<Id>>, menuItems: seq<Id>)

  /** A document of the menu collection. */
  datatype MenuItem = MenuItem(id: Id, category: string, price: int)

  /** The decoded payload of a session token. */
  datatype Claim = Claim(email: string)

  /** The JSON bodies the routes send. */
  datatype Body =
    | ErrorBody(message: string)                      // { error: true, message }
    | MessageBody(message: string)                    // { message }
    | InsertBody(insertedId: Id)                      // result of insertOne
    | UpdateBody(matchedCount: nat, modifiedCount: nat) // result of updateOne
    | DeleteBody(deletedCount: nat)                   // result of deleteOne
    | AdminBody(admin: bool)                          // { admin }
    | CartsBody(lines: seq<CartLine>)                 // an array of cart lines
    | CheckoutBody(insertedId: Id, deletedCount: nat) // { insertResult, deleteResult }
    | StatsBody(revenue: int)                         // the revenue field of the dashboard
    | CategoryBody(totals: map<string, int>)          // the $group result, one entry per category

  /** One `res.status(..).send(..)` (status 200 when no status is set). */
  datatype Reply = Reply(status: nat, body: Body)

  const UNAUTHORIZED: Reply := Reply(401, ErrorBody("unauthorized access"))
  const FORBIDDEN: Reply := Reply(403, ErrorBody("forbidden access"))

  function Ok(body: Body): Reply { Reply(200, body) }
}
