# Bistro Boss backend: request gate, table updates and dashboard aggregations

This project models the core of the Bistro Boss restaurant backend (`index.js`), an Express server over MongoDB. The model covers three parts.

- **The request gate.** `verifyJWT` takes the bearer token from the `Authorization` header. It answers 401 `{ error: true, message: 'unauthorized access' }` when the header is missing or the token does not verify. Otherwise it attaches the decoded claim and calls `next` once. `verifyAdmin` looks up the stored user for the claim's email and sends 403 `{ error: true, message: 'forbidden access' }` unless that user's role is `admin`. There is no `return` after that 403, so `next()` runs in both cases. `GET /user/admin/:email` has the same fall-through after its ownership check. The model records this as written: a gate's answer is the list of replies sent plus whether the handler ran. A route method returns every reply it sends, in order. The client receives the first one. The intended design is that a rejection halts the request; the code does not do this, and the model follows the code.
- **The routes that use the collections**, as methods of one `Server.Store` object. The object holds the four tables `users`, `carts`, `payments` and `menu` as sequences in natural order: `POST /users`, `PATCH /users/admin/:id`, `GET /user/admin/:email`, `DELETE /user/:id`, `GET /carts`, `DELETE /carts/:id`, `POST /payments`, `GET /admin-statue` and `GET /oder-status`. Each state-changing method states the whole new state and what stays unchanged. Each keeps the unique `_id` index (`Valid()`).
- **The aggregations**, as functions with lemmas. Dashboard revenue is the `reduce` of `price` from 0, and it equals a reference sum. The category breakdown is the `$lookup` / `$unwind` / `$group` pipeline. Its entries are per-category totals of the matched menu items, it adds up over concatenation, it drops unmatched payments, and it has no entry for an unpurchased category.

`POST /payments` checks only the token. It does not check that a charge was authorized, because the charge is a separate request (`/create-payment-intent`). It records the payment before it clears the cart, so the insert can succeed while the clear never runs. The cart clear deletes every listed line whoever owns it: nothing ties the ids in `itemID` to the caller's email.

`PATCH /users/admin/:id`, `DELETE /user/:id`, `DELETE /carts/:id` and `GET /oder-status` have no gate at all. The model's methods for them take no header, so a caller with no token can promote any user to admin, delete any user or cart line, and read the category breakdown.

Modules: `Records` (the documents, the claim, the reply bodies), `AuthGate`, `Tables` (queries and updates on a table), `Analytics`, `Server`.

Token verification is an oracle parameter `verify: string -> Option<Claim>`. It gives the decoded claim of a token that is well signed and unexpired, and `None` for any other token. A header with no space has no second part (`split(' ')[1]` is `undefined`). The model rejects that token with 401 without asking the oracle, as the token library does for a missing token. The same holds for an empty token (the header `"Bearer "`): the library refuses a falsy token before it looks at a signature. JavaScript truthiness of a header or query string is modelled: a missing value and `""` are both falsy.

## Model

| member | source | states |
|---|---|---|
| AuthGate.Present | index.js:22 | no contract of its own: the truthiness test of the header, used again on the query email at index.js line 156 (missing or `""` is falsy). Its meaning is stated through AuthGate.VerifyJwt and Server.Store.GetCarts |
| AuthGate.Split | index.js:25 | `split(' ')` gives one more part than there are spaces, and no part contains a space |
| AuthGate.JoinSplit | index.js:25 | rejoining the parts with single spaces gives back the header |
| AuthGate.SplitJoin | index.js:25 | splitting space-free parts joined by single spaces gives back exactly those parts |
| AuthGate.TokenOf | index.js:25 | a token exists exactly when the header contains a space, and it contains no space |
| AuthGate.TokenOfParts | index.js:25 | the token is the second space-separated part, whatever follows it |
| AuthGate.TokenOfBearer | index.js:25 | the header `Bearer <t>` yields the token `t` |
| AuthGate.VerifyJwt | index.js:20-33 | a missing or empty header is rejected with 401. The gate proceeds exactly when the header has a non-empty token and the oracle accepts it, and the claim attached is the oracle's. Every rejection is the 401 reply |
| AuthGate.VerifyJwtBearer | index.js:25-31 | for `Bearer <t>` the gate proceeds with the oracle's claim for `t`, or rejects with 401 when `t` is empty or refused |
| AuthGate.VerifyAdmin | index.js:65-73 | `next` is always reached. The only reply is a 403, sent exactly when there is no stored user for the claim's email or its role is not `admin`. With unique emails, Tables.FindUserByEmailAdmin turns this into: no user with that email has the admin role |
| Tables.IsAdmin | index.js:69 | no contract of its own: `user?.role === 'admin'`, where a missing user is not an admin; the same test is at index.js line 113. Its meaning is stated through Tables.FindUserByEmailAdmin, AuthGate.VerifyAdmin and Server.Store.AdminStatus |
| Tables.FirstWithEmail | index.js:68 | `findOne({ email })` picks the first user with that email, or none exactly when no user has it |
| Tables.FindUserByEmail | index.js:85 | the found user is stored and carries that email. None is found exactly when no stored user has the email |
| Tables.FindUserByEmailAdmin | index.js:68-69 | with unique emails, the looked-up user is an admin exactly when some user with that email has role `admin` |
| Tables.FirstUserWithId | index.js:101 | the user `updateOne` / `deleteOne` act on carries the id. There is none exactly when no user has the id |
| Tables.HasPaymentId | index.js:201 | `insertOne` clashes with the unique `_id` index exactly when some payment already has the id |
| Tables.CartsOf | index.js:164-165 | `find({ email })` gives exactly the cart lines with that email |
| Tables.CartsOfAppend | index.js:165 | the cart query keeps store order: it distributes over concatenation of the table |
| Tables.CartsWithout | index.js:203-204 | after `deleteMany` with `$in`, no line has a listed id, and every line whose id is not listed is kept |
| Tables.CartsWithoutAbsent | index.js:203-204 | deleting ids that no line has is a no-op |
| Tables.CartsWithoutIdempotent | index.js:203-204 | repeating the cart clear with the same ids changes nothing |
| Tables.CartsWithoutAppend | index.js:203-204 | the surviving lines keep store order |
| Tables.CartsWithoutUnion | index.js:203-204 | clearing two id lists one after the other clears their union |
| Tables.CartsWithoutKeepsIds | index.js:204 | deleting lines keeps the unique `_id` index of the carts |
| Tables.CartsWithoutOne | index.js:179-180 | under the unique index, deleting an id removes exactly one line if present and nothing otherwise |
| Analytics.RevenueFrom | index.js:214 | the `reduce` from any start value is that value plus the sum of `price` |
| Analytics.Revenue | index.js:213-214 | dashboard revenue equals the sum of `price` over all payments, and it is 0 with no payments |
| Analytics.TotalPrice | index.js:214 | the reference sum of `price` is never negative when no price is |
| Analytics.TotalPriceAppend | index.js:214 | the sum of `price` adds up over concatenation |
| Analytics.RevenueAppend | index.js:214 | revenue adds up over concatenation of payment lists |
| Analytics.RevenueRecord | index.js:214 | one more payment raises revenue by its price. With a non-negative price, revenue never decreases |
| Analytics.Lookup | index.js:226-231 | `$lookup` matches exactly the menu documents whose id is among the payment's `menuItems`. It matches none exactly when no menu id is referenced. Analytics.LookupAppend fixes the order and that each match appears once |
| Analytics.LookupAppend | index.js:226-231 | the lookup over a split menu is the lookup of the first part followed by that of the second. With the length bound this fixes the result: menu order, each matching document exactly once |
| Analytics.Unwound | index.js:233-235 | the `$unwind` stream holds exactly the menu items that some payment references, and nothing for no payments |
| Analytics.UnwoundAppend | index.js:233-235 | the `$unwind` stream over concatenated payments is the concatenation of their streams |
| Analytics.UnwoundSingle | index.js:233-235 | one payment unwinds to exactly its matched menu items |
| Analytics.UnwoundPair | index.js:233-235 | two payments unwind to the first one's matches followed by the second one's |
| Analytics.CategoryTotal | index.js:239 | the per-category sum is 0 for a category no item carries |
| Analytics.CategoryTotalAppend | index.js:239 | the per-category sum adds up over concatenation |
| Analytics.AddToGroup | index.js:236-241 | one `$sum` step: the item's category gets an entry equal to its price, or its entry grows by the price. No other entry changes and no other key appears |
| Analytics.GroupByCategory | index.js:236-241 | `$group` has an entry for a category exactly when some item of the stream carries it |
| Analytics.GroupByCategoryTotals | index.js:238-239 | each `$group` entry is the summed price of its category's items |
| Analytics.MergeTotals | index.js:236-241 | the key-wise sum of two groupings has the union of their keys |
| Analytics.GroupByCategoryAppendAt | index.js:236-241 | for one category, grouping a concatenation gives the key-wise sum of the two groupings |
| Analytics.GroupByCategoryAppend | index.js:236-241 | grouping a concatenated stream is the key-wise sum of the two groupings |
| Analytics.GroupPair | index.js:236-241 | two items of one category group into one entry summing both prices |
| Analytics.CategoryBreakdown | index.js:224-243 | a category is in the breakdown exactly when some payment matched a menu item of it, and its value is the total price of those matches. No payments give an empty breakdown |
| Analytics.CategoryBreakdownAppend | index.js:224-243 | the breakdown of concatenated payment lists is the key-wise sum of their breakdowns |
| Analytics.CategoryBreakdownUnmatched | index.js:233-235 | a payment whose references match no menu item contributes nothing (`$unwind` drops it) |
| Analytics.CategoryBreakdownSameCategory | index.js:224-243 | two payments each matching one item of the same category give one entry holding both prices |
| Server.Store.PostUsers | index.js:82-91 | 401 leaves the users table unchanged. Otherwise the admin gate's replies come first and the handler runs anyway. The table is unchanged if the email exists ('user already exist') or the `_id` is taken (insertOne throws). Otherwise exactly the posted user is appended. Email uniqueness is preserved |
| Server.Store.PromoteToAdmin | index.js:93-103 | only the user with the id gets role `admin` and every other record is unchanged. An absent id is a no-op reporting 0 matched. A present id reports 1 matched, and 1 modified unless it was already an admin |
| Server.Store.AdminStatus | index.js:105-115 | 401 without a valid token. A caller asking about another email gets 403 first. The admin flag of the asked email is sent last in every case |
| Server.Store.DeleteUser | index.js:117-122 | an absent id is a no-op reporting 0 deleted. Otherwise exactly that user is removed, the others keep their order, and 1 deleted is reported |
| Server.Store.GetCarts | index.js:154-168 | 401 without a valid token. A present query email that differs from the claim's gets exactly 403. The claim's own email gets exactly its cart lines in store order. A falsy email is answered `[]` and then 403 (or the lines of `""`). The table is not modified |
| Server.Store.DeleteCart | index.js:177-182 | the carts table loses the line with the id if present (1 deleted) and is otherwise unchanged (0 deleted) |
| Server.Store.PostPayments | index.js:199-206 | 401 changes nothing. A taken `_id` changes nothing. Otherwise the payments table grows by exactly the posted record, and the carts become exactly the old lines whose id is not in `itemID`, with the count deleted reported. A missing `itemID` stops after the insert |
| Server.Store.AdminStats | index.js:209-221 | 401 without a valid token. Otherwise the admin gate's replies, then the revenue, equal to the sum of `price` over all payments (the `reduce` loop is proved against the fold) |
| Server.Store.OrderStatus | index.js:223-245 | the reply is the category breakdown of the payments against the menu, empty with no payments |

## Left out

- Express wiring, CORS, static files, `app.listen` and the root route (index.js:1-18, 258-264): HTTP plumbing.
- The MongoDB connection, the ping and `ObjectId` construction (index.js:36-56, 247-253): ids are abstract numbers, so a malformed id string that makes `new ObjectId` throw is not modelled. `PATCH /users/admin/:id` passes the whole `req.params` object to `new ObjectId`. The model treats it as the id, which assumes the driver reads the object's `id` field.
- Token signing (`/jwt`, index.js:59-63) and the internals of signature and expiry checking: these are calls into the token library, which the oracle `verify` replaces. Tokens are issued with a one-hour expiry. An expired token is one the oracle refuses.
- The charge creation route `/create-payment-intent` (index.js:185-196): an external payment service call and a floating-point conversion.
- The `estimatedDocumentCount` fields of `/admin-statue` (index.js:210-212): they are estimates by design, so only `revenue` is modelled.
- The plain menu, review and cart-insert routes, and `GET /users` (index.js:77-80, 128-150, 170-175): pass-through finds and inserts.
- Asynchrony and concurrency: each route runs as one sequential step. The route's list of replies shows a second send after the fall-through 403, and the client sees the first. The error that second send raises is described in the exception line below.
- Prices are integers, not JavaScript floats. The claim's `email` is always a string (a token payload without `email` is not modelled). The posted user's `email` in `POST /users` is always a string too. For a body with no `email`, index.js lines 84-85 run `findOne({ email: undefined })`, which the driver sends as a match on `null` by default, so it finds a stored user that has no email. That case is not modelled. The query email of `GET /carts` is a string or absent, never an array.
- An exception inside a route ends the route with no further reply. The modelled causes are a duplicate `_id` on insert, a missing `itemID`, and the `ERR_HTTP_HEADERS_SENT` error of a second send after the fall-through 403. What follows depends on the Express and Node.js versions, and the source (`require('express')`) fixes neither. Under Express 4 the promise an async handler returns is ignored, and the server installs no `unhandledRejection` handler. Older Node.js versions then log a warning while the request hangs, and Node.js 15 and later terminate the whole process. Under Express 5 the rejection goes to the default error handler. That handler replies 500 where nothing was sent yet (the duplicate `_id` and missing `itemID` paths, where the model has no reply). The model shows only the end of the route, not the hang, the process exit or the 500.
- The in-memory tables never fail. In the source any driver call (`findOne`, `insertOne`, `deleteMany`, `updateOne`, `deleteOne`) can reject, and the route then ends with no reply. For `POST /payments` this includes a payment that is recorded while the cart clear then fails, which sends nothing at all (or a 500 under Express 5). An `itemID` that is present but not an array, so that `.map` throws at index.js line 203, is not modelled either: `itemID` is a list of ids or absent.
- Analytics.Lookup: matches a payment's `menuItems` references against menu `_id`s by value alone. MongoDB's `$lookup` equality is sensitive to BSON type. `POST /payments` stores the posted body unconverted (index.js lines 200-201), so the references are strings, while a menu document inserted without an `_id` (index.js line 135) gets an ObjectId. In the source, string references match only a menu seeded with string `_id`s; against ObjectId `_id`s the breakdown is empty whatever was bought. The model cannot tell the two apart, because its ids are untyped numbers.
