/** The request gate run before the handlers (index.js): `verifyJWT`, which
    reads the bearer token from the Authorization header and asks the token
    library to verify it, and `verifyAdmin`, which looks up the role stored
    for the claim's email. The token library is an oracle `verify` that gives
    the decoded claim of a token that is well signed and unexpired, and None
    for any other token. */
module AuthGate {
  import opened Records
  import opened Tables

  /** JavaScript truthiness of a header value: a missing header and the
      empty string are both falsy. */
  predicate Present(header: Option<string>) {
    header.Some? && header.value != []
  }

  /** String.prototype.split(' '): every single space separates two parts,
      so adjacent spaces give empty parts. */
  function Split(s: string): (parts: seq<string>)
    ensures |parts| == multiset(s)[' '] + 1
    ensures forall k :: 0 <= k < |parts| ==> ' ' !in parts[k]
  {
    if s == [] then [[]]
    else
      assert s == [s[0]] + s[1..];
      var rest := Split(s[1..]);
      if s[0] == ' ' then [[]] + rest
      else [[s[0]] + rest[0]] + rest[1..]
  }

  /** The inverse of Split: the parts with one space between neighbours. */
  function Join(parts: seq<string>): string
    requires |parts| >= 1
  {
    if |parts| == 1 then parts[0] else parts[0] + " " + Join(parts[1..])
  }

  lemma {:induction false} JoinSplit(s: string)
    ensures Join(Split(s)) == s
  {
    if s != [] {
      JoinSplit(s[1..]);
      var rest := Split(s[1..]);
      if s[0] == ' ' {
        assert ([[]] + rest)[1..] == rest;
      } else {
        var parts := [[s[0]] + rest[0]] + rest[1..];
        if |rest| > 1 {
          assert parts[1..] == rest[1..];
          assert Join(rest) == rest[0] + " " + Join(rest[1..]);
        }
      }
    }
  }

  /** Splitting a space-free word followed by anything glues the word to the
      first part. */
  lemma {:induction false} SplitWord(w: string, s: string)
    requires ' ' !in w
    ensures Split(w + s) == [w + Split(s)[0]] + Split(s)[1..]
  {
    if w == [] {
      assert w + s == s;
      assert w + Split(s)[0] == Split(s)[0];
      assert [Split(s)[0]] + Split(s)[1..] == Split(s);
    } else {
      assert (w + s)[1..] == w[1..] + s;
      assert (w + s)[0] == w[0];
      SplitWord(w[1..], s);
      assert [w[0]] + (w[1..] + Split(s)[0]) == w + Split(s)[0];
    }
  }

  lemma {:induction false} SplitJoin(parts: seq<string>)
    requires |parts| >= 1
    requires forall k :: 0 <= k < |parts| ==> ' ' !in parts[k]
    ensures Split(Join(parts)) == parts
  {
    if |parts| == 1 {
      SplitWord(parts[0], []);
      assert parts[0] + [] == parts[0];
    } else {
      var tail := Join(parts[1..]);
      SplitJoin(parts[1..]);
      assert Join(parts) == parts[0] + (" " + tail);
      SplitWord(parts[0], " " + tail);
      assert (" " + tail)[1..] == tail;
      assert Split(" " + tail) == [[]] + Split(tail);
      assert parts[0] + [] == parts[0];
    }
  }

  /** `authorization.split(' ')[1]`: None when the header has no space
      (`[1]` is `undefined`). */
  function TokenOf(authorization: string): (t: Option<string>)
    ensures t.Some? <==> ' ' in authorization
    ensures t.Some? ==> ' ' !in t.value
  {
    var parts := Split(authorization);
    if |parts| >= 2 then Some(parts[1]) else None
  }

  /** The token is the second space-separated part of the header, whatever
      follows it. */
  lemma TokenOfParts(parts: seq<string>)
    requires |parts| >= 2
    requires forall k :: 0 <= k < |parts| ==> ' ' !in parts[k]
    ensures TokenOf(Join(parts)) == Some(parts[1])
  {
    SplitJoin(parts);
  }

  /** A `Bearer <token>` header gives exactly `<token>`. */
  lemma TokenOfBearer(token: string)
    requires ' ' !in token
    ensures TokenOf("Bearer " + token) == Some(token)
  {
    var parts := ["Bearer", token];
    assert Join(parts[1..]) == token;
    assert Join(parts) == "Bearer " + token;
    TokenOfParts(parts);
  }

  /** The outcome of verifyJWT: a 401 reply and `next` never called, or the
      decoded claim attached to the request and `next` called once. */
  datatype Decision = Reject(reply: Reply) | Proceed(claim: Claim)

  /** verifyJWT. A missing token (a header without a space) and an empty
      one (`"Bearer "`) are refused by the token library, which rejects a
      falsy token before checking any signature, so the oracle is asked only
      about a non-empty token. */
  function VerifyJwt(authorization: Option<string>, verify: string -> Option<Claim>): (d: Decision)
    ensures !Present(authorization) ==> d == Reject(UNAUTHORIZED)
    ensures d.Reject? ==> d.reply == UNAUTHORIZED
    ensures d.Proceed? <==>
      Present(authorization) && ' ' in authorization.value
      && TokenOf(authorization.value).value != []
      && verify(TokenOf(authorization.value).value).Some?
    ensures d.Proceed? ==> Some(d.claim) == verify(TokenOf(authorization.value).value)
  {
    if !Present(authorization) then Reject(UNAUTHORIZED)
    else match TokenOf(authorization.value)
      case None => Reject(UNAUTHORIZED)
      case Some(token) =>
        if token == [] then Reject(UNAUTHORIZED)
        else match verify(token)
          case None => Reject(UNAUTHORIZED)
          case Some(claim) => Proceed(claim)
  }

  /** For a `Bearer <token>` header the gate's answer is the oracle's answer
      on that token, and a 401 for the empty token. */
  lemma VerifyJwtBearer(token: string, verify: string -> Option<Claim>)
    requires ' ' !in token
    ensures VerifyJwt(Some("Bearer " + token), verify)
         == if token != [] && verify(token).Some? then Proceed(verify(token).value) else Reject(UNAUTHORIZED)
  {
    TokenOfBearer(token);
  }

  /** The outcome of verifyAdmin: what it sent, and whether `next` ran. */
  datatype AdminCheck = AdminCheck(sent: seq<Reply>, nextCalled: bool)

  /** verifyAdmin. The 403 is sent without a `return`, so `next()` is
      reached whether or not the caller is an admin. */
  function VerifyAdmin(users: seq<User>, claim: Claim): (c: AdminCheck)
    ensures c.nextCalled
    ensures c.sent == [] || c.sent == [FORBIDDEN]
    ensures c.sent == [FORBIDDEN] <==> !IsAdmin(FindUserByEmail(users, claim.email))
  {
    var user := FindUserByEmail(users, claim.email);
    if IsAdmin(user) then AdminCheck([], true)
    else AdminCheck([FORBIDDEN], true)
  }
}
