/** The request guards (middleware/authMiddleware.js): the bearer token is the
    second space-separated field of the `Authorization` header, the token is
    checked by a verifier, and the guard either answers the request itself or
    records the decoded claims on the request and passes it on.

    Signature checking and expiry are not modelled: `verify(token, secret)`
    is an oracle that yields the decoded claims, or nothing when
    `jwt.verify` would throw. */
module Auth {
  import opened Js

  /** The claims of a decoded token that the backend reads. */
  datatype Claims = Claims(id: JsValue, isAdmin: JsValue)

  /** An abstract `jwt.verify`: the claims, or `None` for a rejected token. */
  type Verifier = (string, string) -> Option<Claims>

  const DefaultSecret: string := "yourSecretKey"

  /** `process.env.JWT_SECRET || "yourSecretKey"`. */
  function Secret(jwtSecret: Option<string>): (s: string)
    ensures Str(s) == Or(OfEnv(jwtSecret), Str(DefaultSecret))
  {
    if jwtSecret.Some? && jwtSecret.value != "" then jwtSecret.value else DefaultSecret
  }

  /** `authHeader?.split(" ")[1]`: undefined when there is no header or the
      header has no space. */
  function TokenOf(header: Option<string>): (t: JsValue)
    ensures t.Undefined? || t.Str?
    ensures Truthy(t) <==> header.Some? && |Split(header.value)| > 1 && Split(header.value)[1] != ""
    ensures t.Str? ==> ' ' !in t.s
  {
    if header.None? then Undefined
    else
      var fields := Split(header.value);
      if |fields| > 1 then Str(fields[1]) else Undefined
  }

  /** `Bearer <token>` yields the token, whatever follows a further space. */
  lemma BearerToken(scheme: string, token: string)
    requires ' ' !in scheme && ' ' !in token
    ensures TokenOf(Some(scheme + " " + token)) == Str(token)
  {
    SplitAppend(scheme, token);
    SplitNoSpace(scheme);
    SplitNoSpace(token);
  }

  lemma BearerTokenWithRest(scheme: string, token: string, rest: string)
    requires ' ' !in scheme && ' ' !in token
    ensures TokenOf(Some(scheme + " " + token + " " + rest)) == Str(token)
  {
    SplitAppend(scheme + " " + token, rest);
    SplitAppend(scheme, token);
    SplitNoSpace(scheme);
    SplitNoSpace(token);
  }

  /** A header without a space, such as a bare token, carries no token. */
  lemma NoSpaceNoToken(header: string)
    requires ' ' !in header
    ensures TokenOf(Some(header)) == Undefined
  {
    SplitNoSpace(header);
  }

  /** `Bearer  <token>` with two spaces yields the empty field: no token. */
  lemma DoubleSpaceNoToken(scheme: string, token: string)
    requires ' ' !in scheme
    ensures !Truthy(TokenOf(Some(scheme + "  " + token)))
  {
    assert scheme + "  " + token == scheme + " " + ("" + " " + token);
    SplitAppend(scheme, "" + " " + token);
    SplitAppend("", token);
    SplitNoSpace(scheme);
  }

  /** What a guard does with a request: answer it, or call `next()` with
      `req.user` set to the claims. */
  datatype Outcome = Respond(status: int, error: string) | Pass(user: Claims)

  const NoToken: Outcome := Respond(401, "No token provided")
  const InvalidToken: Outcome := Respond(401, "Invalid token")
  const AdminOnly: Outcome := Respond(403, "Admin only")

  /** The decision of `verifyAuth`. */
  function AuthDecision(header: Option<string>, secret: string, verify: Verifier): Outcome {
    var token := TokenOf(header);
    if !Truthy(token) then NoToken
    else
      match verify(token.s, secret)
      case None => InvalidToken
      case Some(claims) => Pass(claims)
  }

  /** The decision of `verifyAdmin`. */
  function AdminDecision(header: Option<string>, secret: string, verify: Verifier): Outcome {
    var token := TokenOf(header);
    if !Truthy(token) then NoToken
    else
      match verify(token.s, secret)
      case None => InvalidToken
      case Some(claims) => if !Truthy(claims.isAdmin) then AdminOnly else Pass(claims)
  }

  /** `verifyAuth` answers 401 exactly for a missing token and a rejected one,
      and otherwise passes the verifier's claims on. */
  lemma AuthCases(header: Option<string>, secret: string, verify: Verifier)
    ensures var d := AuthDecision(header, secret, verify);
      && (d == NoToken <==> !Truthy(TokenOf(header)))
      && (d == InvalidToken <==> Truthy(TokenOf(header)) && verify(TokenOf(header).s, secret).None?)
      && (d.Pass? <==> Truthy(TokenOf(header)) && verify(TokenOf(header).s, secret).Some?)
      && (d.Pass? ==> Some(d.user) == verify(TokenOf(header).s, secret))
      && (d.Respond? ==> d.status == 401)
  {
  }

  /** `verifyAdmin` is `verifyAuth` followed by the `is_admin` check. */
  lemma AdminIsAuthThenAdmin(header: Option<string>, secret: string, verify: Verifier)
    ensures AdminDecision(header, secret, verify) ==
      match AuthDecision(header, secret, verify)
      case Pass(claims) => if Truthy(claims.isAdmin) then Pass(claims) else AdminOnly
      case other => other
  {
  }

  /** Every request `verifyAdmin` lets through, `verifyAuth` lets through with
      the same claims; the only disagreement is 403 on a valid non-admin. */
  lemma AdminStricter(header: Option<string>, secret: string, verify: Verifier)
    ensures AdminDecision(header, secret, verify).Pass? ==>
      AuthDecision(header, secret, verify) == AdminDecision(header, secret, verify)
    ensures AdminDecision(header, secret, verify) == AdminOnly <==>
      AuthDecision(header, secret, verify).Pass? && !Truthy(AuthDecision(header, secret, verify).user.isAdmin)
    ensures AdminDecision(header, secret, verify) != AdminOnly ==>
      AdminDecision(header, secret, verify) == AuthDecision(header, secret, verify)
  {
    AdminIsAuthThenAdmin(header, secret, verify);
  }

  /** A well-formed bearer header whose token verifies to admin claims passes
      both guards. */
  lemma AdminBearerPasses(token: string, secret: string, verify: Verifier)
    requires token != [] && ' ' !in token
    requires verify(token, secret).Some? && Truthy(verify(token, secret).value.isAdmin)
    ensures AdminDecision(Some("Bearer " + token), secret, verify) == Pass(verify(token, secret).value)
    ensures AuthDecision(Some("Bearer " + token), secret, verify) == Pass(verify(token, secret).value)
  {
    assert "Bearer " + token == "Bearer" + " " + token;
    BearerToken("Bearer", token);
  }

  /** `req.user && req.user.id`. */
  function UserIdOf(user: Option<Claims>): (id: JsValue)
    ensures Truthy(id) <==> user.Some? && Truthy(user.value.id)
    ensures Truthy(id) ==> id == user.value.id
  {
    if user.None? then Undefined else And(Obj, user.value.id)
  }

  /** One request as the middleware sees it: the header it carries, the
      `req.user` field, the responses sent and the number of `next()` calls. */
  class Exchange {
    const authorization: Option<string>
    var user: Option<Claims>
    var sent: seq<(int, string)>
    var nextCalls: nat

    constructor (authorization: Option<string>)
      ensures this.authorization == authorization
      ensures user == None && sent == [] && nextCalls == 0
    {
      this.authorization := authorization;
      user := None;
      sent := [];
      nextCalls := 0;
    }

    /** `res.status(status).json({ error })`. */
    method Send(status: int, error: string)
      modifies this`sent
      ensures sent == old(sent) + [(status, error)]
    {
      sent := sent + [(status, error)];
    }

    /** `req.user = claims; next()`. */
    method Admit(claims: Claims)
      modifies this`user, this`nextCalls
      ensures user == Some(claims) && nextCalls == old(nextCalls) + 1
    {
      user := Some(claims);
      nextCalls := nextCalls + 1;
    }

    /** Whether the exchange moved from its old state by exactly the outcome
        `d`: one response, or `req.user` set and one `next()` call. */
    twostate predicate Settled(d: Outcome)
      reads this
    {
      match d
      case Respond(status, error) =>
        sent == old(sent) + [(status, error)] && user == old(user) && nextCalls == old(nextCalls)
      case Pass(claims) =>
        sent == old(sent) && user == Some(claims) && nextCalls == old(nextCalls) + 1
    }

    method VerifyAdmin(secret: string, verify: Verifier)
      modifies this`user, this`sent, this`nextCalls
      ensures Settled(AdminDecision(authorization, secret, verify))
      ensures |sent| + nextCalls == old(|sent|) + old(nextCalls) + 1
    {
      var token := TokenOf(authorization);
      if !Truthy(token) {
        Send(401, "No token provided");
        return;
      }
      var decoded := verify(token.s, secret);
      if decoded.None? {
        Send(401, "Invalid token");
        return;
      }
      if !Truthy(decoded.value.isAdmin) {
        Send(403, "Admin only");
        return;
      }
      Admit(decoded.value);
    }

    method VerifyAuth(secret: string, verify: Verifier)
      modifies this`user, this`sent, this`nextCalls
      ensures Settled(AuthDecision(authorization, secret, verify))
      ensures |sent| + nextCalls == old(|sent|) + old(nextCalls) + 1
    {
      var token := TokenOf(authorization);
      if !Truthy(token) {
        Send(401, "No token provided");
        return;
      }
      var decoded := verify(token.s, secret);
      if decoded.None? {
        Send(401, "Invalid token");
        return;
      }
      Admit(decoded.value);
    }
  }
}
