/** The two authentication middlewares (server/middleware/auth.js): `auth`,
    which lets every request through and only says who is signed in, and
    `requireAuth`, which turns every failure into a 401. Token verification
    is passed in. */
module AuthMiddleware {
  import opened Js
  import opened Strings
  import opened Models
  import opened AuthRoutes

  /** `req.cookies?.token || req.headers.authorization?.split(' ')[1]`: a
      truthy `token` cookie wins; otherwise the second space-separated word of
      the `Authorization` header, which is undefined when there is none. */
  function TokenFrom(cookieToken: Option<string>, authorization: Option<string>): (t: Option<string>)
    ensures Truthy(cookieToken) ==> t == cookieToken
    ensures !Truthy(cookieToken) && authorization.None? ==> t.None?
    ensures !Truthy(cookieToken) && authorization.Some? ==>
      (t.Some? <==> |Split(authorization.value, ' ')| >= 2) &&
      (t.Some? ==> t.value == Split(authorization.value, ' ')[1])
  {
    if Truthy(cookieToken) then cookieToken
    else if authorization.None? then None
    else
      var words := Split(authorization.value, ' ');
      if |words| >= 2 then Some(words[1]) else None
  }

  /** `Authorization: Bearer <token>` gives the token when no cookie is set,
      and so does any other scheme word before the space. */
  lemma BearerHeader(cookieToken: Option<string>, scheme: string, token: string)
    requires !Truthy(cookieToken)
    requires ' ' !in scheme && ' ' !in token
    ensures TokenFrom(cookieToken, Some(scheme + " " + token)) == Some(token)
  {
    SplitAfterHead(scheme, ' ', token);
    SplitWithoutSeparator(token, ' ');
    assert scheme + " " + token == scheme + [' '] + token;
  }

  /** A header without a space holds no token. */
  lemma HeaderWithoutSpace(cookieToken: Option<string>, header: string)
    requires !Truthy(cookieToken) && ' ' !in header
    ensures TokenFrom(cookieToken, Some(header)).None?
  {
    SplitWithoutSeparator(header, ' ');
  }

  /** What `jwt.verify(token, secret)` does: it returns the decoded `userId`
      (possibly absent) or throws. */
  datatype Verified = Decoded(userId: Option<UserId>) | Throws

  /** The shared decision of both middlewares. */
  datatype Identification =
    | NoToken
    | InvalidToken
    | UnknownUser
    | Known(user: PublicUser)

  /** Token, then verification, then `findById(decoded.userId).select('-password')`. */
  function Identify(token: Option<string>, verify: string -> Verified, users: seq<User>): (r: Identification)
    ensures r.NoToken? <==> !Truthy(token)
    ensures r.InvalidToken? <==> Truthy(token) && verify(token.value).Throws?
    ensures r.Known? <==>
      Truthy(token) && verify(token.value).Decoded? && verify(token.value).userId.Some? &&
      FindById(users, verify(token.value).userId.value).Some?
    ensures r.Known? ==>
      r.user == Public(users[FindById(users, verify(token.value).userId.value).value])
  {
    if !Truthy(token) then NoToken
    else
      match verify(token.value)
      case Throws => InvalidToken
      case Decoded(id) =>
        if id.None? then UnknownUser
        else
          var found := FindById(users, id.value);
          if found.None? then UnknownUser else Known(Public(users[found.value]))
  }

  /** A request as the middlewares see it; `user` is `req.user`, None for null. */
  class Request {
    const cookieToken: Option<string>
    const authorization: Option<string>
    var user: Option<PublicUser>

    constructor (cookieToken: Option<string>, authorization: Option<string>)
      ensures this.cookieToken == cookieToken && this.authorization == authorization
      ensures user.None?
    {
      this.cookieToken := cookieToken;
      this.authorization := authorization;
      user := None;
    }
  }

  /** What a middleware does with the request: call `next`, or answer 401. */
  datatype Outcome = Next | Unauthorized(error: string)
  {
    function Code(): nat
    {
      if Next? then 200 else 401
    }
  }

  /** The message `requireAuth` answers a failed identification with. */
  function Refusal(id: Identification): (msg: string)
    ensures id.NoToken? ==> msg == "Login required"
    ensures id.UnknownUser? ==> msg == "User not found"
    ensures id.InvalidToken? ==> msg == "Invalid token"
  {
    match id
    case NoToken => "Login required"
    case UnknownUser => "User not found"
    case InvalidToken => "Invalid token"
    case Known(_) => ""
  }

  /** Each failure has its own message, so a client can tell a missing
      token, a bad token and a deleted user apart. */
  lemma RefusalsDistinct(a: Identification, b: Identification)
    requires !a.Known? && !b.Known?
    ensures Refusal(a) == Refusal(b) <==> a == b
    ensures Refusal(a) != ""
  {
  }

  /** `auth`: never rejects. Each failure leaves `req.user` null. */
  method Auth(req: Request, verify: string -> Verified, users: seq<User>) returns (out: Outcome)
    modifies req
    ensures out == Next
    ensures var id := Identify(TokenFrom(req.cookieToken, req.authorization), verify, users);
      req.user == (if id.Known? then Some(id.user) else None)
  {
    var token := TokenFrom(req.cookieToken, req.authorization);
    var id := Identify(token, verify, users);
    if id.Known? {
      req.user := Some(id.user);
    } else {
      req.user := None;
    }
    out := Next;
  }

  /** `requireAuth`: `next` only for a known user, with `req.user` set; every
      other case is a 401 and leaves `req.user` as it was. */
  method RequireAuth(req: Request, verify: string -> Verified, users: seq<User>) returns (out: Outcome)
    modifies req
    ensures var id := Identify(TokenFrom(req.cookieToken, req.authorization), verify, users);
      && (out == Next <==> id.Known?)
      && (id.Known? ==> req.user == Some(id.user))
      && (!id.Known? ==> out == Unauthorized(Refusal(id)) && req.user == old(req.user))
  {
    var token := TokenFrom(req.cookieToken, req.authorization);
    var id := Identify(token, verify, users);
    if !id.Known? {
      return Unauthorized(Refusal(id));
    }
    req.user := Some(id.user);
    out := Next;
  }

  /** On the same request, verifier and users, `requireAuth` lets the request
      through exactly when `auth` signs a user in, and both see the same user. */
  method SameDecision(a: Request, b: Request, verify: string -> Verified, users: seq<User>)
    returns (lenient: Outcome, strict: Outcome)
    requires a != b
    requires a.cookieToken == b.cookieToken && a.authorization == b.authorization
    modifies a, b
    ensures lenient == Next
    ensures strict == Next <==> a.user.Some?
    ensures strict == Next ==> b.user == a.user
  {
    lenient := Auth(a, verify, users);
    strict := RequireAuth(b, verify, users);
  }

  /** The cookie a login sets signs the same user in on the next request,
      given a verifier that decodes what the signer produced. */
  lemma {:induction false} LoginCookieIdentifies(users: seq<User>, email: Option<string>, password: Option<string>,
                                                 matches: (User, string) -> bool, sign: (UserId, string) -> string,
                                                 verify: string -> Verified, production: bool,
                                                 jar: map<string, string>, authorization: Option<string>)
    requires ValidUsers(users)
    requires forall id :: verify(sign(id, TokenExpiry)) == Decoded(Some(id))
    requires Login(users, email, password, matches, sign, production).Authenticated?
    requires Login(users, email, password, matches, sign, production).token != ""
    ensures var r := Login(users, email, password, matches, sign, production);
      var after := ApplyCookie(jar, Set(r.cookie));
      Identify(TokenFrom(Some(after["token"]), authorization), verify, users) == Known(r.user)
  {
    var r := Login(users, email, password, matches, sign, production);
    var k := FindByEmail(users, Lower(email.value)).value;
    var u := users[k];
    assert verify(sign(u.id, TokenExpiry)) == Decoded(Some(u.id));
    assert FindById(users, u.id) == Some(k);
  }

  /** After logout the cookie is gone, so only the header can carry a token. */
  lemma LogoutDropsCookieToken(jar: map<string, string>, authorization: Option<string>)
    ensures var after := ApplyCookie(jar, Logout());
      "token" !in after &&
      TokenFrom(None, authorization) == (if authorization.Some? && |Split(authorization.value, ' ')| >= 2
                                         then Some(Split(authorization.value, ' ')[1]) else None)
  {
  }
}
