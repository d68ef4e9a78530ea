/** Registration, login and logout (server/routes/auth.js) over the user
    collection, with the token signer and the password check passed in. */
module AuthRoutes {
  import opened Js
  import opened Strings
  import opened Models
  import opened Queries

  /** A stored user. The password is whatever the user model stores for it;
      the check against it is the `matches` parameter of `Login`. */
  datatype User = User(id: UserId, email: string, name: string, password: string)

  /** The user as every response shows it: no password. */
  datatype PublicUser = PublicUser(id: UserId, email: string, name: string)

  function Public(u: User): (p: PublicUser)
    ensures p.id == u.id && p.email == u.email && p.name == u.name
  {
    PublicUser(u.id, u.email, u.name)
  }

  /** The public form hides the password and nothing else: two users look the
      same exactly when they differ at most in their passwords. */
  lemma PublicHidesOnlyPassword(u: User, v: User)
    ensures Public(u) == Public(v) <==> u.(password := v.password) == v
  {
  }

  /** The token's lifetime handed to the signer (`expiresIn`). */
  const TokenExpiry := "7d"

  /** The cookie's lifetime in milliseconds: seven days. */
  const CookieMaxAge: nat := 7 * 24 * 60 * 60 * 1000

  /** Milliseconds in `d` days. */
  function DaysInMs(d: nat): nat
  {
    d * 24 * 60 * 60 * 1000
  }

  /** The lifetime an `expiresIn` of the form `<days>d` denotes, in
      milliseconds; None for any other form. */
  function ExpiryMs(e: string): (r: Option<nat>)
    ensures r.Some? ==> |e| >= 2 && e[|e| - 1] == 'd'
  {
    if |e| >= 2 && e[|e| - 1] == 'd' && ParseDecimal(e[..|e| - 1]).Some? then
      Some(DaysInMs(ParseDecimal(e[..|e| - 1]).value))
    else None
  }

  /** The token's `expiresIn` denotes the cookie's `maxAge`: seven days. */
  lemma SessionExpiry()
    ensures ExpiryMs(TokenExpiry) == Some(CookieMaxAge)
    ensures CookieMaxAge == 604800000
  {
    assert TokenExpiry[..1] == "7";
    assert "7"[..0] == [];
    assert DigitsValue("7") == 7;
  }

  datatype Cookie = Cookie(name: string, value: string, httpOnly: bool, secure: bool, maxAge: nat)

  /** A cookie instruction of a response. */
  datatype SetCookie = Set(cookie: Cookie) | Clear(name: string)

  /** The session cookie: `token`, HTTP-only, secure in production, seven days. */
  function SessionCookie(token: string, production: bool): (c: Cookie)
    ensures c.name == "token" && c.value == token && c.httpOnly
    ensures c.secure == production && c.maxAge == CookieMaxAge
  {
    Cookie("token", token, true, production, CookieMaxAge)
  }

  datatype AuthReply =
    | Authenticated(user: PublicUser, token: string, cookie: Cookie)
    | Rejected(code: nat, error: string)

  /** The emails are stored lower-case and are unique, and so are the ids. */
  predicate ValidUsers(users: seq<User>)
  {
    && (forall i :: 0 <= i < |users| ==> IsLower(users[i].email))
    && (forall i, j :: 0 <= i < j < |users| ==> users[i].email != users[j].email)
    && (forall i, j :: 0 <= i < j < |users| ==> users[i].id != users[j].id)
  }

  /** `findOne({ email })`. */
  function FindByEmail(users: seq<User>, email: string): (r: Option<nat>)
    ensures r.Some? ==> r.value < |users| && users[r.value].email == email
    ensures r.None? <==> forall i :: 0 <= i < |users| ==> users[i].email != email
  {
    FindOne(users, (u: User) => u.email == email)
  }

  /** `findById(id)`. */
  function FindById(users: seq<User>, id: UserId): (r: Option<nat>)
    ensures r.Some? ==> r.value < |users| && users[r.value].id == id
    ensures r.None? <==> forall i :: 0 <= i < |users| ==> users[i].id != id
  {
    FindOne(users, (u: User) => u.id == id)
  }

  /** The guard chain of register, in the source's order: all three fields
      present first, then the password length, then the case-insensitive
      duplicate check. None means the user is created. */
  function RegisterRefusal(users: seq<User>, email: Option<string>, password: Option<string>, name: Option<string>)
    : (r: Option<(nat, string)>)
    ensures !(Truthy(email) && Truthy(password) && Truthy(name)) ==> r == Some((400, "All fields required"))
    ensures Truthy(email) && Truthy(password) && Truthy(name) && Utf16Length(password.value) < 6 ==>
      r == Some((400, "Password must be 6+ characters"))
    ensures Truthy(email) && Truthy(password) && Truthy(name) && Utf16Length(password.value) >= 6 ==>
      (r.None? <==> FindByEmail(users, Lower(email.value)).None?)
    ensures r.Some? ==> r.value.0 == 400
  {
    if !Truthy(email) || !Truthy(password) || !Truthy(name) then Some((400, "All fields required"))
    else if Utf16Length(password.value) < 6 then Some((400, "Password must be 6+ characters"))
    else if FindByEmail(users, Lower(email.value)).Some? then Some((400, "Email already registered"))
    else None
  }

  /** The user collection and the two handlers that write to it or read it. */
  class UserStore {
    var users: seq<User>

    ghost predicate Valid()
      reads this
    {
      ValidUsers(users)
    }

    constructor ()
      ensures Valid() && users == []
    {
      users := [];
    }

    /** `POST /api/auth/register`. A refused request changes nothing; an
        accepted one stores the user under the lower-cased email and answers
        with the public fields, the signed token and the session cookie.
        `newId` is the id the database gives the new document and `sign` is
        `jwt.sign` of a user id with a lifetime. */
    method Register(email: Option<string>, password: Option<string>, name: Option<string>,
                    newId: UserId, sign: (UserId, string) -> string, production: bool)
      returns (reply: AuthReply)
      requires Valid()
      requires FindById(users, newId).None?
      modifies this
      ensures Valid()
      ensures var refusal := RegisterRefusal(old(users), email, password, name);
        if refusal.Some? then
          users == old(users) && reply == Rejected(refusal.value.0, refusal.value.1)
        else
          var u := User(newId, Lower(email.value), name.value, password.value);
          && users == old(users) + [u]
          && reply == Authenticated(Public(u), sign(newId, TokenExpiry), SessionCookie(sign(newId, TokenExpiry), production))
    {
      var refusal := RegisterRefusal(users, email, password, name);
      if refusal.Some? {
        return Rejected(refusal.value.0, refusal.value.1);
      }
      var u := User(newId, Lower(email.value), name.value, password.value);
      LowerIsNormal(email.value);
      users := users + [u];
      var token := sign(newId, TokenExpiry);
      reply := Authenticated(Public(u), token, SessionCookie(token, production));
    }
  }

  /** `POST /api/auth/login`: 400 without email or password; the same 401
      for an unknown email and for a wrong password; otherwise the public
      fields, a fresh token and the session cookie. */
  function Login(users: seq<User>, email: Option<string>, password: Option<string>,
                 matches: (User, string) -> bool, sign: (UserId, string) -> string, production: bool)
    : (r: AuthReply)
    ensures !(Truthy(email) && Truthy(password)) <==> r == Rejected(400, "Email and password required")
    ensures r.Authenticated? <==>
      Truthy(email) && Truthy(password) && FindByEmail(users, Lower(email.value)).Some? &&
      matches(users[FindByEmail(users, Lower(email.value)).value], password.value)
    ensures r.Authenticated? ==>
      var u := users[FindByEmail(users, Lower(email.value)).value];
      r.user == Public(u) && r.token == sign(u.id, TokenExpiry) && r.cookie == SessionCookie(sign(u.id, TokenExpiry), production)
    ensures r.Rejected? && Truthy(email) && Truthy(password) ==> r == Rejected(401, "Invalid credentials")
  {
    if !Truthy(email) || !Truthy(password) then Rejected(400, "Email and password required")
    else
      var found := FindByEmail(users, Lower(email.value));
      if found.None? then Rejected(401, "Invalid credentials")
      else
        var u := users[found.value];
        if !matches(u, password.value) then Rejected(401, "Invalid credentials")
        else
          var token := sign(u.id, TokenExpiry);
          Authenticated(Public(u), token, SessionCookie(token, production))
  }

  /** `POST /api/auth/logout`: always succeeds and clears the `token` cookie. */
  function Logout(): (r: SetCookie)
    ensures r.Clear? && r.name == "token"
  {
    Clear("token")
  }

  /** The browser's cookies after a response's cookie instruction. */
  function ApplyCookie(jar: map<string, string>, c: SetCookie): (r: map<string, string>)
    ensures c.Set? ==> c.cookie.name in r && r[c.cookie.name] == c.cookie.value
    ensures c.Clear? ==> c.name !in r
    ensures forall n :: n in jar && n != (if c.Set? then c.cookie.name else c.name) ==> n in r && r[n] == jar[n]
  {
    match c
    case Set(cookie) => jar[cookie.name := cookie.value]
    case Clear(n) => jar - {n}
  }

  /** Registering `A@x` after `a@x` is refused: emails differing only in case
      are the same account. */
  lemma {:induction false} DuplicateEmailIgnoresCase(users: seq<User>, u: User, email: string,
                                                    password: Option<string>, name: Option<string>)
    requires u.email == Lower(email)
    requires Truthy(Some(email)) && Truthy(password) && Truthy(name) && Utf16Length(password.value) >= 6
    ensures RegisterRefusal(users + [u], Some(email), password, name) == Some((400, "Email already registered"))
  {
    assert (users + [u])[|users|].email == Lower(email);
    assert FindByEmail(users + [u], Lower(email)).Some?;
  }

  /** After a register, logging in with the same email in any case finds the new
      user and succeeds exactly when the password check accepts. */
  lemma {:induction false} LoginFindsRegisteredUser(users: seq<User>, u: User, email: string, password: string,
                                                    matches: (User, string) -> bool, sign: (UserId, string) -> string, production: bool)
    requires ValidUsers(users + [u])
    requires Lower(email) == u.email && email != "" && password != ""
    ensures var r := Login(users + [u], Some(email), Some(password), matches, sign, production);
      && (r.Authenticated? <==> matches(u, password))
      && (r.Authenticated? ==> r.user == Public(u) && r.token == sign(u.id, TokenExpiry))
  {
    var all := users + [u];
    assert all[|users|] == u;
    assert FindByEmail(all, Lower(email)) == Some(|users|);
  }

  /** A successful login hands out a token signed to expire after exactly
      the lifetime of the cookie that carries it. */
  lemma CookieLifetimeMatchesToken(users: seq<User>, email: Option<string>, password: Option<string>,
                                   matches: (User, string) -> bool, sign: (UserId, string) -> string, production: bool)
    requires Login(users, email, password, matches, sign, production).Authenticated?
    ensures var r := Login(users, email, password, matches, sign, production);
      r.token == sign(r.user.id, TokenExpiry) && ExpiryMs(TokenExpiry) == Some(r.cookie.maxAge)
  {
    SessionExpiry();
  }

  /** Logging out after the session cookie was set leaves the browser's other
      cookies as they were and no `token`. */
  lemma LogoutUndoesSessionCookie(jar: map<string, string>, token: string, production: bool)
    ensures var signedIn := ApplyCookie(jar, Set(SessionCookie(token, production)));
      && "token" in signedIn && signedIn["token"] == token
      && ApplyCookie(signedIn, Logout()) == jar - {"token"}
  {
    var signedIn := ApplyCookie(jar, Set(SessionCookie(token, production)));
    assert ApplyCookie(signedIn, Logout()) == jar - {"token"} by {
      forall n ensures n in ApplyCookie(signedIn, Logout()) <==> n in jar - {"token"} {
      }
    }
  }

  /** A response never reveals the password: the public form is the same for
      two users who differ only in their password. */
  lemma PublicHidesPassword(u: User, password: string)
    ensures Public(u) == Public(u.(password := password))
  {
  }
}
