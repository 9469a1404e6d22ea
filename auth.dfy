/** The authorization gate of `src/lib/auth.server.ts`: reading the session token and the
    role-membership decision every server action starts with. The cookie store, the
    `JWT_SECRET` environment variable and `jwt.verify` are inputs: the cookie and the secret
    as optional strings, the verifier as a function that either yields the payload or fails. */
module Auth {
  import opened Base
  import opened Generated

  /** The decoded token payload; the app signs `{id, nome, role, email}`, but a token may
      lack `id` or `role`. */
  datatype TokenPayload = TokenPayload(id: Option<Id>, role: Option<Role>)

  /** What `jwt.verify(token, secret)` does: return the payload or throw (bad signature,
      expired, malformed). */
  datatype Verification = Verified(payload: TokenPayload) | Rejected

  /** `getDecodedToken`: null when the cookie or the secret is missing or empty, and null
      (never an exception) when verification fails. */
  function GetDecodedToken(token: Option<string>, secret: Option<string>,
                           verify: (string, string) -> Verification): (r: Option<TokenPayload>)
    ensures !Truthy(token) || !Truthy(secret) ==> r == None
    ensures Truthy(token) && Truthy(secret) ==>
              (r.Some? <==> verify(token.value, secret.value).Verified?)
    ensures r.Some? ==>
              Truthy(token) && Truthy(secret) && r.value == verify(token.value, secret.value).payload
  {
    if !Truthy(token) || !Truthy(secret) then None
    else
      match verify(token.value, secret.value)
      case Verified(p) => Some(p)
      case Rejected => None
  }

  /** The object `authorizeUser` returns. */
  datatype Authorization = Authorization(userId: Option<Id>, isAuthorized: bool, role: Option<Role>)

  /** A payload that carries both a (non-empty) `id` and a `role`. */
  predicate Complete(decoded: Option<TokenPayload>)
  {
    decoded.Some? && Truthy(decoded.value.id) && decoded.value.role.Some?
  }

  /** `authorizeUser(requiredRoles)`, given what `getDecodedToken` returned. */
  function AuthorizeUser(decoded: Option<TokenPayload>, requiredRoles: seq<Role>): (a: Authorization)
    ensures !Complete(decoded) ==> a == Authorization(None, false, None)
    ensures a.isAuthorized <==> Complete(decoded) && decoded.value.role.value in requiredRoles
    ensures Complete(decoded) ==> a.userId == decoded.value.id && a.role == decoded.value.role
    ensures requiredRoles == [] ==> !a.isAuthorized
  {
    if !Complete(decoded) then Authorization(None, false, None)
    else
      var p := decoded.value;
      Authorization(p.id, p.role.value in requiredRoles, p.role)
  }

  /** What an action returns when the gate refuses the caller. */
  const AccessDenied: string := "Acesso negado."

  /** The check the actions make before anything else: `isAuthorized && userId`. */
  predicate Allowed(a: Authorization)
  {
    a.isAuthorized && Truthy(a.userId)
  }

  /** The admin actions' check: `isAuthorized && role === ADMIN`. */
  predicate AdminAllowed(a: Authorization)
  {
    a.isAuthorized && a.role == Some(ADMIN)
  }

  /** The `!userId` half of the actions' check adds nothing: an authorized caller always
      has an id and a role from the token, and the role is one of those required. */
  lemma AuthorizedHasIdentity(decoded: Option<TokenPayload>, requiredRoles: seq<Role>)
    ensures var a := AuthorizeUser(decoded, requiredRoles);
            a.isAuthorized ==> Allowed(a) && a.role.Some? && a.role.value in requiredRoles
  {
  }

  /** With `[ADMIN]` as the required roles, the admin actions' extra `role === ADMIN` test
      agrees with `isAuthorized`. */
  lemma AdminGateIsMembership(decoded: Option<TokenPayload>)
    ensures AdminAllowed(AuthorizeUser(decoded, [ADMIN])) <==> AuthorizeUser(decoded, [ADMIN]).isAuthorized
  {
  }
}
