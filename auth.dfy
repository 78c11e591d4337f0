/** The request guards: the Bearer-token authentication, the role gates, the optional
    authentication and the resource-ownership check. */
module Auth {
  import opened Base
  import opened Text
  import opened UsuarioModel
  import opened Http

  /** The prefix an Authorization header must start with. */
  const BearerPrefix: string := "Bearer "

  predicate StartsWith(s: string, p: string) {
    |p| <= |s| && s[..|p|] == p
  }

  /** `s.replace(pat, rep)` with a string pattern: only the first occurrence is replaced. */
  function ReplaceFirst(s: string, pat: string, rep: string): (r: string)
    decreases |s|
  {
    if StartsWith(s, pat) then rep + s[|pat|..]
    else if |s| == 0 then s
    else [s[0]] + ReplaceFirst(s[1..], pat, rep)
  }

  /** A string without the pattern is left alone; one that starts with it loses that
      prefix and nothing else. */
  lemma {:induction false} ReplaceFirstProperties(s: string, pat: string, rep: string)
    ensures !Contains(s, pat) ==> ReplaceFirst(s, pat, rep) == s
    ensures StartsWith(s, pat) ==> ReplaceFirst(s, pat, rep) == rep + s[|pat|..]
    decreases |s|
  {
    if !StartsWith(s, pat) && |s| > 0 {
      ReplaceFirstProperties(s[1..], pat, rep);
    }
  }

  /** The token in a header that starts with the prefix: what follows the prefix. */
  function TokenOf(header: string): (t: string)
    requires StartsWith(header, BearerPrefix)
    ensures BearerPrefix + t == header
  {
    ReplaceFirstProperties(header, BearerPrefix, "");
    assert header == header[..|BearerPrefix|] + header[|BearerPrefix|..];
    ReplaceFirst(header, BearerPrefix, "")
  }

  /** What `jwt.verify(token, secret)` does, supplied by the caller: the decoded user id,
      or the error class it throws. */
  datatype Verification = Verified(id: Id) | TokenExpiredError | JsonWebTokenError | OtherError

  /** Why `authenticate` stopped a request, one constructor per message. */
  datatype AuthFailure =
    | TokenRequired          // 'Token de acesso requerido'
    | WrongFormat            // 'Formato de token inválido. Use: Bearer <token>'
    | TokenNotGiven          // 'Token não fornecido'
    | ServerMisconfigured    // 'Erro de configuração do servidor'
    | UnknownUser            // 'Usuário não encontrado. Token inválido'
    | TokenExpired           // 'Token expirado. Faça login novamente'
    | TokenInvalid           // 'Token inválido'
    | InternalError          // 'Erro interno do servidor'

  /** The status each failure is answered with. */
  function FailureStatus(f: AuthFailure): (code: int)
    ensures code == ServerError <==> f == ServerMisconfigured || f == InternalError
    ensures code != ServerError ==> code == Unauthorized
  {
    match f
    case ServerMisconfigured => ServerError
    case InternalError => ServerError
    case _ => Unauthorized
  }

  datatype AuthResult = Authenticated(user: UsuarioRecord) | Rejected(failure: AuthFailure)

  /** The token values that the middleware treats as no token at all. */
  predicate BlankToken(t: string) {
    t == [] || t == "null" || t == "undefined"
  }

  /** `authenticate`: the header checks, the secret, the verification and the user lookup,
      in that order. */
  function Authenticate(header: Option<string>, secret: Option<string>,
                        verify: (string, string) -> Verification,
                        users: map<Id, UsuarioRecord>): (r: AuthResult)
    ensures header.None? || header == Some([]) ==> r == Rejected(TokenRequired)
    ensures header.Some? && header.value != [] && !StartsWith(header.value, BearerPrefix) ==> r == Rejected(WrongFormat)
    ensures header.Some? && StartsWith(header.value, BearerPrefix) && BlankToken(TokenOf(header.value)) ==>
              r == Rejected(TokenNotGiven)
    ensures (header.Some? && StartsWith(header.value, BearerPrefix) && !BlankToken(TokenOf(header.value)) &&
             (secret.None? || secret == Some([]))) ==> r == Rejected(ServerMisconfigured)
    ensures r.Authenticated? <==>
              && header.Some? && StartsWith(header.value, BearerPrefix)
              && !BlankToken(TokenOf(header.value)) && secret.Some? && secret.value != []
              && verify(TokenOf(header.value), secret.value).Verified?
              && verify(TokenOf(header.value), secret.value).id in users
    ensures r.Authenticated? ==> r.user == users[verify(TokenOf(header.value), secret.value).id]
  {
    if header.None? || header.value == [] then Rejected(TokenRequired)
    else if !StartsWith(header.value, BearerPrefix) then Rejected(WrongFormat)
    else
      var token := TokenOf(header.value);
      if BlankToken(token) then Rejected(TokenNotGiven)
      else if secret.None? || secret.value == [] then Rejected(ServerMisconfigured)
      else match verify(token, secret.value)
        case Verified(id) => if id in users then Authenticated(users[id]) else Rejected(UnknownUser)
        case TokenExpiredError => Rejected(TokenExpired)
        case JsonWebTokenError => Rejected(TokenInvalid)
        case OtherError => Rejected(InternalError)
  }

  /** The token extracted from a well-formed header is exactly what follows "Bearer ". */
  lemma BearerRoundTrip(t: string)
    ensures StartsWith(BearerPrefix + t, BearerPrefix)
    ensures TokenOf(BearerPrefix + t) == t
  {
    assert (BearerPrefix + t)[..|BearerPrefix|] == BearerPrefix;
  }

  /** `authorize(roles)`: no user is 401, a role outside the list is 403. */
  function Authorize(user: Option<UsuarioRecord>, roles: set<Role>): (g: Gate)
    ensures user.None? ==> g == Reject(Unauthorized)
    ensures user.Some? ==> (g == Pass <==> user.value.role in roles)
    ensures user.Some? && user.value.role !in roles ==> g == Reject(Forbidden)
  {
    if user.None? then Reject(Unauthorized)
    else if user.value.role !in roles then Reject(Forbidden)
    else Pass
  }

  /** `requireAdmin`. */
  function RequireAdmin(user: Option<UsuarioRecord>): Gate {
    Authorize(user, {Admin, SuperAdmin})
  }

  /** `requireSuperAdmin`. */
  function RequireSuperAdmin(user: Option<UsuarioRecord>): Gate {
    Authorize(user, {SuperAdmin})
  }

  /** The admin gate is `isAdmin`, the super-admin gate is `isSuperAdmin`, and whoever
      passes the second passes the first. */
  lemma RoleGates(user: Option<UsuarioRecord>)
    ensures RequireAdmin(user) == Pass <==> user.Some? && IsAdmin(user.value)
    ensures RequireSuperAdmin(user) == Pass <==> user.Some? && IsSuperAdmin(user.value)
    ensures RequireSuperAdmin(user) == Pass ==> RequireAdmin(user) == Pass
    ensures user.Some? && user.value.role == Usuario ==> RequireAdmin(user) == Reject(Forbidden)
  {
  }

  /** `optionalAuth`: it never stops the request; it attaches the user when the header,
      the secret and the token all work out. */
  function OptionalAuth(header: Option<string>, secret: Option<string>,
                        verify: (string, string) -> Verification,
                        users: map<Id, UsuarioRecord>): (user: Option<UsuarioRecord>)
    ensures user.Some? ==> header.Some? && StartsWith(header.value, BearerPrefix) && secret.Some? && secret.value != []
    ensures header.None? || secret.None? ==> user.None?
  {
    if header.None? || header.value == [] || !StartsWith(header.value, BearerPrefix) then None
    else if secret.None? || secret.value == [] then None
    else match verify(TokenOf(header.value), secret.value)
      case Verified(id) => if id in users then Some(users[id]) else None
      case _ => None
  }

  /** Where `authenticate` admits a user, `optionalAuth` attaches the same one; the two
      differ only on the blank tokens, which `optionalAuth` hands to the verifier. */
  lemma OptionalAuthAgrees(header: Option<string>, secret: Option<string>,
                           verify: (string, string) -> Verification, users: map<Id, UsuarioRecord>)
    ensures Authenticate(header, secret, verify, users).Authenticated? ==>
              OptionalAuth(header, secret, verify, users) == Some(Authenticate(header, secret, verify, users).user)
    ensures (OptionalAuth(header, secret, verify, users).Some? && !BlankToken(TokenOf(header.value))) ==>
              Authenticate(header, secret, verify, users) == Authenticated(OptionalAuth(header, secret, verify, users).value)
  {
  }

  /** `checkResourceOwnership`: admins pass; anyone else passes only when their id is the
      `:id` parameter, so without a user a request naming an id is refused. */
  function CheckResourceOwnership(user: Option<UsuarioRecord>, param: Option<Id>): (g: Gate)
    ensures user.Some? && IsAdmin(user.value) ==> g == Pass
    ensures user.Some? && !IsAdmin(user.value) ==> (g == Pass <==> param == Some(user.value.id))
    ensures user.None? && param.Some? ==> g == Reject(Forbidden)
    ensures g == Pass || g == Reject(Forbidden)
  {
    if user.Some? && IsAdmin(user.value) then Pass
    else
      var current := if user.Some? then Some(user.value.id) else None;
      if current != param then Reject(Forbidden) else Pass
  }
}
