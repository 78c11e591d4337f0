/** The user service: registration and update under the unique e-mail rule, login with
    one error for every credential failure, paging, the XP increment and the
    achievement slots. */
module UsuarioService {
  import opened Base
  import opened Errors
  import opened Text
  import opened UsuarioModel
  import opened Store
  import opened Paging

  datatype CreateUsuarioInput = CreateUsuarioInput(nome: string, email: string, senha: string, role: Option<Role>)

  datatype UpdateUsuarioInput = UpdateUsuarioInput(nome: Option<string>, email: Option<string>, role: Option<Role>, xp: Option<int>)

  /** `findOne({ email, _id: { $ne: except } })`: the lower-casing setter also applies to
      the value queried. */
  predicate EmailInUse(us: map<Id, UsuarioRecord>, email: string, except: Option<Id>) {
    exists k :: k in us && Some(k) != except && us[k].email == NormalizeEmail(email)
  }

  /** `buscarPorEmail(email)`: the user holding the e-mail, if any. */
  method BuscarPorEmail(db: Database, email: string) returns (u: Option<UsuarioRecord>)
    requires db.Valid()
    ensures u.Some? <==> EmailInUse(db.usuarios, email, None)
    ensures u.Some? ==> u.value.id in db.usuarios && db.usuarios[u.value.id] == u.value
                        && u.value.email == NormalizeEmail(email)
  {
    if k :| k in db.usuarios && db.usuarios[k].email == NormalizeEmail(email) {
      u := Some(db.usuarios[k]);
    } else {
      u := None;
    }
  }

  /** Two lookups of the same e-mail find the same user: the e-mail index is unique. */
  lemma EmailLookupUnique(us: map<Id, UsuarioRecord>, email: string, a: Id, b: Id)
    requires EmailsUnique(us)
    requires a in us && us[a].email == NormalizeEmail(email)
    requires b in us && us[b].email == NormalizeEmail(email)
    ensures a == b
  {
  }

  // ----- Registration -----

  /** `criarUsuario(dados)`: the e-mail check, then the hash, then `save()` with the
      schema validators. */
  method CriarUsuario(db: Database, dados: CreateUsuarioInput, now: Time) returns (res: Result<UsuarioRecord, Error>)
    requires db.Valid()
    modifies db
    ensures db.Valid()
    ensures db.foruns == old(db.foruns) && db.feedbacks == old(db.feedbacks)
    ensures EmailInUse(old(db.usuarios), dados.email, None) ==> res == Err(EmailTaken)
    ensures (!EmailInUse(old(db.usuarios), dados.email, None) &&
             !UsuarioFieldsValid(Trim(dados.nome), NormalizeEmail(dados.email), 0)) ==> res == Err(UsuarioValidationFailed)
    ensures res.Err? ==> db.usuarios == old(db.usuarios)
    ensures res.Ok? <==> !EmailInUse(old(db.usuarios), dados.email, None) &&
                         UsuarioFieldsValid(Trim(dados.nome), NormalizeEmail(dados.email), 0)
    ensures res.Ok? ==>
              && res.value == NewUsuario(old(db.nextId), dados.nome, dados.email, HashPassword(dados.senha), dados.role, now)
              && res.value.id !in old(db.usuarios)
              && db.usuarios == old(db.usuarios)[res.value.id := res.value]
  {
    if exists k :: k in db.usuarios && db.usuarios[k].email == NormalizeEmail(dados.email) {
      return Err(EmailTaken);
    }
    var senhaHash := HashPassword(dados.senha);
    var id := db.NewId();
    var u := NewUsuario(id, dados.nome, dados.email, senhaHash, dados.role, now);
    if !UsuarioFieldsValid(u.nome, u.email, u.xp) {
      return Err(UsuarioValidationFailed);
    }
    db.PutUsuario(u);
    res := Ok(u);
  }

  // ----- Login -----

  /** 'Token' lifetime: seven days. */
  const TokenLifetime: Time := 7 * MsPerDay

  datatype Claims = Claims(id: Id, email: string, role: Role)

  /** `jwt.sign(claims, secret, { expiresIn: '7d' })`, kept symbolic. */
  datatype SignedToken = SignedToken(claims: Claims, secret: string, expiresIn: Time)

  datatype Sessao = Sessao(token: SignedToken, user: UsuarioRecord)

  /** What `autenticarUsuario` decides once the e-mail lookup is done: no user and a
      wrong password give the same error; an unset or empty secret is a server error. */
  function Login(found: Option<UsuarioRecord>, senha: string, secret: Option<string>): (r: Result<Sessao, Error>)
    ensures found.None? ==> r == Err(InvalidCredentials)
    ensures found.Some? && !PasswordMatches(senha, found.value.senha) ==> r == Err(InvalidCredentials)
    ensures (found.Some? && PasswordMatches(senha, found.value.senha) && (secret.None? || secret.value == [])) ==>
              r == Err(JwtSecretMissing)
    ensures r.Ok? <==> found.Some? && PasswordMatches(senha, found.value.senha) && secret.Some? && secret.value != []
    ensures r.Ok? ==> r.value.user == found.value && r.value.token.secret == secret.value
                      && r.value.token.claims == Claims(found.value.id, found.value.email, found.value.role)
                      && r.value.token.expiresIn == TokenLifetime
  {
    if found.None? then Err(InvalidCredentials)
    else if !PasswordMatches(senha, found.value.senha) then Err(InvalidCredentials)
    else if secret.None? || secret.value == [] then Err(JwtSecretMissing)
    else
      var u := found.value;
      Ok(Sessao(SignedToken(Claims(u.id, u.email, u.role), secret.value, TokenLifetime), u))
  }

  /** Just after registering, logging in with the same e-mail in any case and the same
      password succeeds, and a different password fails exactly as an unknown e-mail does. */
  lemma LoginAfterRegistration(u: UsuarioRecord, senha: string, outra: string, secret: string)
    requires u.senha == HashPassword(senha) && secret != [] && outra != senha
    ensures Login(Some(u), senha, Some(secret)).Ok?
    ensures Login(Some(u), senha, Some(secret)).value.token.claims.id == u.id
    ensures Login(Some(u), outra, Some(secret)) == Login(None, outra, Some(secret)) == Err(InvalidCredentials)
  {
    PasswordMatchesIff(outra, senha);
  }

  /** `autenticarUsuario({ email, senha })`. */
  method AutenticarUsuario(db: Database, email: string, senha: string, secret: Option<string>) returns (res: Result<Sessao, Error>)
    requires db.Valid()
    ensures !EmailInUse(db.usuarios, email, None) ==> res == Err(InvalidCredentials)
    ensures (EmailInUse(db.usuarios, email, None) && res.Err?) ==> res.error in {InvalidCredentials, JwtSecretMissing}
    ensures res.Ok? ==> res.value.user.id in db.usuarios && db.usuarios[res.value.user.id] == res.value.user
                        && res.value.user.email == NormalizeEmail(email)
                        && PasswordMatches(senha, res.value.user.senha)
    ensures forall k :: k in db.usuarios && db.usuarios[k].email == NormalizeEmail(email) ==>
              res == Login(Some(db.usuarios[k]), senha, secret)
  {
    var found := BuscarPorEmail(db, email);
    res := Login(found, senha, secret);
  }

  // ----- Update, listing, delete -----

  /** The validators `runValidators` applies to the fields set. */
  predicate UpdateValid(dados: UpdateUsuarioInput) {
    && (dados.nome.Some? ==> NomeValid(Trim(dados.nome.value)))
    && (dados.email.Some? ==> EmailValid(NormalizeEmail(dados.email.value)))
    && (dados.xp.Some? ==> dados.xp.value >= 0)
  }

  /** `findByIdAndUpdate(id, dados)`: the fields set are written through their setters. */
  function ApplyUpdate(u: UsuarioRecord, dados: UpdateUsuarioInput): (r: UsuarioRecord)
    ensures r.id == u.id && r.senha == u.senha && r.conquistas == u.conquistas
    ensures r.feedbacksIn == u.feedbacksIn && r.feedbacksOut == u.feedbacksOut && r.dataCriacao == u.dataCriacao
    ensures dados == UpdateUsuarioInput(None, None, None, None) ==> r == u
  {
    u.(nome := if dados.nome.Some? then Trim(dados.nome.value) else u.nome,
       email := if dados.email.Some? then NormalizeEmail(dados.email.value) else u.email,
       role := if dados.role.Some? then dados.role.value else u.role,
       xp := if dados.xp.Some? then dados.xp.value else u.xp)
  }

  /** `atualizarUsuario(id, dados)`: a non-empty e-mail held by another user is refused;
      then the validators run, before the lookup; an unknown id gives no user. */
  method AtualizarUsuario(db: Database, id: Id, dados: UpdateUsuarioInput) returns (res: Result<Option<UsuarioRecord>, Error>)
    requires db.Valid()
    modifies db
    ensures db.Valid()
    ensures db.foruns == old(db.foruns) && db.feedbacks == old(db.feedbacks)
    ensures (dados.email.Some? && dados.email.value != [] && EmailInUse(old(db.usuarios), dados.email.value, Some(id))) ==>
              res == Err(EmailTaken)
    ensures res.Ok? <==> !(dados.email.Some? && dados.email.value != [] && EmailInUse(old(db.usuarios), dados.email.value, Some(id)))
                         && UpdateValid(dados)
    ensures res.Err? || res == Ok(None) ==> db.usuarios == old(db.usuarios)
    ensures res.Ok? ==> (res.value.None? <==> id !in old(db.usuarios))
    ensures res.Ok? && res.value.Some? ==>
              res.value.value == ApplyUpdate(old(db.usuarios)[id], dados)
              && db.usuarios == old(db.usuarios)[id := res.value.value]
  {
    if dados.email.Some? && dados.email.value != [] &&
       exists k :: k in db.usuarios && k != id && db.usuarios[k].email == NormalizeEmail(dados.email.value) {
      return Err(EmailTaken);
    }
    if !UpdateValid(dados) {
      return Err(UsuarioValidationFailed);
    }
    if id !in db.usuarios {
      return Ok(None);
    }
    var u := ApplyUpdate(db.usuarios[id], dados);
    db.PutUsuario(u);
    res := Ok(Some(u));
  }

  /** A user may keep their own e-mail, in any case: only other users' e-mails collide. */
  lemma OwnEmailIsFree(us: map<Id, UsuarioRecord>, id: Id, email: string)
    requires EmailsUnique(us) && id in us && us[id].email == NormalizeEmail(email)
    ensures !EmailInUse(us, email, Some(id))
  {
  }

  /** `listarUsuarios(page, limit)`: every user counts, and the page arithmetic; the query
      fails when the database refuses the negative offset. */
  function ListarUsuarios(us: map<Id, UsuarioRecord>, page: int, limit: int): (r: Option<ListPage>)
    requires limit != 0
    ensures r.None? <==> Skip(page, limit) < 0
    ensures r.Some? ==> r.value.matching == us.Keys && r.value.total == |us| && r.value.page == page
    ensures r.Some? ==> r.value.skip == (page - 1) * limit && r.value.totalPages == TotalPages(|us|, limit)
  {
    if Skip(page, limit) < 0 then None
    else Some(ListPage(us.Keys, |us|, page, TotalPages(|us|, limit), Skip(page, limit)))
  }

  /** `deletarUsuario(id)`: the user document goes, and nothing refers back to it is touched. */
  method DeletarUsuario(db: Database, id: Id) returns (r: Option<UsuarioRecord>)
    requires db.Valid()
    modifies db
    ensures db.Valid()
    ensures db.foruns == old(db.foruns) && db.feedbacks == old(db.feedbacks)
    ensures r == (if id in old(db.usuarios) then Some(old(db.usuarios)[id]) else None)
    ensures db.usuarios == old(db.usuarios) - {id}
  {
    r := if id in db.usuarios then Some(db.usuarios[id]) else None;
    db.usuarios := db.usuarios - {id};
  }

  /** `buscarPorRole(role)`. */
  function BuscarPorRole(us: map<Id, UsuarioRecord>, role: Role): (r: set<Id>)
    ensures forall k :: k in r <==> k in us && us[k].role == role
  {
    set k | k in us && us[k].role == role
  }

  /** The users `isAdmin` admits are the admins and the super admins. */
  lemma AdminsByRole(us: map<Id, UsuarioRecord>)
    ensures (set k | k in us && IsAdmin(us[k])) == BuscarPorRole(us, Admin) + BuscarPorRole(us, SuperAdmin)
  {
  }

  // ----- XP and achievements -----

  /** `$inc: { xp: delta }`: the amount is added, and no validator runs. */
  function IncXp(u: UsuarioRecord, delta: int): (r: UsuarioRecord)
    ensures r.(xp := u.xp) == u
  {
    u.(xp := u.xp + delta)
  }

  /** Increments add up rather than overwrite, and nothing keeps the result at or above
      the schema's minimum of 0. */
  lemma IncXpProperties(u: UsuarioRecord, a: int, b: int)
    ensures IncXp(IncXp(u, a), b) == IncXp(u, a + b)
    ensures IncXp(u, 0) == u
    ensures IncXp(u, a).xp - u.xp == a
    ensures a < -u.xp ==> IncXp(u, a).xp < 0
  {
  }

  /** `atualizarXP(id, xp)`. */
  method AtualizarXP(db: Database, id: Id, delta: int) returns (r: Option<UsuarioRecord>)
    requires db.Valid()
    modifies db
    ensures db.Valid()
    ensures db.foruns == old(db.foruns) && db.feedbacks == old(db.feedbacks)
    ensures id !in old(db.usuarios) ==> r.None? && db.usuarios == old(db.usuarios)
    ensures id in old(db.usuarios) ==>
              r == Some(IncXp(old(db.usuarios)[id], delta)) && db.usuarios == old(db.usuarios)[id := r.value]
  {
    if id !in db.usuarios {
      return None;
    }
    var u := IncXp(db.usuarios[id], delta);
    db.usuarios := db.usuarios[id := u];
    r := Some(u);
  }

  /** `atualizarConquista(id, index, valor)`: an index outside 0..2 is refused before any
      lookup; otherwise only that slot is written. */
  method AtualizarConquista(db: Database, id: Id, index: int, valor: bool) returns (res: Result<Option<UsuarioRecord>, Error>)
    requires db.Valid()
    modifies db
    ensures db.Valid()
    ensures db.foruns == old(db.foruns) && db.feedbacks == old(db.feedbacks)
    ensures (index < 0 || index > 2) ==> res == Err(InvalidAchievementIndex)
    ensures 0 <= index <= 2 && id !in old(db.usuarios) ==> res == Ok(None)
    ensures res.Err? || res == Ok(None) ==> db.usuarios == old(db.usuarios)
    ensures 0 <= index <= 2 && id in old(db.usuarios) ==>
              var u := old(db.usuarios)[id];
              && res == Ok(Some(u.(conquistas := SetConquista(u.conquistas, index, valor))))
              && db.usuarios == old(db.usuarios)[id := res.value.value]
  {
    if index < 0 || index > 2 {
      return Err(InvalidAchievementIndex);
    }
    if id !in db.usuarios {
      return Ok(None);
    }
    var u := db.usuarios[id];
    u := u.(conquistas := SetConquista(u.conquistas, index, valor));
    db.usuarios := db.usuarios[id := u];
    res := Ok(Some(u));
  }
}
