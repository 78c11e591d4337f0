/** The user handlers: the self-or-admin update guard, the no-self-delete guard, the XP
    argument check, the statuses, and the responses without the password. */
module UsuarioController {
  import opened Base
  import opened Errors
  import opened UsuarioModel
  import opened Http
  import opened Store
  import Auth
  import UsuarioService

  /** A user as the handlers send it: every field but `senha`. */
  datatype UsuarioResponse = UsuarioResponse(
    id: Id, nome: string, email: string, role: Role, xp: int, conquistas: seq<bool>,
    feedbacksIn: seq<Id>, feedbacksOut: seq<Id>, dataCriacao: Time)

  /** `const { senha, ...resposta } = usuario.toObject()`. */
  function SemSenha(u: UsuarioRecord): (r: UsuarioResponse)
    ensures r.id == u.id && r.email == u.email && r.role == u.role && r.xp == u.xp
  {
    UsuarioResponse(u.id, u.nome, u.email, u.role, u.xp, u.conquistas, u.feedbacksIn, u.feedbacksOut, u.dataCriacao)
  }

  /** Dropping the password loses nothing else: two users give the same response exactly
      when they differ at most in their password. */
  lemma SemSenhaDropsOnlySenha(u: UsuarioRecord, v: UsuarioRecord)
    ensures SemSenha(u) == SemSenha(v) <==> u.(senha := v.senha) == v
  {
  }

  /** What a handler sends: a status, and maybe a user. */
  datatype Reply = Reply(status: int, user: Option<UsuarioResponse>)

  /** `criarUsuario`: 201 with the new user, or 400 for what the service threw. */
  function CriarUsuarioReply(r: Result<UsuarioRecord, Error>): (rep: Reply)
    ensures r.Ok? <==> rep.status == Created
    ensures r.Ok? ==> rep.user == Some(SemSenha(r.value))
    ensures r.Err? ==> rep == Reply(BadRequest, None)
  {
    if r.Ok? then Reply(Created, Some(SemSenha(r.value))) else Reply(BadRequest, None)
  }

  /** `loginUsuario`: every failure, a missing server secret included, is answered 401. */
  function LoginReply(r: Result<UsuarioService.Sessao, Error>): (rep: Reply)
    ensures r.Ok? ==> rep == Reply(OkStatus, Some(SemSenha(r.value.user)))
    ensures r.Err? ==> rep == Reply(Unauthorized, None)
  {
    if r.Ok? then Reply(OkStatus, Some(SemSenha(r.value.user))) else Reply(Unauthorized, None)
  }

  /** A server without a signing secret turns away the right password with the status a
      wrong one gets. */
  lemma MissingSecretLooksLikeBadCredentials(u: UsuarioRecord, senha: string)
    requires PasswordMatches(senha, u.senha)
    ensures LoginReply(UsuarioService.Login(Some(u), senha, None)) == LoginReply(UsuarioService.Login(None, senha, Some("k")))
  {
  }

  /** The guard of `atualizarUsuario`: a signed-in user who is not an admin may only update
      their own id; without a user the guard lets the request through. */
  function AtualizarGate(user: Option<UsuarioRecord>, id: Id): (g: Gate)
    ensures user.None? ==> g == Pass
    ensures user.Some? ==> (g == Pass <==> IsAdmin(user.value) || user.value.id == id)
    ensures g == Pass || g == Reject(Forbidden)
  {
    if user.Some? && !IsAdmin(user.value) && user.value.id != id then Reject(Forbidden) else Pass
  }

  /** For a signed-in user the handler's guard and the ownership middleware in front of it
      agree. */
  lemma AtualizarGateIsOwnership(u: UsuarioRecord, id: Id)
    ensures AtualizarGate(Some(u), id) == Auth.CheckResourceOwnership(Some(u), Some(id))
  {
  }

  /** `atualizarUsuario` after the guard: 400 for a thrown error, 404 for an unknown id. */
  function AtualizarUsuarioReply(r: Result<Option<UsuarioRecord>, Error>): (rep: Reply)
    ensures r.Err? ==> rep == Reply(BadRequest, None)
    ensures r == Ok(None) ==> rep == Reply(NotFound, None)
    ensures r.Ok? && r.value.Some? ==> rep == Reply(OkStatus, Some(SemSenha(r.value.value)))
  {
    if r.Err? then Reply(BadRequest, None)
    else if r.value.None? then Reply(NotFound, None)
    else Reply(OkStatus, Some(SemSenha(r.value.value)))
  }

  /** Nothing stops a plain user from updating their own role: the guards admit the request
      and the update writes the role it is given. */
  lemma SelfPromotion(u: UsuarioRecord)
    requires u.role == Usuario
    ensures AtualizarGate(Some(u), u.id) == Pass
    ensures Auth.CheckResourceOwnership(Some(u), Some(u.id)) == Pass
    ensures UsuarioService.UpdateValid(UsuarioService.UpdateUsuarioInput(None, None, Some(SuperAdmin), None))
    ensures IsSuperAdmin(UsuarioService.ApplyUpdate(u, UsuarioService.UpdateUsuarioInput(None, None, Some(SuperAdmin), None)))
  {
  }

  /** The guard of `deletarUsuario`: deleting one's own account is 400, before any lookup. */
  function DeletarGate(user: Option<UsuarioRecord>, id: Id): (g: Gate)
    ensures g == Reject(BadRequest) <==> user.Some? && user.value.id == id
    ensures g == Pass || g == Reject(BadRequest)
  {
    if user.Some? && user.value.id == id then Reject(BadRequest) else Pass
  }

  /** `deletarUsuario(req, res)`: the self-delete guard, then the service's delete. The
      answer is 200 exactly when the id was a stored user, and 404 otherwise. */
  method DeletarUsuarioHandler(db: Database, user: Option<UsuarioRecord>, id: Id) returns (code: int)
    requires db.Valid()
    modifies db
    ensures db.Valid()
    ensures db.foruns == old(db.foruns) && db.feedbacks == old(db.feedbacks)
    ensures user.Some? && user.value.id == id ==> code == BadRequest && db.usuarios == old(db.usuarios)
    ensures !(user.Some? && user.value.id == id) ==>
              && (code == OkStatus <==> id in old(db.usuarios))
              && (code != OkStatus ==> code == NotFound)
              && db.usuarios == old(db.usuarios) - {id}
  {
    if DeletarGate(user, id) != Pass {
      return BadRequest;
    }
    var r := UsuarioService.DeletarUsuario(db, id);
    code := if r.None? then NotFound else OkStatus;
  }

  /** The XP argument check: a body `xp` that is not a number, or is negative, is 400.
      `None` stands for a value that is not a number. */
  function XpGate(xp: Option<int>): (g: Gate)
    ensures g == Pass <==> xp.Some? && xp.value >= 0
    ensures g != Pass ==> g == Reject(BadRequest)
  {
    if xp.None? || xp.value < 0 then Reject(BadRequest) else Pass
  }

  /** Behind the handler's check the increment never lowers the XP, so a user whose XP is
      not negative keeps it that way. */
  lemma XpGateKeepsXpNonNegative(u: UsuarioRecord, xp: Option<int>)
    requires u.xp >= 0 && XpGate(xp) == Pass
    ensures UsuarioService.IncXp(u, xp.value).xp >= u.xp >= 0
  {
  }
}
