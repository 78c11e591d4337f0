/** The forum handlers: the admin-only creation, the view rule with its anonymous case, the
    capability that gates each change, the 401/404/403 order, and the list parameters. */
module ForumController {
  import opened Base
  import opened Errors
  import opened UsuarioModel
  import opened ForumModel
  import opened Paging
  import opened Http
  import opened QueryParams
  import Auth
  import ForumService

  /** The gate of `criarForum`: 401 without a user, 403 for anyone but an admin. */
  function CriarForumGate(user: Option<UsuarioRecord>): (g: Gate)
    ensures user.None? ==> g == Reject(Unauthorized)
    ensures user.Some? && !IsAdmin(user.value) ==> g == Reject(Forbidden)
    ensures g == Pass <==> user.Some? && IsAdmin(user.value)
  {
    if user.None? then Reject(Unauthorized)
    else if !IsAdmin(user.value) then Reject(Forbidden)
    else Pass
  }

  /** The creation gate is the `requireAdmin` middleware, written out in the handler. */
  lemma CriarForumGateIsRequireAdmin(user: Option<UsuarioRecord>)
    ensures CriarForumGate(user) == Auth.RequireAdmin(user)
  {
    Auth.RoleGates(user);
  }

  /** `obterForum`: 404 for an unknown forum; an authenticated viewer needs `canView`; an
      anonymous one is refused with 401 exactly when the forum is members-only. */
  function ObterForumGate(forum: Option<ForumRecord>, user: Option<UsuarioRecord>): (g: Gate)
    ensures forum.None? ==> g == Reject(NotFound)
    ensures forum.Some? && user.Some? ==>
              (g == Pass <==> ForumService.VerificarPermissoes(forum.value, user.value).canView)
    ensures forum.Some? && user.Some? && g != Pass ==> g == Reject(Forbidden)
    ensures forum.Some? && user.None? ==>
              g == (if forum.value.configuracoes.apenasMembros then Reject(Unauthorized) else Pass)
  {
    if forum.None? then Reject(NotFound)
    else if user.Some? then
      if ForumService.VerificarPermissoes(forum.value, user.value).canView then Pass else Reject(Forbidden)
    else if forum.value.configuracoes.apenasMembros then Reject(Unauthorized)
    else Pass
  }

  /** Whatever an anonymous visitor may see, every signed-in user may see too; a new forum,
      members-only by default, is closed to anonymous visitors. */
  lemma ObterForumMonotone(f: ForumRecord, u: UsuarioRecord)
    ensures ObterForumGate(Some(f), None) == Pass ==> ObterForumGate(Some(f), Some(u)) == Pass
    ensures f.configuracoes == ConfigFrom(None) ==> ObterForumGate(Some(f), None) == Reject(Unauthorized)
  {
  }

  /** The handlers that change a forum. */
  datatype ForumAction = Atualizar | Deletar | AdicionarMembro | RemoverMembro | AlterarStatus

  /** The capability each handler checks. */
  function Capability(p: ForumService.ForumPermissions, a: ForumAction): bool {
    match a
    case Atualizar => p.canEdit
    case Deletar => p.canDelete
    case AdicionarMembro => p.canAddMembers
    case RemoverMembro => p.canRemoveMembers
    case AlterarStatus => p.canEdit
  }

  /** The gate of every changing handler: 401 without a user, then 404 without the forum,
      then 403 without the capability. */
  function MutationGate(user: Option<UsuarioRecord>, forum: Option<ForumRecord>, a: ForumAction): (g: Gate)
    ensures user.None? ==> g == Reject(Unauthorized)
    ensures user.Some? && forum.None? ==> g == Reject(NotFound)
    ensures g == Pass || g == Reject(Unauthorized) || g == Reject(NotFound) || g == Reject(Forbidden)
  {
    if user.None? then Reject(Unauthorized)
    else if forum.None? then Reject(NotFound)
    else if !Capability(ForumService.VerificarPermissoes(forum.value, user.value), a) then Reject(Forbidden)
    else Pass
  }

  /** Every changing handler admits exactly the platform admins and the forum's creator;
      membership alone never suffices. */
  lemma MutationGateIsAdminOrCreator(user: UsuarioRecord, forum: ForumRecord, a: ForumAction)
    ensures MutationGate(Some(user), Some(forum), a) == Pass <==> IsAdmin(user) || user.id == forum.criador
    ensures !IsAdmin(user) && user.id != forum.criador ==> MutationGate(Some(user), Some(forum), a) == Reject(Forbidden)
  {
  }

  // ----- A deleted creator -----

  /** The status each changing handler's catch block answers with. */
  function CatchStatus(a: ForumAction): (code: int)
    ensures code == ServerError <==> a == Deletar
    ensures code != ServerError ==> code == BadRequest
  {
    if a == Deletar then ServerError else BadRequest
  }

  /** `obterForum` as written. `buscarPorId` populates `criador`, which is `null` once the
      creator's user is deleted; `typeof null` is `'object'`, so `verificarPermissoes` reads
      `null._id` and throws, and a signed-in viewer gets the 500 of the catch block. An
      anonymous viewer never reaches `verificarPermissoes`. `usuarios` are the stored users. */
  function ObterForumGateAsWritten(forum: Option<ForumRecord>, usuarios: map<Id, UsuarioRecord>,
                                   user: Option<UsuarioRecord>): (g: Gate)
    ensures forum.Some? && user.Some? && forum.value.criador !in usuarios ==> g == Reject(ServerError)
    ensures forum.None? || user.None? || forum.value.criador in usuarios ==> g == ObterForumGate(forum, user)
  {
    if forum.Some? && user.Some? && forum.value.criador !in usuarios then Reject(ServerError)
    else ObterForumGate(forum, user)
  }

  /** The changing handlers as written: with the creator deleted, `verificarPermissoes`
      throws after the 401 and 404 checks, and each handler answers from its catch block. */
  function MutationGateAsWritten(usuarios: map<Id, UsuarioRecord>, user: Option<UsuarioRecord>,
                                 forum: Option<ForumRecord>, a: ForumAction): (g: Gate)
    ensures user.Some? && forum.Some? && forum.value.criador !in usuarios ==> g == Reject(CatchStatus(a))
    ensures user.None? || forum.None? || forum.value.criador in usuarios ==> g == MutationGate(user, forum, a)
  {
    if user.Some? && forum.Some? && forum.value.criador !in usuarios then Reject(CatchStatus(a))
    else MutationGate(user, forum, a)
  }

  /** As written, a forum whose creator was deleted can no longer be viewed by any signed-in
      user nor changed by anyone, platform admins included, although the view and change
      rules admit the admins. */
  lemma DeletedCreatorLocksForum(f: ForumRecord, usuarios: map<Id, UsuarioRecord>, admin: UsuarioRecord, a: ForumAction)
    requires f.criador !in usuarios && IsAdmin(admin)
    ensures ObterForumGateAsWritten(Some(f), usuarios, Some(admin)) == Reject(ServerError)
    ensures MutationGateAsWritten(usuarios, Some(admin), Some(f), a) != Pass
    ensures ObterForumGate(Some(f), Some(admin)) == Pass
    ensures MutationGate(Some(admin), Some(f), a) == Pass
  {
    MutationGateIsAdminOrCreator(admin, f, a);
  }

  /** `listarForuns`: `page` and `limit` default to 1 and 10 when missing, unreadable or 0;
      a failed query is answered with 500. */
  function ListarForunsHandler(fs: map<Id, ForumRecord>, pageQ: Option<string>, limitQ: Option<string>,
                               filtros: ForumService.ForumFiltros): (r: Result<ListPage, int>)
    ensures r.Err? <==> Skip(IntParam(pageQ, 1), IntParam(limitQ, 10)) < 0
    ensures r.Err? ==> r.error == ServerError
    ensures r.Ok? ==> Some(r.value) == ForumService.ListarForuns(fs, IntParam(pageQ, 1), IntParam(limitQ, 10), filtros)
    ensures pageQ.None? && limitQ.None? ==>
              r.Ok? && r.value.skip == 0 && r.value.page == 1 && r.value.totalPages == TotalPages(r.value.total, 10)
  {
    match ForumService.ListarForuns(fs, IntParam(pageQ, 1), IntParam(limitQ, 10), filtros)
    case None => Err(ServerError)
    case Some(p) => Ok(p)
  }

  /** `?page=-n` with the default limit asks for a negative offset: the handler answers 500. */
  lemma NegativePageIsServerError(fs: map<Id, ForumRecord>, n: nat, filtros: ForumService.ForumFiltros)
    requires n > 0
    ensures ListarForunsHandler(fs, Some("-" + Decimal(n)), None, filtros) == Err(ServerError)
  {
    IntParamOfNumeral(n, 1);
    SkipNegative(-(n as int), 10);
  }
}
