/** The feedback handlers: the private-feedback view rule, which handlers require a user,
    the statuses they answer with, and the list query parameters. */
module FeedbackController {
  import opened Base
  import opened Errors
  import opened UsuarioModel
  import opened FeedbackModel
  import opened Paging
  import opened Http
  import opened QueryParams
  import FeedbackService

  /** Who can see a private feedback: its author, its recipient and the admins. */
  predicate PodeVerPrivado(f: FeedbackRecord, viewer: UsuarioRecord) {
    f.usuarioId == viewer.id || f.destinatarioId == Some(viewer.id) || IsAdmin(viewer)
  }

  /** `obterFeedback`: 404 for an unknown feedback; then, only for a signed-in viewer, a
      private feedback is refused to anyone who may not see it. */
  function ObterFeedbackGate(f: Option<FeedbackRecord>, viewer: Option<UsuarioRecord>): (g: Gate)
    ensures f.None? ==> g == Reject(NotFound)
    ensures f.Some? && !f.value.isPrivado ==> g == Pass
    ensures f.Some? && viewer.None? ==> g == Pass
    ensures f.Some? && viewer.Some? ==> (g == Pass <==> !f.value.isPrivado || PodeVerPrivado(f.value, viewer.value))
    ensures g == Pass || g == Reject(NotFound) || g == Reject(Forbidden)
  {
    if f.None? then Reject(NotFound)
    else if viewer.Some? && f.value.isPrivado && !PodeVerPrivado(f.value, viewer.value) then Reject(Forbidden)
    else Pass
  }

  /** A private feedback that a signed-in stranger is refused is shown to an anonymous
      request: the privacy check only runs when there is a viewer. */
  lemma PrivateShownToAnonymous(f: FeedbackRecord, stranger: UsuarioRecord)
    requires f.isPrivado && !PodeVerPrivado(f, stranger)
    ensures ObterFeedbackGate(Some(f), Some(stranger)) == Reject(Forbidden)
    ensures ObterFeedbackGate(Some(f), None) == Pass
  {
  }

  /** `obterFeedback` as written. `buscarPorId` populates `usuario_id` and `destinatario_id`,
      so the check compares the text of a user document (or nothing) with the viewer's id,
      and neither side can ever match: only admins see a private feedback. An author that is
      no longer stored is populated as `null`, whose `toString()` throws, and the catch
      answers 500 for every signed-in viewer. `usuarios` are the stored users. */
  function ObterFeedbackGateAsWritten(f: Option<FeedbackRecord>, usuarios: map<Id, UsuarioRecord>,
                                      viewer: Option<UsuarioRecord>): (g: Gate)
    ensures f.None? ==> g == Reject(NotFound)
    ensures f.Some? && viewer.None? ==> g == Pass
    ensures f.Some? && viewer.Some? && f.value.usuarioId !in usuarios ==> g == Reject(ServerError)
    ensures f.Some? && viewer.Some? && f.value.usuarioId in usuarios ==>
              (g == Pass <==> !f.value.isPrivado || IsAdmin(viewer.value))
    ensures g == Pass || g == Reject(NotFound) || g == Reject(Forbidden) || g == Reject(ServerError)
  {
    if f.None? then Reject(NotFound)
    else if viewer.None? then Pass
    else if f.value.usuarioId !in usuarios then Reject(ServerError)
    else if f.value.isPrivado && !IsAdmin(viewer.value) then Reject(Forbidden)
    else Pass
  }

  /** As written, a non-admin author or recipient is refused their own private feedback,
      which the id comparison admits. */
  lemma OwnPrivateRefusedAsWritten(f: FeedbackRecord, usuarios: map<Id, UsuarioRecord>, viewer: UsuarioRecord)
    requires f.isPrivado && !IsAdmin(viewer) && f.usuarioId in usuarios
    requires f.usuarioId == viewer.id || f.destinatarioId == Some(viewer.id)
    ensures ObterFeedbackGateAsWritten(Some(f), usuarios, Some(viewer)) == Reject(Forbidden)
    ensures ObterFeedbackGate(Some(f), Some(viewer)) == Pass
  {
  }

  /** As written, once the author is deleted, every signed-in viewer gets 500, even on a
      public feedback; comparing ids needs no author document and answers as usual. */
  lemma MissingAuthorServerError(f: FeedbackRecord, usuarios: map<Id, UsuarioRecord>, viewer: UsuarioRecord)
    requires f.usuarioId !in usuarios
    ensures ObterFeedbackGateAsWritten(Some(f), usuarios, Some(viewer)) == Reject(ServerError)
    ensures !f.isPrivado ==> ObterFeedbackGate(Some(f), Some(viewer)) == Pass
  {
  }

  /** Where the two agree: an anonymous viewer, an admin, a public feedback with its author
      stored, and a private one refused to a stranger. */
  lemma GatesAgree(f: FeedbackRecord, usuarios: map<Id, UsuarioRecord>, viewer: Option<UsuarioRecord>)
    requires f.usuarioId in usuarios
    requires viewer.Some? ==> IsAdmin(viewer.value) || !PodeVerPrivado(f, viewer.value) || !f.isPrivado
    ensures ObterFeedbackGateAsWritten(Some(f), usuarios, viewer) == ObterFeedbackGate(Some(f), viewer)
  {
  }

  /** The handlers that call a changing service method. */
  datatype FeedbackHandler = CriarForum | CriarP2P | Atualizar | Deletar | AdicionarReacao | RemoverReacao | AlterarStatus

  /** The reaction handlers do not look at the user; all the others answer 401 without one. */
  predicate NeedsUser(h: FeedbackHandler) {
    !(h == AdicionarReacao || h == RemoverReacao)
  }

  /** The status a handler answers with, given the outcome of its service call: whatever the
      service throws, an unknown feedback included, is caught and answered with 400. */
  function HandlerStatus<T>(h: FeedbackHandler, user: Option<UsuarioRecord>, r: Result<T, Error>): (code: int)
    ensures NeedsUser(h) && user.None? ==> code == Unauthorized
    ensures (user.Some? || !NeedsUser(h)) && r.Err? ==> code == BadRequest
    ensures (user.Some? || !NeedsUser(h)) && r.Ok? ==> code == (if h == CriarForum || h == CriarP2P then Created else OkStatus)
  {
    if NeedsUser(h) && user.None? then Unauthorized
    else if r.Err? then BadRequest
    else if h == CriarForum || h == CriarP2P then Created
    else OkStatus
  }

  /** The handlers never answer 404 for an unknown feedback: the service throws instead of
      returning nothing, and the throw becomes 400. A reaction never needs a user. */
  lemma NotFoundIsBadRequest<T>(h: FeedbackHandler, u: Option<UsuarioRecord>)
    ensures u.Some? ==> HandlerStatus<T>(h, u, Err(FeedbackNotFound)) == BadRequest
    ensures HandlerStatus<T>(h, u, Err(FeedbackNotFound)) != NotFound
    ensures !NeedsUser(h) ==> HandlerStatus<T>(h, None, Err(FeedbackNotFound)) == BadRequest
  {
  }

  /** The query string of `listarFeedbacks`. */
  datatype FeedbackQuery = FeedbackQuery(
    page: Option<string>, limit: Option<string>,
    tipo: Option<string>, categoria: Option<string>, status: Option<string>, prioridade: Option<string>,
    usuarioId: Option<Id>, forumId: Option<Id>, destinatarioId: Option<Id>,
    isAnonimo: Option<string>, isPrivado: Option<string>)

  function OrEmpty(q: Option<string>): string {
    if q.Some? then q.value else []
  }

  /** The filters the handler hands to the service: the text filters as given, the two
      flags parsed, and never a date range. */
  function FiltrosFrom(q: FeedbackQuery): (f: FeedbackService.FeedbackFiltros)
    ensures f.isAnonimo == FlagParam(q.isAnonimo) && f.isPrivado == FlagParam(q.isPrivado)
    ensures f.dataInicio.None? && f.dataFim.None?
    ensures q.tipo.None? && q.categoria.None? && q.status.None? && q.prioridade.None? && q.usuarioId.None? &&
            q.forumId.None? && q.destinatarioId.None? && q.isAnonimo.None? && q.isPrivado.None? ==>
              f == FeedbackService.SemFiltros
  {
    FeedbackService.FeedbackFiltros(OrEmpty(q.tipo), OrEmpty(q.categoria), OrEmpty(q.status), OrEmpty(q.prioridade),
                                    q.usuarioId, q.forumId, q.destinatarioId,
                                    FlagParam(q.isAnonimo), FlagParam(q.isPrivado), None, None)
  }

  /** `listarFeedbacks`: the parsed page and limit, and the filters above; a failed query is
      answered with 500. */
  function ListarFeedbacksHandler(fs: map<Id, FeedbackRecord>, q: FeedbackQuery): (r: Result<ListPage, int>)
    ensures r.Err? <==> Skip(IntParam(q.page, 1), IntParam(q.limit, 10)) < 0
    ensures r.Err? ==> r.error == ServerError
    ensures r.Ok? ==> Some(r.value) == FeedbackService.ListarFeedbacks(fs, IntParam(q.page, 1), IntParam(q.limit, 10), FiltrosFrom(q))
    ensures r.Ok? ==> forall k :: k in fs && k in r.value.matching ==> (q.isPrivado == Some("true") ==> fs[k].isPrivado)
  {
    match FeedbackService.ListarFeedbacks(fs, IntParam(q.page, 1), IntParam(q.limit, 10), FiltrosFrom(q))
    case None => Err(ServerError)
    case Some(p) => Ok(p)
  }

  /** `?page=-n` with the default limit asks for a negative offset: the handler answers 500. */
  lemma NegativePageIsServerError(fs: map<Id, FeedbackRecord>, q: FeedbackQuery, n: nat)
    requires n > 0 && q.page == Some("-" + Decimal(n)) && q.limit.None?
    ensures ListarFeedbacksHandler(fs, q) == Err(ServerError)
  {
    IntParamOfNumeral(n, 1);
    SkipNegative(-(n as int), 10);
  }

  /** A flag value other than "true", such as "1" or "yes", selects the feedbacks with the
      flag unset. */
  lemma FlagOtherThanTrue(fs: map<Id, FeedbackRecord>, q: FeedbackQuery, k: Id)
    requires q.isPrivado.Some? && q.isPrivado.value != [] && q.isPrivado.value != "true"
    requires ListarFeedbacksHandler(fs, q).Ok? && k in ListarFeedbacksHandler(fs, q).value.matching
    ensures k in fs && !fs[k].isPrivado
  {
  }
}
