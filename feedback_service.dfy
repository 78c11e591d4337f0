/** The feedback service: creation of forum and P2P feedback with their guards and
    back-references, the list filters, the author-or-admin rule for update and delete,
    the delete cascade, reactions and the admin-only status change. */
module FeedbackService {
  import opened Base
  import opened Errors
  import opened Seqs
  import opened Text
  import opened UsuarioModel
  import opened ForumModel
  import opened FeedbackModel
  import opened HashtagModel
  import opened Store
  import opened Paging
  import ForumService

  /** `x || false` for an optional flag. */
  function OrFalse(b: Option<bool>): bool {
    b == Some(true)
  }

  // ----- Guards -----

  /** The posting rule of `criarFeedbackForum`: a members-only forum admits only its
      members, its creator and platform admins; an open forum admits everyone. */
  predicate PodeDarFeedback(forum: ForumRecord, usuario: UsuarioRecord) {
    !forum.configuracoes.apenasMembros || usuario.id in forum.membros || IsAdmin(usuario) || forum.criador == usuario.id
  }

  /** The posting rule agrees with the `canGiveFeedback` capability of the forum service. */
  lemma PodeDarFeedbackIsCanGiveFeedback(forum: ForumRecord, usuario: UsuarioRecord)
    ensures PodeDarFeedback(forum, usuario) <==> ForumService.VerificarPermissoes(forum, usuario).canGiveFeedback
  {
  }

  /** On an open forum every stored user may post; on a members-only forum exactly the members,
      the creator and the admins may. */
  lemma PostingRuleCases(forum: ForumRecord, usuario: UsuarioRecord)
    ensures !forum.configuracoes.apenasMembros ==> PodeDarFeedback(forum, usuario)
    ensures forum.configuracoes.apenasMembros ==>
              (PodeDarFeedback(forum, usuario) <==>
                 usuario.id in forum.membros || usuario.id == forum.criador || IsAdmin(usuario))
  {
  }

  /** The author-or-admin rule of `atualizarFeedback` and `deletarFeedback`. */
  predicate PodeEditar(f: FeedbackRecord, usuario: UsuarioRecord) {
    f.usuarioId == usuario.id || IsAdmin(usuario)
  }

  // ----- Creation -----

  datatype CreateForumFeedbackInput = CreateForumFeedbackInput(
    forumId: Id, conteudo: string, categoria: Categoria, prioridade: Prioridade,
    isAnonimo: Option<bool>, isPrivado: Option<bool>, hashtags: Option<seq<string>>)

  datatype CreateP2PFeedbackInput = CreateP2PFeedbackInput(
    destinatarioId: Id, conteudo: string, isAnonimo: Option<bool>, isPrivado: Option<bool>,
    hashtags: Option<seq<string>>)

  function TagsOrEmpty(t: Option<seq<string>>): seq<string> {
    if t.Some? then t.value else []
  }

  /** The document `criarFeedbackForum` builds before saving it. */
  function ForumDraft(id: Id, dados: CreateForumFeedbackInput, usuarioId: Id, now: Time): (r: FeedbackRecord)
    ensures r.tipo == Forum && r.forumId == Some(dados.forumId) && r.destinatarioId.None? && r.usuarioId == usuarioId
    ensures ShapeError(r.tipo, r.forumId, r.destinatarioId).None?
  {
    NewFeedback(id, usuarioId, Forum, Some(dados.forumId), None, dados.conteudo, TagsOrEmpty(dados.hashtags),
                OrFalse(dados.isAnonimo), OrFalse(dados.isPrivado), Some(dados.categoria), Some(dados.prioridade), now)
  }

  /** The document `criarFeedbackP2P` builds before saving it. */
  function P2PDraft(id: Id, dados: CreateP2PFeedbackInput, usuarioId: Id, now: Time): (r: FeedbackRecord)
    ensures r.tipo == P2P && r.forumId.None? && r.destinatarioId == Some(dados.destinatarioId) && r.usuarioId == usuarioId
    ensures ShapeError(r.tipo, r.forumId, r.destinatarioId).None?
  {
    NewFeedback(id, usuarioId, P2P, None, Some(dados.destinatarioId), dados.conteudo, TagsOrEmpty(dados.hashtags),
                OrFalse(dados.isAnonimo), OrFalse(dados.isPrivado), None, None, now)
  }

  /** Saving a new feedback and recording its tags in the statistics. On success the stored
      record is the saved one; a statistics failure leaves the feedback stored. */
  method SaveNew(db: Database, draft: FeedbackRecord, now: Time) returns (res: Result<FeedbackRecord, Error>)
    requires db.Valid() && draft.id == db.nextId - 1 && draft.id !in db.feedbacks
    requires ShapeError(draft.tipo, draft.forumId, draft.destinatarioId).None?
    modifies db, db.hashtagStats
    ensures db.Valid()
    ensures db.usuarios == old(db.usuarios) && db.foruns == old(db.foruns) && db.nextId == old(db.nextId)
    ensures SaveResult(draft, true, true, now).Err? ==>
              res == Err(FeedbackValidationFailed) && db.feedbacks == old(db.feedbacks)
                && db.hashtagStats.entries == old(db.hashtagStats.entries)
    ensures SaveResult(draft, true, true, now).Ok? ==>
              var saved := SaveResult(draft, true, true, now).value;
              var stats := RecordAll(old(db.hashtagStats.entries), saved.hashtags, now);
              && db.feedbacks == old(db.feedbacks)[draft.id := saved]
              && db.hashtagStats.entries == stats.entries
              && (stats.failure.None? ==> res == Ok(saved))
              && (stats.failure.Some? ==> res == Err(stats.failure.value))
  {
    SaveResultProperties(draft, true, true, now);
    var doc := new FeedbackDoc.Init(draft, true);
    res := doc.Save(now);
    if res.Err? {
      return;
    }
    var saved := res.value;
    db.PutFeedback(saved);
    if |saved.hashtags| > 0 {
      var failure := db.hashtagStats.AtualizarEstatisticas(saved.hashtags, now);
      if failure.Some? {
        return Err(failure.value);
      }
    }
  }

  /** `forum.feedbacks.push(id); forum.save()`: a stored forum always passes its validators,
      so the save stamps `data_atualizacao`. */
  method LinkToForum(db: Database, forumId: Id, id: Id, now: Time) returns (saved: ForumRecord)
    requires db.Valid() && forumId in db.foruns
    modifies db
    ensures db.Valid()
    ensures db.usuarios == old(db.usuarios) && db.feedbacks == old(db.feedbacks) && db.nextId == old(db.nextId)
    ensures var f := old(db.foruns)[forumId];
      saved == f.(feedbacks := f.feedbacks + [id], dataAtualizacao := now) && db.foruns == old(db.foruns)[forumId := saved]
  {
    var doc := new ForumDoc.Init(db.foruns[forumId]);
    doc.feedbacks := doc.feedbacks + [id];
    var res := doc.Save(now);
    saved := res.value;
    db.PutForum(saved);
  }

  /** `criarFeedbackForum(dados, usuarioId)`. */
  method CriarFeedbackForum(db: Database, dados: CreateForumFeedbackInput, usuarioId: Id, now: Time)
      returns (res: Result<FeedbackRecord, Error>)
    requires db.Valid()
    modifies db, db.hashtagStats
    ensures db.Valid()
    ensures db.usuarios == old(db.usuarios)
    ensures dados.forumId !in old(db.foruns) ==> res == Err(ForumNotFound)
    ensures dados.forumId in old(db.foruns) && usuarioId !in old(db.usuarios) ==> res == Err(UserNotFound)
    ensures (dados.forumId in old(db.foruns) && usuarioId in old(db.usuarios) &&
             !PodeDarFeedback(old(db.foruns)[dados.forumId], old(db.usuarios)[usuarioId])) ==>
              res == Err(NoPermissionToGiveFeedback)
    ensures (dados.forumId in old(db.foruns) && usuarioId in old(db.usuarios) &&
             PodeDarFeedback(old(db.foruns)[dados.forumId], old(db.usuarios)[usuarioId])) ==>
              var s := SaveResult(ForumDraft(old(db.nextId), dados, usuarioId, now), true, true, now);
              && (s.Err? ==> res == Err(FeedbackValidationFailed))
              && (s.Ok? ==>
                    var u := RecordAll(old(db.hashtagStats.entries), s.value.hashtags, now);
                    && (u.failure.None? ==> res == Ok(s.value))
                    && (u.failure.Some? ==> res == Err(u.failure.value)))
    ensures res.Err? && res.error != InvalidStatsTag ==>
              db.feedbacks == old(db.feedbacks) && db.foruns == old(db.foruns)
    ensures res == Err(InvalidStatsTag) ==> db.foruns == old(db.foruns)
    ensures res == Err(InvalidStatsTag) ==>
              var saved := SaveResult(ForumDraft(old(db.nextId), dados, usuarioId, now), true, true, now);
              && saved.Ok? && old(db.nextId) !in old(db.feedbacks)
              && db.feedbacks == old(db.feedbacks)[old(db.nextId) := saved.value]
              && RecordAll(old(db.hashtagStats.entries), saved.value.hashtags, now)
                   == StatsUpdate(db.hashtagStats.entries, Some(InvalidStatsTag))
    ensures res.Ok? ==>
              var f := old(db.foruns)[dados.forumId];
              var draft := SaveResult(ForumDraft(old(db.nextId), dados, usuarioId, now), true, true, now);
              && draft == Ok(res.value)
              && res.value.id == old(db.nextId) && res.value.id !in old(db.feedbacks)
              && db.feedbacks == old(db.feedbacks)[res.value.id := res.value]
              && db.foruns == old(db.foruns)[dados.forumId := f.(feedbacks := f.feedbacks + [res.value.id], dataAtualizacao := now)]
              && RecordAll(old(db.hashtagStats.entries), res.value.hashtags, now) == StatsUpdate(db.hashtagStats.entries, None)
  {
    if dados.forumId !in db.foruns {
      return Err(ForumNotFound);
    }
    if usuarioId !in db.usuarios {
      return Err(UserNotFound);
    }
    if !PodeDarFeedback(db.foruns[dados.forumId], db.usuarios[usuarioId]) {
      return Err(NoPermissionToGiveFeedback);
    }
    var id := db.NewId();
    res := SaveNew(db, ForumDraft(id, dados, usuarioId, now), now);
    if res.Err? {
      return;
    }
    var _ := LinkToForum(db, dados.forumId, id, now);
  }

  /** The back-references of a P2P feedback: `destinatario.feedbacksIn.push(id)`, then,
      when the sender exists, `remetente.feedbacksOut.push(id)`. */
  function LinkUsers(us: map<Id, UsuarioRecord>, destinatarioId: Id, autorId: Id, id: Id): (r: map<Id, UsuarioRecord>)
    requires destinatarioId in us
    ensures r.Keys == us.Keys
    ensures forall k :: k in r ==> r[k] == us[k].(feedbacksIn := r[k].feedbacksIn, feedbacksOut := r[k].feedbacksOut)
    ensures r[destinatarioId].feedbacksIn == us[destinatarioId].feedbacksIn + [id]
    ensures autorId in us ==> r[autorId].feedbacksOut == us[autorId].feedbacksOut + [id]
    ensures autorId !in us && destinatarioId != autorId ==> r[destinatarioId].feedbacksOut == us[destinatarioId].feedbacksOut
    ensures destinatarioId != autorId && autorId in us ==> r[autorId].feedbacksIn == us[autorId].feedbacksIn
    ensures forall k :: k in us && k != destinatarioId && k != autorId ==> r[k] == us[k]
  {
    var d := us[destinatarioId];
    var us1 := us[destinatarioId := d.(feedbacksIn := d.feedbacksIn + [id])];
    if autorId in us1 then us1[autorId := us1[autorId].(feedbacksOut := us1[autorId].feedbacksOut + [id])]
    else us1
  }

  /** `criarFeedbackP2P(dados, usuarioId)`. */
  method CriarFeedbackP2P(db: Database, dados: CreateP2PFeedbackInput, usuarioId: Id, now: Time)
      returns (res: Result<FeedbackRecord, Error>)
    requires db.Valid()
    modifies db, db.hashtagStats
    ensures db.Valid()
    ensures db.foruns == old(db.foruns)
    ensures dados.destinatarioId !in old(db.usuarios) ==> res == Err(RecipientNotFound)
    ensures dados.destinatarioId in old(db.usuarios) && dados.destinatarioId == usuarioId ==> res == Err(SelfFeedback)
    ensures dados.destinatarioId in old(db.usuarios) && dados.destinatarioId != usuarioId ==>
              var s := SaveResult(P2PDraft(old(db.nextId), dados, usuarioId, now), true, true, now);
              && (s.Err? ==> res == Err(FeedbackValidationFailed))
              && (s.Ok? ==>
                    var u := RecordAll(old(db.hashtagStats.entries), s.value.hashtags, now);
                    && (u.failure.None? ==> res == Ok(s.value))
                    && (u.failure.Some? ==> res == Err(u.failure.value)))
    ensures res.Err? && res.error != InvalidStatsTag ==>
              db.feedbacks == old(db.feedbacks) && db.usuarios == old(db.usuarios)
    ensures res == Err(InvalidStatsTag) ==> db.usuarios == old(db.usuarios)
    ensures res == Err(InvalidStatsTag) ==>
              var saved := SaveResult(P2PDraft(old(db.nextId), dados, usuarioId, now), true, true, now);
              && saved.Ok? && old(db.nextId) !in old(db.feedbacks)
              && db.feedbacks == old(db.feedbacks)[old(db.nextId) := saved.value]
              && RecordAll(old(db.hashtagStats.entries), saved.value.hashtags, now)
                   == StatsUpdate(db.hashtagStats.entries, Some(InvalidStatsTag))
    ensures res.Ok? ==>
              var draft := SaveResult(P2PDraft(old(db.nextId), dados, usuarioId, now), true, true, now);
              && dados.destinatarioId in old(db.usuarios) && dados.destinatarioId != usuarioId
              && draft == Ok(res.value)
              && res.value.id == old(db.nextId) && res.value.id !in old(db.feedbacks)
              && db.feedbacks == old(db.feedbacks)[res.value.id := res.value]
              && db.usuarios == LinkUsers(old(db.usuarios), dados.destinatarioId, usuarioId, res.value.id)
              && RecordAll(old(db.hashtagStats.entries), res.value.hashtags, now) == StatsUpdate(db.hashtagStats.entries, None)
  {
    if dados.destinatarioId !in db.usuarios {
      return Err(RecipientNotFound);
    }
    if dados.destinatarioId == usuarioId {
      return Err(SelfFeedback);
    }
    var id := db.NewId();
    res := SaveNew(db, P2PDraft(id, dados, usuarioId, now), now);
    if res.Err? {
      return;
    }
    LinkUsersKeepsInvariants(db.usuarios, dados.destinatarioId, usuarioId, id, db.nextId);
    db.SetUsuarios(LinkUsers(db.usuarios, dados.destinatarioId, usuarioId, id));
  }

  /** Linking a feedback changes only the users' feedback lists, so the user invariants hold. */
  lemma LinkUsersKeepsInvariants(us: map<Id, UsuarioRecord>, destinatarioId: Id, autorId: Id, id: Id, nextId: Id)
    requires destinatarioId in us
    requires UsuarioKeys(us, nextId) && EmailsUnique(us) && UsuariosWellFormed(us)
    ensures var r := LinkUsers(us, destinatarioId, autorId, id);
      UsuarioKeys(r, nextId) && EmailsUnique(r) && UsuariosWellFormed(r)
  {
    var r := LinkUsers(us, destinatarioId, autorId, id);
    assert forall k :: k in r ==> r[k].id == us[k].id && r[k].email == us[k].email && r[k].conquistas == us[k].conquistas;
  }

  // ----- Listing -----

  /** The `listarFeedbacks` filters: an empty string or `None` means no filter. */
  datatype FeedbackFiltros = FeedbackFiltros(
    tipo: string, categoria: string, status: string, prioridade: string,
    usuarioId: Option<Id>, forumId: Option<Id>, destinatarioId: Option<Id>,
    isAnonimo: Option<bool>, isPrivado: Option<bool>,
    dataInicio: Option<Time>, dataFim: Option<Time>)

  const SemFiltros := FeedbackFiltros([], [], [], [], None, None, None, None, None, None, None)

  /** An optional enumeration field equals the filter value by name; an unset field matches
      no value. */
  predicate NameMatches<E>(filtro: string, v: Option<E>, name: E -> string) {
    filtro == [] || (v.Some? && name(v.value) == filtro)
  }

  predicate FeedbackMatches(f: FeedbackRecord, q: FeedbackFiltros) {
    && (q.tipo == [] || TipoName(f.tipo) == q.tipo)
    && NameMatches(q.categoria, f.categoria, CategoriaName)
    && NameMatches(q.status, f.status, StatusName)
    && NameMatches(q.prioridade, f.prioridade, PrioridadeName)
    && (q.usuarioId.None? || f.usuarioId == q.usuarioId.value)
    && (q.forumId.None? || f.forumId == q.forumId)
    && (q.destinatarioId.None? || f.destinatarioId == q.destinatarioId)
    && (q.isAnonimo.None? || f.isAnonimo == q.isAnonimo.value)
    && (q.isPrivado.None? || f.isPrivado == q.isPrivado.value)
    && (q.dataInicio.None? || f.dataCriacao >= q.dataInicio.value)
    && (q.dataFim.None? || f.dataCriacao <= q.dataFim.value)
  }

  /** Without filters every feedback is listed; the date range is inclusive at both ends. */
  lemma FeedbackMatchesProperties(f: FeedbackRecord, q: FeedbackFiltros)
    ensures FeedbackMatches(f, SemFiltros)
    ensures FeedbackMatches(f, SemFiltros.(dataInicio := Some(f.dataCriacao), dataFim := Some(f.dataCriacao)))
    ensures FeedbackMatches(f, q) ==> FeedbackMatches(f, q.(dataInicio := None, dataFim := None))
    ensures q.tipo == [] && q.categoria == [] && q.status == [] && q.prioridade == [] && q.usuarioId.None? &&
            q.forumId.None? && q.destinatarioId.None? && q.isAnonimo.None? && q.isPrivado.None? ==>
              (FeedbackMatches(f, q) <==> (q.dataInicio.None? || q.dataInicio.value <= f.dataCriacao) &&
                                          (q.dataFim.None? || f.dataCriacao <= q.dataFim.value))
  {
  }

  /** `listarFeedbacks(page, limit, filtros)`: the matching feedbacks and the page arithmetic;
      the query fails when the database refuses the negative offset. */
  function ListarFeedbacks(fs: map<Id, FeedbackRecord>, page: int, limit: int, q: FeedbackFiltros): (r: Option<ListPage>)
    requires limit != 0
    ensures r.None? <==> Skip(page, limit) < 0
    ensures r.Some? ==> forall k :: k in r.value.matching <==> k in fs && FeedbackMatches(fs[k], q)
    ensures r.Some? ==> r.value.total == |r.value.matching| && r.value.page == page
    ensures r.Some? ==> r.value.skip == (page - 1) * limit && r.value.totalPages == TotalPages(r.value.total, limit)
    ensures r.Some? && q == SemFiltros ==> r.value.matching == fs.Keys
  {
    if Skip(page, limit) < 0 then None
    else
      var m := set k | k in fs && FeedbackMatches(fs[k], q);
      Some(ListPage(m, |m|, page, TotalPages(|m|, limit), Skip(page, limit)))
  }

  // ----- Update and delete -----

  datatype UpdateFeedbackInput = UpdateFeedbackInput(
    conteudo: Option<string>, categoria: Option<Categoria>, prioridade: Option<Prioridade>,
    status: Option<Status>, isPrivado: Option<bool>)

  /** The update validators on the fields set: only `conteudo` has bounds. */
  predicate UpdateValid(dados: UpdateFeedbackInput) {
    dados.conteudo.Some? ==> ValidContent(Trim(dados.conteudo.value))
  }

  /** `findByIdAndUpdate(id, dados)`: the fields set are written as given (content trimmed);
      no hook runs, so tags are not re-extracted and nothing is cleared. */
  function ApplyUpdate(f: FeedbackRecord, dados: UpdateFeedbackInput): (r: FeedbackRecord)
    ensures r.id == f.id && r.usuarioId == f.usuarioId && r.tipo == f.tipo
    ensures r.forumId == f.forumId && r.destinatarioId == f.destinatarioId
    ensures r.hashtags == f.hashtags && r.reacoes == f.reacoes && r.analisadoPor == f.analisadoPor
    ensures r.dataCriacao == f.dataCriacao && r.dataAtualizacao == f.dataAtualizacao
    ensures dados.status.Some? ==> r.status == dados.status
    ensures dados.conteudo.Some? ==> r.conteudo == Trim(dados.conteudo.value)
  {
    f.(conteudo := if dados.conteudo.Some? then Trim(dados.conteudo.value) else f.conteudo,
       categoria := if dados.categoria.Some? then dados.categoria else f.categoria,
       prioridade := if dados.prioridade.Some? then dados.prioridade else f.prioridade,
       status := if dados.status.Some? then dados.status else f.status,
       isPrivado := if dados.isPrivado.Some? then dados.isPrivado.value else f.isPrivado)
  }

  /** `atualizarFeedback(id, dados, usuarioId)`. */
  method AtualizarFeedback(db: Database, id: Id, dados: UpdateFeedbackInput, usuarioId: Id)
      returns (res: Result<FeedbackRecord, Error>)
    requires db.Valid()
    modifies db
    ensures db.Valid()
    ensures db.usuarios == old(db.usuarios) && db.foruns == old(db.foruns)
    ensures id !in old(db.feedbacks) ==> res == Err(FeedbackNotFound)
    ensures id in old(db.feedbacks) && usuarioId !in old(db.usuarios) ==> res == Err(UserNotFound)
    ensures (id in old(db.feedbacks) && usuarioId in old(db.usuarios) &&
             !PodeEditar(old(db.feedbacks)[id], old(db.usuarios)[usuarioId])) ==> res == Err(NoPermissionToEdit)
    ensures res.Err? ==> db.feedbacks == old(db.feedbacks)
    ensures res.Ok? <==> id in old(db.feedbacks) && usuarioId in old(db.usuarios) &&
                         PodeEditar(old(db.feedbacks)[id], old(db.usuarios)[usuarioId]) && UpdateValid(dados)
    ensures res.Ok? ==> res.value == ApplyUpdate(old(db.feedbacks)[id], dados) && db.feedbacks == old(db.feedbacks)[id := res.value]
  {
    if id !in db.feedbacks {
      return Err(FeedbackNotFound);
    }
    if usuarioId !in db.usuarios {
      return Err(UserNotFound);
    }
    if !PodeEditar(db.feedbacks[id], db.usuarios[usuarioId]) {
      return Err(NoPermissionToEdit);
    }
    if !UpdateValid(dados) {
      return Err(FeedbackValidationFailed);
    }
    var f := ApplyUpdate(db.feedbacks[id], dados);
    db.PutFeedback(f);
    res := Ok(f);
  }

  /** The author may change `status` through an update without being an admin, and on a
      P2P feedback too, which `alterarStatus` would refuse. */
  lemma AuthorSetsStatusByUpdate(f: FeedbackRecord, autor: UsuarioRecord, s: Status)
    requires f.usuarioId == autor.id && !IsAdmin(autor)
    ensures PodeEditar(f, autor)
    ensures ApplyUpdate(f, UpdateFeedbackInput(None, None, None, Some(s), None)).status == Some(s)
  {
  }

  /** A new `#tag` written into the content by an update is not added to `hashtags`. */
  lemma UpdateDoesNotExtract(f: FeedbackRecord, conteudo: string)
    ensures ApplyUpdate(f, UpdateFeedbackInput(Some(conteudo), None, None, None, None)).hashtags == f.hashtags
  {
  }

  /** `deletarFeedback(id, usuarioId)`: the back-references are pulled, then the record is
      removed. */
  method DeletarFeedback(db: Database, id: Id, usuarioId: Id) returns (res: Result<FeedbackRecord, Error>)
    requires db.Valid()
    modifies db
    ensures db.Valid()
    ensures id !in old(db.feedbacks) ==> res == Err(FeedbackNotFound)
    ensures id in old(db.feedbacks) && usuarioId !in old(db.usuarios) ==> res == Err(UserNotFound)
    ensures (id in old(db.feedbacks) && usuarioId in old(db.usuarios) &&
             !PodeEditar(old(db.feedbacks)[id], old(db.usuarios)[usuarioId])) ==> res == Err(NoPermissionToDelete)
    ensures res.Err? ==> db.feedbacks == old(db.feedbacks) && db.foruns == old(db.foruns) && db.usuarios == old(db.usuarios)
    ensures res.Ok? <==> id in old(db.feedbacks) && usuarioId in old(db.usuarios) &&
                         PodeEditar(old(db.feedbacks)[id], old(db.usuarios)[usuarioId])
    ensures res.Ok? ==>
              var f := old(db.feedbacks)[id];
              && res.value == f
              && db.feedbacks == old(db.feedbacks) - {id}
              && db.foruns == PullFromForum(old(db.foruns), f.forumId, id)
              && db.usuarios == PullFromUsers(old(db.usuarios), f, id)
  {
    if id !in db.feedbacks {
      return Err(FeedbackNotFound);
    }
    if usuarioId !in db.usuarios {
      return Err(UserNotFound);
    }
    var f := db.feedbacks[id];
    if !PodeEditar(f, db.usuarios[usuarioId]) {
      return Err(NoPermissionToDelete);
    }
    db.foruns := PullFromForum(db.foruns, f.forumId, id);
    db.usuarios := PullFromUsers(db.usuarios, f, id);
    db.feedbacks := db.feedbacks - {id};
    res := Ok(f);
  }

  /** `$pull: { feedbacks: id }` on the feedback's forum, when it has one that exists. */
  function PullFromForum(fs: map<Id, ForumRecord>, forumId: Option<Id>, id: Id): (r: map<Id, ForumRecord>)
    ensures r.Keys == fs.Keys
    ensures forall k :: k in r ==> r[k] == fs[k].(feedbacks := r[k].feedbacks)
    ensures forumId.Some? && forumId.value in fs ==> id !in r[forumId.value].feedbacks
    ensures forall k :: k in fs && Some(k) != forumId ==> r[k] == fs[k]
  {
    if forumId.Some? && forumId.value in fs then
      fs[forumId.value := fs[forumId.value].(feedbacks := RemoveAll(fs[forumId.value].feedbacks, id))]
    else fs
  }

  /** For a P2P feedback, `$pull` from the recipient's `feedbacksIn` and then from the
      author's `feedbacksOut`. */
  function PullFromUsers(us: map<Id, UsuarioRecord>, f: FeedbackRecord, id: Id): (r: map<Id, UsuarioRecord>)
    ensures r.Keys == us.Keys
    ensures forall k :: k in r ==> r[k] == us[k].(feedbacksIn := r[k].feedbacksIn, feedbacksOut := r[k].feedbacksOut)
    ensures f.destinatarioId.Some? && f.destinatarioId.value in us ==> id !in r[f.destinatarioId.value].feedbacksIn
    ensures f.destinatarioId.Some? && f.usuarioId in us ==> id !in r[f.usuarioId].feedbacksOut
    ensures forall k :: k in us && Some(k) != f.destinatarioId && k != f.usuarioId ==> r[k] == us[k]
    ensures f.destinatarioId.None? ==> r == us
  {
    if f.destinatarioId.None? then us
    else PullOut(PullIn(us, f.destinatarioId.value, id), f.usuarioId, id)
  }

  /** `$pull` of `id` from the `feedbacksIn` of user `d`, when there is one. */
  function PullIn(us: map<Id, UsuarioRecord>, d: Id, id: Id): (r: map<Id, UsuarioRecord>)
    ensures r.Keys == us.Keys
    ensures d in us ==> r[d] == us[d].(feedbacksIn := RemoveAll(us[d].feedbacksIn, id))
    ensures forall k :: k in us && k != d ==> r[k] == us[k]
  {
    if d in us then us[d := us[d].(feedbacksIn := RemoveAll(us[d].feedbacksIn, id))] else us
  }

  /** `$pull` of `id` from the `feedbacksOut` of user `a`, when there is one. */
  function PullOut(us: map<Id, UsuarioRecord>, a: Id, id: Id): (r: map<Id, UsuarioRecord>)
    ensures r.Keys == us.Keys
    ensures a in us ==> r[a] == us[a].(feedbacksOut := RemoveAll(us[a].feedbacksOut, id))
    ensures forall k :: k in us && k != a ==> r[k] == us[k]
  {
    if a in us then us[a := us[a].(feedbacksOut := RemoveAll(us[a].feedbacksOut, id))] else us
  }

  /** Linking a new P2P feedback to both users and then deleting it gives back both users'
      lists, provided the id was listed in neither. */
  lemma {:induction false} P2PBackReferencesRoundTrip(us: map<Id, UsuarioRecord>, f: FeedbackRecord, id: Id)
    requires f.destinatarioId.Some? && f.destinatarioId.value in us && f.usuarioId in us
    requires f.destinatarioId.value != f.usuarioId
    requires id !in us[f.destinatarioId.value].feedbacksIn && id !in us[f.usuarioId].feedbacksOut
    ensures PullFromUsers(LinkUsers(us, f.destinatarioId.value, f.usuarioId, id), f, id) == us
  {
    var d: Id, a: Id := f.destinatarioId.value, f.usuarioId;
    RemoveAllAppended(us[d].feedbacksIn, id);
    RemoveAllAppended(us[a].feedbacksOut, id);
    var linked := LinkUsers(us, d, a, id);
    var pulled := PullOut(PullIn(linked, d, id), a, id);
    assert pulled[d] == us[d] && pulled[a] == us[a];
    SameEntries(pulled, us);
  }

  /** Two maps with the same keys and the same value at each key are equal. */
  lemma SameEntries<K, V>(m: map<K, V>, n: map<K, V>)
    requires m.Keys == n.Keys && forall k :: k in m ==> m[k] == n[k]
    ensures m == n
  {
  }

  // ----- Reactions and status -----

  /** `adicionarReacao(feedbackId, emoji)`. */
  method AdicionarReacao(db: Database, feedbackId: Id, emoji: string, now: Time) returns (res: Result<FeedbackRecord, Error>)
    requires db.Valid()
    modifies db
    ensures db.Valid()
    ensures db.usuarios == old(db.usuarios) && db.foruns == old(db.foruns)
    ensures feedbackId !in old(db.feedbacks) ==> res == Err(FeedbackNotFound)
    ensures feedbackId in old(db.feedbacks) ==>
              var f := old(db.feedbacks)[feedbackId];
              res == SaveResult(f.(reacoes := AddReaction(f.reacoes, emoji)), false, true, now)
    ensures res.Ok? ==> db.feedbacks == old(db.feedbacks)[feedbackId := res.value]
    ensures res.Err? ==> db.feedbacks == old(db.feedbacks)
  {
    if feedbackId !in db.feedbacks {
      return Err(FeedbackNotFound);
    }
    var f := db.feedbacks[feedbackId];
    SaveResultProperties(f.(reacoes := AddReaction(f.reacoes, emoji)), false, true, now);
    var doc := new FeedbackDoc.Init(f, false);
    res := doc.AdicionarReacao(emoji, now);
    if res.Ok? {
      db.PutFeedback(res.value);
    }
  }

  /** `removerReacao(feedbackId, emoji)`. */
  method RemoverReacao(db: Database, feedbackId: Id, emoji: string, now: Time) returns (res: Result<FeedbackRecord, Error>)
    requires db.Valid()
    modifies db
    ensures db.Valid()
    ensures db.usuarios == old(db.usuarios) && db.foruns == old(db.foruns)
    ensures feedbackId !in old(db.feedbacks) ==> res == Err(FeedbackNotFound)
    ensures feedbackId in old(db.feedbacks) ==>
              var f := old(db.feedbacks)[feedbackId];
              var i := FindReacao(f.reacoes, emoji);
              res == SaveResult(f.(reacoes := RemoveReaction(f.reacoes, emoji)), false,
                                i.Some? && f.reacoes[i.value].count > 0, now)
    ensures res.Ok? ==> db.feedbacks == old(db.feedbacks)[feedbackId := res.value]
    ensures res.Err? ==> db.feedbacks == old(db.feedbacks)
  {
    if feedbackId !in db.feedbacks {
      return Err(FeedbackNotFound);
    }
    var f := db.feedbacks[feedbackId];
    var i := FindReacao(f.reacoes, emoji);
    SaveResultProperties(f.(reacoes := RemoveReaction(f.reacoes, emoji)), false, i.Some? && f.reacoes[i.value].count > 0, now);
    var doc := new FeedbackDoc.Init(f, false);
    res := doc.RemoverReacao(emoji, now);
    if res.Ok? {
      db.PutFeedback(res.value);
    }
  }

  /** `alterarStatus(feedbackId, status, adminId)`: not found, then not a forum feedback,
      then not an admin; otherwise the status and the moderator are set. */
  method AlterarStatus(db: Database, feedbackId: Id, status: Status, adminId: Id, now: Time)
      returns (res: Result<FeedbackRecord, Error>)
    requires db.Valid()
    modifies db
    ensures db.Valid()
    ensures db.usuarios == old(db.usuarios) && db.foruns == old(db.foruns)
    ensures feedbackId !in old(db.feedbacks) ==> res == Err(FeedbackNotFound)
    ensures feedbackId in old(db.feedbacks) && old(db.feedbacks)[feedbackId].tipo != Forum ==>
              res == Err(StatusOnlyForForumFeedback)
    ensures feedbackId in old(db.feedbacks) && old(db.feedbacks)[feedbackId].tipo == Forum &&
            (adminId !in old(db.usuarios) || !IsAdmin(old(db.usuarios)[adminId])) ==>
              res == Err(StatusOnlyForAdmins)
    ensures feedbackId in old(db.feedbacks) && old(db.feedbacks)[feedbackId].tipo == Forum &&
            adminId in old(db.usuarios) && IsAdmin(old(db.usuarios)[adminId]) ==>
              var f := old(db.feedbacks)[feedbackId];
              res == SaveResult(f.(status := Some(status), analisadoPor := Some(adminId)), false,
                                f.status != Some(status) || f.analisadoPor != Some(adminId), now)
    ensures res.Err? ==> db.feedbacks == old(db.feedbacks)
    ensures res.Ok? ==>
              var f := old(db.feedbacks)[feedbackId];
              && f.tipo == Forum && adminId in old(db.usuarios) && IsAdmin(old(db.usuarios)[adminId])
              && res.value.status == Some(status) && res.value.analisadoPor == Some(adminId)
              && db.feedbacks == old(db.feedbacks)[feedbackId := res.value]
  {
    if feedbackId !in db.feedbacks {
      return Err(FeedbackNotFound);
    }
    var f := db.feedbacks[feedbackId];
    if f.tipo != Forum {
      return Err(StatusOnlyForForumFeedback);
    }
    if adminId !in db.usuarios || !IsAdmin(db.usuarios[adminId]) {
      return Err(StatusOnlyForAdmins);
    }
    var changed := f.status != Some(status) || f.analisadoPor != Some(adminId);
    SaveResultProperties(f.(status := Some(status), analisadoPor := Some(adminId)), false, changed, now);
    var doc := new FeedbackDoc.Init(f, false);
    res := doc.AlterarStatus(status, adminId, now);
    if res.Ok? {
      db.PutFeedback(res.value);
    }
  }

  // ----- Observations -----

  /** A feedback whose content holds a tag longer than fifty characters passes the feedback
      schema, but the statistics schema rejects the tag: the update fails after the feedback
      was stored, so the forum never lists it. */
  lemma LongTagStoredButNotRecorded(entries: seq<HashtagStats>, r: FeedbackRecord, now: Time, t: string)
    requires StoreInvariant(entries)
    requires t in r.hashtags && IsTag(t) && |t| > MaxStatsTagLength
    ensures RecordAll(entries, r.hashtags, now).failure == Some(InvalidStatsTag)
  {
    NormalizeTag(t);
    var i := IndexOf(r.hashtags, t);
    RecordAllFailsOnLongTag(entries, r.hashtags, now, i);
  }

  /** The tags a new forum feedback is saved with are duplicate-free and already in their
      stored form, so the statistics update that follows a successful save adds exactly one
      use to each tag of the saved record and none to any other tag. */
  lemma SavedTagsCountedOnce(id: Id, dados: CreateForumFeedbackInput, usuarioId: Id, now: Time,
                             entries: seq<HashtagStats>, k: string)
    requires StoreInvariant(entries)
    requires SaveResult(ForumDraft(id, dados, usuarioId, now), true, true, now).Ok?
    ensures var s := SaveResult(ForumDraft(id, dados, usuarioId, now), true, true, now).value;
            var u := RecordAll(entries, s.hashtags, now);
            && NoDup(s.hashtags)
            && (u.failure.None? ==> TotalOf(u.entries, k) == TotalOf(entries, k) + (if k in s.hashtags then 1 else 0))
  {
    var r := ForumDraft(id, dados, usuarioId, now);
    SaveResultProperties(r, true, true, now);
    var s := SaveResult(r, true, true, now).value;
    MergeHashtagsProperties(r.hashtags, r.conteudo);
    var raw := TagsOrEmpty(dados.hashtags);
    forall i | 0 <= i < |r.hashtags| ensures Normalize(r.hashtags[i]) == r.hashtags[i] {
      assert r.hashtags[i] == Normalize(raw[i]);
      if r.hashtags[i] != [] {
        assert ValidTagElement(r.hashtags[i]);
        NormalWordIsTag(raw[i]);
      }
    }
    forall i | 0 <= i < |s.hashtags| ensures Normalize(s.hashtags[i]) == s.hashtags[i] {
      var t := s.hashtags[i];
      if t !in r.hashtags {
        NormalizeTag(t);
      }
    }
    assert Keys(s.hashtags) == s.hashtags;
    RecordAllCounts(entries, s.hashtags, now, k);
    CountNoDup(s.hashtags, k);
  }
}
