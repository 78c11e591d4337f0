/** The forum service: the capability record, creation and update under the unique-name
    rule, membership changes that protect the creator, and the list queries. */
module ForumService {
  import opened Base
  import opened Errors
  import opened Seqs
  import opened Text
  import opened UsuarioModel
  import opened ForumModel
  import opened Store
  import opened Paging

  // ----- Capabilities -----

  datatype ForumPermissions = ForumPermissions(
    canView: bool,
    canEdit: bool,
    canDelete: bool,
    canAddMembers: bool,
    canRemoveMembers: bool,
    canGiveFeedback: bool)

  /** `verificarPermissoes(forum, usuario)`: platform admins and the creator manage the
      forum; members also view it and post in it, and so does anyone when the forum is
      not members-only. */
  function VerificarPermissoes(forum: ForumRecord, usuario: UsuarioRecord): (p: ForumPermissions)
    ensures p.canEdit <==> IsAdmin(usuario) || usuario.id == forum.criador
    ensures p.canDelete == p.canEdit && p.canAddMembers == p.canEdit && p.canRemoveMembers == p.canEdit
    ensures p.canView <==> p.canEdit || usuario.id in forum.membros || !forum.configuracoes.apenasMembros
    ensures p.canGiveFeedback == p.canView
  {
    var isAdmin := IsAdmin(usuario);
    var isCriador := forum.criador == usuario.id;
    var isMembro := usuario.id in forum.membros;
    var open := !forum.configuracoes.apenasMembros;
    ForumPermissions(isAdmin || isCriador || isMembro || open, isAdmin || isCriador, isAdmin || isCriador,
                     isAdmin || isCriador, isAdmin || isCriador, isAdmin || isCriador || isMembro || open)
  }

  /** Every management capability implies viewing; an outsider (neither admin, creator nor
      member) manages nothing and views exactly the open forums; the creator has every
      capability. */
  lemma PermissionsProperties(forum: ForumRecord, usuario: UsuarioRecord)
    ensures var p := VerificarPermissoes(forum, usuario);
      && (p.canEdit || p.canDelete || p.canAddMembers || p.canRemoveMembers ==> p.canView && p.canGiveFeedback)
      && (!IsAdmin(usuario) && usuario.id != forum.criador && usuario.id !in forum.membros ==>
            !p.canEdit && (p.canView <==> !forum.configuracoes.apenasMembros))
      && (usuario.id == forum.criador ==> p == ForumPermissions(true, true, true, true, true, true))
      && (IsAdmin(usuario) ==> p == ForumPermissions(true, true, true, true, true, true))
  {
  }

  /** A new forum is members-only, so an outsider can neither view it nor post in it. */
  lemma NewForumIsClosed(id: Id, nome: string, descricao: string, projeto: string, criador: Id,
                         usuario: UsuarioRecord, now: Time)
    requires !IsAdmin(usuario) && usuario.id != criador
    ensures var f := NewForum(id, nome, descricao, projeto, criador, [criador], None, now);
      var p := VerificarPermissoes(f, usuario);
      !p.canView && !p.canGiveFeedback && !p.canEdit
  {
  }

  // ----- Creation and update -----

  datatype CreateForumInput = CreateForumInput(nome: string, descricao: string, projeto: string,
                                               configuracoes: Option<ConfigInput>)

  datatype UpdateForumInput = UpdateForumInput(nome: Option<string>, descricao: Option<string>,
                                               projeto: Option<string>, status: Option<ForumStatus>,
                                               configuracoes: Option<ConfigInput>)

  /** A forum other than `except` already has this (trimmed) name. */
  predicate NameTaken(fs: map<Id, ForumRecord>, nome: string, except: Option<Id>) {
    exists k :: k in fs && fs[k].nome == nome && except != Some(k)
  }

  /** The update validators, which check only the fields the update sets. */
  predicate UpdateValid(dados: UpdateForumInput) {
    && (dados.nome.Some? ==> MinNomeLength <= |Trim(dados.nome.value)| <= MaxNomeLength)
    && (dados.descricao.Some? ==> 0 < |Trim(dados.descricao.value)| <= MaxDescricaoLength)
    && (dados.projeto.Some? ==> 0 < |Trim(dados.projeto.value)| <= MaxProjetoLength)
  }

  /** The stored forum after `findByIdAndUpdate`: the set fields replaced (strings trimmed,
      settings replaced as a whole and read back with their defaults), nothing else. */
  function ApplyUpdate(f: ForumRecord, dados: UpdateForumInput): (r: ForumRecord)
    ensures r.id == f.id && r.criador == f.criador && r.membros == f.membros && r.feedbacks == f.feedbacks
    ensures r.dataCriacao == f.dataCriacao && r.dataAtualizacao == f.dataAtualizacao
    ensures r.nome == (if dados.nome.Some? then Trim(dados.nome.value) else f.nome)
    ensures r.status == (if dados.status.Some? then dados.status.value else f.status)
    ensures (dados.nome.None? && dados.descricao.None? && dados.projeto.None? && dados.status.None? &&
             dados.configuracoes.None?) ==> r == f
  {
    f.(nome := if dados.nome.Some? then Trim(dados.nome.value) else f.nome,
       descricao := if dados.descricao.Some? then Trim(dados.descricao.value) else f.descricao,
       projeto := if dados.projeto.Some? then Trim(dados.projeto.value) else f.projeto,
       status := if dados.status.Some? then dados.status.value else f.status,
       configuracoes := if dados.configuracoes.Some? then ConfigFrom(dados.configuracoes) else f.configuracoes)
  }

  /** `criarForum(dados, criadorId)`: refuses a name in use; otherwise stores a new forum whose
      creator is the caller and whose only member is the caller. */
  method CriarForum(db: Database, dados: CreateForumInput, criadorId: Id, now: Time)
      returns (res: Result<ForumRecord, Error>)
    requires db.Valid()
    modifies db
    ensures db.Valid()
    ensures db.usuarios == old(db.usuarios) && db.feedbacks == old(db.feedbacks)
    ensures NameTaken(old(db.foruns), Trim(dados.nome), None) ==>
              res == Err(ForumNameTaken) && db.foruns == old(db.foruns)
    ensures (!NameTaken(old(db.foruns), Trim(dados.nome), None) &&
             !FieldsValid(Trim(dados.nome), Trim(dados.descricao), Trim(dados.projeto))) ==>
              res == Err(InvalidForumFields) && db.foruns == old(db.foruns)
    ensures res.Ok? ==>
              && res.value == NewForum(res.value.id, dados.nome, dados.descricao, dados.projeto, criadorId,
                                       [criadorId], dados.configuracoes, now)
              && res.value.id !in old(db.foruns)
              && db.foruns == old(db.foruns)[res.value.id := res.value]
    ensures (!NameTaken(old(db.foruns), Trim(dados.nome), None) &&
             FieldsValid(Trim(dados.nome), Trim(dados.descricao), Trim(dados.projeto))) ==> res.Ok?
  {
    if NameTaken(db.foruns, Trim(dados.nome), None) {
      return Err(ForumNameTaken);
    }
    var id := db.NewId();
    var doc := new ForumDoc.Init(NewForum(id, dados.nome, dados.descricao, dados.projeto, criadorId,
                                          [criadorId], dados.configuracoes, now));
    res := doc.Save(now);
    if res.Ok? {
      db.PutForum(res.value);
    }
  }

  /** `atualizarForum(id, dados)`: a non-empty new name held by another forum is refused, the
      validators check the fields set, and a missing forum gives no result. */
  method AtualizarForum(db: Database, id: Id, dados: UpdateForumInput)
      returns (res: Result<Option<ForumRecord>, Error>)
    requires db.Valid()
    modifies db
    ensures db.Valid()
    ensures db.usuarios == old(db.usuarios) && db.feedbacks == old(db.feedbacks) && db.nextId == old(db.nextId)
    ensures dados.nome.Some? && dados.nome.value != [] && NameTaken(old(db.foruns), Trim(dados.nome.value), Some(id)) ==>
              res == Err(ForumNameTaken)
    ensures res.Err? ==> db.foruns == old(db.foruns)
    ensures res.Err? ==> res.error in {ForumNameTaken, InvalidForumFields}
    ensures res.Err? <==> (dados.nome.Some? && dados.nome.value != [] &&
                           NameTaken(old(db.foruns), Trim(dados.nome.value), Some(id))) || !UpdateValid(dados)
    ensures res == Ok(None) <==> res.Ok? && id !in old(db.foruns)
    ensures res.Ok? && id in old(db.foruns) ==>
              res == Ok(Some(ApplyUpdate(old(db.foruns)[id], dados))) && db.foruns == old(db.foruns)[id := res.value.value]
    ensures res.Ok? && id !in old(db.foruns) ==> db.foruns == old(db.foruns)
  {
    if dados.nome.Some? && dados.nome.value != [] && NameTaken(db.foruns, Trim(dados.nome.value), Some(id)) {
      return Err(ForumNameTaken);
    }
    if !UpdateValid(dados) {
      return Err(InvalidForumFields);
    }
    if id !in db.foruns {
      return Ok(None);
    }
    var f := ApplyUpdate(db.foruns[id], dados);
    UpdateKeepsNamesUnique(db.foruns, id, dados);
    db.PutForum(f);
    res := Ok(Some(f));
  }

  lemma UpdateKeepsNamesUnique(fs: map<Id, ForumRecord>, id: Id, dados: UpdateForumInput)
    requires id in fs && NamesUnique(fs) && ForunsWellFormed(fs) && UpdateValid(dados)
    requires dados.nome.Some? && dados.nome.value != [] ==> !NameTaken(fs, Trim(dados.nome.value), Some(id))
    ensures NamesUnique(fs[id := ApplyUpdate(fs[id], dados)])
    ensures ForunsWellFormed(fs[id := ApplyUpdate(fs[id], dados)])
  {
  }

  /** `deletarForum(id)`: removes the forum and nothing else; its feedbacks stay. */
  method DeletarForum(db: Database, id: Id) returns (res: Option<ForumRecord>)
    requires db.Valid()
    modifies db
    ensures db.Valid()
    ensures db.usuarios == old(db.usuarios) && db.feedbacks == old(db.feedbacks)
    ensures res == (if id in old(db.foruns) then Some(old(db.foruns)[id]) else None)
    ensures db.foruns == old(db.foruns) - {id}
  {
    res := if id in db.foruns then Some(db.foruns[id]) else None;
    db.foruns := db.foruns - {id};
  }

  // ----- Membership and status -----

  /** `adicionarMembro(forumId, usuarioId)`: the user is added once; the user's existence is
      not checked. */
  method AdicionarMembro(db: Database, forumId: Id, usuarioId: Id, now: Time) returns (res: Result<ForumRecord, Error>)
    requires db.Valid()
    modifies db
    ensures db.Valid()
    ensures db.usuarios == old(db.usuarios) && db.feedbacks == old(db.feedbacks)
    ensures forumId !in old(db.foruns) ==> res == Err(ForumNotFound) && db.foruns == old(db.foruns)
    ensures forumId in old(db.foruns) ==>
              var f := old(db.foruns)[forumId];
              && res == Ok(f.(membros := AddMember(f.membros, usuarioId), dataAtualizacao := now))
              && db.foruns == old(db.foruns)[forumId := res.value]
  {
    if forumId !in db.foruns {
      return Err(ForumNotFound);
    }
    var f := db.foruns[forumId];
    var doc := new ForumDoc.Init(f);
    res := doc.AdicionarMembro(usuarioId, now);
    AddMemberProperties(f.membros, usuarioId);
    db.PutForum(res.value);
  }

  /** `removerMembro(forumId, usuarioId)`: the creator can never be removed, whoever asks. */
  method RemoverMembro(db: Database, forumId: Id, usuarioId: Id, now: Time) returns (res: Result<ForumRecord, Error>)
    requires db.Valid()
    modifies db
    ensures db.Valid()
    ensures db.usuarios == old(db.usuarios) && db.feedbacks == old(db.feedbacks)
    ensures forumId !in old(db.foruns) ==> res == Err(ForumNotFound)
    ensures forumId in old(db.foruns) && old(db.foruns)[forumId].criador == usuarioId ==> res == Err(CannotRemoveCreator)
    ensures res.Err? ==> db.foruns == old(db.foruns)
    ensures forumId in old(db.foruns) && old(db.foruns)[forumId].criador != usuarioId ==>
              var f := old(db.foruns)[forumId];
              && res == Ok(f.(membros := RemoveAll(f.membros, usuarioId), dataAtualizacao := now))
              && db.foruns == old(db.foruns)[forumId := res.value]
  {
    if forumId !in db.foruns {
      return Err(ForumNotFound);
    }
    var f := db.foruns[forumId];
    if f.criador == usuarioId {
      return Err(CannotRemoveCreator);
    }
    var doc := new ForumDoc.Init(f);
    res := doc.RemoverMembro(usuarioId, now);
    RemoveMemberProperties(f.membros, usuarioId);
    db.PutForum(res.value);
  }

  /** `alterarStatus(forumId, novoStatus)`. */
  method AlterarStatus(db: Database, forumId: Id, novoStatus: ForumStatus, now: Time) returns (res: Result<ForumRecord, Error>)
    requires db.Valid()
    modifies db
    ensures db.Valid()
    ensures db.usuarios == old(db.usuarios) && db.feedbacks == old(db.feedbacks)
    ensures forumId !in old(db.foruns) ==> res == Err(ForumNotFound) && db.foruns == old(db.foruns)
    ensures forumId in old(db.foruns) ==>
              && res == Ok(old(db.foruns)[forumId].(status := novoStatus, dataAtualizacao := now))
              && db.foruns == old(db.foruns)[forumId := res.value]
  {
    if forumId !in db.foruns {
      return Err(ForumNotFound);
    }
    var doc := new ForumDoc.Init(db.foruns[forumId]);
    res := doc.AlterarStatus(novoStatus, now);
    db.PutForum(res.value);
  }

  // ----- Queries -----

  /** `buscarForunsPorUsuario(usuarioId)`: the forums the user created or belongs to. */
  function BuscarForunsPorUsuario(fs: map<Id, ForumRecord>, u: Id): (r: set<Id>)
    ensures forall k :: k in r ==> k in fs
  {
    set k | k in fs && (fs[k].criador == u || u in fs[k].membros)
  }

  /** Since the creator is always a member, the user's forums are exactly those listing them
      as a member, and the user can view and post in each of them. */
  lemma ForunsPorUsuarioAreMembership(fs: map<Id, ForumRecord>, usuario: UsuarioRecord)
    requires ForunsWellFormed(fs)
    ensures forall k :: k in BuscarForunsPorUsuario(fs, usuario.id) <==> k in fs && usuario.id in fs[k].membros
    ensures forall k :: k in BuscarForunsPorUsuario(fs, usuario.id) ==>
              VerificarPermissoes(fs[k], usuario).canView && VerificarPermissoes(fs[k], usuario).canGiveFeedback
    ensures forall k :: k in fs && fs[k].configuracoes.apenasMembros && !IsAdmin(usuario) ==>
              (VerificarPermissoes(fs[k], usuario).canView <==> k in BuscarForunsPorUsuario(fs, usuario.id))
  {
  }

  /** The `listarForuns` filters; an empty string means no filter. */
  datatype ForumFiltros = ForumFiltros(status: string, criador: Option<Id>, projeto: string)

  function ForumStatusName(s: ForumStatus): string {
    match s
    case Ativo => "ativo"
    case Pausado => "pausado"
    case Concluido => "concluido"
    case Arquivado => "arquivado"
  }

  /** A forum passes the filters: status by name, creator by id, project by
      case-insensitive substring. */
  predicate ForumMatches(f: ForumRecord, filtros: ForumFiltros) {
    && (filtros.status == [] || ForumStatusName(f.status) == filtros.status)
    && (filtros.criador.None? || f.criador == filtros.criador.value)
    && (filtros.projeto == [] || Contains(ToLower(f.projeto), ToLower(filtros.projeto)))
  }

  /** `listarForuns(page, limit, filtros)`: the count of matching forums and the page
      arithmetic over it; the query fails when the database refuses the negative offset. */
  function ListarForuns(fs: map<Id, ForumRecord>, page: int, limit: int, filtros: ForumFiltros): (r: Option<ListPage>)
    requires limit != 0
    ensures r.None? <==> Skip(page, limit) < 0
    ensures r.Some? ==> forall k :: k in r.value.matching <==> k in fs && ForumMatches(fs[k], filtros)
    ensures r.Some? ==> r.value.total == |r.value.matching| && r.value.page == page
    ensures r.Some? ==> r.value.skip == (page - 1) * limit && r.value.totalPages == TotalPages(r.value.total, limit)
    ensures r.Some? && filtros == ForumFiltros([], None, []) ==> r.value.matching == fs.Keys
  {
    if Skip(page, limit) < 0 then None
    else
      var m := set k | k in fs && ForumMatches(fs[k], filtros);
      Some(ListPage(m, |m|, page, TotalPages(|m|, limit), Skip(page, limit)))
  }
}
