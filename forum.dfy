/** The forum model: settings and their defaults, the schema bounds, membership, and the
    document whose instance methods change a forum and save it. */
module ForumModel {
  import opened Base
  import opened Errors
  import opened Seqs
  import opened Text

  datatype ForumStatus = Ativo | Pausado | Concluido | Arquivado

  datatype Configuracoes = Configuracoes(feedbackAnonimo: bool, apenasMembros: bool, notificacoesAtivas: bool)

  /** The settings object a caller sends; each flag may be left out. */
  datatype ConfigInput = ConfigInput(feedbackAnonimo: Option<bool>, apenasMembros: Option<bool>, notificacoesAtivas: Option<bool>)

  /** A flag as read back: the value given, or the schema default `true`. */
  function Flag(b: Option<bool>): bool {
    if b.Some? then b.value else true
  }

  /** The stored settings for what the caller sent: every flag left out defaults to `true`. */
  function ConfigFrom(c: Option<ConfigInput>): (r: Configuracoes)
    ensures c.None? ==> r == Configuracoes(true, true, true)
    ensures c.Some? ==> r.apenasMembros == (c.value.apenasMembros != Some(false))
    ensures c.Some? ==> r.feedbackAnonimo == (c.value.feedbackAnonimo != Some(false))
    ensures c.Some? ==> r.notificacoesAtivas == (c.value.notificacoesAtivas != Some(false))
  {
    if c.None? then Configuracoes(true, true, true)
    else Configuracoes(Flag(c.value.feedbackAnonimo), Flag(c.value.apenasMembros), Flag(c.value.notificacoesAtivas))
  }

  /** A forum document. */
  datatype ForumRecord = ForumRecord(
    id: Id,
    nome: string,
    descricao: string,
    projeto: string,
    criador: Id,
    membros: seq<Id>,
    feedbacks: seq<Id>,
    status: ForumStatus,
    configuracoes: Configuracoes,
    dataCriacao: Time,
    dataAtualizacao: Time)

  const MinNomeLength: nat := 5
  const MaxNomeLength: nat := 100
  const MaxDescricaoLength: nat := 500
  const MaxProjetoLength: nat := 100

  /** The validators of `nome`, `descricao` and `projeto` (values already trimmed). */
  predicate FieldsValid(nome: string, descricao: string, projeto: string) {
    && MinNomeLength <= |nome| <= MaxNomeLength
    && 0 < |descricao| <= MaxDescricaoLength
    && 0 < |projeto| <= MaxProjetoLength
  }

  /** A new forum document: trimmed strings, status 'ativo', no feedbacks, settings defaulted. */
  function NewForum(id: Id, nome: string, descricao: string, projeto: string, criador: Id,
                    membros: seq<Id>, config: Option<ConfigInput>, now: Time): (f: ForumRecord)
    ensures f.nome == Trim(nome) && f.descricao == Trim(descricao) && f.projeto == Trim(projeto)
    ensures f.status == Ativo && f.feedbacks == [] && f.configuracoes == ConfigFrom(config)
    ensures f.criador == criador && f.membros == membros && f.id == id
  {
    ForumRecord(id, Trim(nome), Trim(descricao), Trim(projeto), criador, membros, [],
                Ativo, ConfigFrom(config), now, now)
  }

  /** `adicionarMembro`'s list: the user appended unless already there. */
  function AddMember(membros: seq<Id>, u: Id): seq<Id> {
    if u in membros then membros else membros + [u]
  }

  /** Adding a member makes them a member, keeps everyone else, never duplicates anyone,
      and adding twice is adding once. */
  lemma AddMemberProperties(membros: seq<Id>, u: Id)
    ensures u in AddMember(membros, u)
    ensures forall v :: v in AddMember(membros, u) <==> v in membros || v == u
    ensures NoDup(membros) ==> NoDup(AddMember(membros, u))
    ensures AddMember(AddMember(membros, u), u) == AddMember(membros, u)
    ensures u !in membros ==> RemoveAll(AddMember(membros, u), u) == membros
  {
    if u !in membros {
      RemoveAllAppended(membros, u);
    }
  }

  /** Removing a member removes every copy and nobody else. */
  lemma RemoveMemberProperties(membros: seq<Id>, u: Id)
    ensures u !in RemoveAll(membros, u)
    ensures forall v :: v != u ==> (v in RemoveAll(membros, u) <==> v in membros)
    ensures NoDup(membros) ==> NoDup(RemoveAll(membros, u))
  {
    if NoDup(membros) {
      RemoveAllNoDup(membros, u);
    }
  }

  /** A forum document in memory. */
  class ForumDoc {
    var id: Id
    var nome: string
    var descricao: string
    var projeto: string
    var criador: Id
    var membros: seq<Id>
    var feedbacks: seq<Id>
    var status: ForumStatus
    var configuracoes: Configuracoes
    var dataCriacao: Time
    var dataAtualizacao: Time

    function Record(): ForumRecord
      reads this
    {
      ForumRecord(id, nome, descricao, projeto, criador, membros, feedbacks, status,
                  configuracoes, dataCriacao, dataAtualizacao)
    }

    constructor Init(r: ForumRecord)
      ensures Record() == r
    {
      id, nome, descricao, projeto, criador := r.id, r.nome, r.descricao, r.projeto, r.criador;
      membros, feedbacks, status, configuracoes := r.membros, r.feedbacks, r.status, r.configuracoes;
      dataCriacao, dataAtualizacao := r.dataCriacao, r.dataAtualizacao;
    }

    /** `isMembro(usuarioId)`. */
    predicate IsMembro(u: Id)
      reads this
    {
      u in membros
    }

    /** `isAdmin(usuarioId)`: the forum's creator. */
    predicate IsAdmin(u: Id)
      reads this
    {
      u == criador
    }

    /** `save()`: the validators, then the hook that stamps `data_atualizacao`. */
    method Save(now: Time) returns (res: Result<ForumRecord, Error>)
      modifies this
      ensures FieldsValid(old(nome), old(descricao), old(projeto)) ==>
                res == Ok(old(Record()).(dataAtualizacao := now)) && Record() == res.value
      ensures !FieldsValid(old(nome), old(descricao), old(projeto)) ==>
                res == Err(InvalidForumFields) && Record() == old(Record())
    {
      if !FieldsValid(nome, descricao, projeto) {
        return Err(InvalidForumFields);
      }
      dataAtualizacao := now;
      res := Ok(Record());
    }

    /** `adicionarMembro(usuarioId)`, then save. */
    method AdicionarMembro(u: Id, now: Time) returns (res: Result<ForumRecord, Error>)
      modifies this
      ensures FieldsValid(old(nome), old(descricao), old(projeto)) ==>
                res == Ok(old(Record()).(membros := AddMember(old(membros), u), dataAtualizacao := now))
      ensures !FieldsValid(old(nome), old(descricao), old(projeto)) ==> res == Err(InvalidForumFields)
      ensures res.Ok? ==> Record() == res.value
      ensures res.Err? ==> Record() == old(Record()).(membros := AddMember(old(membros), u))
      ensures IsMembro(u) && criador == old(criador)
    {
      if u !in membros {
        membros := membros + [u];
      }
      res := Save(now);
    }

    /** `removerMembro(usuarioId)`, then save. */
    method RemoverMembro(u: Id, now: Time) returns (res: Result<ForumRecord, Error>)
      modifies this
      ensures FieldsValid(old(nome), old(descricao), old(projeto)) ==>
                res == Ok(old(Record()).(membros := RemoveAll(old(membros), u), dataAtualizacao := now))
      ensures !FieldsValid(old(nome), old(descricao), old(projeto)) ==> res == Err(InvalidForumFields)
      ensures res.Ok? ==> Record() == res.value
      ensures res.Err? ==> Record() == old(Record()).(membros := RemoveAll(old(membros), u))
      ensures !IsMembro(u)
    {
      membros := RemoveAll(membros, u);
      res := Save(now);
    }

    /** `alterarStatus(novoStatus)`, then save. */
    method AlterarStatus(novoStatus: ForumStatus, now: Time) returns (res: Result<ForumRecord, Error>)
      modifies this
      ensures FieldsValid(old(nome), old(descricao), old(projeto)) ==>
                res == Ok(old(Record()).(status := novoStatus, dataAtualizacao := now))
      ensures !FieldsValid(old(nome), old(descricao), old(projeto)) ==> res == Err(InvalidForumFields)
      ensures res.Ok? ==> Record() == res.value
      ensures res.Err? ==> Record() == old(Record()).(status := novoStatus)
    {
      status := novoStatus;
      res := Save(now);
    }
  }
}
