/** The database the services work on: one map per collection, keyed by document id,
    a single id generator, and the hashtag statistics store. */
module Store {
  import opened Base
  import opened Seqs
  import opened UsuarioModel
  import opened ForumModel
  import opened FeedbackModel
  import opened HashtagModel

  /** Every key names its own document and was issued by the generator. */
  predicate UsuarioKeys(us: map<Id, UsuarioRecord>, nextId: Id) {
    forall k :: k in us ==> us[k].id == k && k < nextId
  }

  predicate ForumKeys(fs: map<Id, ForumRecord>, nextId: Id) {
    forall k :: k in fs ==> fs[k].id == k && k < nextId
  }

  predicate FeedbackKeys(fs: map<Id, FeedbackRecord>, nextId: Id) {
    forall k :: k in fs ==> fs[k].id == k && k < nextId
  }

  /** The unique index on the (lower-cased) e-mail. */
  predicate EmailsUnique(us: map<Id, UsuarioRecord>) {
    forall a, b :: a in us && b in us && a != b ==> us[a].email != us[b].email
  }

  /** What every stored user satisfies: a lower-cased e-mail and three achievement slots. */
  predicate UsuariosWellFormed(us: map<Id, UsuarioRecord>) {
    forall k :: k in us ==> us[k].email == NormalizeEmail(us[k].email) && |us[k].conquistas| == AchievementSlots
  }

  /** The unique index on the forum name. */
  predicate NamesUnique(fs: map<Id, ForumRecord>) {
    forall a, b :: a in fs && b in fs && a != b ==> fs[a].nome != fs[b].nome
  }

  /** What every stored forum satisfies: valid fields, a duplicate-free member list,
      and the creator among the members. */
  predicate ForunsWellFormed(fs: map<Id, ForumRecord>) {
    forall k :: k in fs ==>
      && FieldsValid(fs[k].nome, fs[k].descricao, fs[k].projeto)
      && NoDup(fs[k].membros)
      && fs[k].criador in fs[k].membros
  }

  /** Every stored feedback refers to exactly what its kind needs. */
  predicate FeedbacksWellFormed(fs: map<Id, FeedbackRecord>) {
    forall k :: k in fs ==> ShapeOk(fs[k])
  }

  class Database {
    var usuarios: map<Id, UsuarioRecord>
    var foruns: map<Id, ForumRecord>
    var feedbacks: map<Id, FeedbackRecord>
    /** The next id to issue; ids are never reused. */
    var nextId: Id
    const hashtagStats: HashtagStore

    ghost predicate Valid()
      reads this, hashtagStats
    {
      && UsuarioKeys(usuarios, nextId) && EmailsUnique(usuarios) && UsuariosWellFormed(usuarios)
      && ForumKeys(foruns, nextId) && NamesUnique(foruns) && ForunsWellFormed(foruns)
      && FeedbackKeys(feedbacks, nextId) && FeedbacksWellFormed(feedbacks)
      && hashtagStats.Valid()
    }

    constructor ()
      ensures Valid() && fresh(hashtagStats)
      ensures usuarios == map[] && foruns == map[] && feedbacks == map[] && hashtagStats.entries == []
    {
      usuarios, foruns, feedbacks, nextId := map[], map[], map[], 0;
      hashtagStats := new HashtagStore();
    }

    /** A fresh document id, distinct from every id issued before. */
    method NewId() returns (id: Id)
      requires Valid()
      modifies this
      ensures id == old(nextId) && nextId == id + 1
      ensures usuarios == old(usuarios) && foruns == old(foruns) && feedbacks == old(feedbacks)
      ensures id !in usuarios && id !in foruns && id !in feedbacks
      ensures Valid()
    {
      id := nextId;
      nextId := nextId + 1;
    }

    /** Storing a user under its own id, issued before, whose e-mail no other user holds. */
    method PutUsuario(u: UsuarioRecord)
      requires Valid() && u.id < nextId
      requires u.email == NormalizeEmail(u.email) && |u.conquistas| == AchievementSlots
      requires forall k :: k in usuarios && k != u.id ==> usuarios[k].email != u.email
      modifies this
      ensures usuarios == old(usuarios)[u.id := u]
      ensures foruns == old(foruns) && feedbacks == old(feedbacks) && nextId == old(nextId)
      ensures Valid()
    {
      usuarios := usuarios[u.id := u];
    }

    /** Storing a forum under its own id, issued before, whose name no other forum holds. */
    method PutForum(f: ForumRecord)
      requires Valid() && f.id < nextId
      requires FieldsValid(f.nome, f.descricao, f.projeto) && NoDup(f.membros) && f.criador in f.membros
      requires forall k :: k in foruns && k != f.id ==> foruns[k].nome != f.nome
      modifies this
      ensures foruns == old(foruns)[f.id := f]
      ensures usuarios == old(usuarios) && feedbacks == old(feedbacks) && nextId == old(nextId)
      ensures Valid()
    {
      foruns := foruns[f.id := f];
    }

    /** Storing a well-formed feedback under its own id, issued before. */
    method PutFeedback(r: FeedbackRecord)
      requires Valid() && r.id < nextId && ShapeOk(r)
      modifies this
      ensures feedbacks == old(feedbacks)[r.id := r]
      ensures usuarios == old(usuarios) && foruns == old(foruns) && nextId == old(nextId)
      ensures Valid()
    {
      feedbacks := feedbacks[r.id := r];
    }

    /** Replacing the user collection by one that keeps the user invariants. */
    method SetUsuarios(us: map<Id, UsuarioRecord>)
      requires Valid()
      requires UsuarioKeys(us, nextId) && EmailsUnique(us) && UsuariosWellFormed(us)
      modifies this
      ensures usuarios == us
      ensures foruns == old(foruns) && feedbacks == old(feedbacks) && nextId == old(nextId)
      ensures Valid()
    {
      usuarios := us;
    }
  }
}
