/** The feedback model: the record, the reaction list, the tag merge of the pre-save
    hook, the rules a save enforces, and the document whose instance methods change
    it and save it. Also the tag-count statics. */
module FeedbackModel {
  import opened Base
  import opened Errors
  import opened Seqs
  import opened Text
  import opened Sorting
  import opened TagTally

  datatype Tipo = Forum | P2P
  datatype Categoria = Bug | Melhoria | Elogio | Critica | Sugestao | Outro
  datatype Prioridade = Baixa | Media | Alta | Urgente
  datatype Status = Pendente | EmAnalise | Resolvido | Descartado

  /** The stored strings of the enumerations, as the list filters compare them. */
  function TipoName(t: Tipo): string {
    match t
    case Forum => "forum"
    case P2P => "p2p"
  }

  function CategoriaName(c: Categoria): string {
    match c
    case Bug => "bug"
    case Melhoria => "melhoria"
    case Elogio => "elogio"
    case Critica => "critica"
    case Sugestao => "sugestao"
    case Outro => "outro"
  }

  function PrioridadeName(p: Prioridade): string {
    match p
    case Baixa => "baixa"
    case Media => "media"
    case Alta => "alta"
    case Urgente => "urgente"
  }

  function StatusName(s: Status): string {
    match s
    case Pendente => "pendente"
    case EmAnalise => "em_analise"
    case Resolvido => "resolvido"
    case Descartado => "descartado"
  }

  /** One entry of `reacoes`. */
  datatype Reacao = Reacao(emoji: string, count: nat)

  /** A feedback document. */
  datatype FeedbackRecord = FeedbackRecord(
    id: Id,
    usuarioId: Id,
    forumId: Option<Id>,
    destinatarioId: Option<Id>,
    tipo: Tipo,
    conteudo: string,
    hashtags: seq<string>,
    isAnonimo: bool,
    isPrivado: bool,
    reacoes: seq<Reacao>,
    categoria: Option<Categoria>,
    prioridade: Option<Prioridade>,
    status: Option<Status>,
    analisadoPor: Option<Id>,
    dataCriacao: Time,
    dataAtualizacao: Time)

  // ----- Schema -----

  const MinContentLength: nat := 15
  const MaxContentLength: nat := 500
  const MaxEmojiLength: nat := 10
  /** The cap the pre-save hook puts on `hashtags`. */
  const MaxHashtags: nat := 10

  /** `conteudo`: required, 15 to 500 characters once trimmed. */
  predicate ValidContent(c: string) {
    MinContentLength <= |c| <= MaxContentLength
  }

  /** A `hashtags` element: `match` accepts the empty string and `^[a-zA-Z0-9_]+$`. */
  predicate ValidTagElement(t: string) {
    t == [] || IsWord(t)
  }

  /** A reaction's `emoji`: required, at most 10 characters. */
  predicate ValidEmoji(e: string) {
    0 < |e| <= MaxEmojiLength
  }

  /** The schema validators, which run before the pre-save hook. */
  predicate SchemaValid(r: FeedbackRecord) {
    && ValidContent(r.conteudo)
    && (forall i :: 0 <= i < |r.hashtags| ==> ValidTagElement(r.hashtags[i]))
    && (forall i :: 0 <= i < |r.reacoes| ==> ValidEmoji(r.reacoes[i].emoji))
  }

  /** A new feedback document: `conteudo` and each tag pass through their setters,
      the flags came in already defaulted to false, and the omitted enumerations take
      their defaults ('outro', 'media', 'pendente') whatever the kind. */
  function NewFeedback(id: Id, usuarioId: Id, tipo: Tipo, forumId: Option<Id>, destinatarioId: Option<Id>,
                       conteudo: string, hashtags: seq<string>, isAnonimo: bool, isPrivado: bool,
                       categoria: Option<Categoria>, prioridade: Option<Prioridade>, now: Time): (r: FeedbackRecord)
    ensures r.conteudo == Trim(conteudo) && |r.hashtags| == |hashtags|
    ensures forall i :: 0 <= i < |hashtags| ==> r.hashtags[i] == Normalize(hashtags[i])
    ensures r.reacoes == [] && r.analisadoPor.None? && r.status == Some(Pendente)
    ensures r.categoria == Some(if categoria.Some? then categoria.value else Outro)
    ensures r.prioridade == Some(if prioridade.Some? then prioridade.value else Media)
    ensures r.dataCriacao == now && r.dataAtualizacao == now
  {
    FeedbackRecord(id, usuarioId, forumId, destinatarioId, tipo, Trim(conteudo),
                   seq(|hashtags|, i requires 0 <= i < |hashtags| => Normalize(hashtags[i])),
                   isAnonimo, isPrivado, [],
                   Some(if categoria.Some? then categoria.value else Outro),
                   Some(if prioridade.Some? then prioridade.value else Media),
                   Some(Pendente), None, now, now)
  }

  // ----- The pre-save hook -----

  /** `this.hashtags.concat(extracted)`, de-duplicated, first ten. */
  function MergeHashtags(explicit: seq<string>, conteudo: string): seq<string> {
    Take(Dedup(explicit + ExtractHashtags(conteudo)), MaxHashtags)
  }

  /** The merged list has no duplicates and at most ten tags, all taken from the explicit
      or the extracted ones; the explicit tags come first in their own first-seen order;
      and when the union is small enough, none is lost. */
  lemma MergeHashtagsProperties(explicit: seq<string>, conteudo: string)
    ensures var m := MergeHashtags(explicit, conteudo);
      && NoDup(m)
      && |m| <= MaxHashtags
      && (forall t :: t in m ==> t in explicit || t in ExtractHashtags(conteudo))
      && Take(Dedup(explicit), MaxHashtags) <= m
      && (|Dedup(explicit + ExtractHashtags(conteudo))| <= MaxHashtags ==>
            forall t :: t in explicit || t in ExtractHashtags(conteudo) ==> t in m)
  {
    var all := explicit + ExtractHashtags(conteudo);
    var d := Dedup(all);
    DedupNoDup(all);
    DedupMembers(all);
    DedupAppend(explicit, ExtractHashtags(conteudo));
    var m := Take(d, MaxHashtags);
    assert forall i, j :: 0 <= i < j < |m| ==> m[i] == d[i] && m[j] == d[j];
    forall t | t in m ensures t in explicit || t in ExtractHashtags(conteudo) {
      assert t in d;
    }
    if |Dedup(explicit)| >= MaxHashtags {
      TakePrefix(Dedup(explicit), d, MaxHashtags);
    }
  }

  /** Saving a second time leaves the tags as the first save left them. */
  lemma MergeHashtagsIdempotent(explicit: seq<string>, conteudo: string)
    ensures MergeHashtags(MergeHashtags(explicit, conteudo), conteudo) == MergeHashtags(explicit, conteudo)
  {
    var e := ExtractHashtags(conteudo);
    var d := Dedup(explicit + e);
    var m := MergeHashtags(explicit, conteudo);
    MergeHashtagsProperties(explicit, conteudo);
    DedupOfNoDup(m);
    if |d| <= MaxHashtags {
      assert m == d;
      DedupMembers(explicit + e);
      DedupAppendContained(m, e);
    } else {
      DedupAppend(m, e);
      TakePrefix(m, Dedup(m + e), MaxHashtags);
    }
  }

  /** The loop of the hook that keeps the first copy of each tag. */
  method RemoverDuplicatas(todas: seq<string>) returns (unicas: seq<string>)
    ensures unicas == Dedup(todas)
    ensures NoDup(unicas)
    ensures forall t :: t in unicas <==> t in todas
  {
    unicas := [];
    var i := 0;
    while i < |todas|
      invariant 0 <= i <= |todas|
      invariant unicas == Dedup(todas[..i])
    {
      assert todas[..i + 1][..i] == todas[..i];
      DedupMembers(todas[..i]);
      if todas[i] !in unicas {
        unicas := unicas + [todas[i]];
      }
      i := i + 1;
    }
    assert todas[..|todas|] == todas;
    DedupNoDup(todas);
    DedupMembers(todas);
  }

  /** The four checks of the hook, in order: the error of the first that fails. */
  function ShapeError(tipo: Tipo, forumId: Option<Id>, destinatarioId: Option<Id>): Option<Error> {
    if tipo == Forum && forumId.None? then Some(ForumFeedbackWithoutForumId)
    else if tipo == P2P && destinatarioId.None? then Some(P2PFeedbackWithoutRecipient)
    else if tipo == Forum && destinatarioId.Some? then Some(ForumFeedbackWithRecipient)
    else if tipo == P2P && forumId.Some? then Some(P2PFeedbackWithForumId)
    else None
  }

  /** A forum feedback refers to a forum and no recipient; a P2P feedback the other way round. */
  predicate ShapeOk(r: FeedbackRecord) {
    if r.tipo == Forum then r.forumId.Some? && r.destinatarioId.None?
    else r.destinatarioId.Some? && r.forumId.None?
  }

  lemma ShapeErrorIff(r: FeedbackRecord)
    ensures ShapeError(r.tipo, r.forumId, r.destinatarioId).None? <==> ShapeOk(r)
  {
  }

  /** No management field is set. */
  predicate ManagementUnset(r: FeedbackRecord) {
    r.categoria.None? && r.prioridade.None? && r.status.None? && r.analisadoPor.None?
  }

  /** The record with every management field unset. */
  function ClearedManagement(r: FeedbackRecord): FeedbackRecord {
    r.(categoria := None, prioridade := None, status := None, analisadoPor := None)
  }

  /** `save()` on a document holding `r`: validation, then the hook. `isNew` and `modified`
      are the document's `isNew` and `isModified()` before the hook ran. */
  function SaveResult(r: FeedbackRecord, isNew: bool, modified: bool, now: Time): Result<FeedbackRecord, Error> {
    if !SchemaValid(r) then Err(FeedbackValidationFailed)
    else
      var merged := MergeHashtags(r.hashtags, r.conteudo);
      var shape := ShapeError(r.tipo, r.forumId, r.destinatarioId);
      if shape.Some? then Err(shape.value)
      else
        Ok(Finalized(r.(hashtags := merged), isNew, modified || merged != r.hashtags, now))
  }

  /** The rest of the hook once the tags are merged and the shape checked: a P2P
      feedback loses its management fields, and a stored document that changed gets
      the new update time. */
  function Finalized(r: FeedbackRecord, isNew: bool, modified: bool, now: Time): FeedbackRecord {
    var clear := r.tipo == P2P;
    var r2 := if clear then ClearedManagement(r) else r;
    var changed := modified || (clear && !ManagementUnset(r));
    if changed && !isNew then r2.(dataAtualizacao := now) else r2
  }

  /** What a successful save wrote: the merged tags, exactly the reference its kind needs,
      no management field on a P2P feedback, the other fields as they were, and a new
      update time only for a modified document that was stored before. */
  lemma SaveResultProperties(r: FeedbackRecord, isNew: bool, modified: bool, now: Time)
    ensures SaveResult(r, isNew, modified, now).Ok? <==>
              SchemaValid(r) && ShapeError(r.tipo, r.forumId, r.destinatarioId).None?
    ensures SaveResult(r, isNew, modified, now).Ok? ==>
              var s := SaveResult(r, isNew, modified, now).value;
              && s.hashtags == MergeHashtags(r.hashtags, r.conteudo)
              && ShapeOk(s)
              && (s.tipo == P2P ==> ManagementUnset(s))
              && (s.tipo == Forum ==> s.categoria == r.categoria && s.prioridade == r.prioridade
                                       && s.status == r.status && s.analisadoPor == r.analisadoPor)
              && s.(hashtags := r.hashtags, categoria := r.categoria, prioridade := r.prioridade,
                    status := r.status, analisadoPor := r.analisadoPor, dataAtualizacao := r.dataAtualizacao) == r
              && (isNew ==> s.dataAtualizacao == r.dataAtualizacao)
              && (modified && !isNew ==> s.dataAtualizacao == now)
  {
    ShapeErrorIff(r);
  }

  /** The first failing check decides the error. */
  lemma SaveErrors(r: FeedbackRecord, isNew: bool, modified: bool, now: Time)
    requires SchemaValid(r)
    ensures r.tipo == Forum && r.forumId.None? ==>
              SaveResult(r, isNew, modified, now) == Err(ForumFeedbackWithoutForumId)
    ensures r.tipo == P2P && r.destinatarioId.None? ==>
              SaveResult(r, isNew, modified, now) == Err(P2PFeedbackWithoutRecipient)
    ensures r.tipo == Forum && r.forumId.Some? && r.destinatarioId.Some? ==>
              SaveResult(r, isNew, modified, now) == Err(ForumFeedbackWithRecipient)
    ensures r.tipo == P2P && r.destinatarioId.Some? && r.forumId.Some? ==>
              SaveResult(r, isNew, modified, now) == Err(P2PFeedbackWithForumId)
  {
  }

  // ----- Reactions -----

  /** `reacoes.find(r => r.emoji === emoji)`: the position of the first entry for `emoji`. */
  function FindReacao(rs: seq<Reacao>, emoji: string): (r: Option<nat>)
    ensures r.Some? ==> r.value < |rs| && rs[r.value].emoji == emoji
                        && forall j :: 0 <= j < r.value ==> rs[j].emoji != emoji
    ensures r.None? ==> forall j :: 0 <= j < |rs| ==> rs[j].emoji != emoji
  {
    if |rs| == 0 then None
    else if rs[0].emoji == emoji then Some(0)
    else
      var r := FindReacao(rs[1..], emoji);
      if r.Some? then Some(r.value + 1) else None
  }

  /** The count shown for `emoji` (0 without an entry). */
  function CountOf(rs: seq<Reacao>, emoji: string): nat {
    var i := FindReacao(rs, emoji);
    if i.Some? then rs[i.value].count else 0
  }

  /** `adicionarReacao`: one more on the entry for `emoji`, or a new entry `{ emoji, 1 }`. */
  function AddReaction(rs: seq<Reacao>, emoji: string): seq<Reacao> {
    var i := FindReacao(rs, emoji);
    if i.Some? then rs[i.value := rs[i.value].(count := rs[i.value].count + 1)]
    else rs + [Reacao(emoji, 1)]
  }

  /** `removerReacao`: one less on a positive entry; an entry reaching 0 is dropped. */
  function RemoveReaction(rs: seq<Reacao>, emoji: string): seq<Reacao> {
    var i := FindReacao(rs, emoji);
    if i.Some? && rs[i.value].count > 0 then
      var dec := rs[i.value := rs[i.value].(count := rs[i.value].count - 1)];
      if dec[i.value].count == 0 then DropEmoji(dec, emoji) else dec
    else rs
  }

  /** `reacoes.filter(r => r.emoji !== emoji)`. */
  function DropEmoji(rs: seq<Reacao>, emoji: string): (r: seq<Reacao>)
    ensures |r| <= |rs|
  {
    if |rs| == 0 then []
    else (if rs[0].emoji == emoji then [] else [rs[0]]) + DropEmoji(rs[1..], emoji)
  }

  /** One entry per emoji, each with a positive count. */
  predicate ReactionsValid(rs: seq<Reacao>) {
    && (forall i, j :: 0 <= i < j < |rs| ==> rs[i].emoji != rs[j].emoji)
    && (forall i :: 0 <= i < |rs| ==> rs[i].count > 0)
  }

  /** The entry at `k` is the first one for `emoji`, so the lookup finds it. */
  lemma FindReacaoAt(rs: seq<Reacao>, emoji: string, k: nat)
    requires k < |rs| && rs[k].emoji == emoji
    requires forall j :: 0 <= j < k ==> rs[j].emoji != emoji
    ensures FindReacao(rs, emoji) == Some(k)
  {
    var r := FindReacao(rs, emoji);
    if r.Some? {
      assert !(r.value < k) && !(k < r.value);
    }
  }

  /** Adding a reaction appends `{ emoji, 1 }` for a new emoji, or increments only that
      emoji's entry; every other entry stays as it was. */
  lemma AddReactionEffect(rs: seq<Reacao>, emoji: string)
    ensures FindReacao(rs, emoji).None? ==> AddReaction(rs, emoji) == rs + [Reacao(emoji, 1)]
    ensures FindReacao(rs, emoji).Some? ==>
              var i := FindReacao(rs, emoji).value;
              |AddReaction(rs, emoji)| == |rs|
              && AddReaction(rs, emoji)[i] == Reacao(emoji, rs[i].count + 1)
              && forall j :: 0 <= j < |rs| && j != i ==> AddReaction(rs, emoji)[j] == rs[j]
    ensures CountOf(AddReaction(rs, emoji), emoji) == CountOf(rs, emoji) + 1
  {
    var i := FindReacao(rs, emoji);
    var a := AddReaction(rs, emoji);
    if i.None? {
      assert a == rs + [Reacao(emoji, 1)];
      assert forall j :: 0 <= j < |rs| ==> a[j] == rs[j];
      FindReacaoAt(a, emoji, |rs|);
    } else {
      var k := i.value;
      assert a == rs[k := Reacao(emoji, rs[k].count + 1)];
      assert forall j :: 0 <= j < k ==> a[j] == rs[j];
      FindReacaoAt(a, emoji, k);
    }
  }

  lemma {:induction false} DropAbsentEmoji(rs: seq<Reacao>, emoji: string)
    requires forall j :: 0 <= j < |rs| ==> rs[j].emoji != emoji
    ensures DropEmoji(rs, emoji) == rs
  {
    if |rs| > 0 {
      DropAbsentEmoji(rs[1..], emoji);
    }
  }

  lemma {:induction false} DropOneEmoji(rs: seq<Reacao>, i: nat, emoji: string)
    requires i < |rs| && rs[i].emoji == emoji
    requires forall j :: 0 <= j < |rs| && j != i ==> rs[j].emoji != emoji
    ensures DropEmoji(rs, emoji) == rs[..i] + rs[i + 1..]
  {
    if i == 0 {
      DropAbsentEmoji(rs[1..], emoji);
    } else {
      DropOneEmoji(rs[1..], i - 1, emoji);
      assert rs[1..][..i - 1] == rs[1..i];
      assert rs[1..][i - 1 + 1..] == rs[i + 1..];
      assert rs[..i] == [rs[0]] + rs[1..i];
    }
  }

  /** Removing the last use of an emoji drops its entry, and its count is then 0. */
  lemma RemoveLastUse(rs: seq<Reacao>, emoji: string, k: nat)
    requires ReactionsValid(rs) && FindReacao(rs, emoji) == Some(k) && rs[k].count == 1
    ensures RemoveReaction(rs, emoji) == rs[..k] + rs[k + 1..]
    ensures CountOf(RemoveReaction(rs, emoji), emoji) == 0
  {
    var dec := rs[k := rs[k].(count := 0)];
    DropOneEmoji(dec, k, emoji);
    assert dec[..k] + dec[k + 1..] == rs[..k] + rs[k + 1..];
    RemoveAtLacksEmoji(rs, k, rs[..k] + rs[k + 1..]);
  }

  /** In a valid list, removing the entry at `k` leaves no entry with its emoji. */
  lemma RemoveAtLacksEmoji(rs: seq<Reacao>, k: nat, r: seq<Reacao>)
    requires ReactionsValid(rs) && k < |rs| && r == rs[..k] + rs[k + 1..]
    ensures forall j :: 0 <= j < |r| ==> r[j].emoji != rs[k].emoji
  {
    assert forall j :: 0 <= j < |r| ==> r[j] == rs[if j < k then j else j + 1];
  }

  /** Removing one of several uses of an emoji lowers its count in place. */
  lemma RemoveOneOfMany(rs: seq<Reacao>, emoji: string, k: nat)
    requires FindReacao(rs, emoji) == Some(k) && rs[k].count > 1
    ensures RemoveReaction(rs, emoji) == rs[k := Reacao(emoji, rs[k].count - 1)]
    ensures CountOf(RemoveReaction(rs, emoji), emoji) == rs[k].count - 1
  {
    var dec := rs[k := Reacao(emoji, rs[k].count - 1)];
    assert RemoveReaction(rs, emoji) == dec;
    assert forall j :: 0 <= j < k ==> dec[j] == rs[j];
    FindReacaoAt(dec, emoji, k);
  }

  /** On a valid list, removing a reaction takes one off that emoji's count, dropping the
      entry once it reaches 0; an absent emoji changes nothing. */
  lemma RemoveReactionEffect(rs: seq<Reacao>, emoji: string)
    requires ReactionsValid(rs)
    ensures FindReacao(rs, emoji).None? ==> RemoveReaction(rs, emoji) == rs
    ensures FindReacao(rs, emoji).Some? ==>
              var i := FindReacao(rs, emoji).value;
              if rs[i].count == 1 then RemoveReaction(rs, emoji) == rs[..i] + rs[i + 1..]
              else RemoveReaction(rs, emoji) == rs[i := Reacao(emoji, rs[i].count - 1)]
    ensures CountOf(RemoveReaction(rs, emoji), emoji) == if CountOf(rs, emoji) > 0 then CountOf(rs, emoji) - 1 else 0
  {
    var i := FindReacao(rs, emoji);
    if i.Some? {
      if rs[i.value].count == 1 {
        RemoveLastUse(rs, emoji, i.value);
      } else {
        RemoveOneOfMany(rs, emoji, i.value);
      }
    }
  }

  lemma AddReactionValid(rs: seq<Reacao>, emoji: string)
    requires ReactionsValid(rs)
    ensures ReactionsValid(AddReaction(rs, emoji))
  {
  }

  lemma RemoveAtValid(rs: seq<Reacao>, k: nat)
    requires ReactionsValid(rs) && k < |rs|
    ensures ReactionsValid(rs[..k] + rs[k + 1..])
  {
    var r := rs[..k] + rs[k + 1..];
    assert forall a :: 0 <= a < |r| ==> r[a] == rs[if a < k then a else a + 1];
  }

  lemma RemoveReactionValid(rs: seq<Reacao>, emoji: string)
    requires ReactionsValid(rs)
    ensures ReactionsValid(RemoveReaction(rs, emoji))
  {
    var i := FindReacao(rs, emoji);
    if i.Some? {
      if rs[i.value].count == 1 {
        RemoveLastUse(rs, emoji, i.value);
        RemoveAtValid(rs, i.value);
      } else {
        RemoveOneOfMany(rs, emoji, i.value);
      }
    }
  }

  /** Adding a reaction and removing it again restores the list. */
  lemma AddThenRemove(rs: seq<Reacao>, emoji: string)
    requires ReactionsValid(rs)
    ensures RemoveReaction(AddReaction(rs, emoji), emoji) == rs
  {
    var i := FindReacao(rs, emoji);
    var a := AddReaction(rs, emoji);
    AddReactionEffect(rs, emoji);
    AddReactionValid(rs, emoji);
    RemoveReactionEffect(a, emoji);
    if i.None? {
      assert FindReacao(a, emoji) == Some(|rs|) by {
        assert a[|rs|].emoji == emoji;
      }
      assert a[..|rs|] + a[|rs| + 1..] == rs;
    } else {
      assert FindReacao(a, emoji) == i by {
        assert forall j :: 0 <= j < i.value ==> a[j] == rs[j];
      }
      assert a[i.value := Reacao(emoji, a[i.value].count - 1)] == rs;
    }
  }

  // ----- Tag-count statics -----

  /** `obterHashtagsPopulares(limite)`: the aggregate that unwinds every feedback's tags,
      counts each tag and keeps the `limite` most used (a non-positive `$limit` is rejected).
      Equal counts are listed in first-seen order. */
  function HashtagsPopulares(fs: seq<FeedbackRecord>, limite: int): (r: Option<seq<TagCount>>)
    ensures limite <= 0 <==> r.None?
    ensures r.Some? ==> r.value == Ranking(Flatten(AllTags(fs)), limite)
  {
    if limite <= 0 then None else Some(Ranking(Flatten(AllTags(fs)), limite))
  }

  /** `obterHashtagsTrending(dias, limite)`: the same count over the feedbacks created
      at or after `dias` days before `now`. */
  function HashtagsTrending(fs: seq<FeedbackRecord>, dias: int, limite: int, now: Time): (r: Option<seq<TagCount>>)
    ensures limite <= 0 <==> r.None?
    ensures r.Some? ==> r.value == Ranking(Flatten(AllTags(CreatedSince(fs, DaysBefore(now, dias)))), limite)
    ensures r.Some? ==> forall t :: t in r.value ==> t.usos <= |Flatten(AllTags(fs))|
  {
    var recent := CreatedSince(fs, DaysBefore(now, dias));
    if limite <= 0 then None
    else
      var all := Flatten(AllTags(recent));
      TallyComplete(all);
      forall t | t in Ranking(all, limite) ensures t.usos <= |Flatten(AllTags(fs))| {
        TallyBound(all, t);
        CreatedSinceFewerTags(fs, DaysBefore(now, dias));
      }
      Some(Ranking(all, limite))
  }

  /** When every feedback falls inside the window, the trending count is the all-time one. */
  lemma TrendingOverWholeHistory(fs: seq<FeedbackRecord>, dias: int, limite: int, now: Time)
    requires forall i :: 0 <= i < |fs| ==> fs[i].dataCriacao >= DaysBefore(now, dias)
    ensures HashtagsTrending(fs, dias, limite, now) == HashtagsPopulares(fs, limite)
  {
    FilterAll(fs, Since(DaysBefore(now, dias)));
  }

  lemma TallyBound(all: seq<string>, t: TagCount)
    requires t in Tally(all)
    ensures t.usos <= |all|
  {
    TallyComplete(all);
  }

  /** The tag lists of the feedbacks, in order. */
  function AllTags(fs: seq<FeedbackRecord>): (r: seq<seq<string>>)
    ensures |r| == |fs|
    ensures forall i :: 0 <= i < |fs| ==> r[i] == fs[i].hashtags
  {
    seq(|fs|, i requires 0 <= i < |fs| => fs[i].hashtags)
  }

  /** The feedbacks created at or after `since`. */
  function CreatedSince(fs: seq<FeedbackRecord>, since: Time): (r: seq<FeedbackRecord>)
    ensures forall f :: f in r <==> f in fs && f.dataCriacao >= since
  {
    Filter(fs, Since(since))
  }

  function Since(since: Time): FeedbackRecord -> bool {
    (f: FeedbackRecord) => f.dataCriacao >= since
  }

  lemma {:induction false} FlattenAppend(a: seq<seq<string>>, b: seq<seq<string>>)
    ensures Flatten(a + b) == Flatten(a) + Flatten(b)
    decreases |b|
  {
    if |b| > 0 {
      assert (a + b)[..|a + b| - 1] == a + b[..|b| - 1];
      FlattenAppend(a, b[..|b| - 1]);
    } else {
      assert a + b == a;
    }
  }

  /** The number of tags the records hold together. */
  function TagUses(fs: seq<FeedbackRecord>): nat {
    |Flatten(AllTags(fs))|
  }

  lemma TagUsesAppend(a: seq<FeedbackRecord>, b: seq<FeedbackRecord>)
    ensures TagUses(a + b) == TagUses(a) + TagUses(b)
  {
    assert AllTags(a + b) == AllTags(a) + AllTags(b);
    FlattenAppend(AllTags(a), AllTags(b));
  }

  lemma TagUsesOne(f: FeedbackRecord)
    ensures TagUses([f]) == |f.hashtags|
  {
    var ls := AllTags([f]);
    assert ls == [f.hashtags];
    assert ls[..0] == [];
    assert Flatten(ls) == Flatten([]) + f.hashtags;
  }

  lemma {:induction false} FilterFewerTags(fs: seq<FeedbackRecord>, p: FeedbackRecord -> bool)
    ensures TagUses(Filter(fs, p)) <= TagUses(fs)
  {
    if |fs| > 0 {
      var init := fs[..|fs| - 1];
      var last := fs[|fs| - 1];
      assert fs == init + [last];
      TagUsesAppend(init, [last]);
      FilterAppend(init, [last], p);
      TagUsesAppend(Filter(init, p), Filter([last], p));
      FilterFewerTags(init, p);
      TagUsesOne(last);
      if p(last) {
        assert Filter([last], p) == [last];
      } else {
        assert Filter([last], p) == [];
      }
    }
  }

  lemma CreatedSinceFewerTags(fs: seq<FeedbackRecord>, since: Time)
    ensures |Flatten(AllTags(CreatedSince(fs, since)))| <= |Flatten(AllTags(fs))|
  {
    FilterFewerTags(fs, Since(since));
  }

  /** `buscarPorHashtag(hashtag)`: the feedbacks whose tags include the lower-cased tag. */
  function BuscarPorHashtag(fs: map<Id, FeedbackRecord>, hashtag: string): (r: set<Id>)
    ensures forall id :: id in r <==> id in fs && ToLower(hashtag) in fs[id].hashtags
  {
    set id | id in fs && ToLower(hashtag) in fs[id].hashtags
  }

  // ----- The document -----

  /** A feedback document in memory: loaded from the store or built by `new Feedback`,
      changed by its instance methods, and written back by `save()`. */
  class FeedbackDoc {
    var id: Id
    var usuarioId: Id
    var forumId: Option<Id>
    var destinatarioId: Option<Id>
    var tipo: Tipo
    var conteudo: string
    var hashtags: seq<string>
    var isAnonimo: bool
    var isPrivado: bool
    var reacoes: seq<Reacao>
    var categoria: Option<Categoria>
    var prioridade: Option<Prioridade>
    var status: Option<Status>
    var analisadoPor: Option<Id>
    var dataCriacao: Time
    var dataAtualizacao: Time
    /** `isNew`: not yet stored. */
    var isNew: bool
    /** `isModified()`: some path was changed since the document was loaded or built. */
    var modified: bool

    function Record(): FeedbackRecord
      reads this
    {
      FeedbackRecord(id, usuarioId, forumId, destinatarioId, tipo, conteudo, hashtags, isAnonimo,
                     isPrivado, reacoes, categoria, prioridade, status, analisadoPor, dataCriacao,
                     dataAtualizacao)
    }

    /** A document holding `r`: a new one (`isNew`) or one loaded from the store. */
    constructor Init(r: FeedbackRecord, created: bool)
      ensures Record() == r && isNew == created && modified == created
    {
      id, usuarioId, forumId, destinatarioId, tipo := r.id, r.usuarioId, r.forumId, r.destinatarioId, r.tipo;
      conteudo, hashtags, isAnonimo, isPrivado, reacoes := r.conteudo, r.hashtags, r.isAnonimo, r.isPrivado, r.reacoes;
      categoria, prioridade, status, analisadoPor := r.categoria, r.prioridade, r.status, r.analisadoPor;
      dataCriacao, dataAtualizacao := r.dataCriacao, r.dataAtualizacao;
      isNew, modified := created, created;
    }

    /** `isFeedbackDeForum()`. */
    predicate IsFeedbackDeForum()
      reads this
    {
      tipo == Forum
    }

    /** `isFeedbackP2P()`. */
    predicate IsFeedbackP2P()
      reads this
    {
      tipo == P2P
    }

    lemma ExactlyOneKind()
      ensures IsFeedbackDeForum() != IsFeedbackP2P()
    {
    }

    /** `extrairHashtagsDoTexto()`. */
    function ExtrairHashtagsDoTexto(): (r: seq<string>)
      reads this
      ensures forall i :: 0 <= i < |r| ==> IsTag(r[i])
      ensures '#' !in conteudo ==> r == []
    {
      if '#' !in conteudo then ExtractNoHash(conteudo); ExtractHashtags(conteudo)
      else ExtractHashtags(conteudo)
    }

    /** The first step of the pre-save hook: the explicit and the extracted tags,
        de-duplicated and capped. Assigning an equal list marks nothing as changed. */
    method MergeTags()
      modifies this
      ensures Record() == old(Record()).(hashtags := MergeHashtags(old(hashtags), old(conteudo)))
      ensures isNew == old(isNew)
      ensures modified == (old(modified) || hashtags != old(hashtags))
    {
      var hashtagsTexto := ExtractHashtags(conteudo);
      var todasHashtags := hashtags + hashtagsTexto;
      var hashtagsUnicas := RemoverDuplicatas(todasHashtags);
      var merged := Take(hashtagsUnicas, MaxHashtags);
      modified := modified || merged != hashtags;
      hashtags := merged;
    }

    /** The P2P step of the hook: the management fields are unset. */
    method ClearManagement()
      modifies this
      ensures Record() == ClearedManagement(old(Record()))
      ensures isNew == old(isNew)
      ensures modified == (old(modified) || !ManagementUnset(old(Record())))
    {
      var r := Record();
      modified := modified || !ManagementUnset(r);
      categoria, prioridade, status, analisadoPor := None, None, None, None;
      assert Record() == ClearedManagement(r);
    }

    /** `save()`: the validators, then the pre-save hook. On success the document is
        stored and no longer new or modified. */
    method Save(now: Time) returns (res: Result<FeedbackRecord, Error>)
      modifies this
      ensures res == SaveResult(old(Record()), old(isNew), old(modified), now)
      ensures res.Ok? ==> Record() == res.value && !isNew && !modified
      ensures res.Err? && SchemaValid(old(Record())) ==>
                Record() == old(Record()).(hashtags := MergeHashtags(old(hashtags), old(conteudo)))
      ensures res.Err? && !SchemaValid(old(Record())) ==> Record() == old(Record())
    {
      if !SchemaValid(Record()) {
        return Err(FeedbackValidationFailed);
      }
      MergeTags();
      var shape := ShapeError(tipo, forumId, destinatarioId);
      if shape.Some? {
        return Err(shape.value);
      }
      Finish(now);
      res := Ok(Record());
    }

    /** The hook's P2P step and the update stamp; the document is then stored. */
    method Finish(now: Time)
      modifies this
      ensures Record() == Finalized(old(Record()), old(isNew), old(modified), now)
      ensures !isNew && !modified
    {
      if tipo == P2P {
        ClearManagement();
      }
      if modified && !isNew {
        dataAtualizacao := now;
      }
      isNew, modified := false, false;
    }

    /** `adicionarReacao(emoji)`, then save. */
    method AdicionarReacao(emoji: string, now: Time) returns (res: Result<FeedbackRecord, Error>)
      modifies this
      ensures res == SaveResult(old(Record()).(reacoes := AddReaction(old(reacoes), emoji)), old(isNew), true, now)
      ensures res.Ok? ==> Record() == res.value && !isNew && !modified
    {
      reacoes := AddReaction(reacoes, emoji);
      modified := true;
      res := Save(now);
    }

    /** `removerReacao(emoji)`, then save; only a present, positive entry marks a change. */
    method RemoverReacao(emoji: string, now: Time) returns (res: Result<FeedbackRecord, Error>)
      modifies this
      ensures var i := FindReacao(old(reacoes), emoji);
              res == SaveResult(old(Record()).(reacoes := RemoveReaction(old(reacoes), emoji)), old(isNew),
                                old(modified) || (i.Some? && old(reacoes)[i.value].count > 0), now)
      ensures res.Ok? ==> Record() == res.value && !isNew && !modified
    {
      var i := FindReacao(reacoes, emoji);
      if i.Some? && reacoes[i.value].count > 0 {
        modified := true;
      }
      reacoes := RemoveReaction(reacoes, emoji);
      res := Save(now);
    }

    /** `alterarStatus(novoStatus, adminId)`, then save. */
    method AlterarStatus(novoStatus: Status, adminId: Id, now: Time) returns (res: Result<FeedbackRecord, Error>)
      modifies this
      ensures res == SaveResult(old(Record()).(status := Some(novoStatus), analisadoPor := Some(adminId)),
                                old(isNew), old(modified) || old(status) != Some(novoStatus) || old(analisadoPor) != Some(adminId), now)
      ensures res.Ok? ==> Record() == res.value && !isNew && !modified
    {
      if status != Some(novoStatus) || analisadoPor != Some(adminId) {
        modified := true;
      }
      status, analisadoPor := Some(novoStatus), Some(adminId);
      res := Save(now);
    }

    /** `adicionarHashtag(hashtag)`: the cleaned tag is appended when non-empty and new; then save. */
    method AdicionarHashtag(hashtag: string, now: Time) returns (res: Result<FeedbackRecord, Error>)
      modifies this
      ensures var t := CleanTag(hashtag);
              var added := t != [] && t !in old(hashtags);
              res == SaveResult(old(Record()).(hashtags := if added then old(hashtags) + [t] else old(hashtags)),
                                old(isNew), old(modified) || added, now)
      ensures res.Ok? ==> Record() == res.value && !isNew && !modified
    {
      var hashtagLimpa := CleanTag(hashtag);
      if hashtagLimpa != [] && hashtagLimpa !in hashtags {
        hashtags := hashtags + [hashtagLimpa];
        modified := true;
      }
      res := Save(now);
    }

    /** `removerHashtag(hashtag)`: every copy of the lower-cased tag is dropped; then save. */
    method RemoverHashtag(hashtag: string, now: Time) returns (res: Result<FeedbackRecord, Error>)
      modifies this
      ensures var kept := RemoveAll(old(hashtags), ToLower(hashtag));
              res == SaveResult(old(Record()).(hashtags := kept), old(isNew), old(modified) || kept != old(hashtags), now)
      ensures res.Ok? ==> Record() == res.value && !isNew && !modified
    {
      var kept := RemoveAll(hashtags, ToLower(hashtag));
      if kept != hashtags {
        modified := true;
      }
      hashtags := kept;
      res := Save(now);
    }
  }

  /** A tag added to a feedback that already holds ten tags is dropped by the cap. */
  lemma AddedTagCappedAway(tags: seq<string>, conteudo: string, t: string)
    requires NoDup(tags) && |tags| == MaxHashtags && t !in tags
    ensures MergeHashtags(tags + [t], conteudo) == tags
  {
    DedupAppend(tags + [t], ExtractHashtags(conteudo));
    DedupOfNoDup(tags + [t]);
    TakePrefix(tags, tags + [t], MaxHashtags);
    TakePrefix(tags + [t], Dedup(tags + [t] + ExtractHashtags(conteudo)), MaxHashtags);
  }

  /** A tag written as `#tag` in the content cannot be removed: the hook extracts it again. */
  lemma RemovedContentTagReturns(tags: seq<string>, conteudo: string, t: string)
    requires t in ExtractHashtags(conteudo)
    requires |Dedup(RemoveAll(tags, t) + ExtractHashtags(conteudo))| <= MaxHashtags
    ensures t in MergeHashtags(RemoveAll(tags, t), conteudo)
  {
    MergeHashtagsProperties(RemoveAll(tags, t), conteudo);
  }
}
