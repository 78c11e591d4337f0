/** The hashtag service: ranked queries over the statistics store, suggestions from free
    text, the general figures, the inactivity sweep and the analysis of a period. */
module HashtagService {
  import opened Base
  import opened Seqs
  import opened Text
  import opened Sorting
  import opened TagTally
  import opened HashtagModel
  import opened FeedbackModel

  // ----- Sort keys -----

  /** `sort({ total_usos: -1 })`. */
  predicate MoreUsed(a: HashtagStats, b: HashtagStats) {
    a.totalUsos >= b.totalUsos
  }

  /** `sort({ usos_ultima_semana: -1, ultimo_uso: -1 })`. */
  predicate MoreTrending(a: HashtagStats, b: HashtagStats) {
    a.usosSemana > b.usosSemana || (a.usosSemana == b.usosSemana && a.ultimoUso >= b.ultimoUso)
  }

  lemma SortKeysArePreorders()
    ensures TotalPreorder(MoreUsed)
    ensures TotalPreorder(MoreTrending)
  {
  }

  predicate Ativa(h: HashtagStats) {
    h.ativa
  }

  predicate AtivaTrending(h: HashtagStats) {
    h.ativa && h.usosSemana >= TrendingThreshold
  }

  /** `tag` matches `texto` case-insensitively, on an active entry. */
  predicate AtivaContendo(h: HashtagStats, texto: string) {
    h.ativa && Contains(ToLower(h.tag), ToLower(texto))
  }

  // ----- Ranked queries -----

  /** `obterHashtagsPopulares(limite)`: active entries, most used first, at most `limite`
      (zero means no limit, a negative limit counts as its magnitude). */
  function ObterHashtagsPopulares(entries: seq<HashtagStats>, limite: int): (r: seq<HashtagStats>)
    ensures forall h :: h in r ==> h in entries && h.ativa
    ensures SortedBy(r, MoreUsed)
    ensures limite != 0 ==> |r| == Min(|Filter(entries, Ativa)|, Abs(limite))
    ensures forall h :: h in entries && h.ativa && h !in r ==> forall g :: g in r ==> g.totalUsos >= h.totalUsos
    ensures limite == 0 ==> multiset(r) == multiset(Filter(entries, Ativa))
    ensures NoDup(entries) ==> NoDup(r)
  {
    SortKeysArePreorders();
    RankedQuery(entries, Ativa, MoreUsed, limite);
    MongoLimit(SortBy(Filter(entries, Ativa), MoreUsed), limite)
  }

  /** `obterHashtagsTrending(limite)`: active entries used at least three times this week,
      by weekly uses and then by last use, at most `limite`. */
  function ObterHashtagsTrending(entries: seq<HashtagStats>, limite: int): (r: seq<HashtagStats>)
    ensures forall h :: h in r ==> h in entries && h.ativa && IsTrending(h)
    ensures SortedBy(r, MoreTrending)
    ensures limite != 0 ==> |r| == Min(|Filter(entries, AtivaTrending)|, Abs(limite))
    ensures limite == 0 ==> multiset(r) == multiset(Filter(entries, AtivaTrending))
    ensures forall h :: h in entries && AtivaTrending(h) && h !in r ==> forall g :: g in r ==> MoreTrending(g, h)
    ensures NoDup(entries) ==> NoDup(r)
  {
    SortKeysArePreorders();
    RankedQuery(entries, AtivaTrending, MoreTrending, limite);
    MongoLimit(SortBy(Filter(entries, AtivaTrending), MoreTrending), limite)
  }

  /** `buscarHashtags(texto, limite)`: active entries whose tag contains `texto`, ignoring
      case, most used first, at most `limite`. */
  function BuscarHashtags(entries: seq<HashtagStats>, texto: string, limite: int): (r: seq<HashtagStats>)
    ensures forall h :: h in r ==> h in entries && AtivaContendo(h, texto)
    ensures SortedBy(r, MoreUsed)
    ensures limite != 0 ==> |r| == Min(|Filter(entries, Contendo(texto))|, Abs(limite))
    ensures limite == 0 ==> multiset(r) == multiset(Filter(entries, Contendo(texto)))
    ensures forall h :: h in entries && AtivaContendo(h, texto) && h !in r ==> forall g :: g in r ==> g.totalUsos >= h.totalUsos
    ensures NoDup(entries) ==> NoDup(r)
  {
    SortKeysArePreorders();
    RankedQuery(entries, Contendo(texto), MoreUsed, limite);
    MongoLimit(SortBy(Filter(entries, Contendo(texto)), MoreUsed), limite)
  }

  /** The filter of the text search, as a predicate on entries. */
  function Contendo(texto: string): HashtagStats -> bool {
    (h: HashtagStats) => AtivaContendo(h, texto)
  }

  // ----- Suggestions -----

  predicate LongEnough(w: string) {
    |w| >= 3
  }

  /** `replace(/[^a-zA-Z0-9]/g, '')`. */
  function StripNonAlnum(w: string): (r: string)
    ensures forall i :: 0 <= i < |r| ==> IsAlnum(r[i])
  {
    Filter(w, IsAlnum)
  }

  /** The words of `obterSugestoes`: lower-cased, split on white space, those of three or
      more characters kept, and only then stripped of everything but letters and digits. */
  function Palavras(texto: string): (r: seq<string>)
    ensures forall i :: 0 <= i < |r| ==> forall j :: 0 <= j < |r[i]| ==> IsAlnum(r[i][j])
  {
    var longas := Filter(Tokens(ToLower(texto)), LongEnough);
    seq(|longas|, i requires 0 <= i < |longas| => StripNonAlnum(longas[i]))
  }

  /** The per-word query: the two most used active entries matching the word. */
  function Candidatos(entries: seq<HashtagStats>, palavra: string): (r: seq<HashtagStats>)
    ensures |r| == Min(|Filter(entries, Contendo(palavra))|, 2) && SortedBy(r, MoreUsed)
    ensures forall h :: h in r ==> h in entries && AtivaContendo(h, palavra)
    ensures forall h :: h in entries && AtivaContendo(h, palavra) && h !in r ==> forall g :: g in r ==> g.totalUsos >= h.totalUsos
  {
    SortKeysArePreorders();
    RankedQuery(entries, Contendo(palavra), MoreUsed, 2);
    MongoLimit(SortBy(Filter(entries, Contendo(palavra)), MoreUsed), 2)
  }

  /** The `forEach` over one word's candidates: each new tag is pushed while fewer than
      `limite` are held. */
  function PushTags(sugestoes: seq<string>, hs: seq<HashtagStats>, limite: int): seq<string>
    decreases |hs|
  {
    if |hs| == 0 then sugestoes
    else
      var s := PushTags(sugestoes, hs[..|hs| - 1], limite);
      var t := hs[|hs| - 1].tag;
      if t !in s && |s| < limite then s + [t] else s
  }

  /** The suggestions after visiting `palavras` in order. */
  function Sugestoes(entries: seq<HashtagStats>, palavras: seq<string>, limite: int): seq<string>
    decreases |palavras|
  {
    if |palavras| == 0 then []
    else PushTags(Sugestoes(entries, palavras[..|palavras| - 1], limite), Candidatos(entries, palavras[|palavras| - 1]), limite)
  }

  /** One word's `forEach`. */
  method PushCandidatos(sugestoes0: seq<string>, hashtags: seq<HashtagStats>, limite: int) returns (sugestoes: seq<string>)
    ensures sugestoes == PushTags(sugestoes0, hashtags, limite)
  {
    sugestoes := sugestoes0;
    for j := 0 to |hashtags|
      invariant sugestoes == PushTags(sugestoes0, hashtags[..j], limite)
    {
      assert hashtags[..j + 1][..j] == hashtags[..j];
      if hashtags[j].tag !in sugestoes && |sugestoes| < limite {
        sugestoes := sugestoes + [hashtags[j].tag];
      }
    }
    assert hashtags[..|hashtags|] == hashtags;
  }

  /** `obterSugestoes(texto, limite)`. */
  method ObterSugestoes(entries: seq<HashtagStats>, texto: string, limite: int) returns (sugestoes: seq<string>)
    ensures sugestoes == Sugestoes(entries, Palavras(texto), limite)
  {
    var palavras := Palavras(texto);
    sugestoes := [];
    for i := 0 to |palavras|
      invariant sugestoes == Sugestoes(entries, palavras[..i], limite)
    {
      ghost var prefix := palavras[..i + 1];
      assert prefix[..i] == palavras[..i] && prefix[i] == palavras[i];
      var hashtags := Candidatos(entries, palavras[i]);
      sugestoes := PushCandidatos(sugestoes, hashtags, limite);
      assert sugestoes == Sugestoes(entries, prefix, limite);
    }
    assert palavras[..|palavras|] == palavras;
  }

  /** What one word's pass keeps: no duplicates, the cap, at most one tag per candidate,
      and only candidates' tags. */
  lemma {:induction false} PushTagsProperties(sugestoes: seq<string>, hs: seq<HashtagStats>, limite: int)
    requires NoDup(sugestoes) && |sugestoes| <= if limite < 0 then 0 else limite
    ensures var r := PushTags(sugestoes, hs, limite);
      && NoDup(r)
      && |r| <= (if limite < 0 then 0 else limite)
      && |r| <= |sugestoes| + |hs|
      && sugestoes <= r
      && (forall t :: t in r ==> t in sugestoes || exists h :: h in hs && h.tag == t)
    decreases |hs|
  {
    if |hs| > 0 {
      var init := hs[..|hs| - 1];
      PushTagsProperties(sugestoes, init, limite);
      var s := PushTags(sugestoes, init, limite);
      var t := hs[|hs| - 1].tag;
      forall u | u in PushTags(sugestoes, hs, limite) ensures u in sugestoes || exists h :: h in hs && h.tag == u {
        if u in s {
          if u !in sugestoes {
            var h :| h in init && h.tag == u;
            assert h in hs;
          }
        } else {
          assert hs[|hs| - 1] in hs;
        }
      }
    }
  }

  /** `obterSugestoes` returns no duplicates and at most `limite` tags, at most two per
      word, each the tag of an active entry that contains one of the words. */
  lemma {:induction false} SugestoesProperties(entries: seq<HashtagStats>, palavras: seq<string>, limite: int)
    ensures var r := Sugestoes(entries, palavras, limite);
      && NoDup(r)
      && |r| <= (if limite < 0 then 0 else limite)
      && |r| <= 2 * |palavras|
      && (forall t :: t in r ==> exists h, w :: h in entries && w in palavras && h.tag == t && AtivaContendo(h, w))
    decreases |palavras|
  {
    if |palavras| > 0 {
      var init := palavras[..|palavras| - 1];
      var w := palavras[|palavras| - 1];
      SugestoesProperties(entries, init, limite);
      var s := Sugestoes(entries, init, limite);
      var cs := Candidatos(entries, w);
      PushTagsProperties(s, cs, limite);
      forall t | t in Sugestoes(entries, palavras, limite)
        ensures exists h, v :: h in entries && v in palavras && h.tag == t && AtivaContendo(h, v)
      {
        if t in s {
          var h, v :| h in entries && v in init && h.tag == t && AtivaContendo(h, v);
          assert v in palavras;
        } else {
          var h :| h in cs && h.tag == t;
          assert w in palavras;
        }
      }
    }
  }

  /** A word of three or more characters with no letter or digit, such as "!!!", is kept by
      the length filter and then stripped to the empty word, which every tag contains. */
  lemma PunctuationWordMatchesEverything(entries: seq<HashtagStats>, h: HashtagStats)
    requires h in entries && h.ativa
    ensures Palavras("!!!") == [""]
    ensures AtivaContendo(h, "")
    ensures Candidatos(entries, "") == MongoLimit(SortBy(Filter(entries, Ativa), MoreUsed), 2)
  {
    var t: string := "!!!";
    assert ToLower(t) == t;
    assert Tokens(t) == [t] by {
      assert NotSpace(t[0]) && NotSpace(t[1]) && NotSpace(t[2]);
      assert Span(t, NotSpace) == 3;
      assert t[..3] == t && t[3..] == [];
    }
    assert Filter([t], LongEnough) == [t];
    assert StripNonAlnum(t) == "";
    EmptyContained(ToLower(h.tag));
    forall i | 0 <= i < |entries| ensures AtivaContendo(entries[i], "") == Ativa(entries[i]) {
      EmptyContained(ToLower(entries[i].tag));
    }
    FilterCongruent(entries, Contendo(""), Ativa);
  }

  // ----- General figures -----

  datatype EstatisticasGerais = EstatisticasGerais(
    totalHashtags: nat,
    hashtagsAtivas: nat,
    hashtagsTrending: nat,
    hashtagsPopulares: nat,
    crescimentoSemana: nat,
    top10Populares: seq<HashtagStats>,
    top10Trending: seq<HashtagStats>)

  predicate InativaTrending(h: HashtagStats) {
    !h.ativa && IsTrending(h)
  }

  predicate AtivaPopular(h: HashtagStats) {
    h.ativa && IsPopular(h)
  }

  predicate InativaPopular(h: HashtagStats) {
    !h.ativa && IsPopular(h)
  }

  /** `obterEstatisticasGerais()`: the trending and popular counts run over every entry,
      active or not, and the weekly growth is the trending count. */
  function ObterEstatisticasGerais(entries: seq<HashtagStats>): (r: EstatisticasGerais)
    ensures r.totalHashtags == |entries|
    ensures r.hashtagsAtivas <= r.totalHashtags && r.hashtagsTrending <= r.totalHashtags
    ensures r.hashtagsPopulares <= r.totalHashtags
    ensures r.hashtagsAtivas == |Filter(entries, Ativa)|
    ensures r.hashtagsTrending == |Filter(entries, AtivaTrending)| + |Filter(entries, InativaTrending)|
    ensures r.hashtagsPopulares == |Filter(entries, AtivaPopular)| + |Filter(entries, InativaPopular)|
    ensures r.crescimentoSemana == r.hashtagsTrending
    ensures r.top10Populares == ObterHashtagsPopulares(entries, 10) && |r.top10Populares| <= 10
    ensures r.top10Trending == ObterHashtagsTrending(entries, 10) && |r.top10Trending| <= 10
    ensures r.hashtagsTrending >= |r.top10Trending|
  {
    var trending := |Filter(entries, IsTrending)|;
    FilterSplitCount(entries, IsTrending, AtivaTrending, InativaTrending);
    FilterSplitCount(entries, IsPopular, AtivaPopular, InativaPopular);
    EstatisticasGerais(|entries|, |Filter(entries, Ativa)|, trending, |Filter(entries, IsPopular)|,
                       trending, ObterHashtagsPopulares(entries, 10), ObterHashtagsTrending(entries, 10))
  }

  /** An inactive tag used three times this week counts as trending in the figures, yet is
      never listed among the trending tags. */
  lemma InactiveTrendingCounted(entries: seq<HashtagStats>, h: HashtagStats)
    requires h in entries && !h.ativa && IsTrending(h)
    ensures ObterEstatisticasGerais(entries).hashtagsTrending > |Filter(entries, AtivaTrending)|
    ensures h !in ObterEstatisticasGerais(entries).top10Trending
  {
    assert h in Filter(entries, InativaTrending);
  }

  /** Likewise an inactive tag with ten or more uses counts as popular without being listed
      among the popular tags. */
  lemma InactivePopularCounted(entries: seq<HashtagStats>, h: HashtagStats)
    requires h in entries && !h.ativa && IsPopular(h)
    ensures ObterEstatisticasGerais(entries).hashtagsPopulares > |Filter(entries, AtivaPopular)|
    ensures h !in ObterEstatisticasGerais(entries).top10Populares
  {
    assert h in Filter(entries, InativaPopular);
  }

  // ----- Inactivity sweep -----

  /** An entry `desativarHashtagsInativas` matches: active, last used strictly before `limite`. */
  predicate Inativa(h: HashtagStats, limite: Time) {
    h.ativa && h.ultimoUso < limite
  }

  function Deactivate(entries: seq<HashtagStats>, limite: Time): (r: seq<HashtagStats>)
    ensures |r| == |entries|
    ensures forall i :: 0 <= i < |r| ==> r[i] == if Inativa(entries[i], limite) then entries[i].(ativa := false) else entries[i]
  {
    seq(|entries|, i requires 0 <= i < |entries| =>
          if Inativa(entries[i], limite) then entries[i].(ativa := false) else entries[i])
  }

  /** The number of entries the sweep matches. */
  function CountInativas(entries: seq<HashtagStats>, limite: Time): nat
    decreases |entries|
  {
    if |entries| == 0 then 0
    else CountInativas(entries[..|entries| - 1], limite) + (if Inativa(entries[|entries| - 1], limite) then 1 else 0)
  }

  lemma {:induction false} CountInativasZero(entries: seq<HashtagStats>, limite: Time)
    requires forall i :: 0 <= i < |entries| ==> !Inativa(entries[i], limite)
    ensures CountInativas(entries, limite) == 0
    decreases |entries|
  {
    if |entries| > 0 {
      CountInativasZero(entries[..|entries| - 1], limite);
    }
  }

  /** After the sweep exactly the entries used at or after `limite` stay active, nothing but
      `ativa` changes, the store's invariant holds, and a second sweep with the same clock
      changes nothing and reports 0. */
  lemma DeactivateProperties(entries: seq<HashtagStats>, limite: Time)
    ensures var r := Deactivate(entries, limite);
      && (forall i :: 0 <= i < |r| ==> (r[i].ativa <==> entries[i].ativa && entries[i].ultimoUso >= limite))
      && (forall i :: 0 <= i < |r| ==> r[i].(ativa := entries[i].ativa) == entries[i])
      && (StoreInvariant(entries) ==> StoreInvariant(r))
      && Deactivate(r, limite) == r
      && CountInativas(r, limite) == 0
  {
    var r := Deactivate(entries, limite);
    CountInativasZero(r, limite);
    assert forall i :: 0 <= i < |r| ==> r[i].tag == entries[i].tag;
  }

  /** `desativarHashtagsInativas(diasInatividade)`: one update over the store, returning how
      many entries it switched off. */
  method DesativarHashtagsInativas(store: HashtagStore, diasInatividade: int, now: Time) returns (modificados: nat)
    requires store.Valid()
    modifies store
    ensures store.Valid()
    ensures store.entries == Deactivate(old(store.entries), DaysBefore(now, diasInatividade))
    ensures modificados == CountInativas(old(store.entries), DaysBefore(now, diasInatividade))
  {
    var limite := DaysBefore(now, diasInatividade);
    var original := store.entries;
    DeactivateProperties(original, limite);
    var novas: seq<HashtagStats> := [];
    modificados := 0;
    for i := 0 to |original|
      invariant |novas| == i
      invariant forall j :: 0 <= j < i ==> novas[j] == Deactivate(original, limite)[j]
      invariant modificados == CountInativas(original[..i], limite)
    {
      assert original[..i + 1][..i] == original[..i];
      if Inativa(original[i], limite) {
        novas := novas + [original[i].(ativa := false)];
        modificados := modificados + 1;
      } else {
        novas := novas + [original[i]];
      }
    }
    assert original[..|original|] == original;
    store.entries := novas;
  }

  // ----- Analysis of a period -----

  datatype AnalisePeriodo = AnalisePeriodo(totalUsos: nat, hashtagsNovas: nat, hashtagsMaisUsadas: seq<TagCount>)

  /** The feedbacks of the period that carry at least one tag. */
  function Janela(fs: seq<FeedbackRecord>, inicio: Time): (r: seq<FeedbackRecord>)
    ensures forall f :: f in r <==> f in fs && f.dataCriacao >= inicio && f.hashtags != []
  {
    Filter(fs, (f: FeedbackRecord) => f.dataCriacao >= inicio && f.hashtags != [])
  }

  /** The entries first used inside the period. */
  function Novas(entries: seq<HashtagStats>, inicio: Time): (r: seq<HashtagStats>)
    ensures forall h :: h in r <==> h in entries && h.primeiroUso >= inicio
  {
    Filter(entries, (h: HashtagStats) => h.primeiroUso >= inicio)
  }

  /** `obterAnalisePorPeriodo(diasAtras)` over the feedbacks and the store in their natural
      order, counting with a map keyed by tag. */
  method ObterAnalisePorPeriodo(fs: seq<FeedbackRecord>, entries: seq<HashtagStats>, diasAtras: int, now: Time)
      returns (res: AnalisePeriodo)
    ensures var all := Flatten(AllTags(Janela(fs, DaysBefore(now, diasAtras))));
      && res.totalUsos == |all|
      && res.hashtagsMaisUsadas == Ranking(all, 10)
      && res.hashtagsNovas == |Novas(entries, DaysBefore(now, diasAtras))|
  {
    var inicio := DaysBefore(now, diasAtras);
    var janela := Janela(fs, inicio);
    ghost var all := Flatten(AllTags(janela));
    var counts, order := CountTags(AllTags(janela));
    var tally := seq(|order|, i requires 0 <= i < |order| && order[i] in counts => TagCount(order[i], counts[order[i]]));
    assert tally == Tally(all);
    TallyTotal(all);
    FilterAll(tally, _ => true);
    MoreUsesIsPreorder();
    var sorted := SortBy(tally, MoreUses);
    res := AnalisePeriodo(Sum(Usos(tally)), |Novas(entries, inicio)|, Take(sorted, 10));
    assert Filter(tally, _ => true) == tally;
  }
}
