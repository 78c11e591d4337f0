/** The hashtag statistics model: one entry per tag with its usage counters,
    the popularity thresholds, and the statics that record uses and reset counters. */
module HashtagModel {
  import opened Base
  import opened Errors
  import opened Seqs
  import opened Text

  /** A `hashtag_stats` document. */
  datatype HashtagStats = HashtagStats(
    tag: string,
    totalUsos: nat,
    usosSemana: nat,
    usosMes: nat,
    primeiroUso: Time,
    ultimoUso: Time,
    ativa: bool)

  const PopularThreshold: nat := 10
  const TrendingThreshold: nat := 3
  /** `maxlength` of the `tag` path. */
  const MaxStatsTagLength: nat := 50

  /** `isPopular()`. */
  predicate IsPopular(h: HashtagStats) { h.totalUsos >= PopularThreshold }

  /** `isTrending()`. */
  predicate IsTrending(h: HashtagStats) { h.usosSemana >= TrendingThreshold }

  /** The `tag` validators: required, at most 50 characters, `^[a-zA-Z0-9_]+$`. */
  predicate ValidStatsTag(k: string) {
    IsWord(k) && |k| <= MaxStatsTagLength
  }

  /** A tag of a saved feedback is accepted by the statistics schema iff it is short enough. */
  lemma StoredTagAccepted(t: string)
    requires IsTag(t)
    ensures Normalize(t) == t
    ensures ValidStatsTag(Normalize(t)) <==> |t| <= MaxStatsTagLength
  {
    NormalizeTag(t);
  }

  /** A document created for a first use: every counter at 1, both dates now, active. */
  function NewStats(k: string, now: Time): (h: HashtagStats)
    ensures h.tag == k && h.ativa
    ensures h.totalUsos == 1 && h.usosSemana == 1 && h.usosMes == 1
    ensures h.primeiroUso == now && h.ultimoUso == now
    ensures !IsPopular(h) && !IsTrending(h)
  {
    HashtagStats(k, 1, 1, 1, now, now, true)
  }

  /** `incrementarUso()`: one more use on each counter, last use now. */
  function IncrementarUso(h: HashtagStats, now: Time): (r: HashtagStats)
    ensures r.totalUsos == h.totalUsos + 1
    ensures r.usosSemana == h.usosSemana + 1 && r.usosMes == h.usosMes + 1
    ensures r.ultimoUso == now
    ensures r.tag == h.tag && r.primeiroUso == h.primeiroUso && r.ativa == h.ativa
    ensures IsPopular(h) ==> IsPopular(r)
    ensures IsTrending(h) ==> IsTrending(r)
  {
    h.(totalUsos := h.totalUsos + 1, usosSemana := h.usosSemana + 1,
       usosMes := h.usosMes + 1, ultimoUso := now)
  }

  /** The store keeps at most one document per tag (the `unique` index). */
  predicate TagsUnique(entries: seq<HashtagStats>) {
    forall i, j :: 0 <= i < j < |entries| ==> entries[i].tag != entries[j].tag
  }

  /** Every stored document passed the `tag` validators. */
  predicate TagsValid(entries: seq<HashtagStats>) {
    forall i :: 0 <= i < |entries| ==> ValidStatsTag(entries[i].tag)
  }

  predicate StoreInvariant(entries: seq<HashtagStats>) {
    TagsUnique(entries) && TagsValid(entries)
  }

  /** `findOne({ tag: k })`: the position of the document for `k`. */
  function FindTag(entries: seq<HashtagStats>, k: string): (r: Option<nat>)
    ensures r.Some? ==> r.value < |entries| && entries[r.value].tag == k
    ensures r.None? ==> forall i :: 0 <= i < |entries| ==> entries[i].tag != k
  {
    if |entries| == 0 then None
    else if entries[0].tag == k then Some(0)
    else
      var r := FindTag(entries[1..], k);
      if r.Some? then Some(r.value + 1) else None
  }

  /** The total use count recorded for `k` (0 when it has no document). */
  function TotalOf(entries: seq<HashtagStats>, k: string): nat {
    var i := FindTag(entries, k);
    if i.Some? then entries[i.value].totalUsos else 0
  }

  /** One iteration of `atualizarEstatisticas`: increment the tag's document, or create it. */
  function RecordUse(entries: seq<HashtagStats>, tag: string, now: Time): Result<seq<HashtagStats>, Error> {
    var k := Normalize(tag);
    var i := FindTag(entries, k);
    if i.Some? then Ok(entries[i.value := IncrementarUso(entries[i.value], now)])
    else if ValidStatsTag(k) then Ok(entries + [NewStats(k, now)])
    else Err(InvalidStatsTag)
  }

  /** Recording a use keeps one valid document per tag. */
  lemma RecordUseKeepsInvariant(entries: seq<HashtagStats>, tag: string, now: Time)
    requires StoreInvariant(entries)
    ensures RecordUse(entries, tag, now).Ok? ==> StoreInvariant(RecordUse(entries, tag, now).value)
  {
  }

  /** Recording a use of `tag` adds one to its total and leaves every other tag's total alone;
      it fails only for a tag without a document that the schema rejects. */
  lemma RecordUseCounts(entries: seq<HashtagStats>, tag: string, now: Time, k: string)
    requires StoreInvariant(entries)
    ensures RecordUse(entries, tag, now).Err? <==>
              FindTag(entries, Normalize(tag)).None? && !ValidStatsTag(Normalize(tag))
    ensures RecordUse(entries, tag, now).Ok? ==>
              TotalOf(RecordUse(entries, tag, now).value, k) ==
                TotalOf(entries, k) + (if Normalize(tag) == k then 1 else 0)
  {
    var key := Normalize(tag);
    var i := FindTag(entries, key);
    if i.Some? {
      var e' := entries[i.value := IncrementarUso(entries[i.value], now)];
      var j := FindTag(e', k);
      var j0 := FindTag(entries, k);
      if j.Some? { assert e'[j.value].tag == entries[j.value].tag; }
      if j0.Some? { assert e'[j0.value].tag == k; }
      assert j == j0;
    } else if ValidStatsTag(key) {
      var e' := entries + [NewStats(key, now)];
      var j := FindTag(e', k);
      var j0 := FindTag(entries, k);
      if k == key {
        assert e'[|entries|].tag == k;
        assert j == Some(|entries|);
      } else {
        if j0.Some? { assert e'[j0.value].tag == k; }
        if j.Some? { assert j.value < |entries| && entries[j.value].tag == k; }
        assert j == j0;
      }
    }
  }

  /** The outcome of `atualizarEstatisticas`: the store as it was left, and the error
      that stopped the loop, if any (uses recorded before it stay recorded). */
  datatype StatsUpdate = StatsUpdate(entries: seq<HashtagStats>, failure: Option<Error>)

  /** `atualizarEstatisticas(hashtags)`: the uses recorded one tag after the other. */
  function RecordAll(entries: seq<HashtagStats>, tags: seq<string>, now: Time): (r: StatsUpdate)
    ensures r.failure.None? || r.failure == Some(InvalidStatsTag)
    decreases |tags|
  {
    if |tags| == 0 then StatsUpdate(entries, None)
    else
      var r := RecordUse(entries, tags[0], now);
      if r.Err? then StatsUpdate(entries, Some(r.error))
      else RecordAll(r.value, tags[1..], now)
  }

  /** The keys the tags are recorded under. */
  function Keys(tags: seq<string>): (r: seq<string>)
    ensures |r| == |tags|
    ensures forall i :: 0 <= i < |tags| ==> r[i] == Normalize(tags[i])
  {
    seq(|tags|, i requires 0 <= i < |tags| => Normalize(tags[i]))
  }

  /** A complete update keeps the store invariant and adds to each tag's total exactly
      the number of times it occurs among the recorded keys. */
  lemma {:induction false} RecordAllCounts(entries: seq<HashtagStats>, tags: seq<string>, now: Time, k: string)
    requires StoreInvariant(entries)
    ensures StoreInvariant(RecordAll(entries, tags, now).entries)
    ensures RecordAll(entries, tags, now).failure.None? ==>
              TotalOf(RecordAll(entries, tags, now).entries, k) == TotalOf(entries, k) + Count(Keys(tags), k)
    decreases |tags|
  {
    if |tags| > 0 {
      var r := RecordUse(entries, tags[0], now);
      RecordUseKeepsInvariant(entries, tags[0], now);
      RecordUseCounts(entries, tags[0], now, k);
      if r.Ok? {
        assert RecordAll(entries, tags, now) == RecordAll(r.value, tags[1..], now);
        RecordAllCounts(r.value, tags[1..], now, k);
        KeysCount(tags, k);
      }
    }
  }

  lemma KeysCount(tags: seq<string>, k: string)
    requires |tags| > 0
    ensures Count(Keys(tags), k) == (if Normalize(tags[0]) == k then 1 else 0) + Count(Keys(tags[1..]), k)
  {
    assert Keys(tags)[1..] == Keys(tags[1..]);
  }

  /** Every tag the statistics schema accepts can be recorded: the update then never fails. */
  lemma {:induction false} RecordAllSucceeds(entries: seq<HashtagStats>, tags: seq<string>, now: Time)
    requires StoreInvariant(entries)
    requires forall i :: 0 <= i < |tags| ==> ValidStatsTag(Normalize(tags[i]))
    ensures RecordAll(entries, tags, now).failure.None?
    decreases |tags|
  {
    if |tags| > 0 {
      RecordUseCounts(entries, tags[0], now, "");
      RecordUseKeepsInvariant(entries, tags[0], now);
      RecordAllSucceeds(RecordUse(entries, tags[0], now).value, tags[1..], now);
    }
  }

  /** A tag whose key is longer than the schema allows stops the update with an error,
      since no stored document can have that key. */
  lemma {:induction false} RecordAllFailsOnLongTag(entries: seq<HashtagStats>, tags: seq<string>, now: Time, i: nat)
    requires StoreInvariant(entries)
    requires i < |tags| && |Normalize(tags[i])| > MaxStatsTagLength
    ensures RecordAll(entries, tags, now).failure == Some(InvalidStatsTag)
    decreases |tags|
  {
    var r := RecordUse(entries, tags[0], now);
    if i > 0 && r.Ok? {
      RecordUseKeepsInvariant(entries, tags[0], now);
      RecordAllFailsOnLongTag(r.value, tags[1..], now, i - 1);
    }
  }

  /** Recording uses never reactivates a deactivated tag. */
  lemma {:induction false} RecordAllKeepsInactive(entries: seq<HashtagStats>, tags: seq<string>, now: Time, i: nat)
    requires i < |entries| && !entries[i].ativa
    ensures i < |RecordAll(entries, tags, now).entries|
    ensures !RecordAll(entries, tags, now).entries[i].ativa
    decreases |tags|
  {
    if |tags| > 0 {
      var r := RecordUse(entries, tags[0], now);
      if r.Ok? {
        RecordAllKeepsInactive(r.value, tags[1..], now, i);
      }
    }
  }

  /** `updateMany({}, { usos_ultima_semana: 0 })`. */
  function ResetWeek(entries: seq<HashtagStats>): (r: seq<HashtagStats>)
    ensures |r| == |entries|
    ensures forall i :: 0 <= i < |r| ==> r[i] == entries[i].(usosSemana := 0)
  {
    seq(|entries|, i requires 0 <= i < |entries| => entries[i].(usosSemana := 0))
  }

  /** `updateMany({}, { usos_ultimo_mes: 0 })`. */
  function ResetMonth(entries: seq<HashtagStats>): (r: seq<HashtagStats>)
    ensures |r| == |entries|
    ensures forall i :: 0 <= i < |r| ==> r[i] == entries[i].(usosMes := 0)
  {
    seq(|entries|, i requires 0 <= i < |entries| => entries[i].(usosMes := 0))
  }

  /** After the weekly reset nothing is trending, popularity is untouched, and a second
      reset changes nothing. */
  lemma ResetWeekProperties(entries: seq<HashtagStats>)
    ensures forall i :: 0 <= i < |entries| ==> !IsTrending(ResetWeek(entries)[i])
    ensures forall i :: 0 <= i < |entries| ==> (IsPopular(ResetWeek(entries)[i]) <==> IsPopular(entries[i]))
    ensures ResetWeek(ResetWeek(entries)) == ResetWeek(entries)
    ensures StoreInvariant(entries) ==> StoreInvariant(ResetWeek(entries))
  {
  }

  lemma ResetMonthProperties(entries: seq<HashtagStats>)
    ensures forall i :: 0 <= i < |entries| ==>
              ResetMonth(entries)[i].usosMes == 0 && ResetMonth(entries)[i].usosSemana == entries[i].usosSemana
    ensures ResetMonth(ResetMonth(entries)) == ResetMonth(entries)
    ensures StoreInvariant(entries) ==> StoreInvariant(ResetMonth(entries))
  {
  }

  /** The `hashtag_stats` collection, in natural (insertion) order. */
  class HashtagStore {
    var entries: seq<HashtagStats>

    ghost predicate Valid()
      reads this
    {
      StoreInvariant(entries)
    }

    constructor ()
      ensures Valid() && entries == []
    {
      entries := [];
    }

    /** `atualizarEstatisticas(hashtags)`: one find-then-increment-or-create per tag,
        stopping at the first tag the schema rejects. */
    method AtualizarEstatisticas(hashtags: seq<string>, now: Time) returns (failure: Option<Error>)
      requires Valid()
      modifies this
      ensures Valid()
      ensures RecordAll(old(entries), hashtags, now) == StatsUpdate(entries, failure)
    {
      RecordAllCounts(entries, hashtags, now, "");
      var i := 0;
      failure := None;
      while i < |hashtags|
        invariant 0 <= i <= |hashtags|
        invariant StoreInvariant(entries)
        invariant RecordAll(old(entries), hashtags, now) == RecordAll(entries, hashtags[i..], now)
      {
        var tagLimpa := ToLower(hashtags[i]);
        var k := Trim(tagLimpa);
        var found := FindTag(entries, k);
        RecordUseKeepsInvariant(entries, hashtags[i], now);
        assert hashtags[i..][1..] == hashtags[i + 1..];
        if found.Some? {
          entries := entries[found.value := IncrementarUso(entries[found.value], now)];
        } else if ValidStatsTag(k) {
          entries := entries + [NewStats(k, now)];
        } else {
          failure := Some(InvalidStatsTag);
          return;
        }
        i := i + 1;
      }
    }

    /** `resetarContadoresSemana()`. */
    method ResetarContadoresSemana()
      requires Valid()
      modifies this
      ensures Valid()
      ensures entries == ResetWeek(old(entries))
    {
      ResetWeekProperties(entries);
      entries := ResetWeek(entries);
    }

    /** `resetarContadoresMes()`. */
    method ResetarContadoresMes()
      requires Valid()
      modifies this
      ensures Valid()
      ensures entries == ResetMonth(old(entries))
    {
      ResetMonthProperties(entries);
      entries := ResetMonth(entries);
    }
  }
}
