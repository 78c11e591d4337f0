/** Counting tag uses across feedbacks: the per-tag tally in first-seen order, the
    ranking by use count, and the counting loop of the period analysis. Also the
    counter as JavaScript evaluates it on a plain object, where two tag names collide
    with `Object.prototype`. */
module TagTally {
  import opened Seqs
  import opened Sorting

  /** A tag and how many times it was used. */
  datatype TagCount = TagCount(tag: string, usos: nat)

  /** Every tag occurrence of a list of tag lists, list after list. */
  function Flatten(ls: seq<seq<string>>): (r: seq<string>)
    decreases |ls|
  {
    if |ls| == 0 then [] else Flatten(ls[..|ls| - 1]) + ls[|ls| - 1]
  }

  /** Each distinct tag with its number of occurrences, in order of first occurrence
      (the key order of an object filled by assignment). */
  function Tally(all: seq<string>): (r: seq<TagCount>)
    ensures |r| == |Dedup(all)|
  {
    var d := Dedup(all);
    seq(|d|, i requires 0 <= i < |d| => TagCount(d[i], Count(all, d[i])))
  }

  function Usos(r: seq<TagCount>): (u: seq<int>)
    ensures |u| == |r|
  {
    seq(|r|, i requires 0 <= i < |r| => r[i].usos as int)
  }

  /** Every tag that occurs is listed exactly once, with its count, and every listed count is positive. */
  lemma TallyComplete(all: seq<string>)
    ensures forall t :: t in all <==> exists i :: 0 <= i < |Tally(all)| && Tally(all)[i].tag == t
    ensures forall i :: 0 <= i < |Tally(all)| ==>
              Tally(all)[i].usos == Count(all, Tally(all)[i].tag) && Tally(all)[i].usos > 0
    ensures forall i, j :: 0 <= i < j < |Tally(all)| ==> Tally(all)[i].tag != Tally(all)[j].tag
  {
    DedupMembers(all);
    DedupNoDup(all);
    var d := Dedup(all);
    forall t | t in all ensures exists i :: 0 <= i < |Tally(all)| && Tally(all)[i].tag == t {
      var i :| 0 <= i < |d| && d[i] == t;
      assert Tally(all)[i].tag == t;
    }
  }

  /** Σ over `keys` of the occurrences of each key in `all`. */
  function SumCounts(keys: seq<string>, all: seq<string>): nat {
    if |keys| == 0 then 0 else Count(all, keys[0]) + SumCounts(keys[1..], all)
  }

  lemma {:induction false} SumCountsSnoc(keys: seq<string>, all: seq<string>, x: string)
    ensures SumCounts(keys, all + [x]) == SumCounts(keys, all) + Count(keys, x)
  {
    if |keys| > 0 {
      CountAppend(all, [x], keys[0]);
      SumCountsSnoc(keys[1..], all, x);
    }
  }

  lemma {:induction false} SumCountsAppendKey(keys: seq<string>, all: seq<string>, x: string)
    ensures SumCounts(keys + [x], all) == SumCounts(keys, all) + Count(all, x)
  {
    if |keys| > 0 {
      assert (keys + [x])[1..] == keys[1..] + [x];
      SumCountsAppendKey(keys[1..], all, x);
    }
  }

  lemma {:induction false} CountInNoDup(keys: seq<string>, x: string)
    requires NoDup(keys)
    ensures Count(keys, x) == if x in keys then 1 else 0
  {
    if |keys| > 0 {
      CountInNoDup(keys[1..], x);
      assert keys[0] !in keys[1..];
    }
  }

  /** Adding up the counts of the distinct tags gives the number of tag occurrences. */
  lemma {:induction false} DedupSumCounts(all: seq<string>)
    ensures SumCounts(Dedup(all), all) == |all|
  {
    if |all| > 0 {
      var init := all[..|all| - 1];
      var x := all[|all| - 1];
      assert all == init + [x];
      DedupSumCounts(init);
      DedupNoDup(init);
      DedupMembers(init);
      SumCountsSnoc(Dedup(init), init, x);
      CountInNoDup(Dedup(init), x);
      if x !in init {
        SumCountsAppendKey(Dedup(init), all, x);
        CountAppend(init, [x], x);
      }
    }
  }

  lemma {:induction false} SumUsosIsSumCounts(all: seq<string>, keys: seq<string>)
    ensures Sum(seq(|keys|, i requires 0 <= i < |keys| => Count(all, keys[i]) as int)) == SumCounts(keys, all)
  {
    if |keys| > 0 {
      SumUsosIsSumCounts(all, keys[1..]);
      assert seq(|keys|, i requires 0 <= i < |keys| => Count(all, keys[i]) as int)[1..]
          == seq(|keys[1..]|, i requires 0 <= i < |keys[1..]| => Count(all, keys[1..][i]) as int);
    }
  }

  /** The listed counts add up to the number of tag occurrences. */
  lemma TallyTotal(all: seq<string>)
    ensures Sum(Usos(Tally(all))) == |all|
  {
    var d := Dedup(all);
    DedupSumCounts(all);
    SumUsosIsSumCounts(all, d);
    assert Usos(Tally(all)) == seq(|d|, i requires 0 <= i < |d| => Count(all, d[i]) as int);
  }

  /** `(a, b) => b.usos - a.usos`: more uses first. */
  predicate MoreUses(a: TagCount, b: TagCount) {
    a.usos >= b.usos
  }

  lemma MoreUsesIsPreorder()
    ensures TotalPreorder(MoreUses)
  {
  }

  /** The `n` most used tags, most used first; equal counts keep first-seen order. */
  function Ranking(all: seq<string>, n: nat): (r: seq<TagCount>)
    ensures |r| == Min(n, |Tally(all)|) && |r| <= |Dedup(all)|
    ensures SortedBy(r, MoreUses)
    ensures forall x :: x in r ==> x in Tally(all)
    ensures forall x :: x in Tally(all) && x !in r ==> forall y :: y in r ==> y.usos >= x.usos
  {
    MoreUsesIsPreorder();
    RankedQuery(Tally(all), _ => true, MoreUses, n);
    FilterAll(Tally(all), _ => true);
    if n == 0 then [] else MongoLimit(SortBy(Filter(Tally(all), _ => true), MoreUses), n)
  }

  /** `counts` and `order` describe exactly the occurrences in `all`. */
  ghost predicate Counted(counts: map<string, nat>, order: seq<string>, all: seq<string>) {
    && order == Dedup(all)
    && (forall k :: k in counts <==> k in all)
    && (forall k :: k in counts ==> counts[k] == Count(all, k))
  }

  /** One `contagem[tag] = (contagem[tag] || 0) + 1` keeps the description exact. */
  lemma CountStep(counts: map<string, nat>, order: seq<string>, done: seq<string>, tag: string)
    requires Counted(counts, order, done)
    ensures tag in counts ==> Counted(counts[tag := counts[tag] + 1], order, done + [tag])
    ensures tag !in counts ==> Counted(counts[tag := 1], order + [tag], done + [tag])
  {
    assert (done + [tag])[..|done + [tag]| - 1] == done;
    forall k ensures Count(done + [tag], k) == Count(done, k) + (if k == tag then 1 else 0) {
      CountAppend(done, [tag], k);
    }
  }

  /** The inner loop: the tags of one feedback. */
  method CountTagList(counts0: map<string, nat>, order0: seq<string>, tags: seq<string>, ghost before: seq<string>)
    returns (counts: map<string, nat>, order: seq<string>)
    requires Counted(counts0, order0, before)
    ensures Counted(counts, order, before + tags)
  {
    counts, order := counts0, order0;
    var j := 0;
    assert before + tags[..0] == before;
    while j < |tags|
      invariant 0 <= j <= |tags|
      invariant Counted(counts, order, before + tags[..j])
    {
      var tag := tags[j];
      CountStep(counts, order, before + tags[..j], tag);
      assert before + tags[..j + 1] == before + tags[..j] + [tag];
      if tag in counts {
        counts := counts[tag := counts[tag] + 1];
      } else {
        counts := counts[tag := 1];
        order := order + [tag];
      }
      j := j + 1;
    }
    assert tags[..|tags|] == tags;
  }

  /** The counting loops of the period analysis: for each feedback, for each of its tags,
      `contagem[tag] = (contagem[tag] || 0) + 1`, with the keys in insertion order. */
  method CountTags(lists: seq<seq<string>>) returns (counts: map<string, nat>, order: seq<string>)
    ensures order == Dedup(Flatten(lists))
    ensures forall k :: k in counts <==> k in order
    ensures forall k :: k in counts ==> counts[k] == Count(Flatten(lists), k)
  {
    counts := map[];
    order := [];
    var i := 0;
    while i < |lists|
      invariant 0 <= i <= |lists|
      invariant Counted(counts, order, Flatten(lists[..i]))
    {
      assert lists[..i + 1][..i] == lists[..i];
      assert Flatten(lists[..i + 1]) == Flatten(lists[..i]) + lists[i];
      counts, order := CountTagList(counts, order, lists[i], Flatten(lists[..i]));
      i := i + 1;
    }
    assert lists[..|lists|] == lists;
    DedupMembers(Flatten(lists));
  }

  // ----- The counter as written: a plain JavaScript object -----

  /** A property value of the object `{}` used as the counter, as JavaScript reads it. */
  datatype JsValue = JsUndefined | JsNumber(n: nat) | JsString(s: string) | JsObjectConstructor | JsObjectPrototype

  /** What `Object` converts to when added to a number. */
  const ObjectSource: string := "function Object() { [native code] }"

  /** `obj[k]`: an own property, or what `Object.prototype` supplies. Of the lower-case
      word-character names, only `constructor` and `__proto__` are inherited. */
  function JsGet(obj: map<string, JsValue>, k: string): JsValue {
    if k in obj then obj[k]
    else if k == "constructor" then JsObjectConstructor
    else if k == "__proto__" then JsObjectPrototype
    else JsUndefined
  }

  /** `(v || 0) + 1`. */
  function JsIncrement(v: JsValue): JsValue {
    match v
    case JsUndefined => JsNumber(1)
    case JsNumber(n) => JsNumber(n + 1)
    case JsString(s) => if s == "" then JsNumber(1) else JsString(s + "1")
    case JsObjectConstructor => JsString(ObjectSource + "1")
    case JsObjectPrototype => JsString("[object Object]1")
  }

  /** `obj[k] = v` for a primitive `v`: assigning a primitive to `__proto__` is ignored. */
  function JsSet(obj: map<string, JsValue>, k: string, v: JsValue): map<string, JsValue> {
    if k == "__proto__" then obj else obj[k := v]
  }

  /** The counting loop as written, over the tag occurrences in order. */
  function TallyAsWritten(obj: map<string, JsValue>, tags: seq<string>): map<string, JsValue>
    decreases |tags|
  {
    if |tags| == 0 then obj
    else TallyAsWritten(JsSet(obj, tags[0], JsIncrement(JsGet(obj, tags[0]))), tags[1..])
  }

  /** As written, one use of `#constructor` is counted as a string rather than a number,
      and uses of `#__proto__` are not counted at all. */
  lemma PrototypeKeysMiscounted()
    ensures TallyAsWritten(map[], ["constructor"]) == map["constructor" := JsString(ObjectSource + "1")]
    ensures TallyAsWritten(map[], ["__proto__", "__proto__"]) == map[]
  {
  }

  /** Counting with a real map treats those two names like any other tag. */
  lemma PrototypeKeysCountedCorrected()
    ensures Tally(["constructor"]) == [TagCount("constructor", 1)]
    ensures Tally(["__proto__", "__proto__"]) == [TagCount("__proto__", 2)]
  {
    var one: seq<string> := ["constructor"];
    assert one[..0] == [];
    assert Dedup(one) == ["constructor"];
    var two: seq<string> := ["__proto__", "__proto__"];
    assert two[..1] == ["__proto__"];
    assert two[..1][..0] == [];
    assert Dedup(two) == ["__proto__"];
    assert Count(two, "__proto__") == 2 by {
      assert two[1..] == ["__proto__"];
    }
  }
}
