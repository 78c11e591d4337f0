/** Character classes and the string operations of the core: ASCII lower-casing,
    trimming, hashtag extraction, tag cleaning, whitespace tokens and substring search. */
module Text {
  import opened Seqs

  predicate IsUpper(c: char) { 'A' <= c <= 'Z' }
  predicate IsLower(c: char) { 'a' <= c <= 'z' }
  predicate IsDigit(c: char) { '0' <= c <= '9' }

  /** The class `[a-zA-Z0-9]`. */
  predicate IsAlnum(c: char) { IsUpper(c) || IsLower(c) || IsDigit(c) }

  /** The class `[a-zA-Z0-9_]`. */
  predicate IsWordChar(c: char) { IsAlnum(c) || c == '_' }

  /** A character a stored (lower-cased) tag may hold. */
  predicate IsTagChar(c: char) { IsLower(c) || IsDigit(c) || c == '_' }

  /** The white space that `trim()` removes and `\s` matches: the ASCII controls, the
      space separators of Unicode, the line and paragraph separators and the byte-order mark. */
  predicate IsSpace(c: char) {
    c == ' ' || c == '\t' || c == '\n' || c == '\r' || c == '\U{B}' || c == '\U{C}'
    || c == '\U{A0}' || c == '\U{1680}' || ('\U{2000}' <= c <= '\U{200A}') || c == '\U{2028}'
    || c == '\U{2029}' || c == '\U{202F}' || c == '\U{205F}' || c == '\U{3000}' || c == '\U{FEFF}'
  }

  predicate NotSpace(c: char) { !IsSpace(c) }

  function LowerChar(c: char): (d: char)
    ensures IsUpper(c) ==> IsLower(d)
    ensures !IsUpper(c) ==> d == c
  {
    if IsUpper(c) then (c as int + 32) as char else c
  }

  /** `toLowerCase()` on the ASCII letters. */
  function ToLower(s: string): (r: string)
    ensures |r| == |s|
    ensures forall i :: 0 <= i < |s| ==> r[i] == LowerChar(s[i])
  {
    seq(|s|, i requires 0 <= i < |s| => LowerChar(s[i]))
  }

  lemma ToLowerAppend(a: string, b: string)
    ensures ToLower(a + b) == ToLower(a) + ToLower(b)
  {
    assert forall i :: 0 <= i < |a + b| ==> ToLower(a + b)[i] == (ToLower(a) + ToLower(b))[i];
  }

  /** Lower-casing is idempotent. */
  lemma ToLowerIdempotent(s: string)
    ensures ToLower(ToLower(s)) == ToLower(s)
  {
  }

  /** What a string path declared with `trim` and `lowercase` stores for a value. */
  function Normalize(s: string): (r: string)
    ensures |r| <= |s|
  {
    Trim(ToLower(s))
  }

  /** A non-empty string of tag characters: what the hashtag schemas accept once lower-cased. */
  predicate IsTag(t: string) {
    |t| > 0 && forall i :: 0 <= i < |t| ==> IsTagChar(t[i])
  }

  /** `^[a-zA-Z0-9_]+$`. */
  predicate IsWord(t: string) {
    |t| > 0 && forall i :: 0 <= i < |t| ==> IsWordChar(t[i])
  }

  lemma LowerWordIsTag(w: string)
    requires IsWord(w)
    ensures IsTag(ToLower(w))
  {
  }

  /** A lower-cased tag is left unchanged by lower-casing. */
  lemma TagIsLower(t: string)
    requires IsTag(t)
    ensures ToLower(t) == t
    ensures IsWord(t)
  {
  }

  /** The length of the longest prefix of `s` whose characters satisfy `p`. */
  function Span(s: string, p: char -> bool): (n: nat)
    ensures n <= |s|
    ensures forall i :: 0 <= i < n ==> p(s[i])
    ensures n < |s| ==> !p(s[n])
  {
    if |s| == 0 || !p(s[0]) then 0 else 1 + Span(s[1..], p)
  }

  /** The tags that `/#([a-zA-Z0-9_]+)/g` finds in `s`, without the `#` and lower-cased:
      leftmost matches, each as long as possible, resuming after the previous match. */
  function ExtractHashtags(s: string): (r: seq<string>)
    ensures forall i :: 0 <= i < |r| ==> IsTag(r[i])
    decreases |s|
  {
    if |s| < 2 then []
    else if s[0] == '#' && IsWordChar(s[1]) then
      var n := Span(s[1..], IsWordChar);
      LowerWordIsTag(s[1..1 + n]);
      [ToLower(s[1..1 + n])] + ExtractHashtags(s[1 + n..])
    else ExtractHashtags(s[1..])
  }

  /** Text without a `#` holds no hashtag and does not change what follows it. */
  lemma {:induction false} ExtractSkipsPlainText(p: string, s: string)
    requires '#' !in p
    ensures ExtractHashtags(p + s) == ExtractHashtags(s)
  {
    if |p| > 0 {
      assert (p + s)[0] == p[0];
      assert (p + s)[1..] == p[1..] + s;
      ExtractSkipsPlainText(p[1..], s);
    } else {
      assert p + s == s;
    }
  }

  lemma ExtractNoHash(s: string)
    requires '#' !in s
    ensures ExtractHashtags(s) == []
  {
    ExtractSkipsPlainText(s, []);
    assert s + [] == s;
  }

  lemma {:induction false} SpanOfRun(w: string, s: string, p: char -> bool)
    requires forall i :: 0 <= i < |w| ==> p(w[i])
    requires |s| > 0 ==> !p(s[0])
    ensures Span(w + s, p) == |w|
  {
    if |w| > 0 {
      assert (w + s)[1..] == w[1..] + s;
      SpanOfRun(w[1..], s, p);
    } else {
      assert w + s == s;
    }
  }

  /** `#w` followed by a non-word character (or nothing) yields the tag `w` lower-cased. */
  lemma ExtractOne(w: string, s: string)
    requires IsWord(w)
    requires |s| > 0 ==> !IsWordChar(s[0])
    ensures ExtractHashtags(['#'] + w + s) == [ToLower(w)] + ExtractHashtags(s)
  {
    var t := ['#'] + w + s;
    assert t[1..] == w + s;
    SpanOfRun(w, s, IsWordChar);
    assert t[1..1 + |w|] == w;
    assert t[1 + |w|..] == s;
  }

  /** ` #w` yields the tag `w`. */
  lemma ExtractSpacedTag(w: string)
    requires IsTag(w)
    ensures ExtractHashtags(" #" + w) == [w]
  {
    TagIsLower(w);
    ExtractOne(w, []);
    assert ['#'] + w + [] == ['#'] + w;
    ExtractSkipsPlainText([' '], ['#'] + w);
    assert [' '] + (['#'] + w) == " #" + w;
  }

  /** `p#w1 #w2` with no `#` in `p` yields exactly the two tags. */
  lemma ExtractTwo(p: string, w1: string, w2: string)
    requires '#' !in p && IsTag(w1) && IsTag(w2)
    ensures ExtractHashtags(p + ("#" + w1 + " #" + w2)) == [w1, w2]
  {
    var tail := " #" + w2;
    ExtractSpacedTag(w2);
    TagIsLower(w1);
    ExtractOne(w1, tail);
    ExtractSkipsPlainText(p, ['#'] + w1 + tail);
    assert ['#'] + w1 + tail == "#" + w1 + " #" + w2;
  }

  /** The text before the tags in the feedback route tests. */
  const ExamplePrefix: string := "Parabéns pela organização! "

  /** The two tags written at its end. */
  const ExampleTag1: string := "parabens"
  const ExampleTag2: string := "excelente"

  /** The content of the feedback created in the feedback route tests:
      "Parabéns pela organização! #parabens #excelente". */
  const ExampleContent: string := ExamplePrefix + ("#" + ExampleTag1 + " #" + ExampleTag2)

  lemma ExamplePrefixHasNoHash()
    ensures '#' !in ExamplePrefix
  {
    forall i | 0 <= i < |ExamplePrefix| ensures ExamplePrefix[i] != '#' { }
  }

  /** That content yields both its tags, `parabens` first. */
  lemma ExtractExample()
    ensures ExtractHashtags(ExampleContent) == ["parabens", "excelente"]
  {
    ExamplePrefixHasNoHash();
    assert IsTag(ExampleTag1) && IsTag(ExampleTag2);
    ExtractTwo(ExamplePrefix, ExampleTag1, ExampleTag2);
  }

  /** `s.toLowerCase().replace(/[^a-zA-Z0-9_]/g, '')`. */
  function CleanTag(s: string): (r: string)
    ensures |r| > 0 ==> IsTag(r)
    ensures IsTag(s) ==> r == s
  {
    var r := Filter(ToLower(s), IsWordChar);
    assert forall i :: 0 <= i < |r| ==> IsTagChar(r[i]) by {
      forall i | 0 <= i < |r| ensures IsTagChar(r[i]) {
        assert r[i] in ToLower(s);
      }
    }
    if IsTag(s) then
      FilterAll(ToLower(s), IsWordChar);
      r
    else r
  }

  function TrimStart(s: string): (r: string)
    ensures |r| <= |s|
  {
    if |s| > 0 && IsSpace(s[0]) then TrimStart(s[1..]) else s
  }

  function TrimEnd(s: string): (r: string)
    ensures |r| <= |s|
  {
    if |s| > 0 && IsSpace(s[|s| - 1]) then TrimEnd(s[..|s| - 1]) else s
  }

  /** `trim()`: white space removed at both ends. */
  function Trim(s: string): (r: string)
    ensures |r| <= |s|
  {
    TrimEnd(TrimStart(s))
  }

  lemma TrimOfWord(w: string)
    requires IsWord(w)
    ensures Trim(w) == w
  {
    assert !IsSpace(w[0]);
    assert TrimStart(w) == w;
    assert !IsSpace(w[|w| - 1]);
  }

  /** A stored tag is its own normal form. */
  lemma NormalizeTag(t: string)
    requires IsTag(t)
    ensures Normalize(t) == t
  {
    TagIsLower(t);
    TrimOfWord(t);
  }

  lemma {:induction false} TrimStartChars(s: string)
    ensures forall c :: c in TrimStart(s) ==> c in s
    decreases |s|
  {
    if |s| > 0 && IsSpace(s[0]) {
      TrimStartChars(s[1..]);
    }
  }

  lemma {:induction false} TrimEndChars(s: string)
    ensures forall c :: c in TrimEnd(s) ==> c in s
    decreases |s|
  {
    if |s| > 0 && IsSpace(s[|s| - 1]) {
      TrimEndChars(s[..|s| - 1]);
    }
  }

  /** A normalised value that passes the word pattern is a tag, and so its own normal form. */
  lemma NormalWordIsTag(x: string)
    requires IsWord(Normalize(x))
    ensures IsTag(Normalize(x)) && Normalize(Normalize(x)) == Normalize(x)
  {
    var l := ToLower(x);
    var t := Normalize(x);
    TrimStartChars(l);
    TrimEndChars(TrimStart(l));
    forall i | 0 <= i < |t| ensures IsTagChar(t[i]) {
      assert t[i] in l;
      var j :| 0 <= j < |l| && l[j] == t[i];
    }
    NormalizeTag(t);
  }

  /** The non-empty pieces of `split(/\s+/)`: maximal runs of non-space characters. */
  function Tokens(s: string): (r: seq<string>)
    ensures forall i :: 0 <= i < |r| ==> |r[i]| > 0
    decreases |s|
  {
    if |s| == 0 then []
    else if IsSpace(s[0]) then Tokens(s[1..])
    else
      var n := Span(s, NotSpace);
      [s[..n]] + Tokens(s[n..])
  }

  /** `needle` occurs in `hay` as a contiguous substring. */
  predicate Contains(hay: string, needle: string)
    decreases |hay|
  {
    needle <= hay || (|hay| > 0 && Contains(hay[1..], needle))
  }

  /** The empty pattern occurs in every string. */
  lemma EmptyContained(hay: string)
    ensures Contains(hay, "")
  {
  }
}
