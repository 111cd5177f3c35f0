/** `NormalizationStrategy` of interactions.py: turns free-form pharmacology
    labels into comparable keys, through two synonym tables and a character
    clean-up, and offers approximate matching of a key against candidates. */
module Normalization {
  import opened Text
  import opened Wrappers
  import Sorting

  /** The characters the clean-up keeps: a-z, 0-9, а-я, ё, space and hyphen. */
  predicate IsKept(c: char) {
    ('a' <= c <= 'z') || ('0' <= c <= '9') || ('\U{430}' <= c <= '\U{44f}') || c == '\U{451}'
    || c == ' ' || c == '-'
  }

  /** `re.sub(r"[^a-z0-9а-яё -]", " ", s)` */
  function MaskChars(s: string): (r: string)
    ensures |r| == |s|
    ensures forall i :: 0 <= i < |s| ==> r[i] == if IsKept(s[i]) then s[i] else ' '
  {
    if s == [] then [] else [if IsKept(s[0]) then s[0] else ' '] + MaskChars(s[1..])
  }

  predicate AllKept(s: string) {
    forall i :: 0 <= i < |s| ==> IsKept(s[i])
  }

  /** `re.sub(r"\s+", " ", s)`: every maximal run of whitespace becomes one space. */
  function CollapseSpaces(s: string): (r: string)
    ensures AllKept(s) ==> AllKept(r)
    ensures forall i :: 0 <= i < |r| - 1 && IsSpace(r[i]) ==> !IsSpace(r[i + 1])
    ensures r == [] || (s != [] && (IsSpace(r[0]) <==> IsSpace(s[0])))
    decreases |s|
  {
    if s == [] then []
    else if IsSpace(s[0]) then
      var rest := StripLeft(s);
      assert |rest| < |s|;
      assert AllKept(s) ==> AllKept(rest) by {
        if AllKept(s) {
          forall i | 0 <= i < |rest| ensures IsKept(rest[i]) {
            assert rest[i] == s[|s| - |rest| + i];
          }
        }
      }
      [' '] + CollapseSpaces(rest)
    else
      assert AllKept(s) ==> AllKept(s[1..]) by {
        if AllKept(s) {
          forall i | 0 <= i < |s| - 1 ensures IsKept(s[1..][i]) {
            assert s[1..][i] == s[i + 1];
          }
        }
      }
      [s[0]] + CollapseSpaces(s[1..])
  }

  /** A key in the form the clean-up produces: only kept characters, no
      surrounding space and no two spaces in a row. */
  predicate IsCleanKey(s: string) {
    (forall i :: 0 <= i < |s| ==> IsKept(s[i]))
    && IsStripped(s)
    && (forall i :: 0 <= i < |s| - 1 ==> !(s[i] == ' ' && s[i + 1] == ' '))
  }

  /** Lines 35-36 of `normalize`: mask, collapse, strip. */
  function Cleanup(s: string): (r: string)
    ensures IsCleanKey(r)
  {
    var masked := MaskChars(s);
    assert AllKept(masked);
    var collapsed := CollapseSpaces(masked);
    var r := Strip(collapsed);
    InnerPartClean(collapsed, r, StripStart(collapsed));
    r
  }

  /** The one space the collapse leaves at the end of a text that ends with
      whitespace. */
  function EndSpace(t: string): string {
    if t != [] && IsSpace(t[|t| - 1]) then " " else ""
  }

  /** Collapsing a text that does not start with whitespace gives its words
      joined by single spaces, and one more space when the text ends with
      whitespace. */
  lemma {:induction false} CollapseUnpadded(t: string)
    requires t == [] || !IsSpace(t[0])
    ensures CollapseSpaces(t) == Join(" ", Words(t)) + EndSpace(t)
    decreases |t|
  {
    if t != [] {
      var c, t' := t[0], t[1..];
      assert t == [c] + t';
      if t' == [] {
        CollapseLastChar(c);
      } else if IsSpace(t'[0]) {
        CollapseLeading(t');
        CollapseGapStep(c, t');
      } else {
        CollapseUnpadded(t');
        CollapseWordStep(c, t');
      }
    }
  }

  lemma CollapseWordFront(t: string)
    requires t != [] && !IsSpace(t[0])
    ensures CollapseSpaces(t) == [t[0]] + CollapseSpaces(t[1..])
  {
  }

  lemma CollapseSpaceFront(t: string)
    requires t != [] && IsSpace(t[0])
    ensures CollapseSpaces(t) == " " + CollapseSpaces(StripLeft(t))
  {
  }

  lemma CollapseLastChar(c: char)
    requires !IsSpace(c)
    ensures CollapseSpaces([c]) == Join(" ", Words([c])) + EndSpace([c])
  {
    WordsCons(c, []);
    assert [c][1..] == [];
  }

  /** What the leading whitespace of a text says about the rest of it. */
  lemma StripLeftRest(t: string)
    ensures Words(t) == Words(StripLeft(t))
    ensures StripLeft(t) == [] ==> AllSpace(t)
    ensures StripLeft(t) != [] ==> !AllSpace(t) && StripLeft(t)[|StripLeft(t)| - 1] == t[|t| - 1]
  {
    var k := StripStart(t);
    WordsSkipSpaces(t, k);
    if StripLeft(t) != [] {
      assert StripLeft(t)[0] == t[k];
    }
  }

  lemma CollapseGapStep(c: char, t': string)
    requires !IsSpace(c) && t' != [] && IsSpace(t'[0])
    requires CollapseSpaces(t') == " " + Join(" ", Words(t')) + WordEndSpace(t')
    ensures CollapseSpaces([c] + t') == Join(" ", Words([c] + t')) + EndSpace([c] + t')
  {
    var t := [c] + t';
    assert t[0] == c && t[1..] == t';
    CollapseWordFront(t);
    WordsCons(c, t');
    WordsConcat(t');
    var w := Words(t');
    assert t[|t| - 1] == t'[|t'| - 1];
    var j, e := Join(" ", w), WordEndSpace(t');
    if w == [] {
      assert j == [] && e == [] && EndSpace(t) == " ";
      assert Join(" ", Words(t)) == [c];
      assert " " + j + e == " ";
    } else {
      JoinCons(" ", [c], w);
      assert e == EndSpace(t);
      assert CollapseSpaces(t) == [c] + (" " + j + e);
      ConcatAssoc([c], " " + j, e);
      ConcatAssoc([c], " ", j);
    }
  }

  lemma CollapseWordStep(c: char, t': string)
    requires !IsSpace(c) && t' != [] && !IsSpace(t'[0])
    requires CollapseSpaces(t') == Join(" ", Words(t')) + EndSpace(t')
    ensures CollapseSpaces([c] + t') == Join(" ", Words([c] + t')) + EndSpace([c] + t')
  {
    var t := [c] + t';
    assert t[0] == c && t[1..] == t';
    CollapseWordFront(t);
    var w := Words(t');
    WordsCons(c, t');
    JoinPrepend(" ", c, w);
    assert Join(" ", Words(t)) == [c] + Join(" ", w);
    assert EndSpace(t) == EndSpace(t');
    var jw, e := Join(" ", w), EndSpace(t');
    assert CollapseSpaces(t) == [c] + (jw + e);
    ConcatAssoc([c], jw, e);
  }

  /** `re.sub(r"\s+", " ", t)` as a whole: the words of `t` joined by single
      spaces, with one space in front when `t` starts with whitespace and one at
      the end when `t` has a word and ends with whitespace. */
  lemma CollapseSpacesWords(t: string)
    ensures CollapseSpaces(t) == StartSpace(t) + Join(" ", Words(t)) + WordEndSpace(t)
  {
    if t != [] && IsSpace(t[0]) {
      CollapseLeading(t);
    } else {
      CollapseUnpadded(t);
      assert t != [] ==> !AllSpace(t);
      assert EndSpace(t) == WordEndSpace(t);
      var j := Join(" ", Words(t));
      assert "" + j == j;
    }
  }

  /** The space the collapse leaves in front of a text that starts with
      whitespace. */
  function StartSpace(t: string): string {
    if t != [] && IsSpace(t[0]) then " " else ""
  }

  /** The space the collapse leaves at the end of a text that has a word and
      ends with whitespace. */
  function WordEndSpace(t: string): string {
    if !AllSpace(t) && IsSpace(t[|t| - 1]) then " " else ""
  }

  lemma {:induction false} CollapseLeading(t: string)
    requires t != [] && IsSpace(t[0])
    ensures CollapseSpaces(t) == " " + Join(" ", Words(t)) + WordEndSpace(t)
    decreases |t|
  {
    var u := StripLeft(t);
    assert |u| < |t| by {
      assert u == [] || !IsSpace(u[0]);
    }
    CollapseSpaceFront(t);
    StripLeftRest(t);
    CollapseUnpadded(u);
    var j, e := Join(" ", Words(u)), EndSpace(u);
    assert CollapseSpaces(t) == " " + (j + e);
    ConcatAssoc(" ", j, e);
    assert e == WordEndSpace(t);
  }

  /** The clean-up keeps the words of the masked text, in order, joined by single
      spaces: `" ".join(masked.split())`. */
  lemma CleanupWords(s: string)
    ensures Cleanup(s) == Join(" ", Words(MaskChars(s)))
  {
    var m := MaskChars(s);
    var j := Join(" ", Words(m));
    CollapseSpacesWords(m);
    JoinWordsStripped(Words(m));
    var lead, tail := StartSpace(m), WordEndSpace(m);
    assert AllSpace(lead) && AllSpace(tail);
    StripAround(lead, j, tail);
  }

  /** The clean-up keeps exactly the words of the masked text. */
  lemma CleanupKeepsWords(s: string)
    ensures Words(Cleanup(s)) == Words(MaskChars(s))
  {
    CleanupWords(s);
    WordsOfJoin(Words(MaskChars(s)));
  }

  lemma InnerPartClean(s: string, r: string, k: int)
    requires AllKept(s)
    requires forall i :: 0 <= i < |s| - 1 && IsSpace(s[i]) ==> !IsSpace(s[i + 1])
    requires 0 <= k && k + |r| <= |s| && (forall i :: 0 <= i < |r| ==> r[i] == s[k + i]) && IsStripped(r)
    ensures IsCleanKey(r)
  {
    forall i | 0 <= i < |r| - 1 ensures !(r[i] == ' ' && r[i + 1] == ' ') {
      assert r[i] == s[k + i] && r[i + 1] == s[k + i + 1];
    }
  }

  /** A clean key is left as it is by the clean-up. */
  lemma CleanupOfCleanKey(s: string)
    requires IsCleanKey(s)
    ensures Cleanup(s) == s
  {
    assert MaskChars(s) == s;
    CollapseOfSingleSpaces(s);
    StripStripped(s);
  }

  lemma {:induction false} CollapseOfSingleSpaces(s: string)
    requires forall i :: 0 <= i < |s| ==> IsKept(s[i])
    requires forall i :: 0 <= i < |s| - 1 ==> !(s[i] == ' ' && s[i + 1] == ' ')
    ensures CollapseSpaces(s) == s
  {
    if s != [] {
      CollapseOfSingleSpaces(s[1..]);
      if IsSpace(s[0]) {
        assert s[0] == ' ';
        assert StripLeft(s) == s[1..] by {
          assert |s| > 1 ==> !IsSpace(s[1]);
          assert LeadingEnd(s, 0) == 1;
        }
      }
    }
  }

  /** The clean-up is idempotent. (`normalize` as a whole is not: see
      `NotIdempotentOnSynonymValue`.) */
  lemma CleanupIdempotent(s: string)
    ensures Cleanup(Cleanup(s)) == Cleanup(s)
  {
    CleanupOfCleanKey(Cleanup(s));
  }

  /** The two synonym tables a strategy is configured with. */
  datatype Normalizer = Normalizer(targetSynonyms: map<string, string>, effectSynonyms: map<string, string>) {

    /** `normalize(text)`: empty for blank text; otherwise the stripped, lower-cased
        text is looked up in the target table, then in the effect table, and
        cleaned up when neither holds it. */
    function Normalize(text: string): (r: string)
      ensures AllSpace(text) ==> r == ""
      ensures !AllSpace(text) && Lower(Strip(text)) in targetSynonyms ==>
                r == targetSynonyms[Lower(Strip(text))]
      ensures !AllSpace(text) && Lower(Strip(text)) !in targetSynonyms && Lower(Strip(text)) in effectSynonyms ==>
                r == effectSynonyms[Lower(Strip(text))]
      ensures Lower(Strip(text)) !in targetSynonyms && Lower(Strip(text)) !in effectSynonyms ==>
                IsCleanKey(r) && r == Join(" ", Words(MaskChars(Lower(Strip(text)))))
    {
      var key := Lower(Strip(text));
      if key == "" then ""
      else if key in targetSynonyms then targetSynonyms[key]
      else if key in effectSynonyms then effectSynonyms[key]
      else CleanupWords(key); Cleanup(key)
    }

    /** `fuzzy_match(key, candidates, cutoff)`: at most three candidates whose
        normalised form is similar enough to the normalised key. `ratio(x, y)` stands
        for `difflib.SequenceMatcher(None, x, y).ratio()`, which is not modelled. A
        cutoff outside [0, 1] makes difflib raise an error. */
    function FuzzyMatch(key: string, candidates: seq<string>, cutoff: real,
                        ratio: (string, string) -> real): (r: Result<seq<string>, string>)
      ensures key == "" || candidates == [] ==> r == Success([])
      ensures r.Failure? <==> key != "" && candidates != [] && !(0.0 <= cutoff <= 1.0)
      ensures r.Success? ==> |r.value| <= 3
      ensures r.Success? ==> forall c :: c in r.value ==> c in candidates && ratio(Normalize(c), Normalize(key)) >= cutoff
    {
      if key == "" || candidates == [] then Success([])
      else if !(0.0 <= cutoff <= 1.0) then Failure("cutoff must be in [0.0, 1.0]")
      else
        var keyN := Normalize(key);
        var originals := CandidateMap(candidates);
        var close := CloseMatches(keyN, DistinctKeys(candidates), cutoff, ratio);
        var r := LookUpAll(close, originals);
        assert forall c :: c in r ==> c in candidates && ratio(Normalize(c), keyN) >= cutoff by {
          forall c | c in r ensures c in candidates && ratio(Normalize(c), keyN) >= cutoff {
            var i :| 0 <= i < |r| && r[i] == c;
            assert close[i] in close;
          }
        }
        Success(r)
    }

    /** `{normalize(c): c for c in candidates}`: each key maps to the last candidate
        with that normalised form. */
    function CandidateMap(candidates: seq<string>): (m: map<string, string>)
      ensures forall c :: c in candidates ==> Normalize(c) in m
      ensures forall k :: k in m ==> m[k] in candidates && Normalize(m[k]) == k
    {
      if candidates == [] then map[]
      else
        var init, last := candidates[..|candidates| - 1], candidates[|candidates| - 1];
        var m0 := CandidateMap(init);
        assert forall c :: c in candidates ==> c in init || c == last;
        assert forall c :: c in init ==> c in candidates;
        m0[Normalize(last) := last]
    }

    /** The keys of that dictionary, in insertion order. */
    function DistinctKeys(candidates: seq<string>): (ks: seq<string>)
      ensures forall k :: k in ks <==> k in CandidateMap(candidates)
    {
      if candidates == [] then []
      else
        var prefix := DistinctKeys(candidates[..|candidates| - 1]);
        var k := Normalize(candidates[|candidates| - 1]);
        if k in prefix then prefix else prefix + [k]
    }
  }

  /** `[m[k] for k in ks]` */
  function LookUpAll(ks: seq<string>, m: map<string, string>): (r: seq<string>)
    requires forall k :: k in ks ==> k in m
    ensures |r| == |ks| && forall i :: 0 <= i < |ks| ==> r[i] == m[ks[i]]
  {
    if ks == [] then [] else [m[ks[0]]] + LookUpAll(ks[1..], m)
  }

  /** `difflib.get_close_matches(word, possibilities, n=3, cutoff)` for a cutoff in
      [0, 1]: the possibilities whose ratio reaches the cutoff, best first (ties
      broken by the larger string, as `heapq.nlargest` on `(score, x)` pairs does),
      at most three of them. */
  function CloseMatches(word: string, possibilities: seq<string>, cutoff: real,
                        ratio: (string, string) -> real): (r: seq<string>)
    ensures |r| <= 3
    ensures forall x :: x in r ==> x in possibilities && ratio(x, word) >= cutoff
  {
    var passing := Passing(word, possibilities, cutoff, ratio);
    var ranked := Sorting.SortBy(passing, (x: string, y: string) =>
                    ratio(x, word) > ratio(y, word) || (ratio(x, word) == ratio(y, word) && Sorting.StrLe(y, x)));
    assert forall x :: x in ranked ==> x in multiset(passing);
    if |ranked| <= 3 then ranked else ranked[..3]
  }

  function Passing(word: string, possibilities: seq<string>, cutoff: real,
                   ratio: (string, string) -> real): (r: seq<string>)
    ensures forall x :: x in r ==> x in possibilities && ratio(x, word) >= cutoff
  {
    if possibilities == [] then []
    else
      (if ratio(possibilities[0], word) >= cutoff then [possibilities[0]] else [])
      + Passing(word, possibilities[1..], cutoff, ratio)
  }

  /** The synonym tables the application configures by default. */
  const DefaultTargetSynonyms: map<string, string> := map[
    "ltcc" := "l-type calcium channel",
    "l-vscc" := "l-type calcium channel",
    "кальциевый канал l-типа" := "l-type calcium channel",
    "сердечный кальциевый канал" := "l-type calcium channel",
    "cox1" := "COX1",
    "cox2" := "COX2",
    "cox3" := "COX3",
    "sert" := "SERT",
    "at1-рецептор" := "AT1 receptor",
    "na-k-2cl котранспортер" := "Na-K-2Cl cotransporter",
    "na-cl котранспортер" := "Na-Cl cotransporter",
    "h+/k+-атфаза" := "H+/K+-ATPase"
  ]

  const DefaultEffectSynonyms: map<string, string> := map[
    "гипотензия" := "низкое давление",
    "ортостатическая гипотензия" := "низкое давление",
    "low blood pressure" := "низкое давление",
    "гипонатриемия" := "низкий натрий",
    "низкий уровень натрия" := "низкий натрий",
    "жк-кровотечение" := "желудочно-кишечное кровотечение",
    "ulcer" := "желудочно-кишечкое кровотечение",
    "серотониновый синдром" := "серотониновый синдром"
  ]

  const Default: Normalizer := Normalizer(DefaultTargetSynonyms, DefaultEffectSynonyms)

  // The two counterexamples below are computed one step per lemma; each step
  // takes its text as a parameter so that the verifier does not expand the
  // string functions on a literal all at once.

  lemma StripOfStripped(t: string) requires t == "at1-рецептор" || t == "AT1 receptor" || t == "Гипотензия!" || t == "гипотензия"
    ensures Strip(t) == t
  {
    StripStripped(t);
  }

  lemma LowerOfSynonymKey(t: string) requires t == "at1-рецептор" ensures Lower(t) == t { }
  lemma LowerOfSynonymValue(t: string) requires t == "AT1 receptor" ensures Lower(t) == "at1 receptor" { }
  lemma CleanedSynonymValue(k: string) requires k == "at1 receptor" ensures Cleanup(k) == k { CleanupOfCleanKey(k); }
  lemma SynonymValueNotAKey(k: string) requires k == "at1 receptor"
    ensures k !in DefaultTargetSynonyms && k !in DefaultEffectSynonyms
  { }

  lemma SynonymKeyLookup(k: string) requires k == "at1-рецептор"
    ensures k in DefaultTargetSynonyms && DefaultTargetSynonyms[k] == "AT1 receptor"
  { }

  lemma NormalizeSynonymKey(t: string) requires t == "at1-рецептор" ensures Default.Normalize(t) == "AT1 receptor" {
    StripOfStripped(t);
    LowerOfSynonymKey(t);
    SynonymKeyLookup(t);
  }

  lemma NormalizeSynonymValue(t: string) requires t == "AT1 receptor" ensures Default.Normalize(t) == "at1 receptor" {
    StripOfStripped(t);
    LowerOfSynonymValue(t);
    SynonymValueNotAKey("at1 receptor");
    CleanedSynonymValue("at1 receptor");
  }

  /** `normalize` is not idempotent: a synonym value is returned as it is, and
      normalising it again lower-cases and cleans it. */
  lemma NotIdempotentOnSynonymValue()
    ensures Default.Normalize("at1-рецептор") == "AT1 receptor"
    ensures Default.Normalize(Default.Normalize("at1-рецептор")) == "at1 receptor"
  {
    NormalizeSynonymKey("at1-рецептор");
    NormalizeSynonymValue("AT1 receptor");
  }

  lemma LowerOfPunctuated(t: string) requires t == "Гипотензия!" ensures Lower(t) == "гипотензия!" { }
  lemma MaskOfPunctuated(t: string) requires t == "гипотензия!" ensures MaskChars(t) == "гипотензия " { }
  lemma CollapseOfMasked(t: string) requires t == "гипотензия " ensures CollapseSpaces(t) == t { CollapseOfSingleSpaces(t); }
  lemma StripOfMasked(t: string) requires t == "гипотензия " ensures Strip(t) == "гипотензия" {
    assert StripStart(t) == 0;
    assert TrailingStart(t, 11) == 10;
    assert t[0..10] == "гипотензия";
  }
  lemma CleanedPunctuated(t: string) requires t == "гипотензия!" ensures Cleanup(t) == "гипотензия" {
    MaskOfPunctuated(t);
    CollapseOfMasked("гипотензия ");
    StripOfMasked("гипотензия ");
  }
  lemma PunctuatedNotAKey(k: string) requires k == "гипотензия!"
    ensures k !in DefaultTargetSynonyms && k !in DefaultEffectSynonyms
  { }
  lemma LowerOfEffectKey(t: string) requires t == "гипотензия" ensures Lower(t) == t { }
  lemma EffectKey(k: string) requires k == "гипотензия"
    ensures k !in DefaultTargetSynonyms && k in DefaultEffectSynonyms && DefaultEffectSynonyms[k] == "низкое давление"
  { }

  lemma NormalizePunctuated(t: string) requires t == "Гипотензия!" ensures Default.Normalize(t) == "гипотензия" {
    StripOfStripped(t);
    LowerOfPunctuated(t);
    PunctuatedNotAKey("гипотензия!");
    CleanedPunctuated("гипотензия!");
  }

  lemma NormalizeEffectKey(t: string) requires t == "гипотензия" ensures Default.Normalize(t) == "низкое давление" {
    StripOfStripped(t);
    LowerOfEffectKey(t);
    EffectKey(t);
  }

  /** Nor is it idempotent on cleaned text that happens to be a synonym key. */
  lemma NotIdempotentOnCleanedKey()
    ensures Default.Normalize("Гипотензия!") == "гипотензия"
    ensures Default.Normalize("гипотензия") == "низкое давление"
  {
    NormalizePunctuated("Гипотензия!");
    NormalizeEffectKey("гипотензия");
  }
}
