/** `InteractionEngine` of interactions.py: the analysis of one pair of drugs
    from the store, with its clamping, classification, fallback mechanisms and
    extra warnings, and the analysis of every pair of a list of drugs. */
module Engine {
  import opened Wrappers
  import opened Text
  import opened EntryParser
  import opened Dynamical
  import opened Analyzer
  import opened Iteration
  import Normalization

  /** A drug as `load_drug_data` returns it: the record's name and its
      pharmacology lists (a missing list is empty). */
  datatype DrugRecord = DrugRecord(name: string, pharmacology: Pharmacology)

  /** What an `InteractionEngine` works with: the drug store, standing for
      `get_drug_by_id` and `get_drug_pharmacology`, the normalizer, and the order
      in which `_parse_entry` deletes keywords (the iteration order of a set). */
  datatype InteractionEngine = InteractionEngine(drugs: map<int, DrugRecord>, normalizer: Normalization.Normalizer,
                                                 order: seq<string>)

  /** The three risk levels and their labels. */
  datatype Level = Low | Medium | High

  const LowLabel: string := "Низкий"
  const MediumLabel: string := "Средний"
  const HighLabel: string := "Высокий"

  function Label(l: Level): string {
    match l
    case Low => LowLabel
    case Medium => MediumLabel
    case High => HighLabel
  }

  function Rank(l: Level): nat {
    match l
    case Low => 0
    case Medium => 1
    case High => 2
  }

  /** `_determine_level`: below 0.3 is low, below 0.6 medium, the rest high. */
  function DetermineLevel(score: real): (l: Level)
    ensures l == Low <==> score < 0.3
    ensures l == Medium <==> 0.3 <= score < 0.6
    ensures l == High <==> 0.6 <= score
  {
    if score < 0.3 then Low else if score < 0.6 then Medium else High
  }

  /** A higher score never gets a lower level. */
  lemma LevelMonotone(s: real, t: real)
    requires s <= t
    ensures Rank(DetermineLevel(s)) <= Rank(DetermineLevel(t))
  {
  }

  /** `max(0.0, min(1.0, score))` */
  function Clamp(score: real): (r: real)
    ensures 0.0 <= r <= 1.0
    ensures 0.0 <= score <= 1.0 ==> r == score
  {
    if score < 0.0 then 0.0 else Min(1.0, score)
  }

  /** The texts `_get_fallback_mechanisms` writes. */
  const TargetsNoun: string := " целей"
  const EnzymesNoun: string := " ферментов"
  const EffectsNoun: string := " известно побочных эффектов"
  const HeaderStart: string := "Возможное взаимодействие: "
  const HeaderEnd: string := " (оба фармакологически активны)"
  const NoProfile: string := "Нет особого фармакологического профиля для взаимодействия"

  /** `f"{name}: {count}{noun}"` */
  function CountLine(name: string, count: nat, noun: string): string {
    name + ": " + NatToString(count) + noun
  }

  function Header(nameA: string, nameB: string): string {
    HeaderStart + nameA + " + " + nameB + HeaderEnd
  }

  /** No list of the drug's pharmacology has an element. */
  predicate Bare(p: Pharmacology) {
    p.targets == [] && p.metabolism == [] && p.effects == []
  }

  /** The number of non-empty pharmacology lists of a drug. */
  function FilledLists(p: Pharmacology): nat {
    (if p.targets != [] then 1 else 0) + (if p.metabolism != [] then 1 else 0) + (if p.effects != [] then 1 else 0)
  }

  /** The lines `_get_fallback_mechanisms` writes for one drug: one per
      non-empty list, giving its length. */
  function ProfileLines(name: string, p: Pharmacology): (r: seq<string>)
    ensures |r| == FilledLists(p)
    ensures r == [] <==> Bare(p)
    ensures p.targets != [] ==> CountLine(name, |p.targets|, TargetsNoun) in r
    ensures p.metabolism != [] ==> CountLine(name, |p.metabolism|, EnzymesNoun) in r
    ensures p.effects != [] ==> CountLine(name, |p.effects|, EffectsNoun) in r
  {
    (if p.targets != [] then [CountLine(name, |p.targets|, TargetsNoun)] else [])
    + (if p.metabolism != [] then [CountLine(name, |p.metabolism|, EnzymesNoun)] else [])
    + (if p.effects != [] then [CountLine(name, |p.effects|, EffectsNoun)] else [])
  }

  /** `_get_fallback_mechanisms`: never empty; the single no-profile sentence
      exactly when all six lists are empty, otherwise a header followed by the
      lines of A and then those of B. */
  function FallbackMechanisms(a: DrugRecord, b: DrugRecord): (r: seq<string>)
    ensures r != []
    ensures r == [NoProfile] <==> Bare(a.pharmacology) && Bare(b.pharmacology)
    ensures !(Bare(a.pharmacology) && Bare(b.pharmacology)) ==>
              r[0] == Header(a.name, b.name) && |r| == 1 + FilledLists(a.pharmacology) + FilledLists(b.pharmacology)
              && r[1..] == ProfileLines(a.name, a.pharmacology) + ProfileLines(b.name, b.pharmacology)
  {
    var lines := ProfileLines(a.name, a.pharmacology) + ProfileLines(b.name, b.pharmacology);
    if lines != [] then [Header(a.name, b.name)] + lines else [NoProfile]
  }

  /** The texts `_add_extra_warnings` looks for and adds. */
  const HepatoWord: string := "гепато"
  const LiverWord: string := "печён"
  const HepatotoxicityWarning: string := "Потенциально повышенная гепатотоксичность"
  const ToxicityRisk: string := "Риск токсичности"

  /** The lower-cased mechanisms, joined by spaces, mention the liver. */
  predicate MentionsLiver(mechs: seq<string>) {
    var text := Lower(Join(" ", mechs));
    Contains(text, HepatoWord) || Contains(text, LiverWord)
  }

  /** The comments `_add_extra_warnings` appends: the hepatotoxicity warning
      when the mechanisms mention the liver, then the toxicity risk when the
      score is above 0.5. */
  function ExtraWarnings(mechs: seq<string>, score: real): (w: seq<string>)
    ensures ToxicityRisk in w <==> score > 0.5
    ensures HepatotoxicityWarning in w <==> MentionsLiver(mechs)
    ensures |w| <= 2
  {
    (if MentionsLiver(mechs) then [HepatotoxicityWarning] else [])
    + (if score > 0.5 then [ToxicityRisk] else [])
  }

  /** `_add_extra_warnings`, which appends to `comments` in place. */
  method AddExtraWarnings(mechs: seq<string>, comments: seq<string>, score: real) returns (out: seq<string>)
    ensures out == comments + ExtraWarnings(mechs, score)
  {
    out := comments;
    var text := Lower(Join(" ", mechs));
    if Contains(text, HepatoWord) || Contains(text, LiverWord) {
      out := out + [HepatotoxicityWarning];
    }
    if score > 0.5 {
      out := out + [ToxicityRisk];
    }
  }

  /** The dictionary `analyze_interaction` returns, without its timestamp. */
  datatype Interaction = Interaction(drugA: string, drugB: string, score: real, level: Level,
                                     mechanisms: seq<string>, comments: string)

  /** The message of the `ValueError` of `load_drug_data`. */
  function NotFound(id: int): string {
    "Drug id " + IntToString(id) + " not found"
  }

  /** `v` is what `analyze_interaction` reports for drugs `a` and `b`: their
      names; the capped sum of the passes as the score and its level; the
      mechanisms of the passes, or the fallback when there are none; and the
      comments of the passes followed by the extra warnings, joined by "; ". */
  ghost predicate Describes(eng: InteractionEngine, a: DrugRecord, b: DrugRecord, v: Interaction)
    requires IsRemovalOrder(eng.order)
  {
    var count := MechanismCount(eng.normalizer, eng.order, a.pharmacology, b.pharmacology);
    && v.drugA == a.name && v.drugB == b.name
    && v.score == Min(RawScore(eng.normalizer, eng.order, a.pharmacology, b.pharmacology), 1.0)
    && v.level == DetermineLevel(v.score)
    && (count == 0.0 ==> v.mechanisms == FallbackMechanisms(a, b))
    && (count != 0.0 ==> |v.mechanisms| as real == count)
    && exists found :: JoinedComments(v, found, count)
  }

  /** `v`'s comment text joins `count` comments of the passes, `found`, and the
      extra warnings for `v`'s mechanisms and score. */
  predicate JoinedComments(v: Interaction, found: seq<string>, count: real) {
    |found| as real == count && v.comments == Join("; ", found + ExtraWarnings(v.mechanisms, v.score))
  }

  /** `r` is what `analyze_interaction(idA, idB)` gives: the error of the first
      id missing from the store (A is loaded first), or the analysis. */
  ghost predicate IsAnalysis(eng: InteractionEngine, idA: int, idB: int, r: Result<Interaction, string>)
    requires IsRemovalOrder(eng.order)
  {
    if idA !in eng.drugs then r == Failure(NotFound(idA))
    else if idB !in eng.drugs then r == Failure(NotFound(idB))
    else r.Success? && Describes(eng, eng.drugs[idA], eng.drugs[idB], r.value)
  }

  /** `analyze_interaction`. */
  method AnalyzeInteraction(eng: InteractionEngine, idA: int, idB: int) returns (r: Result<Interaction, string>)
    requires IsRemovalOrder(eng.order)
    ensures IsAnalysis(eng, idA, idB, r)
    ensures r.Success? <==> idA in eng.drugs && idB in eng.drugs
    ensures r.Success? ==> 0.0 <= r.value.score <= 1.0 && r.value.mechanisms != []
  {
    if idA !in eng.drugs {
      return Failure(NotFound(idA));
    }
    var a := eng.drugs[idA];
    if idB !in eng.drugs {
      return Failure(NotFound(idB));
    }
    var b := eng.drugs[idB];
    var score, mechs, comments := Analyze(eng.normalizer, eng.order, a.pharmacology, b.pharmacology, a.name, b.name);
    if mechs == [] {
      mechs := FallbackMechanisms(a, b);
    }
    score := Clamp(score);
    var level := DetermineLevel(score);
    ghost var found := comments;
    comments := AddExtraWarnings(mechs, comments, score);
    r := Success(Interaction(a.name, b.name, score, level, mechs, Join("; ", comments)));
    assert JoinedComments(r.value, found, MechanismCount(eng.normalizer, eng.order, a.pharmacology, b.pharmacology));
  }

  /** The score and the level do not depend on which drug comes first. */
  lemma DescribesSymmetric(eng: InteractionEngine, a: DrugRecord, b: DrugRecord, v: Interaction, w: Interaction)
    requires IsRemovalOrder(eng.order)
    requires Describes(eng, a, b, v) && Describes(eng, b, a, w)
    ensures v.score == w.score && v.level == w.level
    ensures |v.mechanisms| == |w.mechanisms| || (v.mechanisms == FallbackMechanisms(a, b) && w.mechanisms == FallbackMechanisms(b, a))
  {
    var n, order, pa, pb := eng.normalizer, eng.order, a.pharmacology, b.pharmacology;
    PassesSymmetric(n, ParsedAll(n, pa.metabolism, order), ParsedAll(n, pb.metabolism, order),
                    ParsedAll(n, pa.targets, order), ParsedAll(n, pb.targets, order), pa.effects, pb.effects);
  }

  /** The last item of a non-empty list ends the text `sep.join` makes of it. */
  lemma {:induction false} JoinEndsWith(sep: string, parts: seq<string>)
    requires parts != []
    ensures |parts[|parts| - 1]| <= |Join(sep, parts)|
    ensures Join(sep, parts)[|Join(sep, parts)| - |parts[|parts| - 1]|..] == parts[|parts| - 1]
  {
    if |parts| > 1 {
      JoinEndsWith(sep, parts[1..]);
      var rest, last := Join(sep, parts[1..]), parts[|parts| - 1];
      assert parts[1..][|parts[1..]| - 1] == last;
      var whole := parts[0] + sep + rest;
      assert whole[|whole| - |last|..] == rest[|rest| - |last|..];
    }
  }

  /** A score above 0.5 makes "Риск токсичности" the last comment; the
      hepatotoxicity warning is among the comments when the mechanisms mention
      the liver. */
  lemma ToxicityRiskLast(eng: InteractionEngine, a: DrugRecord, b: DrugRecord, v: Interaction)
    requires IsRemovalOrder(eng.order)
    requires Describes(eng, a, b, v)
    requires v.score > 0.5
    ensures |ToxicityRisk| <= |v.comments| && v.comments[|v.comments| - |ToxicityRisk|..] == ToxicityRisk
  {
    var found :| JoinedComments(v, found, MechanismCount(eng.normalizer, eng.order, a.pharmacology, b.pharmacology));
    var parts := found + ExtraWarnings(v.mechanisms, v.score);
    assert parts[|parts| - 1] == ToxicityRisk;
    JoinEndsWith("; ", parts);
  }

  /** The pairs `(ids[i], ids[j])` with `j > i` for one `i`, by increasing `j`. */
  function Row(ids: seq<int>, i: nat): (r: seq<(int, int)>)
    requires i < |ids|
    ensures |r| == |ids| - i - 1
    ensures forall k :: 0 <= k < |r| ==> r[k] == (ids[i], ids[i + 1 + k])
  {
    seq(|ids| - i - 1, k requires 0 <= k < |ids| - i - 1 => (ids[i], ids[i + 1 + k]))
  }

  /** The rows of the first `m` indices, in order. */
  function Pairs(ids: seq<int>, m: nat): seq<(int, int)>
    requires m <= |ids|
  {
    if m == 0 then [] else Pairs(ids, m - 1) + Row(ids, m - 1)
  }

  /** The pairs of `analyze_combination`'s double loop, in `(i, j)` order. */
  function AllPairs(ids: seq<int>): seq<(int, int)> {
    Pairs(ids, |ids|)
  }

  lemma {:induction false} PairsLength(ids: seq<int>, m: nat)
    requires m <= |ids|
    ensures 2 * |Pairs(ids, m)| == m * (2 * |ids| - m - 1)
  {
    if m > 0 {
      PairsLength(ids, m - 1);
      assert (m - 1) * (2 * |ids| - m) + 2 * (|ids| - m) == m * (2 * |ids| - m - 1);
    }
  }

  /** There are n(n-1)/2 pairs. */
  lemma AllPairsLength(ids: seq<int>)
    ensures |AllPairs(ids)| == |ids| * (|ids| - 1) / 2
  {
    PairsLength(ids, |ids|);
  }

  /** The pairs are exactly those of an id with an id at a later index. */
  lemma {:induction false} PairsMembers(ids: seq<int>, m: nat)
    requires m <= |ids|
    ensures forall p :: p in Pairs(ids, m) <==> exists i, j :: 0 <= i < m && i < j < |ids| && p == (ids[i], ids[j])
  {
    if m > 0 {
      PairsMembers(ids, m - 1);
      var row := Row(ids, m - 1);
      forall p | p in row ensures exists j :: m - 1 < j < |ids| && p == (ids[m - 1], ids[j]) {
        var k :| 0 <= k < |row| && row[k] == p;
        assert p == (ids[m - 1], ids[m + k]);
      }
      forall j | m - 1 < j < |ids| ensures (ids[m - 1], ids[j]) in row {
        assert row[j - m] == (ids[m - 1], ids[j]);
      }
    }
  }

  const ErrorPrefix: string := "Error: "

  /** The result `analyze_combination` puts in place of a pair that failed. */
  function Placeholder(a: int, b: int, error: string): (v: Interaction)
    ensures v.score == 0.0 && v.level == Low && v.mechanisms == []
  {
    Interaction(IntToString(a), IntToString(b), 0.0, Low, [], ErrorPrefix + error)
  }

  /** `v` is what `analyze_combination` reports for the pair `p`. */
  ghost predicate IsOutcome(eng: InteractionEngine, p: (int, int), v: Interaction)
    requires IsRemovalOrder(eng.order)
  {
    if p.0 !in eng.drugs then v == Placeholder(p.0, p.1, NotFound(p.0))
    else if p.1 !in eng.drugs then v == Placeholder(p.0, p.1, NotFound(p.1))
    else Describes(eng, eng.drugs[p.0], eng.drugs[p.1], v)
  }

  /** `results` are what `analyze_combination` reports for `pairs`, pair by pair. */
  ghost predicate Outcomes(eng: InteractionEngine, pairs: seq<(int, int)>, results: seq<Interaction>)
    requires IsRemovalOrder(eng.order)
    decreases |pairs|
  {
    |pairs| == |results|
    && (pairs != [] ==>
          Outcomes(eng, pairs[..|pairs| - 1], results[..|results| - 1])
          && IsOutcome(eng, pairs[|pairs| - 1], results[|results| - 1]))
  }

  lemma OutcomesAppend(eng: InteractionEngine, pairs: seq<(int, int)>, results: seq<Interaction>, p: (int, int), v: Interaction)
    requires IsRemovalOrder(eng.order)
    requires Outcomes(eng, pairs, results) && IsOutcome(eng, p, v)
    ensures Outcomes(eng, pairs + [p], results + [v])
  {
    assert (pairs + [p])[..|pairs|] == pairs;
    assert (results + [v])[..|results|] == results;
  }

  lemma {:induction false} OutcomesConcat(eng: InteractionEngine, pairs: seq<(int, int)>, results: seq<Interaction>,
                                          more: seq<(int, int)>, moreResults: seq<Interaction>)
    requires IsRemovalOrder(eng.order)
    requires Outcomes(eng, pairs, results) && Outcomes(eng, more, moreResults)
    ensures Outcomes(eng, pairs + more, results + moreResults)
    decreases |more|
  {
    if more == [] {
      ConcatEmpty(pairs);
      ConcatEmpty(results);
    } else {
      var m, mr := more[..|more| - 1], moreResults[..|moreResults| - 1];
      OutcomesConcat(eng, pairs, results, m, mr);
      ConcatLast(pairs, more);
      ConcatLast(results, moreResults);
    }
  }

  /** The list view of `Outcomes`: the result at each index belongs to the pair
      at that index. */
  lemma {:induction false} OutcomesAt(eng: InteractionEngine, pairs: seq<(int, int)>, results: seq<Interaction>, k: int)
    requires IsRemovalOrder(eng.order)
    requires Outcomes(eng, pairs, results)
    requires 0 <= k < |pairs|
    ensures |results| == |pairs| && IsOutcome(eng, pairs[k], results[k])
    decreases |pairs|
  {
    if k < |pairs| - 1 {
      var ps, rs := pairs[..|pairs| - 1], results[..|results| - 1];
      OutcomesAt(eng, ps, rs, k);
      assert ps[k] == pairs[k] && rs[k] == results[k];
    }
  }

  /** One pair of `analyze_combination`, with the error turned into a placeholder. */
  method CombinePair(eng: InteractionEngine, a: int, b: int) returns (v: Interaction)
    requires IsRemovalOrder(eng.order)
    ensures IsOutcome(eng, (a, b), v)
  {
    var r := AnalyzeInteraction(eng, a, b);
    if r.Success? {
      v := r.value;
    } else {
      v := Placeholder(a, b, r.error);
    }
  }

  /** The inner loop of `analyze_combination`: `ids[i]` with every later id. */
  method CombinationRow(eng: InteractionEngine, ids: seq<int>, i: nat) returns (results: seq<Interaction>)
    requires IsRemovalOrder(eng.order)
    requires i < |ids|
    ensures Outcomes(eng, Row(ids, i), results)
  {
    results := [];
    ghost var row := Row(ids, i);
    var j := i + 1;
    while j < |ids|
      invariant i + 1 <= j <= |ids|
      invariant Outcomes(eng, row[..j - i - 1], results)
    {
      var v := CombinePair(eng, ids[i], ids[j]);
      ghost var p := (ids[i], ids[j]);
      PrefixStep(row, j - i - 1);
      assert row[j - i - 1] == p;
      OutcomesAppend(eng, row[..j - i - 1], results, p, v);
      results := results + [v];
      j := j + 1;
    }
    PrefixAll(row);
  }

  /** `analyze_combination`: one result per pair of the list, in `(i, j)` order,
      a placeholder where the analysis failed; a failure never stops the batch. */
  method AnalyzeCombination(eng: InteractionEngine, ids: seq<int>) returns (results: seq<Interaction>)
    requires IsRemovalOrder(eng.order)
    ensures |results| == |ids| * (|ids| - 1) / 2
    ensures Outcomes(eng, AllPairs(ids), results)
  {
    results := [];
    var i := 0;
    while i < |ids|
      invariant 0 <= i <= |ids|
      invariant Outcomes(eng, Pairs(ids, i), results)
    {
      var row := CombinationRow(eng, ids, i);
      OutcomesConcat(eng, Pairs(ids, i), results, Row(ids, i), row);
      results := results + row;
      i := i + 1;
    }
    AllPairsLength(ids);
  }
}
