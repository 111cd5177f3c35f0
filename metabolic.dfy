/** `InteractionAnalyzer._analyze_metabolic` of interactions.py: pairs of
    metabolism entries on an enzyme both drugs share, an inhibitor or an inducer
    on one side and a substrate on the other. */
module Metabolic {
  import opened Text
  import opened PairSums
  import opened EntryParser
  import opened Iteration

  /** `x` inhibits an enzyme that metabolises `y`. */
  predicate Inhibits(x: Entry, y: Entry) {
    x.role == Inhibitor && y.role == Substrate
  }

  /** `x` induces an enzyme that metabolises `y`. */
  predicate Induces(x: Entry, y: Entry) {
    x.role == Inducer && y.role == Substrate
  }

  /** The score one pair of entries on a shared enzyme adds: the inhibition
      branch, then, separately, the induction branch. */
  function MetabolicTerm(x: Entry, y: Entry): real {
    (if Inhibits(x, y) then 0.4 * x.strength else if Inhibits(y, x) then 0.4 * y.strength else 0.0)
    + (if Induces(x, y) then 0.3 * x.strength else if Induces(y, x) then 0.3 * y.strength else 0.0)
  }

  /** The number of mechanisms one pair on a shared enzyme adds. */
  function MetabolicHits(x: Entry, y: Entry): real {
    (if Inhibits(x, y) || Inhibits(y, x) then 1.0 else 0.0)
    + (if Induces(x, y) || Induces(y, x) then 1.0 else 0.0)
  }

  /** A pair fires at most one of the four branches: the inhibition and the
      induction branch never both apply, since each entry has one role. */
  lemma MetabolicTermCases(x: Entry, y: Entry)
    ensures MetabolicHits(x, y) <= 1.0
    ensures MetabolicTerm(x, y) ==
      if Inhibits(x, y) then 0.4 * x.strength
      else if Inhibits(y, x) then 0.4 * y.strength
      else if Induces(x, y) then 0.3 * x.strength
      else if Induces(y, x) then 0.3 * y.strength
      else 0.0
    ensures MetabolicTerm(x, y) == MetabolicTerm(y, x)
    ensures MetabolicTerm(x, y) >= 0.0
    ensures MetabolicTerm(x, y) == 0.0 <==> MetabolicHits(x, y) == 0.0
  {
  }

  /** "`inhibitor` ингибирует `ENZ`, метаболизирующий `substrate`" */
  function InhibitionText(inhibitor: string, enz: string, substrate: string): string {
    inhibitor + InhibitsWord + Upper(enz) + MetabolisingWord + substrate
  }

  /** "`inducer` стимулирует `ENZ`, разрушающий `substrate`" */
  function InductionText(inducer: string, enz: string, substrate: string): string {
    inducer + InducesWord + Upper(enz) + DegradingWord + substrate
  }

  /** "Риск повышения концентрации `substrate` и токсичности" */
  function ConcentrationRisk(substrate: string): string {
    ConcentrationRiskPrefix + substrate + ToxicitySuffix
  }

  /** "Риск снижения эффективности `substrate`" */
  function EfficacyRisk(substrate: string): string {
    EfficacyRiskPrefix + substrate
  }

  const InhibitsWord: string := " ингибирует "
  const MetabolisingWord: string := ", метаболизирующий "
  const InducesWord: string := " стимулирует "
  const DegradingWord: string := ", разрушающий "
  const ConcentrationRiskPrefix: string := "Риск повышения концентрации "
  const ToxicitySuffix: string := " и токсичности"
  const EfficacyRiskPrefix: string := "Риск снижения эффективности "

  /** The mechanisms one pair on enzyme `enz` adds, in the order the source
      appends them. */
  function MetabolicMechanisms(nameA: string, nameB: string, enz: string): (Entry, Entry) -> seq<string> {
    (x: Entry, y: Entry) =>
      (if Inhibits(x, y) then [InhibitionText(nameA, enz, nameB)]
       else if Inhibits(y, x) then [InhibitionText(nameB, enz, nameA)]
       else [])
      + (if Induces(x, y) then [InductionText(nameA, enz, nameB)]
         else if Induces(y, x) then [InductionText(nameB, enz, nameA)]
         else [])
  }

  /** The comments one pair adds, one per mechanism. */
  function MetabolicComments(nameA: string, nameB: string): (Entry, Entry) -> seq<string> {
    (x: Entry, y: Entry) =>
      (if Inhibits(x, y) then [ConcentrationRisk(nameB)]
       else if Inhibits(y, x) then [ConcentrationRisk(nameA)]
       else [])
      + (if Induces(x, y) then [EfficacyRisk(nameB)]
         else if Induces(y, x) then [EfficacyRisk(nameA)]
         else [])
  }

  /** A pair reports one mechanism per branch it fires, and one comment per
      mechanism. */
  lemma MetabolicTexts(nameA: string, nameB: string, enz: string)
    ensures forall x, y :: |MetabolicMechanisms(nameA, nameB, enz)(x, y)| as real == MetabolicHits(x, y)
    ensures forall x, y :: |MetabolicMechanisms(nameA, nameB, enz)(x, y)| == |MetabolicComments(nameA, nameB)(x, y)|
  {
    forall x, y ensures |MetabolicMechanisms(nameA, nameB, enz)(x, y)| as real == MetabolicHits(x, y)
                     && |MetabolicMechanisms(nameA, nameB, enz)(x, y)| == |MetabolicComments(nameA, nameB)(x, y)|
    {
      MechanismsApply(nameA, nameB, enz, x, y);
    }
  }

  lemma MechanismsApply(nameA: string, nameB: string, enz: string, x: Entry, y: Entry)
    ensures |MetabolicMechanisms(nameA, nameB, enz)(x, y)|
            == (if Inhibits(x, y) || Inhibits(y, x) then 1 else 0) + (if Induces(x, y) || Induces(y, x) then 1 else 0)
    ensures |MetabolicComments(nameA, nameB)(x, y)|
            == (if Inhibits(x, y) || Inhibits(y, x) then 1 else 0) + (if Induces(x, y) || Induces(y, x) then 1 else 0)
  {
  }

  /** A per-pair term restricted to pairs on the same, non-systemic target. */
  function OnSameTarget(t: (Entry, Entry) -> real): (Entry, Entry) -> real {
    (x: Entry, y: Entry) => if SameTarget(x, y) then t(x, y) else 0.0
  }

  /** The metabolic score: every pair of entries on a shared enzyme other than
      "systemic" contributes its term. */
  function MetabolicScore(a: seq<Entry>, b: seq<Entry>): real {
    PairSum(a, b, OnSameTarget(MetabolicTerm))
  }

  /** The number of metabolic mechanisms. */
  function MetabolicCount(a: seq<Entry>, b: seq<Entry>): real {
    PairSum(a, b, OnSameTarget(MetabolicHits))
  }

  function HasTarget(t: string): Entry -> bool {
    (e: Entry) => e.target == t
  }

  /** `map_enzymes`: each target maps to its entries, in their order. */
  method MapEnzymes(entries: seq<Entry>) returns (m: map<string, seq<Entry>>)
    ensures forall t :: t in m <==> exists k :: 0 <= k < |entries| && entries[k].target == t
    ensures forall t :: t in m ==> m[t] == Filter(entries, HasTarget(t))
  {
    m := map[];
    var i := 0;
    while i < |entries|
      invariant 0 <= i <= |entries|
      invariant IsEnzymeMap(entries[..i], m)
    {
      var item := entries[i];
      var t := item.target;
      ghost var m0 := m;
      // `if t not in mapping: mapping[t] = []` then `mapping[t].append(item)`
      m := m[t := (if t in m then m[t] else []) + [item]];
      MapStep(entries, i, m0, m);
      i := i + 1;
    }
    EnzymeMapAll(entries, m);
  }

  lemma EnzymeMapAll(entries: seq<Entry>, m: map<string, seq<Entry>>)
    requires IsEnzymeMap(entries[..|entries|], m)
    ensures forall t :: t in m <==> exists k :: 0 <= k < |entries| && entries[k].target == t
    ensures forall t :: t in m ==> m[t] == Filter(entries, HasTarget(t))
  {
    PrefixAll(entries);
  }

  /** `m` maps each target of `entries` to the entries on it, in order. */
  ghost predicate IsEnzymeMap(entries: seq<Entry>, m: map<string, seq<Entry>>) {
    (forall t :: t in m <==> exists k :: 0 <= k < |entries| && entries[k].target == t)
    && (forall t :: t in m ==> m[t] == Filter(entries, HasTarget(t)))
  }

  /** Appending the next entry to its target's list extends the map to one more
      entry. */
  lemma MapStep(entries: seq<Entry>, i: int, m0: map<string, seq<Entry>>, m: map<string, seq<Entry>>)
    requires 0 <= i < |entries| && IsEnzymeMap(entries[..i], m0)
    requires entries[i].target in m && m[entries[i].target] == (if entries[i].target in m0 then m0[entries[i].target] else []) + [entries[i]]
    requires forall t :: t != entries[i].target ==> (t in m <==> t in m0) && (t in m0 ==> m[t] == m0[t])
    ensures IsEnzymeMap(entries[..i + 1], m)
  {
    PrefixStep(entries, i);
    var e := entries[i];
    if e.target !in m0 {
      FilterNone(entries[..i], HasTarget(e.target));
    }
    forall t | t in m ensures m[t] == Filter(entries[..i + 1], HasTarget(t)) {
      assert Filter(entries[..i + 1], HasTarget(t))
          == Filter(entries[..i], HasTarget(t)) + (if HasTarget(t)(e) then [e] else []);
    }
    var next := entries[..i + 1];
    forall t ensures t in m <==> exists k :: 0 <= k < |next| && next[k].target == t {
      if t != e.target {
        if t in m {
          var k :| 0 <= k < i && entries[..i][k].target == t;
          assert next[k] == entries[..i][k];
        }
      } else {
        assert next[i].target == t;
      }
    }
  }

  /** The body of the inner loop for one pair of entries on enzyme `enz`. */
  method ScoreMetabolicPair(itemA: Entry, itemB: Entry, enz: string, nameA: string, nameB: string)
    returns (score: real, mechs: seq<string>, comments: seq<string>)
    ensures score == MetabolicTerm(itemA, itemB)
    ensures mechs == MetabolicMechanisms(nameA, nameB, enz)(itemA, itemB)
    ensures comments == MetabolicComments(nameA, nameB)(itemA, itemB)
  {
    score, mechs, comments := 0.0, [], [];
    if itemA.role == Inhibitor && itemB.role == Substrate {
      score := score + 0.4 * itemA.strength;
      mechs := mechs + [InhibitionText(nameA, enz, nameB)];
      comments := comments + [ConcentrationRisk(nameB)];
    } else if itemB.role == Inhibitor && itemA.role == Substrate {
      score := score + 0.4 * itemB.strength;
      mechs := mechs + [InhibitionText(nameB, enz, nameA)];
      comments := comments + [ConcentrationRisk(nameA)];
    }
    if itemA.role == Inducer && itemB.role == Substrate {
      score := score + 0.3 * itemA.strength;
      mechs := mechs + [InductionText(nameA, enz, nameB)];
      comments := comments + [EfficacyRisk(nameB)];
    } else if itemB.role == Inducer && itemA.role == Substrate {
      score := score + 0.3 * itemB.strength;
      mechs := mechs + [InductionText(nameB, enz, nameA)];
      comments := comments + [EfficacyRisk(nameA)];
    }
  }

  /** The inner loop for one shared enzyme: one entry of A against every entry
      of B on that enzyme. */
  method ScoreMetabolicRow(itemA: Entry, listB: seq<Entry>, enz: string, nameA: string, nameB: string)
    returns (score: real, mechs: seq<string>, comments: seq<string>)
    ensures score == RowSum(itemA, listB, MetabolicTerm)
    ensures mechs == RowFlat(itemA, listB, MetabolicMechanisms(nameA, nameB, enz))
    ensures comments == RowFlat(itemA, listB, MetabolicComments(nameA, nameB))
  {
    score, mechs, comments := 0.0, [], [];
    var j := 0;
    while j < |listB|
      invariant 0 <= j <= |listB|
      invariant score == RowSum(itemA, listB[..j], MetabolicTerm)
      invariant mechs == RowFlat(itemA, listB[..j], MetabolicMechanisms(nameA, nameB, enz))
      invariant comments == RowFlat(itemA, listB[..j], MetabolicComments(nameA, nameB))
    {
      PrefixStep(listB, j);
      var s, m, c := ScoreMetabolicPair(itemA, listB[j], enz, nameA, nameB);
      score, mechs, comments := score + s, mechs + m, comments + c;
      j := j + 1;
    }
    PrefixAll(listB);
  }

  /** The two nested loops for one shared enzyme, row by row. */
  method ScoreEnzyme(listA: seq<Entry>, listB: seq<Entry>, enz: string, nameA: string, nameB: string)
    returns (score: real, mechs: seq<string>, comments: seq<string>)
    ensures score == PairSum(listA, listB, MetabolicTerm)
    ensures mechs == PairFlat(listA, listB, MetabolicMechanisms(nameA, nameB, enz))
    ensures comments == PairFlat(listA, listB, MetabolicComments(nameA, nameB))
  {
    score, mechs, comments := 0.0, [], [];
    var i := 0;
    while i < |listA|
      invariant 0 <= i <= |listA|
      invariant score == PairSum(listA[..i], listB, MetabolicTerm)
      invariant mechs == PairFlat(listA[..i], listB, MetabolicMechanisms(nameA, nameB, enz))
      invariant comments == PairFlat(listA[..i], listB, MetabolicComments(nameA, nameB))
    {
      PrefixStep(listA, i);
      var s, m, c := ScoreMetabolicRow(listA[i], listB, enz, nameA, nameB);
      score, mechs, comments := score + s, mechs + m, comments + c;
      i := i + 1;
    }
    PrefixAll(listA);
  }

  /** The term restricted to pairs on a shared target that the enzyme loop has
      already visited. */
  function Visited(done: seq<string>, t: (Entry, Entry) -> real): (Entry, Entry) -> real {
    (x: Entry, y: Entry) => if x.target == y.target && x.target in done && x.target != Systemic then t(x, y) else 0.0
  }

  function OnlyTarget(enz: string, t: (Entry, Entry) -> real): (Entry, Entry) -> real {
    (x: Entry, y: Entry) => if x.target == enz && y.target == enz then t(x, y) else 0.0
  }

  lemma VisitedApply(done: seq<string>, t: (Entry, Entry) -> real, u: Entry, v: Entry)
    ensures Visited(done, t)(u, v) == if u.target == v.target && u.target in done && u.target != Systemic then t(u, v) else 0.0
  {
  }

  lemma VisitedNone(a: seq<Entry>, b: seq<Entry>, t: (Entry, Entry) -> real)
    ensures PairSum(a, b, Visited([], t)) == 0.0
  {
    PairSumZeroIff(a, b, Visited([], t));
  }

  /** Visiting a new enzyme adds the pair sum over the entries on that enzyme. */
  lemma VisitedStep(a: seq<Entry>, b: seq<Entry>, done: seq<string>, enz: string, t: (Entry, Entry) -> real)
    requires enz !in done && enz != Systemic
    ensures PairSum(a, b, Visited(done + [enz], t))
            == PairSum(a, b, Visited(done, t)) + PairSum(Filter(a, HasTarget(enz)), Filter(b, HasTarget(enz)), t)
  {
    forall u, v ensures Visited(done + [enz], t)(u, v) == Visited(done, t)(u, v) + OnlyTarget(enz, t)(u, v) {
      VisitedApply(done + [enz], t, u, v);
      VisitedApply(done, t, u, v);
      assert OnlyTarget(enz, t)(u, v) == if u.target == enz && v.target == enz then t(u, v) else 0.0;
    }
    PairSumAdd(a, b, Visited(done, t), OnlyTarget(enz, t), Visited(done + [enz], t));
    forall u, v ensures OnlyTarget(enz, t)(u, v) == if HasTarget(enz)(u) && HasTarget(enz)(v) then t(u, v) else 0.0 {
      assert HasTarget(enz)(u) == (u.target == enz);
      assert HasTarget(enz)(v) == (v.target == enz);
    }
    PairSumFilter(a, b, HasTarget(enz), OnlyTarget(enz, t), t);
  }

  /** Skipping "systemic" adds nothing. */
  lemma VisitedSkip(a: seq<Entry>, b: seq<Entry>, done: seq<string>, t: (Entry, Entry) -> real)
    ensures PairSum(a, b, Visited(done + [Systemic], t)) == PairSum(a, b, Visited(done, t))
  {
    PairSumCongruent(a, b, Visited(done + [Systemic], t), Visited(done, t));
  }

  /** Once every shared target is visited, the sum covers all same-target pairs. */
  lemma VisitedAll(a: seq<Entry>, b: seq<Entry>, common: seq<string>, t: (Entry, Entry) -> real)
    requires forall u, v :: u in a && v in b && u.target == v.target ==> u.target in common
    ensures PairSum(a, b, Visited(common, t)) == PairSum(a, b, OnSameTarget(t))
  {
    forall u, v | u in a && v in b ensures Visited(common, t)(u, v) == OnSameTarget(t)(u, v) {
      VisitedApply(common, t, u, v);
      assert OnSameTarget(t)(u, v) == if SameTarget(u, v) then t(u, v) else 0.0;
      if u.target == v.target {
        assert u.target in common;
      }
    }
    PairSumCongruent(a, b, Visited(common, t), OnSameTarget(t));
  }

  /** The scores and mechanisms of one newly visited enzyme extend the running
      totals to the enzymes visited so far plus that one. */
  lemma EnzymeStep(a: seq<Entry>, b: seq<Entry>, done: seq<string>, enz: string, nameA: string, nameB: string,
                   score: real, mechs: seq<string>, comments: seq<string>,
                   s: real, m: seq<string>, c: seq<string>)
    requires enz !in done && enz != Systemic
    requires score == PairSum(a, b, Visited(done, MetabolicTerm))
    requires |mechs| as real == PairSum(a, b, Visited(done, MetabolicHits)) && |comments| == |mechs|
    requires s == PairSum(Filter(a, HasTarget(enz)), Filter(b, HasTarget(enz)), MetabolicTerm)
    requires m == PairFlat(Filter(a, HasTarget(enz)), Filter(b, HasTarget(enz)), MetabolicMechanisms(nameA, nameB, enz))
    requires c == PairFlat(Filter(a, HasTarget(enz)), Filter(b, HasTarget(enz)), MetabolicComments(nameA, nameB))
    ensures score + s == PairSum(a, b, Visited(done + [enz], MetabolicTerm))
    ensures |mechs + m| as real == PairSum(a, b, Visited(done + [enz], MetabolicHits))
    ensures |comments + c| == |mechs + m|
  {
    var listA, listB := Filter(a, HasTarget(enz)), Filter(b, HasTarget(enz));
    VisitedStep(a, b, done, enz, MetabolicTerm);
    VisitedStep(a, b, done, enz, MetabolicHits);
    MetabolicTexts(nameA, nameB, enz);
    PairFlatLength(listA, listB, MetabolicMechanisms(nameA, nameB, enz), MetabolicHits);
    PairFlatSameLength(listA, listB, MetabolicMechanisms(nameA, nameB, enz), MetabolicComments(nameA, nameB));
  }

  /** Every target two entries of `a` and `b` share is a key of both maps. */
  lemma SharedTargetsCommon(a: seq<Entry>, b: seq<Entry>, mapA: map<string, seq<Entry>>, mapB: map<string, seq<Entry>>)
    requires forall t :: t in mapA <==> exists k :: 0 <= k < |a| && a[k].target == t
    requires forall t :: t in mapB <==> exists k :: 0 <= k < |b| && b[k].target == t
    ensures forall u, v :: u in a && v in b && u.target == v.target ==> u.target in mapA.Keys * mapB.Keys
  {
    forall u, v | u in a && v in b && u.target == v.target ensures u.target in mapA.Keys * mapB.Keys {
      var i :| 0 <= i < |a| && a[i] == u;
      var j :| 0 <= j < |b| && b[j] == v;
    }
  }

  /** One turn of the enzyme loop of `_analyze_metabolic`: "systemic" is
      skipped, any other enzyme adds its pairs to the running totals. */
  method VisitEnzyme(a: seq<Entry>, b: seq<Entry>, listA: seq<Entry>, listB: seq<Entry>, enz: string,
                     nameA: string, nameB: string, ghost done: seq<string>,
                     score: real, mechs: seq<string>, comments: seq<string>)
    returns (score': real, mechs': seq<string>, comments': seq<string>)
    requires enz !in done
    requires listA == Filter(a, HasTarget(enz)) && listB == Filter(b, HasTarget(enz))
    requires score == PairSum(a, b, Visited(done, MetabolicTerm))
    requires |mechs| as real == PairSum(a, b, Visited(done, MetabolicHits)) && |comments| == |mechs|
    ensures score' == PairSum(a, b, Visited(done + [enz], MetabolicTerm))
    ensures |mechs'| as real == PairSum(a, b, Visited(done + [enz], MetabolicHits)) && |comments'| == |mechs'|
    ensures mechs' == mechs + (if enz == Systemic then [] else PairFlat(listA, listB, MetabolicMechanisms(nameA, nameB, enz)))
  {
    if enz == Systemic {
      VisitedSkip(a, b, done, MetabolicTerm);
      VisitedSkip(a, b, done, MetabolicHits);
      return score, mechs, comments;
    }
    var s, m, c := ScoreEnzyme(listA, listB, enz, nameA, nameB);
    EnzymeStep(a, b, done, enz, nameA, nameB, score, mechs, comments, s, m, c);
    score', mechs', comments' := score + s, mechs + m, comments + c;
  }

  /** `_analyze_metabolic`. The shared enzymes are visited in the unspecified
      order of a Python set, so the mechanisms are described by their number. */
  method AnalyzeMetabolic(a: seq<Entry>, b: seq<Entry>, nameA: string, nameB: string)
    returns (score: real, mechs: seq<string>, comments: seq<string>)
    ensures score == MetabolicScore(a, b)
    ensures |mechs| as real == MetabolicCount(a, b)
    ensures |comments| == |mechs|
  {
    var mapA := MapEnzymes(a);
    var mapB := MapEnzymes(b);
    var common := mapA.Keys * mapB.Keys;
    var enzymes := Enumerate(common);
    score, mechs, comments := 0.0, [], [];
    VisitedNone(a, b, MetabolicTerm);
    VisitedNone(a, b, MetabolicHits);
    var i := 0;
    while i < |enzymes|
      invariant 0 <= i <= |enzymes|
      invariant score == PairSum(a, b, Visited(enzymes[..i], MetabolicTerm))
      invariant |mechs| as real == PairSum(a, b, Visited(enzymes[..i], MetabolicHits))
      invariant |comments| == |mechs|
    {
      var enz := enzymes[i];
      ListingPrefix(enzymes, common, i);
      PrefixStep(enzymes, i);
      score, mechs, comments := VisitEnzyme(a, b, mapA[enz], mapB[enz], enz, nameA, nameB, enzymes[..i], score, mechs, comments);
      i := i + 1;
    }
    PrefixAll(enzymes);
    SharedTargetsCommon(a, b, mapA, mapB);
    VisitedAll(a, b, enzymes, MetabolicTerm);
    VisitedAll(a, b, enzymes, MetabolicHits);
  }
}
