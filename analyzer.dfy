/** `InteractionAnalyzer.analyze` of interactions.py: parses both drugs'
    pharmacology and runs the three detector passes. */
module Analyzer {
  import opened Iteration
  import opened PairSums
  import opened EntryParser
  import opened Metabolic
  import opened Dynamical
  import opened Toxicity
  import Normalization

  /** The pharmacology lists of one drug record. */
  datatype Pharmacology = Pharmacology(targets: seq<string>, metabolism: seq<string>, effects: seq<string>)

  /** `[self._parse_entry(m) for m in raws]` */
  function ParsedAll(n: Normalization.Normalizer, raws: seq<string>, order: seq<string>): (r: seq<Entry>)
    requires IsRemovalOrder(order)
  {
    if raws == [] then [] else ParsedAll(n, raws[..|raws| - 1], order) + [Parsed(n, raws[|raws| - 1], order)]
  }

  method ParseAll(n: Normalization.Normalizer, raws: seq<string>, order: seq<string>) returns (r: seq<Entry>)
    requires IsRemovalOrder(order)
    ensures r == ParsedAll(n, raws, order)
  {
    r := [];
    var i := 0;
    while i < |raws|
      invariant 0 <= i <= |raws|
      invariant r == ParsedAll(n, raws[..i], order)
    {
      PrefixStep(raws, i);
      var e := ParseEntry(n, raws[i], order);
      r := r + [e];
      i := i + 1;
    }
    PrefixAll(raws);
  }

  /** The uncapped sum of the three passes over parsed metabolism and target
      entries and raw effect lines. There are no weights: `WEIGHTS` is declared
      in the source but never used. */
  function PassScore(n: Normalization.Normalizer, metaA: seq<Entry>, metaB: seq<Entry>, targA: seq<Entry>, targB: seq<Entry>,
                     effectsA: seq<string>, effectsB: seq<string>): real
  {
    MetabolicScore(metaA, metaB) + DynamicalScore(targA, targB) + ToxicityScore(n, effectsA, effectsB)
  }

  /** The number of mechanisms the three passes report together. */
  function PassCount(n: Normalization.Normalizer, metaA: seq<Entry>, metaB: seq<Entry>, targA: seq<Entry>, targB: seq<Entry>,
                     effectsA: seq<string>, effectsB: seq<string>): real
  {
    MetabolicCount(metaA, metaB)
    + |PairFlat(targA, targB, DynamicalMechanisms)| as real
    + (if ToxicityFindings(n, effectsA, effectsB) != {} then 1.0 else 0.0)
  }

  /** The uncapped score of two drugs' pharmacology. */
  function RawScore(n: Normalization.Normalizer, order: seq<string>, pa: Pharmacology, pb: Pharmacology): real
    requires IsRemovalOrder(order)
  {
    PassScore(n, ParsedAll(n, pa.metabolism, order), ParsedAll(n, pb.metabolism, order),
              ParsedAll(n, pa.targets, order), ParsedAll(n, pb.targets, order), pa.effects, pb.effects)
  }

  function MechanismCount(n: Normalization.Normalizer, order: seq<string>, pa: Pharmacology, pb: Pharmacology): real
    requires IsRemovalOrder(order)
  {
    PassCount(n, ParsedAll(n, pa.metabolism, order), ParsedAll(n, pb.metabolism, order),
              ParsedAll(n, pa.targets, order), ParsedAll(n, pb.targets, order), pa.effects, pb.effects)
  }

  /** Each pass scores at least zero, scores the same with the drugs swapped, and
      scores zero exactly when it reports no mechanism. */
  lemma MetabolicProperties(a: seq<Entry>, b: seq<Entry>)
    ensures MetabolicScore(a, b) >= 0.0 && MetabolicCount(a, b) >= 0.0
    ensures MetabolicScore(a, b) == MetabolicScore(b, a)
    ensures MetabolicCount(a, b) == MetabolicCount(b, a)
    ensures MetabolicScore(a, b) == 0.0 <==> MetabolicCount(a, b) == 0.0
  {
    forall x, y ensures OnSameTarget(MetabolicTerm)(x, y) == OnSameTarget(MetabolicTerm)(y, x)
                     && OnSameTarget(MetabolicHits)(x, y) == OnSameTarget(MetabolicHits)(y, x)
                     && OnSameTarget(MetabolicTerm)(x, y) >= 0.0 && OnSameTarget(MetabolicHits)(x, y) >= 0.0
                     && (OnSameTarget(MetabolicTerm)(x, y) == 0.0 <==> OnSameTarget(MetabolicHits)(x, y) == 0.0)
    {
      MetabolicTermCases(x, y);
      assert OnSameTarget(MetabolicTerm)(x, y) == if SameTarget(x, y) then MetabolicTerm(x, y) else 0.0;
      assert OnSameTarget(MetabolicTerm)(y, x) == if SameTarget(y, x) then MetabolicTerm(y, x) else 0.0;
      assert OnSameTarget(MetabolicHits)(x, y) == if SameTarget(x, y) then MetabolicHits(x, y) else 0.0;
      assert OnSameTarget(MetabolicHits)(y, x) == if SameTarget(y, x) then MetabolicHits(y, x) else 0.0;
    }
    PairSumNonNegative(a, b, OnSameTarget(MetabolicTerm));
    PairSumNonNegative(a, b, OnSameTarget(MetabolicHits));
    PairSumSwap(a, b, OnSameTarget(MetabolicTerm), OnSameTarget(MetabolicTerm));
    PairSumSwap(a, b, OnSameTarget(MetabolicHits), OnSameTarget(MetabolicHits));
    PairSumZeroIff(a, b, OnSameTarget(MetabolicTerm));
    PairSumZeroIff(a, b, OnSameTarget(MetabolicHits));
  }

  lemma DynamicalProperties(a: seq<Entry>, b: seq<Entry>)
    ensures DynamicalScore(a, b) >= 0.0
    ensures DynamicalScore(a, b) == DynamicalScore(b, a)
    ensures |PairFlat(a, b, DynamicalMechanisms)| == |PairFlat(b, a, DynamicalMechanisms)|
    ensures |PairFlat(a, b, DynamicalMechanisms)| == |PairFlat(a, b, DynamicalComments)|
    ensures DynamicalScore(a, b) == 0.0 <==> PairFlat(a, b, DynamicalMechanisms) == []
  {
    forall x, y ensures DynamicalTerm(x, y) == DynamicalTerm(y, x) && DynamicalHits(x, y) == DynamicalHits(y, x)
                     && DynamicalTerm(x, y) >= 0.0 && DynamicalHits(x, y) >= 0.0
                     && (DynamicalTerm(x, y) == 0.0 <==> DynamicalHits(x, y) == 0.0)
                     && |DynamicalMechanisms(x, y)| == |DynamicalComments(x, y)|
    {
      DynamicalTermCases(x, y);
    }
    PairSumNonNegative(a, b, DynamicalTerm);
    PairSumSwap(a, b, DynamicalTerm, DynamicalTerm);
    PairFlatLength(a, b, DynamicalMechanisms, DynamicalHits);
    PairFlatLength(b, a, DynamicalMechanisms, DynamicalHits);
    PairSumSwap(a, b, DynamicalHits, DynamicalHits);
    PairFlatSameLength(a, b, DynamicalMechanisms, DynamicalComments);
    PairSumZeroIff(a, b, DynamicalTerm);
    PairSumZeroIff(a, b, DynamicalHits);
  }

  /** `analyze` does not depend on the order of the two drugs, as far as the
      score and the number of mechanisms go. */
  lemma PassesSymmetric(n: Normalization.Normalizer, metaA: seq<Entry>, metaB: seq<Entry>, targA: seq<Entry>, targB: seq<Entry>,
                        effectsA: seq<string>, effectsB: seq<string>)
    ensures PassScore(n, metaA, metaB, targA, targB, effectsA, effectsB) == PassScore(n, metaB, metaA, targB, targA, effectsB, effectsA)
    ensures PassCount(n, metaA, metaB, targA, targB, effectsA, effectsB) == PassCount(n, metaB, metaA, targB, targA, effectsB, effectsA)
  {
    MetabolicProperties(metaA, metaB);
    DynamicalProperties(targA, targB);
    ToxicitySymmetric(n, effectsA, effectsB);
  }

  /** The uncapped score is never negative, and it is zero exactly when no pass
      reports a mechanism. */
  lemma PassesZeroIff(n: Normalization.Normalizer, metaA: seq<Entry>, metaB: seq<Entry>, targA: seq<Entry>, targB: seq<Entry>,
                      effectsA: seq<string>, effectsB: seq<string>)
    ensures PassScore(n, metaA, metaB, targA, targB, effectsA, effectsB) >= 0.0
    ensures PassCount(n, metaA, metaB, targA, targB, effectsA, effectsB) >= 0.0
    ensures PassScore(n, metaA, metaB, targA, targB, effectsA, effectsB) == 0.0
            <==> PassCount(n, metaA, metaB, targA, targB, effectsA, effectsB) == 0.0
  {
    MetabolicProperties(metaA, metaB);
    DynamicalProperties(targA, targB);
  }

  /** The three passes over parsed entries, their results concatenated in
      pass order and the score capped at 1.0. */
  method RunPasses(n: Normalization.Normalizer, metaA: seq<Entry>, metaB: seq<Entry>, targA: seq<Entry>, targB: seq<Entry>,
                   effectsA: seq<string>, effectsB: seq<string>, nameA: string, nameB: string)
    returns (score: real, mechs: seq<string>, comments: seq<string>)
    ensures score == Min(PassScore(n, metaA, metaB, targA, targB, effectsA, effectsB), 1.0)
    ensures 0.0 <= score <= 1.0
    ensures |mechs| as real == PassCount(n, metaA, metaB, targA, targB, effectsA, effectsB)
    ensures |comments| == |mechs|
    ensures mechs == [] <==> score == 0.0
    ensures exists m, t :: mechs == m + PairFlat(targA, targB, DynamicalMechanisms) + t
                           && |t| == (if ToxicityFindings(n, effectsA, effectsB) != {} then 1 else 0)
  {
    var sM, mM, cM := AnalyzeMetabolic(metaA, metaB, nameA, nameB);
    var sD, mD, cD := AnalyzeDynamical(targA, targB);
    var sT, mT, cT := AnalyzeToxicity(n, effectsA, effectsB);
    DynamicalProperties(targA, targB);
    PassesZeroIff(n, metaA, metaB, targA, targB, effectsA, effectsB);
    score := 0.0;
    mechs, comments := [], [];
    score := score + sM;
    ConcatEmpty(mM);
    ConcatEmpty(cM);
    mechs, comments := mechs + mM, comments + cM;
    score := score + sD;
    mechs, comments := mechs + mD, comments + cD;
    score := score + sT;
    mechs, comments := mechs + mT, comments + cT;
    assert |mT| == (if ToxicityFindings(n, effectsA, effectsB) != {} then 1 else 0);
    assert mechs == mM + PairFlat(targA, targB, DynamicalMechanisms) + mT;
    score := Min(score, 1.0);
  }

  /** `analyze`: parses both drugs' metabolism and target lines once, then runs
      the three passes. */
  method Analyze(n: Normalization.Normalizer, order: seq<string>, pa: Pharmacology, pb: Pharmacology,
                 nameA: string, nameB: string)
    returns (score: real, mechs: seq<string>, comments: seq<string>)
    requires IsRemovalOrder(order)
    ensures score == Min(RawScore(n, order, pa, pb), 1.0)
    ensures 0.0 <= score <= 1.0
    ensures |mechs| as real == MechanismCount(n, order, pa, pb)
    ensures |comments| == |mechs|
    ensures mechs == [] <==> score == 0.0
    ensures exists m, t :: mechs == m + PairFlat(ParsedAll(n, pa.targets, order), ParsedAll(n, pb.targets, order),
                                                 DynamicalMechanisms) + t
                           && |t| == (if ToxicityFindings(n, pa.effects, pb.effects) != {} then 1 else 0)
  {
    var metaA := ParseAll(n, pa.metabolism, order);
    var metaB := ParseAll(n, pb.metabolism, order);
    var targA := ParseAll(n, pa.targets, order);
    var targB := ParseAll(n, pb.targets, order);
    score, mechs, comments := RunPasses(n, metaA, metaB, targA, targB, pa.effects, pb.effects, nameA, nameB);
  }
}
