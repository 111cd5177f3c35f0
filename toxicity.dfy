/** `InteractionAnalyzer._analyze_toxicity` of interactions.py: danger words
    that the normalised side-effect descriptions of both drugs mention. */
module Toxicity {
  import opened Text
  import Normalization
  import opened Iteration

  /** The danger words the shared effect words are filtered by (including the
      misspelt "сетация" of the source). */
  const DangerWords: set<string> := {
    "кровотечение", "bleeding", "qt", "arrhythmia", "аритмия",
    "liver", "печень", "kidney", "почки", "sedation", "сетация",
    "pressure", "давление", "hypotension", "гипотензия"
  }

  /** The words of one normalised effect description. */
  function WordSet(n: Normalization.Normalizer, effect: string): set<string> {
    Elements(Words(n.Normalize(effect)))
  }

  /** The words of the normalised effect descriptions. */
  function EffectWords(n: Normalization.Normalizer, effects: seq<string>): set<string> {
    if effects == [] then {}
    else EffectWords(n, effects[..|effects| - 1]) + WordSet(n, effects[|effects| - 1])
  }

  /** The danger words both drugs' effects mention. */
  function ToxicityFindings(n: Normalization.Normalizer, effectsA: seq<string>, effectsB: seq<string>): (r: set<string>)
    ensures forall w :: w in r ==> w in DangerWords
  {
    EffectWords(n, effectsA) * EffectWords(n, effectsB) * DangerWords
  }

  function ToxicityScore(n: Normalization.Normalizer, effectsA: seq<string>, effectsB: seq<string>): real {
    if ToxicityFindings(n, effectsA, effectsB) != {} then 0.3 else 0.0
  }

  /** The word sets, and so the findings, do not depend on which drug is first. */
  lemma ToxicitySymmetric(n: Normalization.Normalizer, effectsA: seq<string>, effectsB: seq<string>)
    ensures ToxicityFindings(n, effectsA, effectsB) == ToxicityFindings(n, effectsB, effectsA)
    ensures ToxicityScore(n, effectsA, effectsB) == ToxicityScore(n, effectsB, effectsA)
  {
  }

  /** The loop that collects the normalised words of one drug's effects. */
  method CollectWords(n: Normalization.Normalizer, effects: seq<string>) returns (words: set<string>)
    ensures words == EffectWords(n, effects)
  {
    words := {};
    var i := 0;
    while i < |effects|
      invariant 0 <= i <= |effects|
      invariant words == EffectWords(n, effects[..i])
    {
      EffectWordsStep(n, effects, i);
      words := words + WordSet(n, effects[i]);
      i := i + 1;
    }
    PrefixAll(effects);
  }

  lemma EffectWordsStep(n: Normalization.Normalizer, effects: seq<string>, i: nat)
    requires i < |effects|
    ensures EffectWords(n, effects[..i + 1]) == EffectWords(n, effects[..i]) + WordSet(n, effects[i])
  {
    PrefixStep(effects, i);
  }

  const ToxicityPrefix: string := "Суммирование побочных эффектов: "
  const ToxicityComment: string := "Увеличение риска специфической токсичности"

  /** `_analyze_toxicity`: 0.3 and one mechanism naming the shared danger words
      (in set order) when there are any; nothing otherwise. */
  method AnalyzeToxicity(n: Normalization.Normalizer, effectsA: seq<string>, effectsB: seq<string>)
    returns (score: real, mechs: seq<string>, comments: seq<string>)
    ensures score == ToxicityScore(n, effectsA, effectsB)
    ensures |mechs| == |comments| == if ToxicityFindings(n, effectsA, effectsB) != {} then 1 else 0
    ensures ToxicityFindings(n, effectsA, effectsB) == {} ==> mechs == [] && comments == []
    ensures ToxicityFindings(n, effectsA, effectsB) != {} ==>
              comments == [ToxicityComment] && |mechs| == 1
              && exists listed :: IsListing(listed, ToxicityFindings(n, effectsA, effectsB))
                                  && mechs[0] == ToxicityPrefix + Join(", ", listed)
  {
    var setA := CollectWords(n, effectsA);
    var setB := CollectWords(n, effectsB);
    var common := setA * setB;
    var found := common * DangerWords;
    score, mechs, comments := 0.0, [], [];
    if found != {} {
      var listed := Enumerate(found);
      score := score + 0.3;
      mechs := mechs + [ToxicityPrefix + Join(", ", listed)];
      comments := comments + [ToxicityComment];
    }
  }
}
