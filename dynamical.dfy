/** `InteractionAnalyzer._analyze_dynamical` of interactions.py: pairs of
    target entries on the same target, either both blocking it or one
    stimulating and the other blocking it. */
module Dynamical {
  import opened Iteration
  import opened Text
  import opened PairSums
  import opened EntryParser

  /** Python's `min(x, y)`. */
  function Min(x: real, y: real): (r: real)
    ensures r <= x && r <= y && (r == x || r == y)
  {
    if x <= y then x else y
  }

  /** The roles that switch a target off. */
  predicate Blocks(x: Entry) {
    x.role == Blocker || x.role == Inhibitor
  }

  /** One entry is an agonist and the other a blocker. (The source also accepts
      an "antagonist" role, which the parser never produces.) */
  predicate Opposes(x: Entry, y: Entry) {
    (x.role == Agonist && y.role == Blocker) || (y.role == Agonist && x.role == Blocker)
  }

  /** The texts `_analyze_dynamical` reports. */
  const DoubleBlockade: string := "Двойная блокада мишени "
  const Antagonism: string := "Антагонизм действия на "
  const DoubleBlockadeRisk: string := "Риск усиления побочных эффектов или чрезмерного угнетения функции"
  const AntagonismRisk: string := "Препараты могут нейтрализовать терапевтический эффект друг друга"

  /** The score one pair of target entries adds. */
  function DynamicalTerm(x: Entry, y: Entry): real {
    if !SameTarget(x, y) then 0.0
    else if Blocks(x) && Blocks(y) then 0.5 * Min(x.strength, y.strength)
    else if Opposes(x, y) then 0.4
    else 0.0
  }

  function DynamicalMechanisms(x: Entry, y: Entry): seq<string> {
    if !SameTarget(x, y) then []
    else if Blocks(x) && Blocks(y) then [DoubleBlockade + Upper(x.target)]
    else if Opposes(x, y) then [Antagonism + Upper(x.target)]
    else []
  }

  function DynamicalComments(x: Entry, y: Entry): seq<string> {
    if !SameTarget(x, y) then []
    else if Blocks(x) && Blocks(y) then [DoubleBlockadeRisk]
    else if Opposes(x, y) then [AntagonismRisk]
    else []
  }

  function DynamicalHits(x: Entry, y: Entry): real {
    |DynamicalMechanisms(x, y)| as real
  }

  function DynamicalScore(a: seq<Entry>, b: seq<Entry>): real {
    PairSum(a, b, DynamicalTerm)
  }

  /** A pair on the same real target adds 0.5 times the smaller strength when
      both block it, 0.4 when one is an agonist and the other a blocker, and
      nothing in every other case; the term does not depend on the order. */
  lemma DynamicalTermCases(x: Entry, y: Entry)
    ensures DynamicalTerm(x, y) == DynamicalTerm(y, x)
    ensures DynamicalTerm(x, y) >= 0.0
    ensures DynamicalTerm(x, y) > 0.0 <==> SameTarget(x, y) && ((Blocks(x) && Blocks(y)) || Opposes(x, y))
    ensures DynamicalTerm(x, y) == 0.0 <==> DynamicalHits(x, y) == 0.0
    ensures |DynamicalMechanisms(x, y)| == |DynamicalComments(x, y)| <= 1
  {
  }

  /** The body of the inner loop of `_analyze_dynamical`. */
  method ScoreDynamicalPair(itemA: Entry, itemB: Entry) returns (score: real, mechs: seq<string>, comments: seq<string>)
    ensures score == DynamicalTerm(itemA, itemB)
    ensures mechs == DynamicalMechanisms(itemA, itemB)
    ensures comments == DynamicalComments(itemA, itemB)
  {
    score, mechs, comments := 0.0, [], [];
    var tA, tB := itemA.target, itemB.target;
    if tA == Systemic || tB == Systemic {
      return;
    }
    if tA == tB {
      var roleA, roleB := itemA.role, itemB.role;
      if (roleA == Blocker || roleA == Inhibitor) && (roleB == Blocker || roleB == Inhibitor) {
        score := score + 0.5 * Min(itemA.strength, itemB.strength);
        mechs := mechs + [DoubleBlockade + Upper(tA)];
        comments := comments + [DoubleBlockadeRisk];
      } else if (roleA == Agonist && roleB == Blocker) || (roleB == Agonist && roleA == Blocker) {
        score := score + 0.4;
        mechs := mechs + [Antagonism + Upper(tA)];
        comments := comments + [AntagonismRisk];
      }
    }
  }

  /** The inner loop of `_analyze_dynamical`: one target entry of A against
      every target entry of B. */
  method ScoreDynamicalRow(itemA: Entry, b: seq<Entry>)
    returns (score: real, mechs: seq<string>, comments: seq<string>)
    ensures score == RowSum(itemA, b, DynamicalTerm)
    ensures mechs == RowFlat(itemA, b, DynamicalMechanisms)
    ensures comments == RowFlat(itemA, b, DynamicalComments)
  {
    score, mechs, comments := 0.0, [], [];
    var j := 0;
    while j < |b|
      invariant 0 <= j <= |b|
      invariant score == RowSum(itemA, b[..j], DynamicalTerm)
      invariant mechs == RowFlat(itemA, b[..j], DynamicalMechanisms)
      invariant comments == RowFlat(itemA, b[..j], DynamicalComments)
    {
      PrefixStep(b, j);
      var s, m, c := ScoreDynamicalPair(itemA, b[j]);
      score, mechs, comments := score + s, mechs + m, comments + c;
      j := j + 1;
    }
    PrefixAll(b);
  }

  /** `_analyze_dynamical`: every target entry of A against every target entry
      of B, row by row. */
  method AnalyzeDynamical(a: seq<Entry>, b: seq<Entry>)
    returns (score: real, mechs: seq<string>, comments: seq<string>)
    ensures score == DynamicalScore(a, b)
    ensures mechs == PairFlat(a, b, DynamicalMechanisms)
    ensures comments == PairFlat(a, b, DynamicalComments)
  {
    score, mechs, comments := 0.0, [], [];
    var i := 0;
    while i < |a|
      invariant 0 <= i <= |a|
      invariant score == PairSum(a[..i], b, DynamicalTerm)
      invariant mechs == PairFlat(a[..i], b, DynamicalMechanisms)
      invariant comments == PairFlat(a[..i], b, DynamicalComments)
    {
      PrefixStep(a, i);
      var s, m, c := ScoreDynamicalRow(a[i], b);
      score, mechs, comments := score + s, mechs + m, comments + c;
      i := i + 1;
    }
    PrefixAll(a);
  }
}
