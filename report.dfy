/** The selection part of `InteractionReporter.generate_report` of
    interactions.py: every pair of drugs is analysed, the successful analyses
    are counted, the ones above the low level are kept, and those are sorted by
    descending score. */
module Report {
  import opened Wrappers
  import opened Iteration
  import opened Sorting
  import opened EntryParser
  import opened Engine

  /** `r['score']` as the key of a sort with `reverse=True`. */
  predicate ScoreGe(x: Interaction, y: Interaction) {
    x.score >= y.score
  }

  lemma ScoreGeIsTotalPreorder()
    ensures TotalPreorder(ScoreGe)
  {
  }

  /** The number of analyses that did not raise. */
  function SuccessCount(outcomes: seq<Result<Interaction, string>>): (n: nat)
    ensures n <= |outcomes|
  {
    if outcomes == [] then 0
    else SuccessCount(outcomes[..|outcomes| - 1]) + (if outcomes[|outcomes| - 1].Success? then 1 else 0)
  }

  /** A successful analysis above the low level. */
  predicate IsSignificant(r: Result<Interaction, string>) {
    r.Success? && r.value.level != Low
  }

  /** The significant analyses, in the order they were made. */
  function Significant(outcomes: seq<Result<Interaction, string>>): (kept: seq<Interaction>)
    ensures |kept| <= SuccessCount(outcomes)
  {
    if outcomes == [] then []
    else
      var last := outcomes[|outcomes| - 1];
      Significant(outcomes[..|outcomes| - 1]) + (if IsSignificant(last) then [last.value] else [])
  }

  /** A result is kept exactly when some significant analysis produced it. */
  lemma {:induction false} SignificantMembers(outcomes: seq<Result<Interaction, string>>)
    ensures forall v :: v in Significant(outcomes) <==> Success(v) in outcomes && v.level != Low
  {
    if outcomes != [] {
      var init := outcomes[..|outcomes| - 1];
      SignificantMembers(init);
      assert outcomes == init + [outcomes[|outcomes| - 1]];
    }
  }

  /** `outcomes` are what `analyze_interaction` gives for `pairs`, pair by pair. */
  ghost predicate Analyses(eng: InteractionEngine, pairs: seq<(int, int)>, outcomes: seq<Result<Interaction, string>>)
    requires IsRemovalOrder(eng.order)
    decreases |pairs|
  {
    |pairs| == |outcomes|
    && (pairs != [] ==>
          Analyses(eng, pairs[..|pairs| - 1], outcomes[..|outcomes| - 1])
          && IsAnalysis(eng, pairs[|pairs| - 1].0, pairs[|pairs| - 1].1, outcomes[|outcomes| - 1]))
  }

  lemma AnalysesAppend(eng: InteractionEngine, pairs: seq<(int, int)>, outcomes: seq<Result<Interaction, string>>,
                       a: int, b: int, r: Result<Interaction, string>)
    requires IsRemovalOrder(eng.order)
    requires Analyses(eng, pairs, outcomes) && IsAnalysis(eng, a, b, r)
    ensures Analyses(eng, pairs + [(a, b)], outcomes + [r])
  {
    ConcatLast(pairs, [(a, b)]);
    ConcatLast(outcomes, [r]);
  }

  lemma {:induction false} AnalysesConcat(eng: InteractionEngine, pairs: seq<(int, int)>, outcomes: seq<Result<Interaction, string>>,
                                          more: seq<(int, int)>, moreOutcomes: seq<Result<Interaction, string>>)
    requires IsRemovalOrder(eng.order)
    requires Analyses(eng, pairs, outcomes) && Analyses(eng, more, moreOutcomes)
    ensures Analyses(eng, pairs + more, outcomes + moreOutcomes)
    decreases |more|
  {
    if more == [] {
      ConcatEmpty(pairs);
      ConcatEmpty(outcomes);
    } else {
      AnalysesConcat(eng, pairs, outcomes, more[..|more| - 1], moreOutcomes[..|moreOutcomes| - 1]);
      ConcatLast(pairs, more);
      ConcatLast(outcomes, moreOutcomes);
    }
  }

  /** Both drugs of the pair are in the store. */
  predicate Loadable(eng: InteractionEngine, p: (int, int)) {
    p.0 in eng.drugs && p.1 in eng.drugs
  }

  function LoadableCount(eng: InteractionEngine, pairs: seq<(int, int)>): nat {
    if pairs == [] then 0
    else LoadableCount(eng, pairs[..|pairs| - 1]) + (if Loadable(eng, pairs[|pairs| - 1]) then 1 else 0)
  }

  /** `total_analyzed` counts the pairs whose two drugs are both in the store,
      and every kept result scores at least 0.3 and carries the level of its
      score. */
  lemma {:induction false} AnalysesSummary(eng: InteractionEngine, pairs: seq<(int, int)>, outcomes: seq<Result<Interaction, string>>)
    requires IsRemovalOrder(eng.order)
    requires Analyses(eng, pairs, outcomes)
    ensures SuccessCount(outcomes) == LoadableCount(eng, pairs)
    ensures forall v :: v in Significant(outcomes) ==> v.score >= 0.3 && v.level == DetermineLevel(v.score)
    decreases |pairs|
  {
    if pairs != [] {
      var ps, os := pairs[..|pairs| - 1], outcomes[..|outcomes| - 1];
      AnalysesSummary(eng, ps, os);
      var p, r := pairs[|pairs| - 1], outcomes[|outcomes| - 1];
      assert r.Success? <==> Loadable(eng, p);
      if IsSignificant(r) {
        assert Describes(eng, eng.drugs[p.0], eng.drugs[p.1], r.value);
      }
    }
  }

  /** The body of the inner loop of `generate_report`: a successful analysis is
      counted, and kept when its level is not low. */
  method Tally(count: nat, kept: seq<Interaction>, r: Result<Interaction, string>) returns (count': nat, kept': seq<Interaction>)
    ensures count' == count + (if r.Success? then 1 else 0)
    ensures kept' == kept + (if IsSignificant(r) then [r.value] else [])
  {
    count', kept' := count, kept;
    if r.Success? {
      count' := count' + 1;
      if r.value.level != Low {
        kept' := kept' + [r.value];
      }
    }
  }

  /** One turn of the inner loop of `generate_report`: the pair `(a, b)` is
      analysed and tallied. */
  method ReportStep(eng: InteractionEngine, a: int, b: int, count: nat, kept: seq<Interaction>,
                    ghost done: seq<(int, int)>, ghost outcomes: seq<Result<Interaction, string>>)
    returns (count': nat, kept': seq<Interaction>, ghost outcomes': seq<Result<Interaction, string>>)
    requires IsRemovalOrder(eng.order)
    requires Analyses(eng, done, outcomes)
    requires count == SuccessCount(outcomes) && kept == Significant(outcomes)
    ensures Analyses(eng, done + [(a, b)], outcomes')
    ensures count' == SuccessCount(outcomes') && kept' == Significant(outcomes')
  {
    var r := AnalyzeInteraction(eng, a, b);
    AnalysesAppend(eng, done, outcomes, a, b, r);
    SummaryStep(outcomes, r);
    count', kept' := Tally(count, kept, r);
    outcomes' := outcomes + [r];
  }

  /** The inner loop of `generate_report`: `ids[i]` with every later id. A
      raising analysis is skipped (the `except: continue`). */
  method ReportRow(eng: InteractionEngine, ids: seq<int>, i: nat)
    returns (count: nat, kept: seq<Interaction>, ghost outcomes: seq<Result<Interaction, string>>)
    requires IsRemovalOrder(eng.order)
    requires i < |ids|
    ensures Analyses(eng, Row(ids, i), outcomes)
    ensures count == SuccessCount(outcomes) && kept == Significant(outcomes)
  {
    count, kept, outcomes := 0, [], [];
    ghost var row := Row(ids, i);
    var j := i + 1;
    while j < |ids|
      invariant i + 1 <= j <= |ids|
      invariant Analyses(eng, row[..j - i - 1], outcomes)
      invariant count == SuccessCount(outcomes) && kept == Significant(outcomes)
    {
      PrefixStep(row, j - i - 1);
      assert row[j - i - 1] == (ids[i], ids[j]);
      count, kept, outcomes := ReportStep(eng, ids[i], ids[j], count, kept, row[..j - i - 1], outcomes);
      j := j + 1;
    }
    PrefixAll(row);
  }

  /** One more analysis adds one to the count when it succeeded and its
      result to the kept ones when it is significant. */
  lemma SummaryStep(outcomes: seq<Result<Interaction, string>>, r: Result<Interaction, string>)
    ensures SuccessCount(outcomes + [r]) == SuccessCount(outcomes) + (if r.Success? then 1 else 0)
    ensures Significant(outcomes + [r]) == Significant(outcomes) + (if IsSignificant(r) then [r.value] else [])
  {
    assert (outcomes + [r])[..|outcomes|] == outcomes;
  }

  /** `SuccessCount` and `Significant` of two runs of analyses one after the other. */
  lemma {:induction false} SummaryConcat(outcomes: seq<Result<Interaction, string>>, more: seq<Result<Interaction, string>>)
    ensures SuccessCount(outcomes + more) == SuccessCount(outcomes) + SuccessCount(more)
    ensures Significant(outcomes + more) == Significant(outcomes) + Significant(more)
    decreases |more|
  {
    if more == [] {
      ConcatEmpty(outcomes);
      ConcatEmpty(Significant(outcomes));
    } else {
      var init := more[..|more| - 1];
      SummaryConcat(outcomes, init);
      ConcatLast(outcomes, more);
      var last := more[|more| - 1];
      var tail := if IsSignificant(last) then [last.value] else [];
      assert Significant(outcomes) + Significant(init) + tail == Significant(outcomes) + (Significant(init) + tail);
    }
  }

  /** The selection of `generate_report` over the drug ids `ids` (the ids of
      `get_all_drugs`): `total` is `total_analyzed`, `results` the sorted rows
      of the report, and `|results|` is `significant_found`. */
  method GenerateReport(eng: InteractionEngine, ids: seq<int>)
    returns (total: nat, results: seq<Interaction>, ghost outcomes: seq<Result<Interaction, string>>)
    requires IsRemovalOrder(eng.order)
    ensures Analyses(eng, AllPairs(ids), outcomes)
    ensures total == SuccessCount(outcomes)
    ensures results == SortBy(Significant(outcomes), ScoreGe)
    ensures multiset(results) == multiset(Significant(outcomes))
    ensures SortedBy(results, ScoreGe)
  {
    total := 0;
    var kept: seq<Interaction> := [];
    outcomes := [];
    var i := 0;
    while i < |ids|
      invariant 0 <= i <= |ids|
      invariant Analyses(eng, Pairs(ids, i), outcomes)
      invariant total == SuccessCount(outcomes) && kept == Significant(outcomes)
    {
      var count, rowKept, rowOutcomes := ReportRow(eng, ids, i);
      AnalysesConcat(eng, Pairs(ids, i), outcomes, Row(ids, i), rowOutcomes);
      SummaryConcat(outcomes, rowOutcomes);
      total, kept, outcomes := total + count, kept + rowKept, outcomes + rowOutcomes;
      i := i + 1;
    }
    ScoreGeIsTotalPreorder();
    results := SortBy(kept, ScoreGe);
  }
}
