/** The analog search of search_engine.py: `SearchEngine` over a drug
    database. The three queries the engine sends to the database
    (`search_drugs_by_name`, `get_drugs_by_substance`, `get_drug_by_id`) are
    taken as given functions, so every property below holds whatever rows the
    database returns. */
module Search {
  import opened Wrappers
  import opened Text
  import opened Iteration
  import opened Sorting
  import opened Catalog

  /** A row of the `drugs` table. `contraindications` is NULL-able. */
  datatype Drug = Drug(id: int, name: string, substance: string, form: string,
                       manufacturer: string, price: real, contraindications: Option<string>)

  /** The database queries the engine relies on. */
  datatype Database = Database(
    byName: string -> seq<Drug>,       // search_drugs_by_name
    bySubstance: string -> seq<Drug>,  // get_drugs_by_substance
    byId: int -> Option<Drug>)         // get_drug_by_id

  /** An analog together with its similarity score: the `(drug, score)` tuple. */
  datatype Scored = Scored(drug: Drug, similarity: real)

  // ---------------------------------------------------------------------
  // _has_matching_substance

  /** `[s.lower() for s in substances]` */
  function LowerAll(pieces: seq<string>): (r: seq<string>)
    ensures |r| == |pieces| && forall k :: 0 <= k < |r| ==> r[k] == Lower(pieces[k])
  {
    if pieces == [] then [] else [Lower(pieces[0])] + LowerAll(pieces[1..])
  }

  /** `normalize_substances` (and `get_substances`): the lower-cased
      substance list. */
  function Substances(substance: string): seq<string> {
    LowerAll(SubstancePieces(substance))
  }

  /** Two pieces match when they are equal or one contains the other. */
  predicate PiecesMatch(a: string, b: string) {
    a == b || Contains(b, a) || Contains(a, b)
  }

  /** Some substance of `main` matches some substance of `analog`. */
  predicate SubstancesMatch(main: string, analog: string) {
    AnyMatch(Substances(main), Substances(analog))
  }

  /** Some piece of `ms` matches some piece of `others`. */
  predicate AnyMatch(ms: seq<string>, others: seq<string>) {
    exists i, j :: 0 <= i < |ms| && 0 <= j < |others| && PiecesMatch(ms[i], others[j])
  }

  /** `_has_matching_substance`: the two nested loops stop at the first
      matching pair. */
  method HasMatchingSubstance(main: string, analog: string) returns (r: bool)
    ensures r <==> SubstancesMatch(main, analog)
  {
    var ms := Substances(main);
    var others := Substances(analog);
    r := MatchesAny(ms, others);
  }

  /** The outer loop of `_has_matching_substance`. */
  method MatchesAny(ms: seq<string>, others: seq<string>) returns (r: bool)
    ensures r <==> AnyMatch(ms, others)
  {
    var i := 0;
    while i < |ms|
      invariant 0 <= i <= |ms|
      invariant forall i', j :: 0 <= i' < i && 0 <= j < |others| ==> !PiecesMatch(ms[i'], others[j])
    {
      var found := MatchesSome(ms[i], others);
      if found {
        return true;
      }
      i := i + 1;
    }
    return false;
  }

  /** The inner loop of `_has_matching_substance`: one substance of the main
      drug against every substance of the analog. */
  method MatchesSome(m: string, others: seq<string>) returns (found: bool)
    ensures found <==> exists j :: 0 <= j < |others| && PiecesMatch(m, others[j])
  {
    var j := 0;
    while j < |others|
      invariant 0 <= j <= |others|
      invariant forall j' :: 0 <= j' < j ==> !PiecesMatch(m, others[j'])
    {
      if PiecesMatch(m, others[j]) {
        return true;
      }
      j := j + 1;
    }
    return false;
  }

  /** Matching does not depend on which drug is the main one. */
  lemma SubstancesMatchSymmetric(main: string, analog: string)
    ensures SubstancesMatch(main, analog) <==> SubstancesMatch(analog, main)
  {
    AnyMatchSymmetric(Substances(main), Substances(analog));
  }

  lemma AnyMatchSymmetric(ms: seq<string>, others: seq<string>)
    ensures AnyMatch(ms, others) <==> AnyMatch(others, ms)
  {
    if AnyMatch(ms, others) {
      var i, j :| 0 <= i < |ms| && 0 <= j < |others| && PiecesMatch(ms[i], others[j]);
      assert PiecesMatch(others[j], ms[i]);
    }
    if AnyMatch(others, ms) {
      var j, i :| 0 <= j < |others| && 0 <= i < |ms| && PiecesMatch(others[j], ms[i]);
      assert PiecesMatch(ms[i], others[j]);
    }
  }

  /** A drug with no substance listed matches nothing, and a drug with one
      matches itself. */
  lemma SubstancesMatchSelf(substance: string)
    ensures SubstancesMatch(substance, substance) <==> Substances(substance) != []
  {
    var ms := Substances(substance);
    if ms != [] {
      assert ms[0] == ms[0];
      assert PiecesMatch(ms[0], ms[0]);
    }
  }

  // ---------------------------------------------------------------------
  // _calculate_similarity

  function Abs(x: real): real {
    if x < 0.0 then -x else x
  }

  /** The substance-overlap bonus: `0.3 * |s1 & s2| / |s1 | s2|` when either
      drug has more than one distinct substance. */
  function OverlapBonus(s1: set<string>, s2: set<string>): (r: real)
    ensures 0.0 <= r <= 0.3
    ensures |s1| <= 1 && |s2| <= 1 ==> r == 0.0
  {
    SetSizes(s1, s2);
    if |s1| > 1 || |s2| > 1 then
      var total := |s1 + s2|;
      if total > 0 then (|s1 * s2| as real / total as real) * 0.3 else 0.0
    else 0.0
  }

  /** The intersection is no larger than either set and the union no smaller. */
  lemma SetSizes(s1: set<string>, s2: set<string>)
    ensures |s1 * s2| <= |s1| <= |s1 + s2| && |s1 * s2| <= |s2| <= |s1 + s2|
  {
    assert |s1 - s2| + |s2 - s1| + |s1 * s2| == |s1 + s2|;
    assert |s1 - s2| == |s1| - |s1 * s2|;
    assert s2 * s1 == s1 * s2;
    assert |s2 - s1| == |s2| - |s2 * s1|;
  }

  /** Sets whose intersection is as large as their union are equal. */
  lemma SameSizeIntersection(s1: set<string>, s2: set<string>)
    requires |s1 * s2| == |s1 + s2|
    ensures s1 == s2
  {
    var d := (s1 + s2) - (s1 * s2);
    assert |d| + |s1 * s2| == |s1 + s2|;
    assert d == {};
    assert s1 + s2 == s1 * s2;
  }

  /** The full overlap bonus goes exactly to drugs with the same several
      substances. */
  lemma OverlapBonusFull(s1: set<string>, s2: set<string>)
    ensures OverlapBonus(s1, s2) == 0.3 <==> (|s1| > 1 || |s2| > 1) && s1 == s2
  {
    if |s1| > 1 || |s2| > 1 {
      var total := |s1 + s2|;
      SetSizes(s1, s2);
      var ratio := |s1 * s2| as real / total as real;
      if OverlapBonus(s1, s2) == 0.3 {
        assert ratio == 1.0;
        assert |s1 * s2| == total;
        SameSizeIntersection(s1, s2);
      }
      if s1 == s2 {
        assert s1 * s2 == s1 && s1 + s2 == s1;
      }
    }
  }

  /** For a positive `p`, `a / p < c` exactly when `a < c * p`. */
  lemma DivLess(a: real, p: real, c: real)
    requires p > 0.0
    ensures a / p < c <==> a < c * p
  {
    var q := a / p;
    assert q * p == a;
    if q < c {
      assert (c - q) * p > 0.0;
    } else {
      assert (q - c) * p >= 0.0;
    }
  }

  lemma OverlapBonusSymmetric(s1: set<string>, s2: set<string>)
    ensures OverlapBonus(s1, s2) == OverlapBonus(s2, s1)
  {
    assert s1 * s2 == s2 * s1 && s1 + s2 == s2 + s1;
  }

  /** The price-proximity bonus, relative to the first drug's price. */
  function PriceBonus(p1: real, p2: real): (r: real)
    ensures r == 0.0 || r == 0.1 || r == 0.2
    ensures r == 0.2 <==> p1 > 0.0 && p2 > 0.0 && Abs(p1 - p2) < 0.1 * p1
    ensures r == 0.1 <==> p1 > 0.0 && p2 > 0.0 && 0.1 * p1 <= Abs(p1 - p2) < 0.3 * p1
  {
    if p1 > 0.0 && p2 > 0.0 then
      var diff := Abs(p1 - p2) / p1;
      DivLess(Abs(p1 - p2), p1, 0.1);
      DivLess(Abs(p1 - p2), p1, 0.3);
      if diff < 0.1 then 0.2 else if diff < 0.3 then 0.1 else 0.0
    else 0.0
  }

  /** `+0.3` for the same form, case-insensitively. */
  function FormBonus(d1: Drug, d2: Drug): real {
    if Lower(d1.form) == Lower(d2.form) then 0.3 else 0.0
  }

  /** `+0.2` for the same manufacturer, case-insensitively. */
  function ManufacturerBonus(d1: Drug, d2: Drug): real {
    if Lower(d1.manufacturer) == Lower(d2.manufacturer) then 0.2 else 0.0
  }

  /** `_calculate_similarity`: a base of 1.0 for the shared substance plus the
      overlap, form, manufacturer and price bonuses. */
  function CalculateSimilarity(d1: Drug, d2: Drug): (score: real)
    ensures 1.0 <= score <= 2.0
  {
    1.0 + OverlapBonus(Elements(Substances(d1.substance)), Elements(Substances(d2.substance)))
        + FormBonus(d1, d2) + ManufacturerBonus(d1, d2) + PriceBonus(d1.price, d2.price)
  }

  /** A drug compared with itself: every bonus applies, the overlap bonus only
      with several substances and the price bonus only with a positive price;
      with one substance and a price, 1.7. */
  lemma SimilarityToItself(d: Drug)
    ensures CalculateSimilarity(d, d) ==
              1.5 + (if |Elements(Substances(d.substance))| > 1 then 0.3 else 0.0)
                  + (if d.price > 0.0 then 0.2 else 0.0)
  {
    var s := Elements(Substances(d.substance));
    OverlapBonusFull(s, s);
  }

  /** Only the price bonus depends on the order of the two drugs. */
  lemma SimilarityNearlySymmetric(d1: Drug, d2: Drug)
    ensures CalculateSimilarity(d1, d2) - PriceBonus(d1.price, d2.price)
         == CalculateSimilarity(d2, d1) - PriceBonus(d2.price, d1.price)
  {
    OverlapBonusSymmetric(Elements(Substances(d1.substance)), Elements(Substances(d2.substance)));
  }

  /** The price bonus itself is not symmetric: 100 against 110 differs by 10%
      of the first price, 110 against 100 by less. */
  lemma PriceBonusAsymmetric()
    ensures PriceBonus(100.0, 110.0) == 0.1 && PriceBonus(110.0, 100.0) == 0.2
  {
  }

  // ---------------------------------------------------------------------
  // find_analogs

  /** The candidates of the loop of `find_analogs`, in database order: every
      row other than the main drug that shares a substance with it, scored. */
  function Candidates(main: Drug, analogs: seq<Drug>): seq<Scored> {
    if analogs == [] then []
    else
      var a := analogs[|analogs| - 1];
      Candidates(main, analogs[..|analogs| - 1])
        + (if a.id != main.id && SubstancesMatch(main.substance, a.substance)
           then [Scored(a, CalculateSimilarity(main, a))] else [])
  }

  /** A candidate is exactly a scored row that is not the main drug and shares
      a substance with it. */
  lemma {:induction false} CandidatesMembers(main: Drug, analogs: seq<Drug>)
    ensures forall c :: c in Candidates(main, analogs) <==>
              c.drug in analogs && c.drug.id != main.id && SubstancesMatch(main.substance, c.drug.substance)
              && c.similarity == CalculateSimilarity(main, c.drug)
  {
    if analogs != [] {
      var init := analogs[..|analogs| - 1];
      CandidatesMembers(main, init);
      assert analogs == init + [analogs[|analogs| - 1]];
    }
  }

  /** The sort key `(-similarity, price)`. */
  predicate AnalogLe(x: Scored, y: Scored) {
    x.similarity > y.similarity || (x.similarity == y.similarity && x.drug.price <= y.drug.price)
  }

  lemma AnalogLeIsTotalPreorder()
    ensures TotalPreorder(AnalogLe)
  {
  }

  /** What `find_analogs(drug_name)` returns. */
  function AnalogsOf(db: Database, drugName: string): seq<Scored> {
    var found := db.byName(drugName);
    if found == [] then []
    else SortBy(Candidates(found[0], db.bySubstance(found[0].substance)), AnalogLe)
  }

  /** No match by name gives no analogs; otherwise the analogs are the
      candidates of the first match, from best to worst score and, among equal
      scores, from cheapest, and none of them is that drug. */
  lemma AnalogsOfProperties(db: Database, drugName: string)
    ensures db.byName(drugName) == [] ==> AnalogsOf(db, drugName) == []
    ensures SortedBy(AnalogsOf(db, drugName), AnalogLe)
    ensures db.byName(drugName) != [] ==>
              var main := db.byName(drugName)[0];
              forall c :: c in AnalogsOf(db, drugName) <==>
                c.drug in db.bySubstance(main.substance) && c.drug.id != main.id
                && SubstancesMatch(main.substance, c.drug.substance)
                && c.similarity == CalculateSimilarity(main, c.drug)
  {
    AnalogLeIsTotalPreorder();
    var found := db.byName(drugName);
    if found != [] {
      var main := found[0];
      var cands := Candidates(main, db.bySubstance(main.substance));
      CandidatesMembers(main, db.bySubstance(main.substance));
      assert forall c :: c in AnalogsOf(db, drugName) <==> c in multiset(cands);
    }
  }

  /** The loop of `find_analogs` over the rows of the substance query. */
  method CollectCandidates(main: Drug, analogs: seq<Drug>) returns (result: seq<Scored>)
    ensures result == Candidates(main, analogs)
  {
    result := [];
    var i := 0;
    while i < |analogs|
      invariant 0 <= i <= |analogs|
      invariant result == Candidates(main, analogs[..i])
    {
      PrefixStep(analogs, i);
      var analog := analogs[i];
      i := i + 1;
      if analog.id == main.id {
        continue;
      }
      var shared := HasMatchingSubstance(main.substance, analog.substance);
      if !shared {
        continue;
      }
      var similarity := CalculateSimilarity(main, analog);
      result := result + [Scored(analog, similarity)];
    }
    PrefixAll(analogs);
  }

  /** `find_analogs`. */
  method FindAnalogs(db: Database, drugName: string) returns (result: seq<Scored>)
    ensures result == AnalogsOf(db, drugName)
  {
    var drugs := db.byName(drugName);
    if drugs == [] {
      return [];
    }
    var main := drugs[0];
    var analogs := db.bySubstance(main.substance);
    result := CollectCandidates(main, analogs);
    result := SortBy(result, AnalogLe);
  }

  /** `find_analogs_by_id`: no analogs for an unknown id, otherwise the analogs
      found by the drug's name. */
  method FindAnalogsById(db: Database, drugId: int) returns (result: seq<Scored>)
    ensures db.byId(drugId).None? ==> result == []
    ensures db.byId(drugId).Some? ==> result == AnalogsOf(db, db.byId(drugId).value.name)
  {
    var drug := db.byId(drugId);
    if drug.None? {
      return [];
    }
    result := FindAnalogs(db, drug.value.name);
  }

  // ---------------------------------------------------------------------
  // search_with_filters

  /** The optional arguments of `search_with_filters`, `None` where omitted. */
  datatype Filters = Filters(form: Option<string>, manufacturer: Option<string>,
                             minPrice: Option<real>, maxPrice: Option<real>,
                             excludeContraindication: Option<string>)

  /** A string argument is applied only when it is truthy: given and non-empty. */
  predicate Given(o: Option<string>) {
    o.Some? && o.value != []
  }

  /** `drug.get('contraindications', '') or ''` */
  function ContraindicationText(d: Drug): string {
    if d.contraindications.Some? then d.contraindications.value else ""
  }

  /** A drug passes every filter that is supplied. */
  predicate Passes(d: Drug, f: Filters) {
    (Given(f.form) ==> Lower(d.form) == Lower(f.form.value))
    && (Given(f.manufacturer) ==> Contains(Lower(d.manufacturer), Lower(f.manufacturer.value)))
    && (f.minPrice.Some? ==> d.price >= f.minPrice.value)
    && (f.maxPrice.Some? ==> d.price <= f.maxPrice.value)
    && (Given(f.excludeContraindication) ==>
          !Contains(Lower(ContraindicationText(d)), Lower(f.excludeContraindication.value)))
  }

  /** The analogs that pass the filters, in their original order. */
  function Filtered(analogs: seq<Scored>, f: Filters): seq<Scored> {
    if analogs == [] then []
    else
      var a := analogs[|analogs| - 1];
      Filtered(analogs[..|analogs| - 1], f) + (if Passes(a.drug, f) then [a] else [])
  }

  /** `t` keeps some of the elements of `s`, in the order of `s`. */
  predicate IsSubsequence<T(==)>(t: seq<T>, s: seq<T>)
    decreases |s|
  {
    if t == [] then true
    else if s == [] then false
    else if t[|t| - 1] == s[|s| - 1] then IsSubsequence(t[..|t| - 1], s[..|s| - 1])
    else IsSubsequence(t, s[..|s| - 1])
  }

  /** The filtered list is an order-preserving selection of the analogs, and it
      holds exactly the analogs that pass. */
  lemma {:induction false} FilteredProperties(analogs: seq<Scored>, f: Filters)
    ensures IsSubsequence(Filtered(analogs, f), analogs)
    ensures forall a :: a in Filtered(analogs, f) <==> a in analogs && Passes(a.drug, f)
  {
    if analogs != [] {
      var init := analogs[..|analogs| - 1];
      var last := analogs[|analogs| - 1];
      FilteredProperties(init, f);
      assert analogs == init + [last];
      if Passes(last.drug, f) {
        ConcatLast(Filtered(init, f), [last]);
      } else {
        ConcatEmpty(Filtered(init, f));
        SubsequenceWeaken(Filtered(init, f), init, last);
      }
    }
  }

  /** A subsequence of `s` is a subsequence of `s + [x]`. */
  lemma {:induction false} SubsequenceWeaken<T>(t: seq<T>, s: seq<T>, x: T)
    requires IsSubsequence(t, s)
    ensures IsSubsequence(t, s + [x])
    decreases |s|, 1
  {
    ConcatLast(s, [x]);
    if t != [] && t[|t| - 1] == x {
      SubsequenceShorter(t, s);
    }
  }

  /** Dropping the last element keeps a subsequence a subsequence. */
  lemma {:induction false} SubsequenceShorter<T>(t: seq<T>, s: seq<T>)
    requires t != [] && IsSubsequence(t, s)
    ensures IsSubsequence(t[..|t| - 1], s)
    decreases |s|, 0
  {
    var init := t[..|t| - 1];
    ConcatLast(s[..|s| - 1], [s[|s| - 1]]);
    if t[|t| - 1] == s[|s| - 1] {
      SubsequenceWeaken(init, s[..|s| - 1], s[|s| - 1]);
    } else {
      SubsequenceShorter(t, s[..|s| - 1]);
      SubsequenceWeaken(init, s[..|s| - 1], s[|s| - 1]);
    }
  }

  /** Without filters every analog is kept. */
  lemma {:induction false} NoFiltersKeepAll(analogs: seq<Scored>)
    ensures Filtered(analogs, Filters(None, None, None, None, None)) == analogs
  {
    if analogs != [] {
      var init, last := analogs[..|analogs| - 1], analogs[|analogs| - 1];
      NoFiltersKeepAll(init);
      assert Passes(last.drug, Filters(None, None, None, None, None));
      ConcatLast(init, [last]);
      ConcatEmpty(init);
    }
  }

  /** The filter loop of `search_with_filters`. */
  method ApplyFilters(analogs: seq<Scored>, f: Filters) returns (filtered: seq<Scored>)
    ensures filtered == Filtered(analogs, f)
  {
    filtered := [];
    var i := 0;
    while i < |analogs|
      invariant 0 <= i <= |analogs|
      invariant filtered == Filtered(analogs[..i], f)
    {
      PrefixStep(analogs, i);
      var entry := analogs[i];
      var drug := entry.drug;
      i := i + 1;
      if f.form.Some? && f.form.value != [] && Lower(drug.form) != Lower(f.form.value) {
        continue;
      }
      if f.manufacturer.Some? && f.manufacturer.value != []
         && !Contains(Lower(drug.manufacturer), Lower(f.manufacturer.value)) {
        continue;
      }
      if f.minPrice.Some? && drug.price < f.minPrice.value {
        continue;
      }
      if f.maxPrice.Some? && drug.price > f.maxPrice.value {
        continue;
      }
      if f.excludeContraindication.Some? && f.excludeContraindication.value != [] {
        var contraindications := ContraindicationText(drug);
        if Contains(Lower(contraindications), Lower(f.excludeContraindication.value)) {
          continue;
        }
      }
      filtered := filtered + [entry];
    }
    PrefixAll(analogs);
  }

  /** `search_with_filters(query, ...)`. */
  method SearchWithFilters(db: Database, query: string, f: Filters) returns (filtered: seq<Scored>)
    ensures filtered == Filtered(AnalogsOf(db, query), f)
  {
    var analogs := FindAnalogs(db, query);
    filtered := ApplyFilters(analogs, f);
  }

  // ---------------------------------------------------------------------
  // compare_drugs

  /** The records of the ids that exist, in the order of the ids. */
  function Records(db: Database, ids: seq<int>): seq<Drug> {
    if ids == [] then []
    else
      var found := db.byId(ids[|ids| - 1]);
      Records(db, ids[..|ids| - 1]) + (if found.Some? then [found.value] else [])
  }

  /** A record is compared exactly when one of the ids finds it. */
  lemma {:induction false} RecordsMembers(db: Database, ids: seq<int>)
    ensures |Records(db, ids)| <= |ids|
    ensures forall d :: d in Records(db, ids) <==> exists k :: 0 <= k < |ids| && db.byId(ids[k]) == Some(d)
  {
    if ids != [] {
      var init := ids[..|ids| - 1];
      RecordsMembers(db, init);
      forall d ensures d in Records(db, ids) <==> exists k :: 0 <= k < |ids| && db.byId(ids[k]) == Some(d) {
        if exists k :: 0 <= k < |ids| && db.byId(ids[k]) == Some(d) {
          var k :| 0 <= k < |ids| && db.byId(ids[k]) == Some(d);
          if k < |init| {
            assert init[k] == ids[k];
          }
        }
        if exists k :: 0 <= k < |init| && db.byId(init[k]) == Some(d) {
          var k :| 0 <= k < |init| && db.byId(init[k]) == Some(d);
          assert ids[k] == init[k];
        }
      }
    }
  }

  /** The sort key `(substance, price)`. */
  predicate CompareLe(x: Drug, y: Drug) {
    StrLt(x.substance, y.substance) || (x.substance == y.substance && x.price <= y.price)
  }

  lemma CompareLeIsTotalPreorder()
    ensures TotalPreorder(CompareLe)
  {
    forall x: Drug, y: Drug ensures CompareLe(x, y) || CompareLe(y, x) {
      StrLeTotal(x.substance, y.substance);
    }
    forall x: Drug, y: Drug, z: Drug | CompareLe(x, y) && CompareLe(y, z) ensures CompareLe(x, z) {
      if StrLt(x.substance, y.substance) && StrLt(y.substance, z.substance) {
        StrLtLeTransitive(x.substance, y.substance, z.substance);
      }
    }
  }

  /** The lookup loop of `compare_drugs`. */
  method LoadRecords(db: Database, ids: seq<int>) returns (drugs: seq<Drug>)
    ensures drugs == Records(db, ids)
  {
    drugs := [];
    var i := 0;
    while i < |ids|
      invariant 0 <= i <= |ids|
      invariant drugs == Records(db, ids[..i])
    {
      PrefixStep(ids, i);
      var drug := db.byId(ids[i]);
      if drug.Some? {
        drugs := drugs + [drug.value];
      }
      i := i + 1;
    }
    PrefixAll(ids);
  }

  /** `compare_drugs(drug_ids)`: the records of the known ids ordered by
      substance, then price. */
  method CompareDrugs(db: Database, ids: seq<int>) returns (drugs: seq<Drug>)
    ensures multiset(drugs) == multiset(Records(db, ids))
    ensures SortedBy(drugs, CompareLe)
    ensures drugs == SortBy(Records(db, ids), CompareLe)
  {
    drugs := LoadRecords(db, ids);
    CompareLeIsTotalPreorder();
    drugs := SortBy(drugs, CompareLe);
  }
}
