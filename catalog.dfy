/** The two pieces of list splitting in database.py: the substance list of
    `get_drugs_by_substance` and the contraindication catalogue of
    `get_all_contraindications`. */
module Catalog {
  import opened Wrappers
  import opened Text
  import opened Iteration
  import opened Sorting

  /** `[s.strip() for s in substance.replace('+', ',').split(',') if s.strip()]` */
  function SubstancePieces(substance: string): (r: seq<string>)
    ensures forall k :: 0 <= k < |r| ==> r[k] != [] && IsStripped(r[k])
  {
    StrippedPieces(SplitOn(Replace(substance, "+", ","), {','}))
  }

  /** The substance list is the stripped non-blank pieces between the '+' and
      ',' of the text, and no piece holds either separator. */
  lemma SubstancePiecesSplit(substance: string)
    ensures SubstancePieces(substance) == StrippedPieces(SplitOn(substance, {',', '+'}))
    ensures forall k, i :: 0 <= k < |SubstancePieces(substance)| && 0 <= i < |SubstancePieces(substance)[k]| ==>
              SubstancePieces(substance)[k][i] !in {',', '+'}
  {
    SplitAfterReplace(substance, '+', ',', {','});
    assert {','} + {'+'} == {',', '+'};
    StrippedPiecesFrom(SplitOn(substance, {',', '+'}), {',', '+'});
  }

  /** A stripped piece holds only characters of the piece it comes from. */
  lemma {:induction false} StrippedPiecesFrom(pieces: seq<string>, seps: set<char>)
    requires forall k, i :: 0 <= k < |pieces| && 0 <= i < |pieces[k]| ==> pieces[k][i] !in seps
    ensures forall k, i :: 0 <= k < |StrippedPieces(pieces)| && 0 <= i < |StrippedPieces(pieces)[k]| ==>
              StrippedPieces(pieces)[k][i] !in seps
  {
    if pieces != [] {
      StrippedPiecesFrom(pieces[1..], seps);
      var p := pieces[0];
      var t := Strip(p);
      forall i | 0 <= i < |t| ensures t[i] !in seps {
        assert t[i] == p[StripStart(p) + i];
      }
    }
  }

  /** The `LIKE` parameters `get_drugs_by_substance` would bind, one per piece,
      or `None` when no piece remains and the method returns `[]` without
      querying. */
  function SubstanceQuery(substance: string): (r: Option<seq<string>>)
    ensures r.None? <==> SubstancePieces(substance) == []
    ensures r.Some? ==> (|r.value| == |SubstancePieces(substance)|
                         && forall k :: 0 <= k < |r.value| ==> r.value[k] == "%" + SubstancePieces(substance)[k] + "%")
  {
    var pieces := SubstancePieces(substance);
    if pieces == [] then None else Some(seq(|pieces|, k requires 0 <= k < |pieces| => "%" + pieces[k] + "%"))
  }

  /** The delimiters of `get_all_contraindications`, in the order they are
      replaced by ','. */
  const Delimiters: seq<char> := [',', ';', '+']
  const DelimiterSet: set<char> := {',', ';', '+'}

  /** The items of one stored contraindication text (no items for an empty
      text, which the source skips). */
  function Items(text: string): seq<string> {
    if text == [] then [] else StrippedPieces(SplitOn(text, DelimiterSet))
  }

  /** An item of a text is a non-empty stripped piece between its delimiters. */
  lemma ItemsMembers(text: string)
    ensures forall x :: x in Items(text) <==> exists p :: p in SplitOn(text, DelimiterSet) && x == Strip(p) && x != []
  {
    StrippedPiecesMembers(SplitOn(text, DelimiterSet));
    if text == [] {
      assert SplitOn(text, DelimiterSet) == [[]];
      assert Strip([]) == [];
    }
  }

  /** The items of every row, as a set. */
  function AllItems(rows: seq<string>): set<string> {
    if rows == [] then {} else AllItems(rows[..|rows| - 1]) + Elements(Items(rows[|rows| - 1]))
  }

  /** Every item of every row is in the catalogue. */
  lemma {:induction false} AllItemsComplete(rows: seq<string>, k: int, x: string)
    requires 0 <= k < |rows| && x in Items(rows[k])
    ensures x in AllItems(rows)
    decreases |rows|
  {
    var init := rows[..|rows| - 1];
    if k < |init| {
      assert init[k] == rows[k];
      AllItemsComplete(init, k, x);
    } else {
      assert k == |rows| - 1;
      assert x in Elements(Items(rows[|rows| - 1]));
    }
  }

  /** Everything in the catalogue is an item of some row. */
  lemma {:induction false} AllItemsSound(rows: seq<string>, x: string)
    requires x in AllItems(rows)
    ensures exists k :: 0 <= k < |rows| && x in Items(rows[k])
    decreases |rows|
  {
    var init := rows[..|rows| - 1];
    if x in AllItems(init) {
      AllItemsSound(init, x);
      var k :| 0 <= k < |init| && x in Items(init[k]);
      assert rows[k] == init[k];
    } else {
      assert x in Items(rows[|rows| - 1]);
    }
  }

  /** After replacing the delimiters up to `j` by ',', each character of the
      text is ',' where the original holds one of those delimiters, and the
      original character elsewhere. */
  predicate MaskedUpTo(s: string, t: string, j: nat)
    requires j <= |Delimiters|
  {
    |t| == |s| && forall i :: 0 <= i < |s| ==> t[i] == if s[i] in Delimiters[..j] then ',' else s[i]
  }

  /** The `for delim in [',', ';', '+']` loop of `get_all_contraindications`. */
  method UnifyDelimiters(s: string) returns (t: string)
    ensures MaskedUpTo(s, t, |Delimiters|)
  {
    t := s;
    var j := 0;
    while j < |Delimiters|
      invariant 0 <= j <= |Delimiters|
      invariant MaskedUpTo(s, t, j)
    {
      var d := Delimiters[j];
      ReplaceChar(t, d, ',');
      assert Delimiters[..j + 1] == Delimiters[..j] + [d];
      t := Replace(t, [d], [',']);
      j := j + 1;
    }
  }

  /** Splitting the masked text on ',' splits the original on every delimiter. */
  lemma {:induction false} SplitMasked(s: string, t: string)
    requires MaskedUpTo(s, t, |Delimiters|)
    ensures SplitOn(t, {','}) == SplitOn(s, DelimiterSet)
  {
    assert forall c :: c in Delimiters <==> c in DelimiterSet;
    assert Delimiters[..|Delimiters|] == Delimiters;
    if s != [] {
      assert MaskedUpTo(s[1..], t[1..], |Delimiters|) by {
        forall i | 0 <= i < |s[1..]| ensures t[1..][i] == if s[1..][i] in Delimiters then ',' else s[1..][i] {
          assert t[1..][i] == t[i + 1] && s[1..][i] == s[i + 1];
        }
      }
      SplitMasked(s[1..], t[1..]);
      assert t[0] == ',' <==> s[0] in DelimiterSet;
    }
  }

  /** The row loop of `get_all_contraindications`, which grows a set. */
  method CollectItems(rows: seq<string>) returns (all: set<string>)
    ensures all == AllItems(rows)
  {
    all := {};
    var i := 0;
    while i < |rows|
      invariant 0 <= i <= |rows|
      invariant all == AllItems(rows[..i])
    {
      PrefixStep(rows, i);
      var text := rows[i];
      if text != [] {
        var unified := UnifyDelimiters(text);
        SplitMasked(text, unified);
        var items := StrippedPieces(SplitOn(unified, {','}));
        all := all + Elements(items);
      }
      i := i + 1;
    }
    PrefixAll(rows);
  }

  /** `get_all_contraindications` over the stored contraindication texts
      `rows`: every item once, sorted ascending. */
  method GetAllContraindications(rows: seq<string>) returns (r: seq<string>)
    ensures forall x :: x in r <==> x in AllItems(rows)
    ensures forall i, j :: 0 <= i < j < |r| ==> StrLt(r[i], r[j])
    ensures forall k :: 0 <= k < |r| ==> r[k] != [] && IsStripped(r[k]) && forall c :: c in DelimiterSet ==> c !in r[k]
  {
    var all := CollectItems(rows);
    var listing := Enumerate(all);
    r := SortedList(listing);
    assert forall x :: x in r <==> x in all;
    ItemsClean(rows);
    forall k | 0 <= k < |r|
      ensures r[k] != [] && IsStripped(r[k]) && forall c :: c in DelimiterSet ==> c !in r[k]
    {
      assert r[k] in all;
    }
  }

  /** `sorted(list(...))` of a list without repeats: the same elements, strictly
      ascending. */
  method SortedList(listing: seq<string>) returns (r: seq<string>)
    requires forall i, j :: 0 <= i < j < |listing| ==> listing[i] != listing[j]
    ensures forall x :: x in r <==> x in listing
    ensures forall i, j :: 0 <= i < j < |r| ==> StrLt(r[i], r[j])
  {
    StrLeIsTotalPreorder();
    r := SortBy(listing, (a: string, b: string) => StrLe(a, b));
    DistinctCounts(listing);
    DistinctCounts(r);
    SortedDistinctIncreasing(r);
    assert forall x :: x in r <==> x in multiset(r);
    assert forall x :: x in listing <==> x in multiset(listing);
  }

  /** Every item of the catalogue is non-empty, stripped and free of
      delimiters. */
  lemma {:induction false} ItemsClean(rows: seq<string>)
    ensures forall x :: x in AllItems(rows) ==> x != [] && IsStripped(x) && forall c :: c in DelimiterSet ==> c !in x
  {
    if rows != [] {
      ItemsClean(rows[..|rows| - 1]);
      var last := rows[|rows| - 1];
      if last != [] {
        StrippedPiecesFrom(SplitOn(last, DelimiterSet), DelimiterSet);
        var items := Items(last);
        forall x | x in items ensures forall c :: c in DelimiterSet ==> c !in x {
          var k :| 0 <= k < |items| && items[k] == x;
          assert forall i :: 0 <= i < |x| ==> x[i] !in DelimiterSet;
        }
      }
    }
  }
}
