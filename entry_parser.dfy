/** `InteractionAnalyzer._parse_entry` of interactions.py: a free-text
    pharmacology line such as "слабый ингибитор CYP3A4" becomes a target, a
    role and a strength. */
module EntryParser {
  import opened Iteration
  import opened Text
  import Normalization

  datatype Role = Inhibitor | Inducer | Substrate | Blocker | Agonist | Unknown

  /** The weights `STRENGTH_WEIGHTS` can give, with 1.0 as the default. */
  type Strength = r: real | r == 0.5 || r == 1.0 || r == 1.5 witness 1.0

  /** The parsed form of one line; `original` is the line as given. */
  datatype Entry = Entry(target: string, role: Role, strength: Strength, original: string)

  /** The target given to a line that names none. */
  const Systemic: string := "systemic"

  /** Both entries name the same target, and it is not the catch-all "systemic". */
  predicate SameTarget(x: Entry, y: Entry) {
    x.target == y.target && x.target != Systemic
  }

  /** `STRENGTH_WEIGHTS`, in its declaration order. */
  const StrengthWeights: seq<(string, Strength)> := [
    ("слабый", 0.5), ("weak", 0.5), ("сильный", 1.5), ("strong", 1.5), ("селективный", 1.0)
  ]

  const InhibitorKeywords: seq<string> := ["ингибитор", "замедление", "снижение", "inhibitor"]
  const InducerKeywords: seq<string> := ["активатор", "стимулятор", "индуктор", "inducer", "activator"]
  const SubstrateKeywords: seq<string> := ["субстрат", "substrate"]
  const BlockerKeywords: seq<string> := ["блокатор", "антагонист", "blocker", "antagonist"]
  const AgonistKeywords: seq<string> := ["агонист", "миметик", "agonist"]

  /** `ROLE_MAPPINGS`, in its declaration order. */
  const RoleMappings: seq<(Role, seq<string>)> := [
    (Inhibitor, InhibitorKeywords),
    (Inducer, InducerKeywords),
    (Substrate, SubstrateKeywords),
    (Blocker, BlockerKeywords),
    (Agonist, AgonistKeywords)
  ]

  /** `all_keywords`: every role keyword, every strength keyword and "эффект". */
  const Keywords: set<string> :=
    (set i, k | 0 <= i < |RoleMappings| && k in RoleMappings[i].1 :: k)
    + (set i | 0 <= i < |StrengthWeights| :: StrengthWeights[i].0)
    + {"эффект"}

  /** No keyword is empty, so deleting one always terminates. */
  lemma KeywordsNonEmpty()
    ensures forall k :: k in Keywords ==> k != []
  {
    forall i, k | 0 <= i < |RoleMappings| && k in RoleMappings[i].1 ensures k != [] {
      RoleKeywordsNonEmpty(i);
    }
    forall i | 0 <= i < |StrengthWeights| ensures StrengthWeights[i].0 != [] {
    }
  }

  lemma RoleKeywordsNonEmpty(i: int)
    requires 0 <= i < |RoleMappings|
    ensures forall k :: k in RoleMappings[i].1 ==> k != []
  {
    if i == 0 {
      assert forall k :: k in InhibitorKeywords ==> k != [];
    } else if i == 1 {
      assert forall k :: k in InducerKeywords ==> k != [];
    } else if i == 2 {
      assert forall k :: k in SubstrateKeywords ==> k != [];
    } else if i == 3 {
      assert forall k :: k in BlockerKeywords ==> k != [];
    } else {
      assert forall k :: k in AgonistKeywords ==> k != [];
    }
  }

  /** `set` iteration order is fixed within one run but not specified: the
      keywords are removed in some order `order` that lists each keyword once. */
  predicate IsRemovalOrder(order: seq<string>) {
    (forall k :: k in order ==> k in Keywords) && (forall k :: k in Keywords ==> k in order)
    && (forall i, j :: 0 <= i < j < |order| ==> order[i] != order[j])
  }

  /** The index of the first key contained in `text`, or `|keys|` when none is. */
  function FirstHit(text: string, keys: seq<string>): (i: nat)
    ensures i <= |keys|
    ensures forall j :: 0 <= j < i ==> !Contains(text, keys[j])
    ensures i < |keys| ==> Contains(text, keys[i])
  {
    if keys == [] then 0
    else if Contains(text, keys[0]) then 0
    else 1 + FirstHit(text, keys[1..])
  }

  /** `any(k in text for k in keys)` */
  predicate AnyHit(text: string, keys: seq<string>) {
    exists k :: k in keys && Contains(text, k)
  }

  /** The index of the first role class with a keyword in `text`, or
      `|RoleMappings|` when there is none. */
  function FirstClass(text: string): (i: nat)
    ensures i <= |RoleMappings|
    ensures forall j :: 0 <= j < i ==> !AnyHit(text, RoleMappings[j].1)
    ensures i < |RoleMappings| ==> AnyHit(text, RoleMappings[i].1)
  {
    FirstClassFrom(text, 0)
  }

  function FirstClassFrom(text: string, from: nat): (i: nat)
    requires from <= |RoleMappings|
    ensures from <= i <= |RoleMappings|
    ensures forall j :: from <= j < i ==> !AnyHit(text, RoleMappings[j].1)
    ensures i < |RoleMappings| ==> AnyHit(text, RoleMappings[i].1)
    decreases |RoleMappings| - from
  {
    if from == |RoleMappings| || AnyHit(text, RoleMappings[from].1) then from
    else FirstClassFrom(text, from + 1)
  }

  /** The strength of a lowered line: the weight of the first strength keyword
      it contains, 1.0 when it contains none. */
  function StrengthOf(text: string): (r: Strength)
    ensures (forall j :: 0 <= j < |StrengthWeights| ==> !Contains(text, StrengthWeights[j].0)) ==> r == 1.0
    ensures forall i :: (0 <= i < |StrengthWeights| && Contains(text, StrengthWeights[i].0)
              && forall j :: 0 <= j < i ==> !Contains(text, StrengthWeights[j].0)) ==> r == StrengthWeights[i].1
  {
    var i := FirstHit(text, StrengthKeys());
    if i < |StrengthWeights| then StrengthWeights[i].1 else 1.0
  }

  function StrengthKeys(): (ks: seq<string>)
    ensures |ks| == |StrengthWeights| && forall i :: 0 <= i < |ks| ==> ks[i] == StrengthWeights[i].0
  {
    seq(|StrengthWeights|, i requires 0 <= i < |StrengthWeights| => StrengthWeights[i].0)
  }

  /** The role of a lowered line: that of the first class, in table order, with a
      keyword in the line; `Unknown` when there is none. */
  function RoleOf(text: string): (r: Role)
    ensures (forall j :: 0 <= j < |RoleMappings| ==> !AnyHit(text, RoleMappings[j].1)) ==> r == Unknown
    ensures forall i :: (0 <= i < |RoleMappings| && AnyHit(text, RoleMappings[i].1)
              && forall j :: 0 <= j < i ==> !AnyHit(text, RoleMappings[j].1)) ==> r == RoleMappings[i].0
  {
    var i := FirstClass(text);
    if i < |RoleMappings| then RoleMappings[i].0 else Unknown
  }

  /** `text` with the keywords of `order` deleted one after the other. */
  function RemoveAll(text: string, order: seq<string>): (r: string)
    requires forall k :: k in order ==> k != []
    ensures |r| <= |text|
  {
    if order == [] then text
    else
      var init := order[..|order| - 1];
      assert forall k :: k in init ==> k in order;
      assert order[|order| - 1] in order;
      RemoveDeletes(RemoveAll(text, init), order[|order| - 1]);
      Replace(RemoveAll(text, init), order[|order| - 1], "")
  }

  lemma {:induction false} RemoveDeletes(s: string, k: string)
    requires k != []
    ensures |Replace(s, k, "")| <= |s|
    decreases |s|
  {
    if |s| >= |k| {
      if k <= s {
        RemoveDeletes(s[|k|..], k);
      } else {
        RemoveDeletes(s[1..], k);
      }
    }
  }

  /** A text holding no keyword passes the deletion unchanged. */
  lemma {:induction false} RemoveAllNoKeyword(text: string, order: seq<string>)
    requires forall k :: k in order ==> k != [] && !Contains(text, k)
    ensures RemoveAll(text, order) == text
  {
    if order != [] {
      var init := order[..|order| - 1];
      assert forall k :: k in init ==> k in order;
      assert order[|order| - 1] in order;
      RemoveAllNoKeyword(text, init);
      ReplaceAbsent(text, order[|order| - 1]);
    }
  }

  lemma {:induction false} ReplaceAbsent(s: string, k: string)
    requires k != [] && !Contains(s, k)
    ensures Replace(s, k, "") == s
    decreases |s|
  {
    if |s| >= |k| {
      assert !(k <= s);
      ReplaceAbsent(s[1..], k);
      assert s == [s[0]] + s[1..];
    }
  }

  /** The target of a lowered line: the normalised remainder, or "systemic" when
      that is shorter than two characters. */
  function TargetOf(n: Normalization.Normalizer, text: string, order: seq<string>): (r: string)
    requires forall k :: k in order ==> k != []
    ensures |r| >= 2
    ensures |n.Normalize(RemoveAll(text, order))| < 2 <==> r == Systemic && n.Normalize(RemoveAll(text, order)) != Systemic
    ensures r != Systemic ==> r == n.Normalize(RemoveAll(text, order))
  {
    var t := n.Normalize(RemoveAll(text, order));
    if |t| < 2 then Systemic else t
  }

  lemma RemovalOrderKeywords(order: seq<string>)
    requires IsRemovalOrder(order)
    ensures forall k :: k in order ==> k != []
  {
    KeywordsNonEmpty();
  }

  /** What `_parse_entry(raw)` returns. */
  function Parsed(n: Normalization.Normalizer, raw: string, order: seq<string>): (e: Entry)
    requires IsRemovalOrder(order)
    ensures e.original == raw
    ensures e.role == RoleOf(Lower(raw)) && e.strength == StrengthOf(Lower(raw))
    ensures (RemovalOrderKeywords(order); e.target == TargetOf(n, Lower(raw), order))
  {
    RemovalOrderKeywords(order);
    var text := Lower(raw);
    Entry(TargetOf(n, text, order), RoleOf(text), StrengthOf(text), raw)
  }

  /** The strength loop of `_parse_entry`: the first keyword found decides. */
  method FindStrength(text: string) returns (strength: Strength)
    ensures strength == StrengthOf(text)
  {
    strength := 1.0;
    var i := 0;
    while i < |StrengthWeights|
      invariant 0 <= i <= |StrengthWeights|
      invariant forall j :: 0 <= j < i ==> !Contains(text, StrengthWeights[j].0)
    {
      if Contains(text, StrengthWeights[i].0) {
        strength := StrengthWeights[i].1;
        return;
      }
      i := i + 1;
    }
  }

  /** The role loop of `_parse_entry`: the first class with a keyword decides. */
  method FindRole(text: string) returns (role: Role)
    ensures role == RoleOf(text)
  {
    role := Unknown;
    var c := 0;
    while c < |RoleMappings|
      invariant 0 <= c <= |RoleMappings|
      invariant forall j :: 0 <= j < c ==> !AnyHit(text, RoleMappings[j].1)
    {
      if AnyHit(text, RoleMappings[c].1) {
        role := RoleMappings[c].0;
        return;
      }
      c := c + 1;
    }
  }

  /** The deletion loop of `_parse_entry`. */
  method DeleteKeywords(text: string, order: seq<string>) returns (cleaned: string)
    requires forall k :: k in order ==> k != []
    ensures cleaned == RemoveAll(text, order)
  {
    cleaned := text;
    var i := 0;
    while i < |order|
      invariant 0 <= i <= |order|
      invariant forall w :: w in order[..i] ==> w in order
      invariant cleaned == RemoveAll(text, order[..i])
    {
      PrefixStep(order, i);
      assert order[i] in order;
      cleaned := Replace(cleaned, order[i], "");
      i := i + 1;
    }
    PrefixAll(order);
  }

  /** `_parse_entry`: strength and role from the first keyword hits, and the
      target from what is left after the keywords are deleted in `order`. */
  method ParseEntry(n: Normalization.Normalizer, raw: string, order: seq<string>) returns (e: Entry)
    requires IsRemovalOrder(order)
    ensures e == Parsed(n, raw, order)
  {
    var text := Lower(raw);
    var strength := FindStrength(text);
    var role := FindRole(text);
    RemovalOrderKeywords(order);
    var cleaned := DeleteKeywords(text, order);
    var target := n.Normalize(cleaned);
    if |target| < 2 {
      target := Systemic;
    }
    e := Entry(target, role, strength, raw);
  }
}
