/** The operations of Python's `str` that the modelled code relies on:
    `strip()`, `lower()` and `upper()` (as a simplified one-to-one case
    mapping: see `LowerChar`), the `in`
    substring test, `replace()`, `split(sep)`, `split()`, `join()` and the
    decimal rendering of integers in f-strings. */
module Text {

  /** The characters for which Python's `str.isspace()` holds. */
  predicate IsSpace(c: char) {
    ('\t' <= c <= '\r') || ('\U{1c}' <= c <= ' ') || c == '\U{85}' || c == '\U{a0}'
    || c == '\U{1680}' || ('\U{2000}' <= c <= '\U{200a}') || c == '\U{2028}' || c == '\U{2029}'
    || c == '\U{202f}' || c == '\U{205f}' || c == '\U{3000}'
  }

  predicate AllSpace(s: string) {
    forall i :: 0 <= i < |s| ==> IsSpace(s[i])
  }

  /** `r` occurs in `s` starting at index `i`. */
  predicate OccursAt(s: string, r: string, i: int) {
    0 <= i <= |s| - |r| && s[i..i + |r|] == r
  }

  /** The first index at or after `i` that does not hold whitespace (or `|s|`). */
  function LeadingEnd(s: string, i: nat): (k: nat)
    requires i <= |s|
    ensures i <= k <= |s|
    ensures forall j :: i <= j < k ==> IsSpace(s[j])
    ensures k < |s| ==> !IsSpace(s[k])
    decreases |s| - i
  {
    if i < |s| && IsSpace(s[i]) then LeadingEnd(s, i + 1) else i
  }

  /** The index just after the last character before `e` that does not hold
      whitespace (or 0). */
  function TrailingStart(s: string, e: nat): (k: nat)
    requires e <= |s|
    ensures k <= e
    ensures forall j :: k <= j < e ==> IsSpace(s[j])
    ensures k > 0 ==> !IsSpace(s[k - 1])
  {
    if e > 0 && IsSpace(s[e - 1]) then TrailingStart(s, e - 1) else e
  }

  /** Where the stripped text starts: the length of the leading whitespace. */
  function StripStart(s: string): (k: nat)
    ensures k <= |s|
  {
    LeadingEnd(s, 0)
  }

  /** `s.lstrip()`: `s` without its leading whitespace. */
  function StripLeft(s: string): (r: string)
    ensures r == s[StripStart(s)..]
    ensures forall i :: 0 <= i < StripStart(s) ==> IsSpace(s[i])
    ensures r == [] || !IsSpace(r[0])
  {
    s[StripStart(s)..]
  }

  /** `s` has no leading and no trailing whitespace. */
  predicate IsStripped(s: string) {
    s == [] || (!IsSpace(s[0]) && !IsSpace(s[|s| - 1]))
  }

  /** `s.strip()`: `s` is `r` with whitespace before and after it, and `r`
      neither starts nor ends with whitespace. */
  function Strip(s: string): (r: string)
    ensures StripStart(s) + |r| <= |s|
    ensures forall i :: 0 <= i < |r| ==> r[i] == s[StripStart(s) + i]
    ensures forall i :: 0 <= i < StripStart(s) ==> IsSpace(s[i])
    ensures forall i :: StripStart(s) + |r| <= i < |s| ==> IsSpace(s[i])
    ensures IsStripped(r)
    ensures r == [] <==> AllSpace(s)
  {
    var b := StripStart(s);
    var e := TrailingStart(s, |s|);
    if b == |s| then []
    else
      assert b < e;
      s[b..e]
  }

  /** The model's lower-casing of one character: A-Z and the capitals U+0400-U+042F
      are mapped to their small letters and every other character is left as it
      is. Python's `str.lower()` also maps other scripts (É, Ö, Ґ, the Kelvin
      sign) and can lengthen a string (İ becomes two characters); this does not. */
  function LowerChar(c: char): char {
    if 'A' <= c <= 'Z' then (c as int + 32) as char
    else if '\U{410}' <= c <= '\U{42f}' then (c as int + 0x20) as char
    else if '\U{400}' <= c <= '\U{40f}' then (c as int + 0x50) as char
    else c
  }

  /** The model's upper-casing of one character: a-z and the small letters
      U+0430-U+045F are mapped to their capitals and every other character is left
      as it is (unlike Python's `str.upper()`, which maps ö to Ö and ß to SS). */
  function UpperChar(c: char): char {
    if 'a' <= c <= 'z' then (c as int - 32) as char
    else if '\U{430}' <= c <= '\U{44f}' then (c as int - 0x20) as char
    else if '\U{450}' <= c <= '\U{45f}' then (c as int - 0x50) as char
    else c
  }

  function Lower(s: string): (r: string)
    ensures |r| == |s| && forall i :: 0 <= i < |s| ==> r[i] == LowerChar(s[i])
  {
    if s == [] then [] else [LowerChar(s[0])] + Lower(s[1..])
  }

  function Upper(s: string): (r: string)
    ensures |r| == |s| && forall i :: 0 <= i < |s| ==> r[i] == UpperChar(s[i])
  {
    if s == [] then [] else [UpperChar(s[0])] + Upper(s[1..])
  }

  /** Python's `sub in s`. */
  predicate Contains(s: string, sub: string) {
    sub <= s || (s != [] && Contains(s[1..], sub))
  }

  /** `Contains` holds exactly when `sub` occurs at some index of `s`. */
  lemma {:induction false} ContainsAt(s: string, sub: string)
    ensures Contains(s, sub) <==> exists i :: OccursAt(s, sub, i)
    decreases |s|
  {
    if sub <= s {
      assert OccursAt(s, sub, 0);
    } else if s == [] {
      assert forall i :: !OccursAt(s, sub, i);
    } else {
      ContainsAt(s[1..], sub);
      if exists i :: OccursAt(s, sub, i) {
        var i :| OccursAt(s, sub, i);
        assert i != 0;
        OccursShift(s, sub, i - 1);
      }
      if Contains(s[1..], sub) {
        var i :| OccursAt(s[1..], sub, i);
        OccursShift(s, sub, i);
      }
    }
  }

  lemma OccursShift(s: string, sub: string, i: int)
    requires s != [] && i >= 0
    ensures OccursAt(s, sub, i + 1) <==> OccursAt(s[1..], sub, i)
  {
    if i + 1 <= |s| - |sub| {
      assert s[1..][i..i + |sub|] == s[i + 1..i + 1 + |sub|];
    }
  }

  /** Python's `s.replace(pat, rep)`: every non-overlapping occurrence of `pat`,
      scanned from the left, is replaced by `rep`. */
  function Replace(s: string, pat: string, rep: string): string
    requires pat != []
    decreases |s|
  {
    if |s| < |pat| then s
    else if pat <= s then rep + Replace(s[|pat|..], pat, rep)
    else [s[0]] + Replace(s[1..], pat, rep)
  }

  /** Replacing one character by another is a character-wise map. */
  lemma {:induction false} ReplaceChar(s: string, c: char, d: char)
    ensures |Replace(s, [c], [d])| == |s|
    ensures forall i :: 0 <= i < |s| ==> Replace(s, [c], [d])[i] == if s[i] == c then d else s[i]
  {
    if s != [] {
      ReplaceChar(s[1..], c, d);
      assert [c] <= s <==> s[0] == c;
    }
  }

  /** Python's `s.split(sep)` generalised to a set of one-character separators:
      the pieces between separators, including empty ones. */
  function SplitOn(s: string, seps: set<char>): (r: seq<string>)
    ensures |r| >= 1
    ensures forall k, i :: 0 <= k < |r| && 0 <= i < |r[k]| ==> r[k][i] !in seps
  {
    if s == [] then [[]]
    else
      var rest := SplitOn(s[1..], seps);
      if s[0] in seps then [[]] + rest
      else [[s[0]] + rest[0]] + rest[1..]
  }

  /** Python's `sep.join(parts)`. */
  function Join(sep: string, parts: seq<string>): string {
    if parts == [] then ""
    else if |parts| == 1 then parts[0]
    else parts[0] + sep + Join(sep, parts[1..])
  }

  lemma JoinPrepend(sep: string, ch: char, parts: seq<string>)
    requires parts != []
    ensures Join(sep, [[ch] + parts[0]] + parts[1..]) == [ch] + Join(sep, parts)
  {
    var q := [[ch] + parts[0]] + parts[1..];
    if |parts| > 1 {
      assert q[1..] == parts[1..];
    }
  }

  /** Joining the pieces of `split(c)` with `c` gives the string back. */
  lemma {:induction false} JoinSplit(s: string, c: char)
    ensures Join([c], SplitOn(s, {c})) == s
  {
    if s != [] {
      var rest := SplitOn(s[1..], {c});
      JoinSplit(s[1..], c);
      if s[0] == c {
        assert ([[]] + rest)[1..] == rest;
        assert Join([c], [[]] + rest) == [c] + Join([c], rest);
      } else {
        JoinPrepend([c], s[0], rest);
      }
      assert s == [s[0]] + s[1..];
    }
  }

  /** Replacing separator `c` by separator `d` before splitting on a set that holds
      `d` is the same as splitting on that set with `c` added. */
  lemma {:induction false} SplitAfterReplace(s: string, c: char, d: char, seps: set<char>)
    requires d in seps
    ensures SplitOn(Replace(s, [c], [d]), seps) == SplitOn(s, seps + {c})
  {
    ReplaceChar(s, c, d);
    if s != [] {
      var t := Replace(s, [c], [d]);
      SplitAfterReplace(s[1..], c, d, seps);
      ReplaceChar(s[1..], c, d);
      assert t[1..] == Replace(s[1..], [c], [d]);
    }
  }

  /** `[p.strip() for p in pieces if p.strip()]` */
  function StrippedPieces(pieces: seq<string>): (r: seq<string>)
    ensures forall k :: 0 <= k < |r| ==> r[k] != [] && IsStripped(r[k])
  {
    if pieces == [] then []
    else
      var t := Strip(pieces[0]);
      (if t == [] then [] else [t]) + StrippedPieces(pieces[1..])
  }

  /** The stripped pieces are exactly the non-blank pieces, stripped. */
  lemma {:induction false} StrippedPiecesMembers(pieces: seq<string>)
    ensures forall p :: p in pieces && Strip(p) != [] ==> Strip(p) in StrippedPieces(pieces)
    ensures forall t :: t in StrippedPieces(pieces) ==> exists p :: p in pieces && t == Strip(p)
  {
    if pieces != [] {
      StrippedPiecesMembers(pieces[1..]);
      assert forall p :: p in pieces ==> p == pieces[0] || p in pieces[1..];
    }
  }

  /** Stripping a string without surrounding whitespace changes nothing;
      in particular `strip()` is idempotent. */
  lemma StripStripped(s: string)
    requires IsStripped(s)
    ensures Strip(s) == s
  {
    if s != [] {
      assert StripStart(s) == 0;
      assert TrailingStart(s, |s|) == |s|;
      assert s[0..|s|] == s;
    }
  }

  /** Python's `s.split()` without arguments: the maximal non-empty runs of
      non-whitespace characters. */
  function Words(s: string): (r: seq<string>)
    ensures forall k :: 0 <= k < |r| ==> r[k] != [] && forall i :: 0 <= i < |r[k]| ==> !IsSpace(r[k][i])
  {
    NonEmpty(SplitAtSpaces(s))
  }

  /** The pieces between single whitespace characters, including empty ones. */
  function SplitAtSpaces(s: string): (r: seq<string>)
    ensures |r| >= 1
    ensures forall k, i :: 0 <= k < |r| && 0 <= i < |r[k]| ==> !IsSpace(r[k][i])
  {
    if s == [] then [[]]
    else
      var rest := SplitAtSpaces(s[1..]);
      if IsSpace(s[0]) then [[]] + rest
      else [[s[0]] + rest[0]] + rest[1..]
  }

  function NonEmpty(pieces: seq<string>): (r: seq<string>)
    ensures forall k :: 0 <= k < |r| ==> r[k] != [] && r[k] in pieces
    ensures forall p :: p in pieces && p != [] ==> p in r
  {
    if pieces == [] then []
    else (if pieces[0] == [] then [] else [pieces[0]]) + NonEmpty(pieces[1..])
  }

  /** `NonEmpty` of a list with one more piece in front. */
  lemma NonEmptyCons(p: string, rest: seq<string>)
    ensures NonEmpty([p] + rest) == (if p == [] then [] else [p]) + NonEmpty(rest)
  {
    assert ([p] + rest)[0] == p && ([p] + rest)[1..] == rest;
  }

  /** A whitespace character in front of a text adds no word. */
  lemma WordsSkipSpace(t: string)
    requires t != [] && IsSpace(t[0])
    ensures Words(t) == Words(t[1..])
  {
    NonEmptyCons([], SplitAtSpaces(t[1..]));
  }

  /** Leading whitespace adds no word. */
  lemma {:induction false} WordsSkipSpaces(t: string, k: nat)
    requires k <= |t| && forall i :: 0 <= i < k ==> IsSpace(t[i])
    ensures Words(t) == Words(t[k..])
    decreases k
  {
    if k > 0 {
      WordsSkipSpace(t);
      WordsSkipSpaces(t[1..], k - 1);
      assert t[1..][k - 1..] == t[k..];
    }
  }

  /** A character that is not whitespace in front of a text starts a new first
      word when the text is empty or starts with whitespace, and otherwise joins
      the text's first word. */
  lemma WordsCons(c: char, t: string)
    requires !IsSpace(c)
    ensures t == [] || IsSpace(t[0]) ==> Words([c] + t) == [[c]] + Words(t)
    ensures t != [] && !IsSpace(t[0]) ==> Words(t) != [] && Words([c] + t) == [[c] + Words(t)[0]] + Words(t)[1..]
  {
    var s := [c] + t;
    assert s[0] == c && s[1..] == t;
    var rest := SplitAtSpaces(t);
    if t == [] {
      assert rest == [[]];
      assert [c] + rest[0] == [c];
      assert SplitAtSpaces(s) == [[c]] + [];
      NonEmptyCons([c], []);
    } else if IsSpace(t[0]) {
      assert rest == [[]] + SplitAtSpaces(t[1..]);
      assert rest[0] == [] && rest[1..] == SplitAtSpaces(t[1..]);
      assert [c] + rest[0] == [c];
      assert SplitAtSpaces(s) == [[c]] + SplitAtSpaces(t[1..]);
      NonEmptyCons([], SplitAtSpaces(t[1..]));
      NonEmptyCons([c], SplitAtSpaces(t[1..]));
    } else {
      assert rest[0] != [];
      assert rest == [rest[0]] + rest[1..];
      NonEmptyCons(rest[0], rest[1..]);
      NonEmptyCons([c] + rest[0], rest[1..]);
    }
  }

  /** The pieces of a list of strings, one after the other. */
  function Concat(parts: seq<string>): string {
    if parts == [] then [] else parts[0] + Concat(parts[1..])
  }

  /** The characters of `s` that are not whitespace, in order. */
  function NonSpace(s: string): string {
    if s == [] then [] else (if IsSpace(s[0]) then [] else [s[0]]) + NonSpace(s[1..])
  }

  lemma {:induction false} ConcatNonEmpty(pieces: seq<string>)
    ensures Concat(NonEmpty(pieces)) == Concat(pieces)
  {
    if pieces != [] {
      ConcatNonEmpty(pieces[1..]);
      assert pieces == [pieces[0]] + pieces[1..];
      NonEmptyCons(pieces[0], pieces[1..]);
      if pieces[0] != [] {
        var r := [pieces[0]] + NonEmpty(pieces[1..]);
        assert r[0] == pieces[0] && r[1..] == NonEmpty(pieces[1..]);
      } else {
        assert NonEmpty(pieces) == NonEmpty(pieces[1..]);
      }
    }
  }

  lemma {:induction false} ConcatSplitAtSpaces(s: string)
    ensures Concat(SplitAtSpaces(s)) == NonSpace(s)
    decreases |s|
  {
    if s != [] {
      ConcatSplitAtSpaces(s[1..]);
      var rest := SplitAtSpaces(s[1..]);
      if IsSpace(s[0]) {
        assert ([[]] + rest)[1..] == rest;
      } else {
        var r := [[s[0]] + rest[0]] + rest[1..];
        assert r[0] == [s[0]] + rest[0] && r[1..] == rest[1..];
        assert Concat(rest) == rest[0] + Concat(rest[1..]);
        assert Concat(r) == [s[0]] + (rest[0] + Concat(rest[1..]));
      }
    }
  }

  lemma {:induction false} NonSpaceEmpty(s: string)
    ensures NonSpace(s) == [] <==> AllSpace(s)
  {
    if s != [] {
      NonSpaceEmpty(s[1..]);
      assert AllSpace(s) <==> IsSpace(s[0]) && AllSpace(s[1..]) by {
        assert forall i :: 0 < i < |s| ==> s[i] == s[1..][i - 1];
      }
    }
  }

  /** The words of `s`, one after the other, are the characters of `s` that are
      not whitespace, in order; and a text has no words exactly when it is all
      whitespace. */
  lemma WordsConcat(s: string)
    ensures Concat(Words(s)) == NonSpace(s)
    ensures Words(s) == [] <==> AllSpace(s)
  {
    ConcatNonEmpty(SplitAtSpaces(s));
    ConcatSplitAtSpaces(s);
    NonSpaceEmpty(s);
    var w := Words(s);
    if w != [] {
      assert Concat(w) == w[0] + Concat(w[1..]);
      assert w[0] != [];
    }
  }

  lemma JoinCons(sep: string, w: string, ws: seq<string>)
    requires ws != []
    ensures Join(sep, [w] + ws) == w + sep + Join(sep, ws)
  {
    assert ([w] + ws)[1..] == ws;
  }

  /** Joining non-empty words without whitespace by single spaces gives a
      stripped text that starts with the first word and ends with the last. */
  lemma {:induction false} JoinWordsStripped(ws: seq<string>)
    requires forall k :: 0 <= k < |ws| ==> ws[k] != [] && forall i :: 0 <= i < |ws[k]| ==> !IsSpace(ws[k][i])
    ensures IsStripped(Join(" ", ws))
    ensures ws != [] ==> (Join(" ", ws) != [] && Join(" ", ws)[0] == ws[0][0]
                          && Join(" ", ws)[|Join(" ", ws)| - 1] == ws[|ws| - 1][|ws[|ws| - 1]| - 1])
  {
    if |ws| > 1 {
      JoinWordsStripped(ws[1..]);
      var j := Join(" ", ws[1..]);
      assert Join(" ", ws) == ws[0] + " " + j;
      assert ws[1..][|ws[1..]| - 1] == ws[|ws| - 1];
    } else if |ws| == 1 {
      assert ws[0][0] == ws[0][0];
    }
  }

  /** A word followed by nothing or by whitespace is the first word. */
  lemma {:induction false} WordsAfterWord(w: string, t: string)
    requires w != [] && forall i :: 0 <= i < |w| ==> !IsSpace(w[i])
    requires t == [] || IsSpace(t[0])
    ensures Words(w + t) == [w] + Words(t)
    decreases |w|
  {
    var c, w' := w[0], w[1..];
    assert w + t == [c] + (w' + t);
    if w' == [] {
      assert w' + t == t;
      WordsCons(c, t);
      assert [c] == w;
    } else {
      WordsAfterWord(w', t);
      assert (w' + t)[0] == w'[0];
      WordsCons(c, w' + t);
      assert [c] + w' == w;
    }
  }

  /** Splitting words joined by single spaces gives the words back. */
  lemma {:induction false} WordsOfJoin(ws: seq<string>)
    requires forall k :: 0 <= k < |ws| ==> ws[k] != [] && forall i :: 0 <= i < |ws[k]| ==> !IsSpace(ws[k][i])
    ensures Words(Join(" ", ws)) == ws
  {
    if ws == [] {
      assert Words([]) == [];
    } else if |ws| == 1 {
      WordsAfterWord(ws[0], []);
      assert ws[0] + [] == ws[0];
      assert Words([]) == [];
    } else {
      var j := Join(" ", ws[1..]);
      WordsOfJoin(ws[1..]);
      ConcatAssoc(ws[0], " ", j);
      WordsJoinStep(ws[0], j, ws[1..]);
      assert ws == [ws[0]] + ws[1..];
    }
  }

  lemma WordsJoinStep(w: string, j: string, rest: seq<string>)
    requires w != [] && forall i :: 0 <= i < |w| ==> !IsSpace(w[i])
    requires Words(j) == rest
    ensures Words(w + (" " + j)) == [w] + rest
  {
    WordsAfterWord(w, " " + j);
    WordsSkipSpace(" " + j);
    assert (" " + j)[1..] == j;
  }

  lemma ConcatAssoc(a: string, b: string, c: string)
    ensures a + (b + c) == (a + b) + c
  {
  }

  /** Stripping a stripped text with whitespace around it gives the text. */
  lemma StripAround(p: string, x: string, q: string)
    requires AllSpace(p) && AllSpace(q) && IsStripped(x)
    ensures Strip(p + x + q) == x
  {
    var s := p + x + q;
    var r := Strip(s);
    var k := StripStart(s);
    assert forall i :: 0 <= i < |p| ==> s[i] == p[i];
    assert forall i :: 0 <= i < |x| ==> s[|p| + i] == x[i];
    assert forall i :: 0 <= i < |q| ==> s[|p| + |x| + i] == q[i];
    if x == [] {
      assert AllSpace(s);
    } else {
      assert !IsSpace(s[|p|]);
      assert r != [];
      assert r[0] == s[k] && r[|r| - 1] == s[k + |r| - 1];
      assert k == |p|;
      assert !IsSpace(s[|p| + |x| - 1]);
      assert k + |r| == |p| + |x|;
      assert forall i :: 0 <= i < |r| ==> r[i] == x[i];
    }
  }

  /** The value of a string of decimal digits. */
  function DigitsValue(r: string): int {
    if r == [] then 0 else 10 * DigitsValue(r[..|r| - 1]) + (r[|r| - 1] as int - '0' as int)
  }

  /** The value of `str(i)`, read back with its sign. */
  function SignedValue(r: string): int {
    if r != [] && r[0] == '-' then -DigitsValue(r[1..]) else DigitsValue(r)
  }

  function DigitChar(d: nat): char
    requires d < 10
  {
    ('0' as int + d) as char
  }

  /** The decimal digits of `n`, as `str(n)` gives them. */
  function NatToString(n: nat): (r: string)
    ensures r != [] && forall i :: 0 <= i < |r| ==> '0' <= r[i] <= '9'
    ensures |r| > 1 ==> r[0] != '0'
  {
    if n < 10 then [DigitChar(n)] else NatToString(n / 10) + [DigitChar(n % 10)]
  }

  /** What `str(i)` gives for an integer. */
  function IntToString(i: int): (r: string)
    ensures r != []
    ensures (r[0] == '-') <==> i < 0
  {
    if i < 0 then "-" + NatToString(-i) else NatToString(i)
  }

  /** The digits of `str(n)` spell `n`. */
  lemma {:induction false} NatToStringValue(n: nat)
    ensures DigitsValue(NatToString(n)) == n
  {
    if n >= 10 {
      NatToStringValue(n / 10);
      var r := NatToString(n);
      assert r[..|r| - 1] == NatToString(n / 10);
    }
  }

  /** `str(i)` reads back as `i`. */
  lemma IntToStringValue(i: int)
    ensures SignedValue(IntToString(i)) == i
  {
    if i < 0 {
      NatToStringValue(-i);
      assert ("-" + NatToString(-i))[1..] == NatToString(-i);
    } else {
      NatToStringValue(i);
    }
  }

  /** The decimal rendering determines the number. */
  lemma {:induction false} NatToStringInjective(m: nat, n: nat)
    requires NatToString(m) == NatToString(n)
    ensures m == n
  {
    var s, t := NatToString(m), NatToString(n);
    if m >= 10 && n >= 10 {
      assert s[..|s| - 1] == NatToString(m / 10);
      assert t[..|t| - 1] == NatToString(n / 10);
      NatToStringInjective(m / 10, n / 10);
    }
  }
}
