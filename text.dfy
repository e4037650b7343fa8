/** The JavaScript string operations the bot relies on, stated over Dafny
    strings (sequences of Unicode scalar values): `trim`, `split(/ +/)`,
    `toLowerCase`, `startsWith`, `join`, number-to-text conversion and the
    UTF-16 `length`. */
module JsText {

  /** The code points `String.prototype.trim` removes: WhiteSpace and
      LineTerminator, sections 12.2 and 12.3 of ECMAScript 2023. */
  predicate IsJsWhitespace(c: char) {
    c == '\t' || c == '\n' || c == '\U{000B}' || c == '\U{000C}' || c == '\r' || c == ' '
    || c == '\U{00A0}' || c == '\U{1680}' || ('\U{2000}' <= c <= '\U{200A}')
    || c == '\U{2028}' || c == '\U{2029}' || c == '\U{202F}' || c == '\U{205F}'
    || c == '\U{3000}' || c == '\U{FEFF}'
  }

  predicate AllWhitespace(s: string) {
    forall k :: 0 <= k < |s| ==> IsJsWhitespace(s[k])
  }

  predicate IsAsciiAlnum(c: char) {
    ('a' <= c <= 'z') || ('A' <= c <= 'Z') || ('0' <= c <= '9')
  }

  predicate IsAscii(s: string) {
    forall k :: 0 <= k < |s| ==> s[k] as int < 128
  }

  predicate StartsWith(s: string, prefix: string) {
    |prefix| <= |s| && s[..|prefix|] == prefix
  }

  predicate EndsWith(s: string, suffix: string) {
    |suffix| <= |s| && s[|s| - |suffix|..] == suffix
  }

  // ---------------------------------------------------------------- trim

  /** Length of the whitespace run at the start of `s`. */
  function LeadingWhitespace(s: string): (n: nat)
    ensures n <= |s|
    ensures forall k :: 0 <= k < n ==> IsJsWhitespace(s[k])
    ensures n < |s| ==> !IsJsWhitespace(s[n])
  {
    if |s| > 0 && IsJsWhitespace(s[0]) then 1 + LeadingWhitespace(s[1..]) else 0
  }

  /** Length of the whitespace run at the end of `s`. */
  function TrailingWhitespace(s: string): (n: nat)
    ensures n <= |s|
    ensures forall k :: |s| - n <= k < |s| ==> IsJsWhitespace(s[k])
    ensures n < |s| ==> !IsJsWhitespace(s[|s| - 1 - n])
  {
    if |s| > 0 && IsJsWhitespace(s[|s| - 1]) then 1 + TrailingWhitespace(s[..|s| - 1]) else 0
  }

  /** `s.trim()`: the part of `s` between its leading and trailing whitespace. */
  function Trim(s: string): (r: string)
    ensures r == [] || (!IsJsWhitespace(r[0]) && !IsJsWhitespace(r[|r| - 1]))
    ensures r == [] <==> AllWhitespace(s)
    ensures LeadingWhitespace(s) + |r| <= |s|
    ensures r == s[LeadingWhitespace(s)..LeadingWhitespace(s) + |r|]
    ensures forall k :: LeadingWhitespace(s) + |r| <= k < |s| ==> IsJsWhitespace(s[k])
  {
    var lead := LeadingWhitespace(s);
    var t := s[lead..];
    var r := t[..|t| - TrailingWhitespace(t)];
    TrimShape(s, lead, t, r);
    r
  }

  lemma TrimShape(s: string, lead: nat, t: string, r: string)
    requires lead == LeadingWhitespace(s) && t == s[lead..]
    requires r == t[..|t| - TrailingWhitespace(t)]
    ensures r == [] || (!IsJsWhitespace(r[0]) && !IsJsWhitespace(r[|r| - 1]))
    ensures r == [] <==> AllWhitespace(s)
    ensures lead + |r| <= |s|
    ensures r == s[lead..lead + |r|]
    ensures forall k :: lead + |r| <= k < |s| ==> IsJsWhitespace(s[k])
  {
    TrimTail(s, lead, t, r);
    TrimEnds(s, lead, t, r);
  }

  lemma TrimTail(s: string, lead: nat, t: string, r: string)
    requires lead == LeadingWhitespace(s) && t == s[lead..]
    requires r == t[..|t| - TrailingWhitespace(t)]
    ensures lead + |r| <= |s|
    ensures r == s[lead..lead + |r|]
    ensures forall k :: lead + |r| <= k < |s| ==> IsJsWhitespace(s[k])
  {
    var trail := TrailingWhitespace(t);
    assert |r| == |t| - trail && |t| == |s| - lead;
    assert r == s[lead..lead + |r|];
    forall k | lead + |r| <= k < |s|
      ensures IsJsWhitespace(s[k])
    {
      assert |t| - trail <= k - lead < |t|;
      assert s[k] == t[k - lead];
    }
  }

  lemma TrimEnds(s: string, lead: nat, t: string, r: string)
    requires lead == LeadingWhitespace(s) && t == s[lead..]
    requires r == t[..|t| - TrailingWhitespace(t)]
    ensures r == [] || (!IsJsWhitespace(r[0]) && !IsJsWhitespace(r[|r| - 1]))
    ensures r == [] <==> AllWhitespace(s)
  {
    var trail := TrailingWhitespace(t);
    if r != [] {
      assert r[0] == s[lead];
      assert r[|r| - 1] == t[|t| - 1 - trail];
    }
  }

  lemma TrimIdempotent(s: string)
    ensures Trim(Trim(s)) == Trim(s)
  {
    var r := Trim(s);
    if r != [] {
      assert LeadingWhitespace(r) == 0;
      assert TrailingWhitespace(r) == 0;
    }
  }

  // ---------------------------------------------------------- toLowerCase

  /** `toLowerCase` on one code point, for the code points whose lower case
      is ASCII: the Latin capitals and U+212A KELVIN SIGN. Every other code
      point is left as it is. */
  function LowerChar(c: char): char {
    if 'A' <= c <= 'Z' then (c as int + 32) as char
    else if c == '\U{212A}' then 'k'
    else c
  }

  function ToLower(s: string): (r: string)
    ensures |r| == |s|
    ensures forall k :: 0 <= k < |s| ==> r[k] == LowerChar(s[k])
    ensures forall k :: 0 <= k < |r| ==> !('A' <= r[k] <= 'Z')
  {
    if s == [] then [] else [LowerChar(s[0])] + ToLower(s[1..])
  }

  lemma ToLowerIdempotent(s: string)
    ensures ToLower(ToLower(s)) == ToLower(s)
  {
    var r := ToLower(s);
    assert forall k :: 0 <= k < |r| ==> ToLower(r)[k] == r[k];
  }

  // ------------------------------------------------------------ split(/ +/)

  /** Length of the run of U+0020 at the start of `s`. */
  function SpaceRun(s: string): (n: nat)
    ensures n <= |s|
    ensures forall k :: 0 <= k < n ==> s[k] == ' '
    ensures n < |s| ==> s[n] != ' '
  {
    if |s| > 0 && s[0] == ' ' then 1 + SpaceRun(s[1..]) else 0
  }

  /** Index of the first U+0020 in `s`, or `|s|` when there is none. */
  function IndexOfSpace(s: string): (i: nat)
    ensures i <= |s|
    ensures forall k :: 0 <= k < i ==> s[k] != ' '
    ensures i < |s| ==> s[i] == ' '
  {
    if |s| == 0 || s[0] == ' ' then 0 else 1 + IndexOfSpace(s[1..])
  }

  /** `s.split(/ +/)`: the pieces of `s` between maximal runs of spaces. As in
      JavaScript, `""` splits into `[""]` and a leading or trailing run
      produces an empty first or last piece. */
  function SplitOnSpaces(s: string): (r: seq<string>)
    ensures |r| >= 1
    ensures forall k :: 0 <= k < |r| ==> ' ' !in r[k]
    decreases |s|
  {
    if IndexOfSpace(s) == |s| then [s]
    else [s[..IndexOfSpace(s)]] + SplitOnSpaces(AfterGap(s))
  }

  /** What follows the first run of spaces. */
  function AfterGap(s: string): (r: string)
    requires IndexOfSpace(s) < |s|
    ensures |r| < |s|
  {
    var i := IndexOfSpace(s);
    s[i + SpaceRun(s[i..])..]
  }

  function Concat(ss: seq<string>): string {
    if ss == [] then [] else ss[0] + Concat(ss[1..])
  }

  lemma {:induction false} ConcatSnoc(ss: seq<string>, s: string)
    ensures Concat(ss + [s]) == Concat(ss) + s
  {
    if ss == [] {
      assert [] + [s] == [s];
      assert Concat([s]) == s + Concat([]);
    } else {
      assert (ss + [s])[1..] == ss[1..] + [s];
      ConcatSnoc(ss[1..], s);
    }
  }

  lemma {:induction false} ConcatAppend(xs: seq<string>, ys: seq<string>)
    ensures Concat(xs + ys) == Concat(xs) + Concat(ys)
    decreases |xs|
  {
    if xs == [] {
      assert xs + ys == ys;
    } else {
      assert (xs + ys)[1..] == xs[1..] + ys;
      ConcatAppend(xs[1..], ys);
    }
  }

  /** `sub` occurs in `s` at position `i`. */
  predicate OccursAt(s: string, sub: string, i: int) {
    0 <= i <= |s| - |sub| && s[i..i + |sub|] == sub
  }

  ghost predicate Contains(s: string, sub: string) {
    exists i :: OccursAt(s, sub, i)
  }

  /** Where the three parts of `a + b + c` sit. */
  lemma ThreeParts(a: string, b: string, c: string)
    ensures StartsWith(a + b + c, a) && EndsWith(a + b + c, c) && OccursAt(a + b + c, b, |a|)
  {
    var s := a + b + c;
    assert s[..|a|] == a;
    assert s[|s| - |c|..] == c;
    assert s[|a|..|a| + |b|] == b;
  }

  /** Every piece shows up in the concatenation, right after the pieces
      before it; the first opens it and the last closes it. */
  lemma ConcatShowsPiece(ss: seq<string>, k: nat)
    requires k < |ss|
    ensures OccursAt(Concat(ss), ss[k], |Concat(ss[..k])|)
    ensures Contains(Concat(ss), ss[k])
    ensures k == 0 ==> StartsWith(Concat(ss), ss[0])
    ensures k == |ss| - 1 ==> EndsWith(Concat(ss), ss[k])
  {
    var before, after := ss[..k], ss[k + 1..];
    assert ss == before + ([ss[k]] + after);
    ConcatAppend(before, [ss[k]] + after);
    assert ([ss[k]] + after)[1..] == after;
    assert Concat([ss[k]] + after) == ss[k] + Concat(after);
    assert Concat(ss) == Concat(before) + ss[k] + Concat(after);
    ThreeParts(Concat(before), ss[k], Concat(after));
    if k == |ss| - 1 {
      assert after == [];
    }
  }

  /** `s` with every U+0020 deleted: an independent description of what
      splitting keeps. */
  function WithoutSpaces(s: string): string {
    if s == [] then [] else (if s[0] == ' ' then [] else [s[0]]) + WithoutSpaces(s[1..])
  }

  lemma {:induction false} WithoutSpacesAppend(a: string, b: string)
    ensures WithoutSpaces(a + b) == WithoutSpaces(a) + WithoutSpaces(b)
  {
    if a == [] {
      assert a + b == b;
    } else {
      assert (a + b)[1..] == a[1..] + b;
      WithoutSpacesAppend(a[1..], b);
    }
  }

  lemma {:induction false} WithoutSpacesOfSpaces(s: string)
    requires forall k :: 0 <= k < |s| ==> s[k] == ' '
    ensures WithoutSpaces(s) == []
  {
    if s != [] {
      WithoutSpacesOfSpaces(s[1..]);
    }
  }

  lemma {:induction false} WithoutSpacesOfNoSpaces(s: string)
    requires ' ' !in s
    ensures WithoutSpaces(s) == s
  {
    if s != [] {
      WithoutSpacesOfNoSpaces(s[1..]);
    }
  }

  /** Deleting spaces from a word, a run of spaces and a rest keeps the word
      and deletes from the rest. */
  lemma SpacesDropped(s: string, i: nat, j: nat)
    requires i <= j <= |s|
    requires forall k :: 0 <= k < i ==> s[k] != ' '
    requires forall k :: i <= k < j ==> s[k] == ' '
    ensures WithoutSpaces(s) == s[..i] + WithoutSpaces(s[j..])
  {
    var head, gap, tail := s[..i], s[i..j], s[j..];
    assert s == head + gap + tail;
    assert ' ' !in head by {
      assert forall k :: 0 <= k < |head| ==> head[k] == s[k];
    }
    assert forall k :: 0 <= k < |gap| ==> gap[k] == s[i + k];
    GapDropped(head, gap, tail);
  }

  /** A word, a run of spaces and a rest lose the run and the rest's spaces. */
  lemma GapDropped(head: string, gap: string, tail: string)
    requires ' ' !in head
    requires forall k :: 0 <= k < |gap| ==> gap[k] == ' '
    ensures WithoutSpaces(head + gap + tail) == head + WithoutSpaces(tail)
  {
    WithoutSpacesOfNoSpaces(head);
    WithoutSpacesOfSpaces(gap);
    WithoutSpacesAppend(head, gap);
    assert WithoutSpaces(head + gap) == head + [] == head;
    WithoutSpacesAppend(head + gap, tail);
  }

  /** One step of the split: the piece before the first run of spaces,
      then the pieces of what follows the run. */
  lemma {:induction false} SplitStep(s: string) returns (i: nat, j: nat)
    requires IndexOfSpace(s) < |s|
    ensures i < j <= |s| && i == IndexOfSpace(s)
    ensures SplitOnSpaces(s) == [s[..i]] + SplitOnSpaces(s[j..])
    ensures WithoutSpaces(s) == s[..i] + WithoutSpaces(s[j..])
  {
    i := IndexOfSpace(s);
    j := i + SpaceRun(s[i..]);
    assert AfterGap(s) == s[j..];
    assert forall k :: i <= k < j ==> s[k] == s[i..][k - i];
    SpacesDropped(s, i, j);
  }

  /** Splitting loses exactly the spaces: the pieces, put back together,
      are the input without its spaces. */
  lemma {:induction false} SplitLosesOnlySpaces(s: string)
    ensures Concat(SplitOnSpaces(s)) == WithoutSpaces(s)
    decreases |s|
  {
    if IndexOfSpace(s) == |s| {
      WithoutSpacesOfNoSpaces(s);
      assert Concat([s]) == s + Concat([]);
    } else {
      var i, j := SplitStep(s);
      var rest := SplitOnSpaces(s[j..]);
      assert ([s[..i]] + rest)[1..] == rest;
      SplitLosesOnlySpaces(s[j..]);
    }
  }

  /** A string that neither starts nor ends with a space splits into
      non-empty pieces. */
  lemma {:induction false} SplitPiecesNonEmpty(s: string)
    requires s != [] && s[0] != ' ' && s[|s| - 1] != ' '
    ensures forall k :: 0 <= k < |SplitOnSpaces(s)| ==> SplitOnSpaces(s)[k] != []
    decreases |s|
  {
    var i := IndexOfSpace(s);
    if i < |s| {
      var j := i + SpaceRun(s[i..]);
      assert AfterGap(s) == s[j..];
      assert s[j - 1] == ' ';
      assert j < |s|;
      SplitPiecesNonEmpty(s[j..]);
      var r := SplitOnSpaces(s);
      assert r == [s[..i]] + SplitOnSpaces(s[j..]);
      assert i > 0;
    }
  }

  /** A word without spaces is its own split. */
  lemma SplitWord(a: string)
    requires ' ' !in a
    ensures SplitOnSpaces(a) == [a]
  {
  }

  /** A word, a run of spaces and a rest that does not start with a space
      split into the word followed by the split of the rest. */
  lemma SplitAtGap(a: string, gap: string, b: string)
    requires ' ' !in a && gap != [] && forall k :: 0 <= k < |gap| ==> gap[k] == ' '
    requires b == [] || b[0] != ' '
    ensures SplitOnSpaces(a + gap + b) == [a] + SplitOnSpaces(b)
  {
    var s := a + gap + b;
    assert IndexOfSpace(s) == |a| by {
      assert s[|a|] == gap[0];
      forall k | 0 <= k < |a| ensures s[k] != ' ' {
        assert s[k] == a[k] && a[k] in a;
      }
    }
    assert s[|a|..] == gap + b;
    assert SpaceRun(gap + b) == |gap| by {
      assert forall k :: 0 <= k < |gap| ==> (gap + b)[k] == gap[k];
      if b != [] {
        assert (gap + b)[|gap|] == b[0];
      }
    }
    assert s[..|a|] == a;
    assert s[|a| + |gap|..] == b;
  }

  // ---------------------------------------------------------------- join

  /** `xs.join(sep)`. */
  function Join(xs: seq<string>, sep: string): string {
    if |xs| == 0 then [] else if |xs| == 1 then xs[0] else xs[0] + sep + Join(xs[1..], sep)
  }

  /** Joining a non-empty list ends with its last element. */
  lemma {:induction false} JoinEndsWithLast(xs: seq<string>, sep: string)
    requires xs != []
    ensures EndsWith(Join(xs, sep), xs[|xs| - 1])
  {
    if |xs| > 1 {
      JoinEndsWithLast(xs[1..], sep);
      var j := Join(xs[1..], sep);
      var last := xs[|xs| - 1];
      var full := xs[0] + sep + j;
      assert full[|full| - |last|..] == j[|j| - |last|..];
    }
  }

  /** Joining a non-empty list starts with its first element. */
  lemma JoinStartsWithFirst(xs: seq<string>, sep: string)
    requires xs != []
    ensures StartsWith(Join(xs, sep), xs[0])
  {
    if |xs| > 1 {
      assert (xs[0] + sep + Join(xs[1..], sep))[..|xs[0]|] == xs[0];
    }
  }

  /** Joining splits at every element boundary: appending one more element
      appends the separator and that element. */
  lemma {:induction false} JoinSnoc(xs: seq<string>, x: string, sep: string)
    requires xs != []
    ensures Join(xs + [x], sep) == Join(xs, sep) + sep + x
  {
    if |xs| == 1 {
      assert xs + [x] == [xs[0], x];
      assert [xs[0], x][1..] == [x];
    } else {
      assert (xs + [x])[1..] == xs[1..] + [x];
      JoinSnoc(xs[1..], x, sep);
    }
  }

  // ------------------------------------------------------- numbers as text

  function DigitChar(d: nat): (c: char)
    requires d < 10
    ensures '0' <= c <= '9'
  {
    ('0' as int + d) as char
  }

  predicate AllDigits(s: string) {
    forall k :: 0 <= k < |s| ==> '0' <= s[k] <= '9'
  }

  /** Decimal text of a natural number, without leading zeros. */
  function NatToString(n: nat): (s: string)
    ensures |s| >= 1
    ensures AllDigits(s)
    ensures s[0] == '0' ==> n == 0
  {
    if n < 10 then [DigitChar(n)] else NatToString(n / 10) + [DigitChar(n % 10)]
  }

  /** The number a string of decimal digits denotes: the partner of
      `NatToString`. */
  function DecimalValue(s: string): nat
    requires AllDigits(s)
  {
    if s == [] then 0 else DecimalValue(s[..|s| - 1]) * 10 + (s[|s| - 1] as int - '0' as int)
  }

  lemma {:induction false} DecimalRoundTrip(n: nat)
    ensures DecimalValue(NatToString(n)) == n
  {
    if n >= 10 {
      DecimalRoundTrip(n / 10);
      var s := NatToString(n);
      assert s[..|s| - 1] == NatToString(n / 10);
    }
  }

  /** Decimal text of an integer, as a JavaScript template literal renders
      it (for magnitudes below 10^21). */
  function IntToString(i: int): (s: string)
    ensures |s| >= 1
    ensures i >= 0 ==> AllDigits(s) && DecimalValue(s) == i
    ensures i < 0 ==> s[0] == '-' && AllDigits(s[1..]) && DecimalValue(s[1..]) == -i
  {
    if i < 0 then
      DecimalRoundTrip(-i);
      var s := "-" + NatToString(-i);
      assert s[1..] == NatToString(-i);
      s
    else
      DecimalRoundTrip(i);
      NatToString(i)
  }

  // --------------------------------------------------------- UTF-16 length

  /** JavaScript's `length`: code points above U+FFFF take two UTF-16 code
      units. */
  function Utf16Length(s: string): (n: nat)
    ensures n >= |s|
  {
    if s == [] then 0 else (if s[0] as int > 0xFFFF then 2 else 1) + Utf16Length(s[1..])
  }

  lemma {:induction false} AsciiUtf16Length(s: string)
    requires IsAscii(s)
    ensures Utf16Length(s) == |s|
  {
    if s != [] {
      AsciiUtf16Length(s[1..]);
    }
  }
}
