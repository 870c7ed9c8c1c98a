/** String helpers with Python's meaning: the whitespace used by `strip()`
    and `\s`, `split` on one character, `join`, substring search, decimal
    formatting and the code-point order `sorted()` uses on strings. */
module Text {
  import opened Wrappers

  /** Python's `str.isspace()`; also the class `\s` and a bare `strip()` use. */
  predicate IsSpace(c: char) {
    c == ' ' || ('\t' <= c <= '\r') || ('\U{001C}' <= c <= '\U{001F}')
    || c == '\U{0085}' || c == '\U{00A0}' || c == '\U{1680}'
    || ('\U{2000}' <= c <= '\U{200A}') || c == '\U{2028}' || c == '\U{2029}'
    || c == '\U{202F}' || c == '\U{205F}' || c == '\U{3000}'
  }

  function StripLeft(s: string): (r: string)
    ensures |r| <= |s| && r == s[|s| - |r|..]
    ensures r == [] || !IsSpace(r[0])
    ensures forall i :: 0 <= i < |s| - |r| ==> IsSpace(s[i])
  {
    if |s| > 0 && IsSpace(s[0]) then StripLeft(s[1..]) else s
  }

  function StripRight(s: string): (r: string)
    ensures |r| <= |s| && r == s[..|r|]
    ensures r == [] || !IsSpace(r[|r| - 1])
    ensures forall i :: |r| <= i < |s| ==> IsSpace(s[i])
  {
    if |s| > 0 && IsSpace(s[|s| - 1]) then StripRight(s[..|s| - 1]) else s
  }

  /** `s.strip()`: the longest slice without whitespace at either end. */
  function Strip(s: string): string {
    StripRight(StripLeft(s))
  }

  /** The characters `strip()` removes are whitespace, what it keeps is a
      slice of the input, and the slice has no whitespace at either end. */
  lemma StripIsTrimmedSlice(s: string)
    ensures exists i, j :: (0 <= i <= j <= |s| && Strip(s) == s[i..j]
                       && (forall k :: 0 <= k < i ==> IsSpace(s[k]))
                       && (forall k :: j <= k < |s| ==> IsSpace(s[k])))
  {
    var l := StripLeft(s);
    var i := |s| - |l|;
    var r := StripRight(l);
    var j := i + |r|;
    assert r == s[i..j] by {
      assert l == s[i..];
      assert r == l[..|r|];
    }
    assert Strip(s) == r;
    forall k | j <= k < |s| ensures IsSpace(s[k]) {
      assert s[k] == l[k - i];
    }
  }

  /** What `strip()` returns has no whitespace at either end. */
  lemma StripEnds(s: string)
    ensures Strip(s) == [] || (!IsSpace(Strip(s)[0]) && !IsSpace(Strip(s)[|Strip(s)| - 1]))
  {
    var l := StripLeft(s);
    if Strip(s) != [] {
      assert Strip(s)[0] == l[0];
    }
  }

  /** `strip()` changes nothing the second time. */
  lemma StripIdempotent(s: string)
    ensures Strip(Strip(s)) == Strip(s)
  {
    var r := Strip(s);
    StripIsTrimmedSlice(s);
    StripEnds(s);
    if r != [] {
      assert StripLeft(r) == r;
      assert StripRight(r) == r;
    }
  }

  /** `sep.join(parts)`. */
  function Join(sep: string, parts: seq<string>): string
    decreases |parts|
  {
    if |parts| == 0 then ""
    else if |parts| == 1 then parts[0]
    else parts[0] + sep + Join(sep, parts[1..])
  }

  /** Joining two parts puts one separator between them. */
  lemma JoinPair(sep: string, a: string, b: string)
    ensures Join(sep, [a, b]) == a + sep + b
  {
    assert [a, b][1..] == [b];
  }

  /** Joining two non-empty lists of parts: the two joins with one more
      separator between them. */
  lemma {:induction false} JoinAppend(sep: string, a: seq<string>, b: seq<string>)
    requires |a| > 0 && |b| > 0
    ensures Join(sep, a + b) == Join(sep, a) + sep + Join(sep, b)
    decreases |a|
  {
    if |a| == 1 {
      assert (a + b)[1..] == b;
    } else {
      assert (a + b)[1..] == a[1..] + b;
      JoinAppend(sep, a[1..], b);
    }
  }

  /** `s.split(c)` for a one-character separator. */
  function Split(s: string, c: char): (r: seq<string>)
    ensures |r| >= 1
  {
    if |s| == 0 then [""]
    else
      var rest := Split(s[1..], c);
      if s[0] == c then [""] + rest else [[s[0]] + rest[0]] + rest[1..]
  }

  /** Splitting and joining back on the same character restore the text,
      and no piece contains the separator. */
  lemma {:induction false} SplitJoin(s: string, c: char)
    ensures Join([c], Split(s, c)) == s
    ensures forall k :: 0 <= k < |Split(s, c)| ==> c !in Split(s, c)[k]
  {
    if |s| > 0 {
      var rest := Split(s[1..], c);
      SplitJoin(s[1..], c);
      if s[0] == c {
        assert Join([c], [""] + rest) == "" + [c] + Join([c], rest);
      } else {
        var r := [[s[0]] + rest[0]] + rest[1..];
        if |rest| == 1 {
          assert Join([c], r) == [s[0]] + rest[0];
        } else {
          assert r[1..] == rest[1..];
          assert Join([c], rest) == rest[0] + [c] + Join([c], rest[1..]);
          assert Join([c], r) == [s[0]] + rest[0] + [c] + Join([c], rest[1..]);
        }
        forall k | 0 <= k < |r| ensures c !in r[k] {
          if k > 0 { assert r[k] == rest[k]; }
        }
      }
      assert s == [s[0]] + s[1..];
    }
  }

  /** The text before the first `c` (all of it when there is none):
      `s.split(c)[0]`. */
  function BeforeFirst(s: string, c: char): (r: string)
    ensures r == Split(s, c)[0]
    ensures c !in r && r <= s
    ensures |r| < |s| ==> s[|r|] == c
  {
    if |s| == 0 || s[0] == c then "" else [s[0]] + BeforeFirst(s[1..], c)
  }

  /** The text before the first `c` of `a + [c] + b`, when `a` has no `c`,
      is `a`. */
  lemma BeforeFirstOfJoin(a: string, c: char, b: string)
    requires c !in a
    ensures BeforeFirst(a + [c] + b, c) == a
  {
    var s := a + [c] + b;
    var r := BeforeFirst(s, c);
    assert s[|a|] == c;
    assert r == s[..|r|];
  }

  /** The text after the first `c`: `s.split(c, 1)[1]`, None when `c` does
      not occur. */
  function AfterFirst(s: string, c: char): (r: Option<string>)
    ensures c in s <==> r.Some?
    ensures r.Some? ==> s == BeforeFirst(s, c) + [c] + r.value
  {
    if |s| == 0 then None
    else if s[0] == c then Some(s[1..])
    else match AfterFirst(s[1..], c)
      case None => None
      case Some(t) => Some(t)
  }

  /** `t` occurs in `s` starting at index `i`. */
  predicate OccursAt(s: string, t: string, i: nat) {
    i + |t| <= |s| && s[i..i + |t|] == t
  }

  /** Python's `t in s` on two strings. */
  predicate IsInfix(t: string, s: string) {
    exists i: nat :: i <= |s| && OccursAt(s, t, i)
  }

  /** `s.find(t, from)`: the first occurrence at or after `from`. */
  function FindFrom(s: string, t: string, from: nat): (r: Option<nat>)
    ensures r.Some? ==> (from <= r.value && OccursAt(s, t, r.value)
                         && forall k: nat :: from <= k < r.value ==> !OccursAt(s, t, k))
    ensures r.None? ==> forall k: nat :: from <= k ==> !OccursAt(s, t, k)
    decreases |s| - from
  {
    if from + |t| > |s| then None
    else if s[from..from + |t|] == t then Some(from)
    else FindFrom(s, t, from + 1)
  }

  /** A text is a prefix of `y` when `y` starts with it. */
  predicate PrefixOf(x: string, y: string) {
    |x| <= |y| && y[..|x|] == x
  }

  lemma PrefixOfAppend(x: string, y: string)
    ensures PrefixOf(x, x + y)
  {
    assert (x + y)[..|x|] == x;
  }

  lemma PrefixTrans(x: string, y: string, z: string)
    requires PrefixOf(x, y) && PrefixOf(y, z)
    ensures PrefixOf(x, z)
  {
    assert z[..|x|] == z[..|y|][..|x|];
  }

  /** A slice inside a prefix is the prefix's slice. */
  lemma PrefixSlice(x: string, y: string, i: nat, j: nat)
    requires PrefixOf(x, y) && i <= j <= |x|
    ensures y[i..j] == x[i..j]
  {
    assert forall k :: i <= k < j ==> y[k] == y[..|x|][k];
  }

  /** The appended part of a concatenation. */
  lemma AppendedPart(x: string, y: string)
    ensures (x + y)[|x|..|x + y|] == y
  {
  }

  /** An occurrence with none before it, from `from` on, is the one
      `find` returns. */
  lemma FindFromAt(s: string, t: string, from: nat, q: nat)
    requires from <= q && OccursAt(s, t, q)
    requires forall k: nat :: from <= k < q ==> !OccursAt(s, t, k)
    ensures FindFrom(s, t, from) == Some(q)
  {
  }

  /** Substring search decides `t in s`. */
  lemma FindDecidesInfix(s: string, t: string)
    ensures FindFrom(s, t, 0).Some? <==> IsInfix(t, s)
  {
    if FindFrom(s, t, 0).Some? {
      assert OccursAt(s, t, FindFrom(s, t, 0).value);
    }
  }

  /** A slice of a text without `t` has no `t` either. */
  lemma SliceKeepsNoInfix(s: string, t: string, i: nat, j: nat)
    requires i <= j <= |s| && !IsInfix(t, s)
    ensures !IsInfix(t, s[i..j])
  {
    var u := s[i..j];
    forall k: nat | k <= |u| ensures !OccursAt(u, t, k) {
      if OccursAt(u, t, k) {
        assert k + |t| <= |u| == j - i;
        assert forall m :: k <= m < k + |t| ==> u[m] == s[i + m];
        assert s[i + k..i + k + |t|] == u[k..k + |t|];
        assert OccursAt(s, t, i + k);
      }
    }
  }

  /** The text before the first occurrence of `t` has no `t`. */
  lemma FirstLeavesHeadFree(s: string, t: string, i: nat)
    requires |t| > 0 && FindFrom(s, t, 0) == Some(i)
    ensures !IsInfix(t, s[..i])
  {
    var head := s[..i];
    forall k: nat | k <= |head| ensures !OccursAt(head, t, k) {
      if k + |t| <= |head| {
        assert forall m :: k <= m < k + |t| ==> head[m] == s[m];
        assert head[k..k + |t|] == s[k..k + |t|];
        assert !OccursAt(s, t, k);
      }
    }
  }

  /** What occurs in one part of a concatenation occurs in the whole. */
  lemma InfixOfConcat(t: string, a: string, b: string)
    ensures IsInfix(t, a) ==> IsInfix(t, a + b)
    ensures IsInfix(t, b) ==> IsInfix(t, a + b)
  {
    if IsInfix(t, a) {
      var i: nat :| i <= |a| && OccursAt(a, t, i);
      assert (a + b)[i..i + |t|] == a[i..i + |t|];
      assert OccursAt(a + b, t, i);
    }
    if IsInfix(t, b) {
      var i: nat :| i <= |b| && OccursAt(b, t, i);
      assert (a + b)[|a| + i..|a| + i + |t|] == b[i..i + |t|];
      assert OccursAt(a + b, t, |a| + i);
    }
  }

  /** Every part occurs in the join of the parts. */
  lemma {:induction false} JoinHasPart(sep: string, parts: seq<string>, j: nat)
    requires j < |parts|
    ensures IsInfix(parts[j], Join(sep, parts))
    decreases |parts|
  {
    assert OccursAt(parts[j], parts[j], 0);
    if |parts| > 1 {
      if j == 0 {
        InfixOfConcat(parts[0], parts[0], sep + Join(sep, parts[1..]));
        assert parts[0] + sep + Join(sep, parts[1..]) == parts[0] + (sep + Join(sep, parts[1..]));
      } else {
        JoinHasPart(sep, parts[1..], j - 1);
        InfixOfConcat(parts[j], parts[0] + sep, Join(sep, parts[1..]));
      }
    }
  }

  /** `t in s` without a quantifier, for code that must decide it. */
  function ContainsText(s: string, t: string): (b: bool)
    ensures b <==> IsInfix(t, s)
  {
    FindDecidesInfix(s, t);
    FindFrom(s, t, 0).Some?
  }

  function DigitChar(d: nat): (c: char)
    requires d < 10
    ensures '0' <= c <= '9'
  {
    (('0' as int) + d) as char
  }

  predicate IsDigit(c: char) {
    '0' <= c <= '9'
  }

  lemma DigitIsNotSpace(c: char)
    requires IsDigit(c)
    ensures !IsSpace(c)
  {}

  /** `str(n)` for a non-negative integer. */
  function NatToString(n: nat): (r: string)
    ensures |r| >= 1 && forall k :: 0 <= k < |r| ==> IsDigit(r[k])
    ensures |r| > 1 ==> r[0] != '0'
  {
    if n < 10 then [DigitChar(n)] else NatToString(n / 10) + [DigitChar(n % 10)]
  }

  /** `str(i)` for any integer. */
  function IntToString(i: int): string {
    if i < 0 then "-" + NatToString(-i) else NatToString(i)
  }

  /** The value of a run of decimal digits. */
  function DigitsValue(s: string): nat
    requires forall k :: 0 <= k < |s| ==> IsDigit(s[k])
  {
    if |s| == 0 then 0 else DigitsValue(s[..|s| - 1]) * 10 + DigitValue(s[|s| - 1])
  }

  function DigitValue(c: char): (d: nat)
    requires IsDigit(c)
    ensures d < 10
  {
    (c as int) - ('0' as int)
  }

  /** Reading the decimal text of a number gives the number back. */
  lemma {:induction false} DigitsOfNat(n: nat)
    ensures DigitsValue(NatToString(n)) == n
  {
    if n >= 10 {
      DigitsOfNat(n / 10);
      var r := NatToString(n);
      assert r[..|r| - 1] == NatToString(n / 10);
    }
  }

  /** `f"{n:02d}"` for a non-negative integer. */
  function ZeroPad2(n: nat): (r: string)
    ensures |r| >= 2 && forall k :: 0 <= k < |r| ==> IsDigit(r[k])
  {
    if n < 10 then "0" + NatToString(n) else NatToString(n)
  }

  lemma ZeroPad2Value(n: nat)
    ensures DigitsValue(ZeroPad2(n)) == n
  {
    DigitsOfNat(n);
    if n < 10 {
      assert ZeroPad2(n)[..1] == "0";
    }
  }

  /** The longest prefix of digits. */
  function LeadingDigits(s: string): (r: string)
    ensures |r| <= |s| && r == s[..|r|] && forall k :: 0 <= k < |r| ==> IsDigit(r[k])
  {
    if |s| > 0 && IsDigit(s[0]) then [s[0]] + LeadingDigits(s[1..]) else ""
  }

  /** Digits followed by a non-digit: the digits are the leading ones. */
  lemma {:induction false} LeadingDigitsOf(p: string, rest: string)
    requires forall k :: 0 <= k < |p| ==> IsDigit(p[k])
    requires |rest| > 0 && !IsDigit(rest[0])
    ensures LeadingDigits(p + rest) == p
  {
    if |p| > 0 {
      assert (p + rest)[1..] == p[1..] + rest;
      LeadingDigitsOf(p[1..], rest);
    } else {
      assert p + rest == rest;
    }
  }

  /** Python's `<` on strings: code point by code point, a proper prefix
      coming first. */
  predicate Less(a: string, b: string) {
    if |a| == 0 then |b| > 0
    else |b| > 0 && (a[0] < b[0] || (a[0] == b[0] && Less(a[1..], b[1..])))
  }

  lemma LessIrreflexive(a: string)
    ensures !Less(a, a)
  {}

  lemma LessAsymmetric(a: string, b: string)
    ensures Less(a, b) ==> !Less(b, a)
  {}

  lemma {:induction false} LessTransitive(a: string, b: string, c: string)
    ensures Less(a, b) && Less(b, c) ==> Less(a, c)
  {
    if |a| > 0 && |b| > 0 && |c| > 0 {
      LessTransitive(a[1..], b[1..], c[1..]);
    }
  }

  lemma {:induction false} LessTotal(a: string, b: string)
    ensures a == b || Less(a, b) || Less(b, a)
  {
    if |a| > 0 && |b| > 0 && a[0] == b[0] {
      LessTotal(a[1..], b[1..]);
      assert a == [a[0]] + a[1..];
      assert b == [b[0]] + b[1..];
    }
  }

  predicate IsLeast(m: string, s: set<string>) {
    m in s && forall y :: y in s && y != m ==> Less(m, y)
  }

  lemma LeastExists(s: set<string>)
    requires s != {}
    ensures exists m :: IsLeast(m, s)
    decreases |s|
  {
    var x :| x in s;
    var m: string;
    if s == {x} {
      m := x;
    } else {
      LeastExists(s - {x});
      var m' :| IsLeast(m', s - {x});
      LessTotal(x, m');
      if Less(x, m') {
        m := x;
        forall y | y in s && y != m ensures Less(m, y) {
          if y != m' { LessTransitive(x, m', y); }
        }
      } else {
        m := m';
      }
    }
    assert IsLeast(m, s);
  }

  lemma LeastUnique(s: set<string>)
    ensures forall a, b :: IsLeast(a, s) && IsLeast(b, s) ==> a == b
  {
    forall a, b | IsLeast(a, s) && IsLeast(b, s) ensures a == b {
      if a != b { LessAsymmetric(a, b); }
    }
  }

  predicate StrictlySorted(r: seq<string>) {
    forall i, j :: 0 <= i < j < |r| ==> Less(r[i], r[j])
  }

  /** `sorted(names)` for a set of distinct strings: every name once, in
      increasing order. */
  function Sorted(names: set<string>): (r: seq<string>)
    ensures StrictlySorted(r)
    ensures |r| == |names|
    ensures forall x :: x in r <==> x in names
    decreases |names|
  {
    if names == {} then []
    else
      LeastExists(names);
      LeastUnique(names);
      var m :| IsLeast(m, names);
      var rest := Sorted(names - {m});
      assert forall j :: 0 <= j < |rest| ==> Less(m, rest[j]) by {
        forall j | 0 <= j < |rest| ensures Less(m, rest[j]) {
          assert rest[j] in names - {m};
        }
      }
      [m] + rest
  }

  /** ASCII letters in lower case; every other character unchanged. */
  function AsciiLower(c: char): char {
    if 'A' <= c <= 'Z' then ((c as int) + 32) as char else c
  }

  /** `c.lower()` as a string: ASCII capitals, the Kelvin sign (which
      lowers to 'k') and the dotted capital I (which lowers to 'i' and a
      combining dot); every other character is kept as it is. */
  function LowerChar(c: char): string {
    if 'A' <= c <= 'Z' then [AsciiLower(c)]
    else if c == '\U{212A}' then "k"
    else if c == '\U{0130}' then "i\U{0307}"
    else [c]
  }

  /** `s.lower()`, with `LowerChar` for each character. */
  function Lower(s: string): string {
    if |s| == 0 then "" else LowerChar(s[0]) + Lower(s[1..])
  }

  function AsciiUpper(c: char): char {
    if 'a' <= c <= 'z' then ((c as int) - 32) as char else c
  }

  predicate IsAsciiLetter(c: char) {
    ('a' <= c <= 'z') || ('A' <= c <= 'Z')
  }

  /** `str.title()` on ASCII: a letter is upper case when it follows a
      non-letter (or starts the text) and lower case otherwise. */
  function Title(s: string): (r: string)
    ensures |r| == |s|
  {
    TitleAfter(s, false)
  }

  /** A letter after a letter goes to lower case, any other letter to upper
      case; other characters stay. */
  function TitleChar(c: char, afterLetter: bool): char {
    if !IsAsciiLetter(c) then c else if afterLetter then AsciiLower(c) else AsciiUpper(c)
  }

  function TitleAfter(s: string, prevLetter: bool): (r: string)
    ensures |r| == |s|
    ensures forall k :: 0 <= k < |s| ==> r[k] == TitleChar(s[k], if k == 0 then prevLetter else IsAsciiLetter(s[k - 1]))
  {
    if |s| == 0 then ""
    else
      [TitleChar(s[0], prevLetter)] + TitleAfter(s[1..], IsAsciiLetter(s[0]))
  }

  /** `s.replace(a, b)` for single characters. */
  function ReplaceChar(s: string, a: char, b: char): (r: string)
    ensures |r| == |s|
    ensures forall k :: 0 <= k < |s| ==> r[k] == (if s[k] == a then b else s[k])
  {
    if |s| == 0 then "" else [if s[0] == a then b else s[0]] + ReplaceChar(s[1..], a, b)
  }
}
