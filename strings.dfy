/** The parts of Python's `str` behaviour the system relies on: `isspace`,
    `strip`, `lower`, `in`, `startswith`, `split`, `join` and `int()`. */
module Strings {
  import opened Common

  /** The characters for which Python's `str.isspace()` holds; `strip()` and
      `split()` without an argument use exactly this set. */
  predicate IsSpace(c: char) {
    c == ' ' || ('\t' <= c <= '\r') || ('\U{1C}' <= c <= '\U{1F}')
    || c == '\U{85}' || c == '\U{A0}' || c == '\U{1680}'
    || ('\U{2000}' <= c <= '\U{200A}') || c == '\U{2028}' || c == '\U{2029}'
    || c == '\U{202F}' || c == '\U{205F}' || c == '\U{3000}'
  }

  predicate AllSpace(s: string) {
    forall i :: 0 <= i < |s| ==> IsSpace(s[i])
  }

  predicate NoSpace(s: string) {
    forall i :: 0 <= i < |s| ==> !IsSpace(s[i])
  }

  /** `s.lstrip()`: the longest suffix of `s` that does not start with whitespace. */
  function TrimLeft(s: string): (r: string)
    ensures |r| <= |s|
    ensures r == [] || !IsSpace(r[0])
  {
    if |s| > 0 && IsSpace(s[0]) then TrimLeft(s[1..]) else s
  }

  /** What `lstrip()` removes is whitespace, and what it keeps is a suffix. */
  lemma {:induction false} TrimLeftShape(s: string)
    ensures var r := TrimLeft(s);
      r == s[|s| - |r|..] && AllSpace(s[..|s| - |r|])
  {
    if |s| > 0 && IsSpace(s[0]) {
      TrimLeftShape(s[1..]);
      var r := TrimLeft(s[1..]);
      assert s[..|s| - |r|] == [s[0]] + s[1..][..|s[1..]| - |r|];
      assert s[1..][|s[1..]| - |r|..] == s[|s| - |r|..];
    } else {
      assert s[..0] == [];
    }
  }

  /** `s.rstrip()`: the longest prefix of `s` that does not end with whitespace. */
  function TrimRight(s: string): (r: string)
    ensures |r| <= |s|
    ensures r == [] || !IsSpace(r[|r| - 1])
  {
    if |s| > 0 && IsSpace(s[|s| - 1]) then TrimRight(s[..|s| - 1]) else s
  }

  /** What `rstrip()` removes is whitespace, and what it keeps is a prefix. */
  lemma {:induction false} TrimRightShape(s: string)
    ensures var r := TrimRight(s);
      r == s[..|r|] && AllSpace(s[|r|..])
  {
    if |s| > 0 && IsSpace(s[|s| - 1]) {
      TrimRightShape(s[..|s| - 1]);
      var r := TrimRight(s[..|s| - 1]);
      assert s[|r|..] == s[..|s| - 1][|r|..] + [s[|s| - 1]];
      assert s[..|s| - 1][..|r|] == s[..|r|];
    } else {
      assert s[|s|..] == [];
    }
  }

  /** `s.strip()`. */
  function Strip(s: string): string {
    TrimRight(TrimLeft(s))
  }

  /** Stripping text that already has no surrounding whitespace returns it unchanged. */
  lemma StripNoSpace(s: string)
    requires NoSpace(s)
    ensures Strip(s) == s
  {
    if |s| > 0 {
      assert TrimLeft(s) == s;
    }
  }

  /** The number of whitespace characters `strip()` removes from the front. */
  function LeadingSpace(s: string): (n: nat)
    ensures n <= |s|
  {
    |s| - |TrimLeft(s)|
  }

  /** A stripped string neither starts nor ends with whitespace, and it is the
      factor of the input that only whitespace surrounds. */
  lemma StripShape(s: string)
    ensures var r, i := Strip(s), LeadingSpace(s);
      (r == [] || (!IsSpace(r[0]) && !IsSpace(r[|r| - 1])))
      && i + |r| <= |s| && r == s[i..i + |r|]
      && AllSpace(s[..i]) && AllSpace(s[i + |r|..])
  {
    var t := TrimLeft(s);
    var r := TrimRight(t);
    var i := |s| - |t|;
    TrimLeftShape(s);
    TrimRightShape(t);
    assert t == s[i..];
    assert r == t[..|r|];
    assert r == s[i..i + |r|];
    assert s[i + |r|..] == t[|r|..];
  }

  /** Whitespace in front of text that does not start with whitespace is what `lstrip()` removes. */
  lemma {:induction false} TrimLeftOf(a: string, m: string)
    requires AllSpace(a) && (m == [] || !IsSpace(m[0]))
    ensures TrimLeft(a + m) == m
  {
    if a == [] {
      assert a + m == m;
    } else {
      assert (a + m)[1..] == a[1..] + m;
      TrimLeftOf(a[1..], m);
    }
  }

  /** Whitespace after text that does not end with whitespace is what `rstrip()` removes. */
  lemma {:induction false} TrimRightOf(m: string, b: string)
    requires AllSpace(b) && (m == [] || !IsSpace(m[|m| - 1]))
    ensures TrimRight(m + b) == m
  {
    if b == [] {
      assert m + b == m;
    } else {
      assert (m + b)[..|m + b| - 1] == m + b[..|b| - 1];
      TrimRightOf(m, b[..|b| - 1]);
    }
  }

  /** `strip()` of text padded with whitespace on both sides is the text. */
  lemma StripOf(a: string, m: string, b: string)
    requires AllSpace(a) && AllSpace(b)
    requires |m| > 0 && !IsSpace(m[0]) && !IsSpace(m[|m| - 1])
    ensures Strip(a + m + b) == m
  {
    assert a + m + b == a + (m + b);
    TrimLeftOf(a, m + b);
    TrimRightOf(m, b);
  }

  /** Stripping twice is stripping once. */
  lemma StripIdem(s: string)
    ensures Strip(Strip(s)) == Strip(s)
  {
    var t := TrimLeft(s);
    var r := TrimRight(t);
    TrimRightShape(t);
    if r != [] {
      assert r[0] == t[0];
      assert TrimLeft(r) == r;
    }
    assert TrimRight(r) == r;
  }

  /** `strip()` leaves only whitespace exactly when there was nothing but whitespace. */
  lemma StripBlank(s: string)
    ensures AllSpace(Strip(s)) <==> AllSpace(s)
  {
    StripShape(s);
    TrimLeftEmpty(s);
    var i := LeadingSpace(s);
    if Strip(s) == [] {
      assert s == s[..i] + s[i..];
    }
  }

  /** `s.lstrip()` is empty exactly when `s` is all whitespace. */
  lemma TrimLeftEmpty(s: string)
    ensures TrimLeft(s) == [] <==> AllSpace(s)
  {
    var r := TrimLeft(s);
    TrimLeftShape(s);
    if r == [] {
      assert s[..|s|] == s;
    }
  }

  /** ASCII `str.lower()` of one character. */
  function LowerChar(c: char): char {
    if 'A' <= c <= 'Z' then (c as int + 32) as char else c
  }

  /** `s.lower()`, for ASCII letters. */
  function Lower(s: string): (r: string)
    ensures |r| == |s|
    ensures forall i :: 0 <= i < |s| ==> r[i] == LowerChar(s[i])
  {
    seq(|s|, i requires 0 <= i < |s| => LowerChar(s[i]))
  }

  /** `sub in s` for strings: the empty string is in every string. */
  predicate Contains(s: string, sub: string)
    decreases |s|
  {
    |sub| <= |s| && (s[..|sub|] == sub || (|s| > 0 && Contains(s[1..], sub)))
  }

  /** `sub` occurs in `s` starting at offset `i`. */
  predicate OccursAt(s: string, sub: string, i: int) {
    0 <= i <= |s| - |sub| && s[i..i + |sub|] == sub
  }

  /** `Contains` holds exactly when `sub` occurs at some offset of `s`. */
  lemma {:induction false} ContainsAt(s: string, sub: string)
    ensures Contains(s, sub) <==> exists i :: OccursAt(s, sub, i)
    decreases |s|
  {
    if |sub| <= |s| && s[..|sub|] == sub {
      assert OccursAt(s, sub, 0);
    } else if |sub| <= |s| && |s| > 0 {
      ContainsAt(s[1..], sub);
      if exists i :: OccursAt(s, sub, i) {
        var i :| OccursAt(s, sub, i);
        assert i > 0;
        assert s[1..][i - 1..i - 1 + |sub|] == sub;
        assert OccursAt(s[1..], sub, i - 1);
      }
      if Contains(s[1..], sub) {
        var j :| OccursAt(s[1..], sub, j);
        assert s[j + 1..j + 1 + |sub|] == sub;
        assert OccursAt(s, sub, j + 1);
      }
    }
  }

  /** The first offset at or after `k` where `sub` occurs in `s`. */
  function FindFrom(s: string, sub: string, k: nat): (r: Option<nat>)
    ensures r.Some? ==> k <= r.value && OccursAt(s, sub, r.value)
    ensures r.Some? ==> forall j :: k <= j < r.value ==> !OccursAt(s, sub, j)
    ensures r.None? ==> forall j :: k <= j ==> !OccursAt(s, sub, j)
    decreases |s| - k
  {
    if k + |sub| > |s| then None
    else if s[k..k + |sub|] == sub then Some(k)
    else FindFrom(s, sub, k + 1)
  }

  /** `s.find(sub)`, with None for -1: the first offset where `sub` occurs. */
  function FindFirst(s: string, sub: string): (r: Option<nat>)
    ensures r.Some? ==> OccursAt(s, sub, r.value) && forall j :: 0 <= j < r.value ==> !OccursAt(s, sub, j)
    ensures r.None? ==> forall j :: !OccursAt(s, sub, j)
  {
    FindFrom(s, sub, 0)
  }

  /** `s.startswith(p)`. */
  predicate StartsWith(s: string, p: string) {
    |p| <= |s| && s[..|p|] == p
  }

  /** The first index of `c` in `s`. */
  function IndexOf(s: string, c: char): (i: nat)
    requires c in s
    ensures i < |s| && s[i] == c && c !in s[..i]
  {
    if s[0] == c then 0 else
      var j := IndexOf(s[1..], c);
      assert s[..j + 1] == [s[0]] + s[1..][..j];
      1 + j
  }

  /** `s.split(sep)` for a one-character separator: every piece, empty ones included. */
  function Split(s: string, sep: char): (parts: seq<string>)
    ensures |parts| >= 1
    ensures forall k :: 0 <= k < |parts| ==> sep !in parts[k]
    decreases |s|
  {
    if sep in s then
      var i := IndexOf(s, sep);
      [s[..i]] + Split(s[i + 1..], sep)
    else
      [s]
  }

  /** `sep.join(parts)`. */
  function Join(parts: seq<string>, sep: char): string {
    if |parts| == 0 then ""
    else if |parts| == 1 then parts[0]
    else parts[0] + [sep] + Join(parts[1..], sep)
  }

  /** Joining the pieces of a split with the same separator gives back the text. */
  lemma {:induction false} JoinSplit(s: string, sep: char)
    ensures Join(Split(s, sep), sep) == s
    decreases |s|
  {
    if sep in s {
      var i := IndexOf(s, sep);
      var rest := Split(s[i + 1..], sep);
      JoinSplit(s[i + 1..], sep);
      assert ([s[..i]] + rest)[1..] == rest;
      assert s == s[..i] + [sep] + s[i + 1..];
    }
  }

  /** Splitting text made of separator-free pieces gives back those pieces. */
  lemma {:induction false} SplitJoin(parts: seq<string>, sep: char)
    requires |parts| >= 1
    requires forall k :: 0 <= k < |parts| ==> sep !in parts[k]
    ensures Split(Join(parts, sep), sep) == parts
  {
    if |parts| > 1 {
      var s, head, tail := Join(parts, sep), parts[0], Join(parts[1..], sep);
      assert s == head + [sep] + tail;
      assert s[..|head|] == head && s[|head|] == sep && s[|head| + 1..] == tail;
      IndexOfAt(s, sep, |head|);
      assert Split(s, sep) == [head] + Split(tail, sep);
      SplitJoin(parts[1..], sep);
      assert parts == [head] + parts[1..];
    }
  }

  /** The first occurrence is the one with no earlier occurrence. */
  lemma {:induction false} IndexOfAt(s: string, c: char, i: nat)
    requires i < |s| && s[i] == c && c !in s[..i]
    ensures c in s && IndexOf(s, c) == i
  {
    assert s[..i + 1][i] == c;
    assert s == s[..i + 1] + s[i + 1..];
    if i > 0 {
      assert s[..i][0] == s[0];
      assert s[1..][..i - 1] == s[..i][1..];
      IndexOfAt(s[1..], c, i - 1);
    }
  }

  /** The length of the leading run of non-whitespace characters. */
  function WordLen(t: string): (n: nat)
    ensures n <= |t| && NoSpace(t[..n]) && (n == |t| || IsSpace(t[n]))
    ensures |t| > 0 && !IsSpace(t[0]) ==> n >= 1
  {
    if |t| == 0 || IsSpace(t[0]) then 0 else
      var n := WordLen(t[1..]);
      assert t[..n + 1] == [t[0]] + t[1..][..n];
      1 + n
  }

  /** A non-empty run of non-whitespace characters. */
  predicate IsWord(w: string) {
    |w| > 0 && NoSpace(w)
  }

  /** `s.split()`: the maximal runs of non-whitespace characters. */
  function Words(s: string): seq<string>
    decreases |s|
  {
    var t := TrimLeft(s);
    if t == [] then [] else
      var n := WordLen(t);
      [t[..n]] + Words(t[n..])
  }

  /** Every piece of `s.split()` is non-empty and free of whitespace. */
  lemma {:induction false} WordsAreWords(s: string)
    ensures forall k :: 0 <= k < |Words(s)| ==> IsWord(Words(s)[k])
    decreases |s|
  {
    var t := TrimLeft(s);
    if t != [] {
      var n := WordLen(t);
      WordsAreWords(t[n..]);
      var ws := Words(s);
      assert ws == [t[..n]] + Words(t[n..]);
      forall k | 0 <= k < |ws| ensures IsWord(ws[k]) {
        if k > 0 {
          assert ws[k] == Words(t[n..])[k - 1];
        }
      }
    }
  }

  /** `s.split(maxsplit=1)`: the first word and, when anything but whitespace
      follows it, the rest after the whitespace that separates them. */
  function SplitOnce(s: string): (ws: seq<string>)
    ensures |ws| <= 2
  {
    var t := TrimLeft(s);
    if t == [] then [] else
      var n := WordLen(t);
      var rest := TrimLeft(t[n..]);
      if rest == [] then [t[..n]] else [t[..n], rest]
  }

  /** `s.split(maxsplit=1)` is empty exactly for blank text; its first piece is
      a word and its second, if any, starts with something but whitespace. */
  lemma SplitOnceShape(s: string)
    ensures var ws := SplitOnce(s);
      && (AllSpace(s) <==> ws == [])
      && (|ws| >= 1 ==> IsWord(ws[0]))
      && (|ws| == 2 ==> |ws[1]| > 0 && !IsSpace(ws[1][0]))
  {
    TrimLeftEmpty(s);
  }


  predicate IsDigit(c: char) {
    '0' <= c <= '9'
  }

  predicate AllDigits(s: string) {
    forall i :: 0 <= i < |s| ==> IsDigit(s[i])
  }

  /** `s.isdigit()` for ASCII digits: non-empty and digits only. */
  predicate IsDigits(s: string) {
    |s| > 0 && AllDigits(s)
  }

  /** The number a string of decimal digits denotes. */
  function DigitsValue(s: string): nat
    requires AllDigits(s)
  {
    if |s| == 0 then 0 else DigitsValue(s[..|s| - 1]) * 10 + (s[|s| - 1] as int - '0' as int)
  }

  predicate DigitsOrUnderscores(s: string) {
    forall i :: 0 <= i < |s| ==> IsDigit(s[i]) || s[i] == '_'
  }

  /** Digits with single underscores between them, as Python's `int()` accepts. */
  predicate WellGrouped(s: string) {
    |s| > 0 && IsDigit(s[0]) && IsDigit(s[|s| - 1]) && DigitsOrUnderscores(s)
    && forall i :: 0 <= i < |s| - 1 && s[i] == '_' ==> IsDigit(s[i + 1])
  }

  function DropUnderscores(s: string): (r: string)
    ensures AllDigits(s[..]) ==> r == s
  {
    if |s| == 0 then "" else if s[0] == '_' then DropUnderscores(s[1..]) else [s[0]] + DropUnderscores(s[1..])
  }

  lemma {:induction false} DropUnderscoresDigits(s: string)
    requires DigitsOrUnderscores(s)
    ensures AllDigits(DropUnderscores(s))
  {
    if |s| > 0 {
      DropUnderscoresDigits(s[1..]);
    }
  }

  /** Python's `int(s)` for a `str` over ASCII digits: surrounding whitespace,
      one optional sign, then digits with single underscores between them give
      `Some`. Every other string gives `None`, the ValueError; Python would also
      accept non-ASCII decimal digits, which this does not model. */
  function ParseInt(s: string): Option<int> {
    var t := Strip(s);
    var signed := |t| > 0 && (t[0] == '+' || t[0] == '-');
    var body := if signed then t[1..] else t;
    if WellGrouped(body) then
      DropUnderscoresDigits(body);
      var n: int := DigitsValue(DropUnderscores(body));
      Some(if signed && t[0] == '-' then -n else n)
    else
      None
  }

  function DigitChar(d: nat): (c: char)
    requires d < 10
    ensures IsDigit(c) && c as int - '0' as int == d
  {
    ('0' as int + d) as char
  }

  /** Python's `str(n)` for a natural number. */
  function NatToString(n: nat): (s: string)
    ensures IsDigits(s)
    decreases n
  {
    if n < 10 then [DigitChar(n)] else NatToString(n / 10) + [DigitChar(n % 10)]
  }

  /** Python's `str(i)` for an integer. */
  function IntToString(i: int): (s: string)
    ensures |s| > 0 && NoSpace(s) && (i < 0 <==> s[0] == '-')
  {
    if i < 0 then "-" + NatToString(-i) else NatToString(i)
  }

  lemma {:induction false} DigitsValueOfNatToString(n: nat)
    ensures DigitsValue(NatToString(n)) == n
    decreases n
  {
    if n >= 10 {
      var s := NatToString(n);
      DigitsValueOfNatToString(n / 10);
      assert s[..|s| - 1] == NatToString(n / 10);
    }
  }

  /** `int(str(i)) == i`: the decimal rendering of an integer parses back to it. */
  lemma ParseIntOfIntToString(i: int)
    ensures ParseInt(IntToString(i)) == Some(i)
  {
    var s := IntToString(i);
    StripNoSpace(s);
    var m: nat := if i < 0 then -i else i;
    var digits := NatToString(m);
    DigitsValueOfNatToString(m);
    if i < 0 {
      assert s[1..] == digits;
    }
  }
}
