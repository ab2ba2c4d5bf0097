/**
 * The handful of Python string operations the detectors rely on, stated on
 * `seq<char>`: `str.isspace`, `str.strip`, `str.lower`, the `in` substring
 * test, `str.startswith`, `str.count` of one character, `str.join`,
 * `str.replace` and the decimal rendering of integers inside f-strings.
 */
module Text {

  /** Python's `str.isspace()` for one character (the Unicode whitespace set). */
  predicate IsSpace(c: char) {
    || c == ' '
    || ('\t' <= c <= '\r')
    || ('\U{1c}' <= c <= '\U{1f}')
    || c == '\U{85}' || c == '\U{a0}' || c == '\U{1680}'
    || ('\U{2000}' <= c <= '\U{200a}')
    || c == '\U{2028}' || c == '\U{2029}' || c == '\U{202f}' || c == '\U{205f}' || c == '\U{3000}'
  }

  function TrimStart(s: string): (r: string)
    ensures |r| <= |s|
    ensures r == s[|s| - |r|..]
    ensures r != [] ==> !IsSpace(r[0])
    ensures forall k :: 0 <= k < |s| - |r| ==> IsSpace(s[k])
  {
    if s != [] && IsSpace(s[0]) then TrimStart(s[1..]) else s
  }

  function TrimEnd(s: string): (r: string)
    ensures |r| <= |s|
    ensures r == s[..|r|]
    ensures r != [] ==> !IsSpace(r[|r| - 1])
    ensures forall k :: |r| <= k < |s| ==> IsSpace(s[k])
  {
    if s != [] && IsSpace(s[|s| - 1]) then TrimEnd(s[..|s| - 1]) else s
  }

  /** Python's `str.strip()` with no argument. */
  function Strip(s: string): (r: string)
    ensures |r| <= |s|
    ensures r != [] ==> !IsSpace(r[0]) && !IsSpace(r[|r| - 1])
  {
    TrimEnd(TrimStart(s))
  }

  /**
   * `str.lower()` for one character whose lower case is a single ASCII or
   * Latin-1 character: the ASCII capitals, the Latin-1 capitals (U+00C0..U+00DE
   * except the multiplication sign), and the four capitals outside Latin-1
   * that lower into it: Y WITH DIAERESIS (U+0178), CAPITAL SHARP S (U+1E9E),
   * KELVIN SIGN (U+212A, lowered to 'k') and ANGSTROM SIGN (U+212B).
   * Every other character is kept as it is.
   */
  function LowerChar(c: char): (r: char)
    ensures 'A' <= c <= 'Z' ==> r == (c as int + 32) as char
    ensures c == '\U{212a}' ==> r == 'k'
    ensures r == c || r as int < 256
  {
    if 'A' <= c <= 'Z' || ('\U{c0}' <= c <= '\U{de}' && c != '\U{d7}') then
      (c as int + 32) as char
    else if c == '\U{178}' then '\U{ff}'
    else if c == '\U{1e9e}' then '\U{df}'
    else if c == '\U{212a}' then 'k'
    else if c == '\U{212b}' then '\U{e5}'
    else c
  }

  /**
   * `str.lower()`, character by character. Python lowers U+0130 (capital I
   * with dot above) to two characters, 'i' and U+0307; here it is kept.
   */
  function ToLower(s: string): (r: string)
    ensures |r| == |s|
    ensures forall k :: 0 <= k < |s| ==> r[k] == LowerChar(s[k])
  {
    seq(|s|, k requires 0 <= k < |s| => LowerChar(s[k]))
  }

  /** Every character of `s` is already lower case. */
  predicate IsLower(s: string) {
    forall k :: 0 <= k < |s| ==> LowerChar(s[k]) == s[k]
  }

  lemma LowerIsLower(s: string)
    ensures IsLower(ToLower(s))
  {
    forall k | 0 <= k < |s| ensures LowerChar(ToLower(s)[k]) == ToLower(s)[k] {
      var c := s[k];
      if 'A' <= c <= 'Z' || ('\U{c0}' <= c <= '\U{de}' && c != '\U{d7}') {
        assert LowerChar(c) == (c as int + 32) as char;
      }
    }
  }

  /** Lowering a concatenation lowers each part. */
  lemma LowerConcat(a: string, b: string)
    ensures ToLower(a + b) == ToLower(a) + ToLower(b)
  {
    forall k | 0 <= k < |a + b| ensures ToLower(a + b)[k] == (ToLower(a) + ToLower(b))[k] {
      if k >= |a| {
        assert (a + b)[k] == b[k - |a|];
      }
    }
  }

  predicate MatchesAt(s: string, sub: string, i: nat) {
    i + |sub| <= |s| && s[i..i + |sub|] == sub
  }

  /** Python's `sub in s` on two strings. */
  predicate Contains(s: string, sub: string) {
    exists i | 0 <= i <= |s| :: MatchesAt(s, sub, i)
  }

  /** Python's `s.startswith(p)`. */
  predicate StartsWith(s: string, p: string) {
    p <= s
  }

  /** A string containing `big` contains every substring of `big`. */
  lemma ContainsTransitive(s: string, big: string, small: string)
    requires Contains(s, big) && Contains(big, small)
    ensures Contains(s, small)
  {
    var i :| 0 <= i <= |s| && MatchesAt(s, big, i);
    var j :| 0 <= j <= |big| && MatchesAt(big, small, j);
    assert big == s[i..i + |big|];
    forall k | 0 <= k < |small| ensures s[i + j + k] == small[k] {
      assert small[k] == big[j + k];
    }
    assert s[i + j..i + j + |small|] == small;
    assert MatchesAt(s, small, i + j);
  }

  /** A one-character string occurs exactly when the character does. */
  lemma ContainsChar(s: string, c: char)
    ensures Contains(s, [c]) <==> c in s
  {
    if c in s {
      var i :| 0 <= i < |s| && s[i] == c;
      assert MatchesAt(s, [c], i);
    }
    if Contains(s, [c]) {
      var i :| 0 <= i <= |s| && MatchesAt(s, [c], i);
      assert s[i] == c;
    }
  }

  /** Python's `s.count(c)` for a single character. */
  function CountChar(s: string, c: char): (n: nat)
    ensures n <= |s|
    ensures n == 0 <==> c !in s
    ensures n == multiset(s)[c]
  {
    if s == [] then 0
    else
      assert s == [s[0]] + s[1..];
      (if s[0] == c then 1 else 0) + CountChar(s[1..], c)
  }

  /** Python's `sep.join(parts)`. */
  function Join(sep: string, parts: seq<string>): (r: string)
    ensures parts == [] ==> r == []
    ensures |parts| == 1 ==> r == parts[0]
  {
    if parts == [] then []
    else if |parts| == 1 then parts[0]
    else parts[0] + sep + Join(sep, parts[1..])
  }

  /** Joining one more part puts the separator between it and the parts before. */
  lemma {:induction false} JoinSnoc(sep: string, parts: seq<string>, p: string)
    requires parts != []
    ensures Join(sep, parts + [p]) == Join(sep, parts) + sep + p
    decreases |parts|
  {
    if |parts| == 1 {
      assert parts + [p] == [parts[0], p];
    } else {
      assert (parts + [p])[1..] == parts[1..] + [p];
      JoinSnoc(sep, parts[1..], p);
    }
  }

  /** No element occurs twice. */
  predicate Distinct(ws: seq<string>) {
    forall i, j :: 0 <= i < j < |ws| ==> ws[i] != ws[j]
  }

  /** Dropping the head of a list without repeats leaves one without repeats, and without the head. */
  lemma DistinctTail(ws: seq<string>)
    requires Distinct(ws) && ws != []
    ensures Distinct(ws[1..]) && ws[0] !in ws[1..]
  {
    var rest := ws[1..];
    forall i, j | 0 <= i < j < |rest| ensures rest[i] != rest[j] {
      assert rest[i] == ws[i + 1] && rest[j] == ws[j + 1];
    }
    forall k | 0 <= k < |rest| ensures rest[k] != ws[0] {
      assert rest[k] == ws[k + 1];
    }
  }

  /** The keywords of `keywords`, in order, that occur in `s` (a list comprehension with `kw in s`). */
  function Occurring(keywords: seq<string>, s: string): (r: seq<string>)
    ensures |r| <= |keywords|
    ensures forall w :: w in r <==> w in keywords && Contains(s, w)
  {
    if keywords == [] then []
    else (if Contains(s, keywords[0]) then [keywords[0]] else []) + Occurring(keywords[1..], s)
  }

  /** From a list without repeats, no keyword is found twice. */
  lemma {:induction false} OccurringDistinct(keywords: seq<string>, s: string)
    requires Distinct(keywords)
    ensures Distinct(Occurring(keywords, s))
    decreases |keywords|
  {
    if keywords != [] {
      var rest := keywords[1..];
      DistinctTail(keywords);
      OccurringDistinct(rest, s);
    }
  }

  /** The comprehension keeps list order: one more keyword is appended exactly when it occurs. */
  lemma {:induction false} OccurringSnoc(keywords: seq<string>, w: string, s: string)
    ensures Occurring(keywords + [w], s) == Occurring(keywords, s) + (if Contains(s, w) then [w] else [])
    decreases |keywords|
  {
    if keywords == [] {
      assert [] + [w] == [w];
    } else {
      var head := if Contains(s, keywords[0]) then [keywords[0]] else [];
      assert (keywords + [w])[0] == keywords[0] && (keywords + [w])[1..] == keywords[1..] + [w];
      assert Occurring(keywords + [w], s) == head + Occurring(keywords[1..] + [w], s);
      OccurringSnoc(keywords[1..], w, s);
    }
  }

  /** A list without repeats has as many elements as its set. */
  lemma {:induction false} DistinctCard(ws: seq<string>)
    requires Distinct(ws)
    ensures |set w | w in ws| == |ws|
    decreases |ws|
  {
    if ws != [] {
      var rest := ws[1..];
      DistinctTail(ws);
      DistinctCard(rest);
      assert (set w | w in ws) == {ws[0]} + (set w | w in rest) by {
        assert ws == [ws[0]] + rest;
      }
    }
  }

  /**
   * From a list without repeats, each keyword that occurs is found exactly
   * once: the number found is the number of distinct listed keywords in `s`.
   */
  lemma OccurringCount(keywords: seq<string>, s: string)
    requires Distinct(keywords)
    ensures |Occurring(keywords, s)| == |set w | w in keywords && Contains(s, w)|
  {
    var r := Occurring(keywords, s);
    OccurringDistinct(keywords, s);
    DistinctCard(r);
    assert (set w | w in r) == (set w | w in keywords && Contains(s, w));
  }

  function DigitChar(d: nat): char
    requires d < 10
  {
    "0123456789"[d]
  }

  /** The value of one decimal digit. */
  function DigitValue(c: char): int {
    c as int - '0' as int
  }

  /** The value of a string of decimal digits, read from the left: 10·v + digit. */
  function DigitsValue(s: string): int {
    if s == [] then 0 else 10 * DigitsValue(s[..|s| - 1]) + DigitValue(s[|s| - 1])
  }

  lemma DigitCharValue(d: nat)
    requires d < 10
    ensures DigitValue(DigitChar(d)) == d
  {
  }

  /** `str(n)` reads back as `n`. */
  lemma {:induction false} NatToStringValue(n: nat)
    ensures DigitsValue(NatToString(n)) == n
    decreases n
  {
    DigitCharValue(n % 10);
    if n < 10 {
      assert DigitsValue([DigitChar(n)]) == 10 * DigitsValue([]) + DigitValue(DigitChar(n));
    } else {
      var front := NatToString(n / 10);
      var s := front + [DigitChar(n % 10)];
      assert s[..|s| - 1] == front;
      NatToStringValue(n / 10);
    }
  }

  /** The decimal rendering of a natural number, as `str(n)` gives it. */
  function NatToString(n: nat): (r: string)
    ensures |r| >= 1
    ensures forall k :: 0 <= k < |r| ==> '0' <= r[k] <= '9'
    decreases n
  {
    if n < 10 then [DigitChar(n)] else NatToString(n / 10) + [DigitChar(n % 10)]
  }

  /** The decimal rendering of an integer, with a leading '-' when negative. */
  function IntToString(i: int): (r: string)
    ensures |r| >= 1
    ensures (r[0] == '-') <==> i < 0
    ensures i >= 0 ==> DigitsValue(r) == i
    ensures i < 0 ==> DigitsValue(r[1..]) == -i
  {
    if i < 0 then
      NatToStringValue(-i);
      var r := "-" + NatToString(-i);
      assert r[1..] == NatToString(-i);
      r
    else
      NatToStringValue(i);
      NatToString(i)
  }

  /**
   * Python's `s.replace(pat, rep)`: every non-overlapping occurrence of `pat`,
   * scanned left to right, is replaced by `rep`.
   */
  function ReplaceAll(s: string, pat: string, rep: string): (r: string)
    requires pat != []
    decreases |s|
  {
    if |s| < |pat| then s
    else if pat <= s then rep + ReplaceAll(s[|pat|..], pat, rep)
    else [s[0]] + ReplaceAll(s[1..], pat, rep)
  }

  lemma ContainsInTail(s: string, sub: string)
    requires s != [] && Contains(s[1..], sub)
    ensures Contains(s, sub)
  {
    var i :| 0 <= i <= |s[1..]| && MatchesAt(s[1..], sub, i);
    assert s[i + 1..i + 1 + |sub|] == s[1..][i..i + |sub|];
    assert MatchesAt(s, sub, i + 1);
  }

  /** Replacing a pattern that does not occur leaves the text as it was. */
  lemma {:induction false} ReplaceAbsent(s: string, pat: string, rep: string)
    requires pat != [] && !Contains(s, pat)
    ensures ReplaceAll(s, pat, rep) == s
    decreases |s|
  {
    if |s| < |pat| {
    } else {
      assert !MatchesAt(s, pat, 0);
      assert pat <= s ==> MatchesAt(s, pat, 0);
      if Contains(s[1..], pat) { ContainsInTail(s, pat); }
      ReplaceAbsent(s[1..], pat, rep);
      assert s == [s[0]] + s[1..];
    }
  }

  /** Replacing a pattern by itself leaves the text as it was. */
  lemma {:induction false} ReplaceBySelf(s: string, pat: string)
    requires pat != []
    ensures ReplaceAll(s, pat, pat) == s
    decreases |s|
  {
    if |s| < |pat| {
    } else if pat <= s {
      ReplaceBySelf(s[|pat|..], pat);
      assert s == s[..|pat|] + s[|pat|..];
    } else {
      ReplaceBySelf(s[1..], pat);
      assert s == [s[0]] + s[1..];
    }
  }
}
