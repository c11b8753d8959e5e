/** String helpers standing for the JavaScript string methods the rules use:
    `startsWith`, `includes`, `toLowerCase`, `trim`, `split(' ')[0]`, and the
    `"YYYY-MM"` month tag built with `padStart(2, '0')`. */
module Text {

  predicate StartsWith(s: string, prefix: string)
  {
    |prefix| <= |s| && s[..|prefix|] == prefix
  }

  /** `w` occurs in `s` starting at position `i`. */
  predicate OccursAt(s: string, w: string, i: int)
  {
    0 <= i && i + |w| <= |s| && s[i..i + |w|] == w
  }

  /** `s.includes(w)`. */
  function Contains(s: string, w: string): (r: bool)
    ensures r <==> exists i :: OccursAt(s, w, i)
    decreases |s|
  {
    if StartsWith(s, w) then
      assert OccursAt(s, w, 0);
      true
    else if s == [] then
      assert forall i :: !OccursAt(s, w, i);
      false
    else
      var rest := Contains(s[1..], w);
      assert forall i :: OccursAt(s, w, i) && i > 0 ==> OccursAt(s[1..], w, i - 1) by {
        forall i | OccursAt(s, w, i) && i > 0 ensures OccursAt(s[1..], w, i - 1) {
          assert s[1..][i - 1..i - 1 + |w|] == s[i..i + |w|];
        }
      }
      assert forall i :: OccursAt(s[1..], w, i) ==> OccursAt(s, w, i + 1) by {
        forall i | OccursAt(s[1..], w, i) ensures OccursAt(s, w, i + 1) {
          assert s[1..][i..i + |w|] == s[i + 1..i + 1 + |w|];
        }
      }
      rest
  }

  /** Lower-casing of one character; only the ASCII letters A-Z change. */
  function LowerChar(c: char): char
  {
    if 'A' <= c <= 'Z' then (c as int + 32) as char else c
  }

  /** `s.toLowerCase()` on ASCII letters. */
  function Lower(s: string): (r: string)
    ensures |r| == |s|
    ensures forall i :: 0 <= i < |s| ==> r[i] == LowerChar(s[i])
    ensures forall i :: 0 <= i < |r| ==> !('A' <= r[i] <= 'Z')
  {
    seq(|s|, i requires 0 <= i < |s| => LowerChar(s[i]))
  }

  /** Lower-casing twice is lower-casing once. */
  lemma {:induction false} LowerIdempotent(s: string)
    ensures Lower(Lower(s)) == Lower(s)
  {
    var once := Lower(s);
    assert forall i :: 0 <= i < |once| ==> LowerChar(once[i]) == once[i];
  }

  /** The characters `String.prototype.trim` removes: ECMAScript WhiteSpace
      and LineTerminator code points. */
  predicate IsWhiteSpace(c: char)
  {
    c == ' ' || c == '\t' || c == '\n' || c == '\r' || c == '\U{000B}' || c == '\U{000C}'
    || c == '\U{00A0}' || c == '\U{1680}' || ('\U{2000}' <= c <= '\U{200A}')
    || c == '\U{2028}' || c == '\U{2029}' || c == '\U{202F}' || c == '\U{205F}'
    || c == '\U{3000}' || c == '\U{FEFF}'
  }

  /** `!s.trim()`: the string is empty after trimming. */
  predicate IsBlank(s: string)
  {
    forall i :: 0 <= i < |s| ==> IsWhiteSpace(s[i])
  }

  /** `s.split(' ')[0]`: the text before the first space, or all of `s`. */
  function FirstWord(s: string): (r: string)
    ensures StartsWith(s, r)
    ensures forall i :: 0 <= i < |r| ==> r[i] != ' '
    ensures |r| < |s| ==> s[|r|] == ' '
  {
    if s == [] || s[0] == ' ' then [] else [s[0]] + FirstWord(s[1..])
  }

  /** A name without a space is its own first word. */
  lemma {:induction false} FirstWordWhole(s: string)
    requires forall i :: 0 <= i < |s| ==> s[i] != ' '
    ensures FirstWord(s) == s
  {
    if s != [] {
      FirstWordWhole(s[1..]);
    }
  }

  /** A word without spaces followed by a space and anything else has that
      word as its first word. */
  lemma {:induction false} FirstWordBeforeSpace(w: string, rest: string)
    requires forall i :: 0 <= i < |w| ==> w[i] != ' '
    ensures FirstWord(w + " " + rest) == w
  {
    if w != [] {
      assert (w + " " + rest)[1..] == w[1..] + " " + rest;
      FirstWordBeforeSpace(w[1..], rest);
    }
  }

  // ---- decimal numerals and month tags ----

  function DigitChar(d: nat): char
    requires d < 10
  {
    "0123456789"[d]
  }

  function DigitValue(c: char): nat
  {
    if '0' <= c <= '9' then c as int - '0' as int else 0
  }

  predicate IsDigit(c: char)
  {
    '0' <= c <= '9'
  }

  /** The decimal numeral of `n`, as `${n}` writes it. */
  function NatToString(n: nat): (r: string)
    ensures |r| >= 1
    ensures forall i :: 0 <= i < |r| ==> IsDigit(r[i])
  {
    if n < 10 then [DigitChar(n)] else NatToString(n / 10) + [DigitChar(n % 10)]
  }

  /** The value of a decimal numeral. */
  function ParseNat(s: string): nat
  {
    if s == [] then 0 else ParseNat(s[..|s| - 1]) * 10 + DigitValue(s[|s| - 1])
  }

  /** Reading back a written numeral gives the number: numerals are unique. */
  lemma {:induction false} ParseNatToString(n: nat)
    ensures ParseNat(NatToString(n)) == n
  {
    var s := NatToString(n);
    if n >= 10 {
      var q, d := n / 10, n % 10;
      ParseNatToString(q);
      assert s == NatToString(q) + [DigitChar(d)];
      assert s[..|s| - 1] == NatToString(q);
      assert DigitValue(s[|s| - 1]) == d;
      assert q * 10 + d == n;
    } else {
      assert DigitValue(DigitChar(n)) == n;
    }
  }

  /** `String(m).padStart(2, '0')` for a month number 1..12. */
  function Pad2(m: int): (r: string)
    requires 1 <= m <= 12
    ensures |r| == 2 && IsDigit(r[0]) && IsDigit(r[1])
    ensures 10 * DigitValue(r[0]) + DigitValue(r[1]) == m
  {
    if m < 10 then ['0', DigitChar(m)] else ['1', DigitChar(m - 10)]
  }

  /** The `"YYYY-MM"` tag of a month: year, a dash, the zero-padded month. */
  function MonthTag(year: nat, month: int): (r: string)
    requires 1 <= month <= 12
    ensures |r| == |NatToString(year)| + 3
    ensures r[|NatToString(year)|] == '-'
    ensures forall i :: 0 <= i < |NatToString(year)| ==> IsDigit(r[i])
  {
    NatToString(year) + "-" + Pad2(month)
  }

  /** The number of leading digits of `x`. */
  function DigitRun(x: string): nat
  {
    if x == [] || !IsDigit(x[0]) then 0 else 1 + DigitRun(x[1..])
  }

  /** A run of `k` digits followed by a non-digit has length `k`. */
  lemma {:induction false} DigitRunAt(x: string, k: nat)
    requires k < |x| && !IsDigit(x[k])
    requires forall i :: 0 <= i < k ==> IsDigit(x[i])
    ensures DigitRun(x) == k
  {
    if k > 0 {
      DigitRunAt(x[1..], k - 1);
    }
  }

  /** Two months with the same tag are the same month. */
  lemma MonthTagInjective(y1: nat, m1: int, y2: nat, m2: int)
    requires 1 <= m1 <= 12 && 1 <= m2 <= 12
    requires MonthTag(y1, m1) == MonthTag(y2, m2)
    ensures y1 == y2 && m1 == m2
  {
    var d1, d2 := NatToString(y1), NatToString(y2);
    var t := MonthTag(y1, m1);
    DigitRunAt(t, |d1|);
    DigitRunAt(t, |d2|);
    assert d1 == t[..|d1|] == d2;
    ParseNatToString(y1);
    ParseNatToString(y2);
    var p1, p2 := Pad2(m1), Pad2(m2);
    assert p1 == t[|d1| + 1..] == p2;
  }

  /** A date written in month (y1, m1) starts with the tag of month (y2, m2)
      exactly when the two months are the same: the month filters keep the
      entries of the month and nothing else. */
  lemma {:induction false} InMonthIff(y1: nat, m1: int, rest: string, y2: nat, m2: int)
    requires 1 <= m1 <= 12 && 1 <= m2 <= 12
    ensures StartsWith(MonthTag(y1, m1) + rest, MonthTag(y2, m2)) <==> (y1 == y2 && m1 == m2)
  {
    var s := MonthTag(y1, m1) + rest;
    var t := MonthTag(y2, m2);
    var d1, d2 := NatToString(y1), NatToString(y2);
    if StartsWith(s, t) {
      assert s[..|t|] == t;
      DigitRunAt(s, |d1|);
      assert forall i :: 0 <= i <= |d2| ==> s[i] == t[i];
      DigitRunAt(s, |d2|);
      assert |t| == |MonthTag(y1, m1)|;
      assert s[..|t|] == MonthTag(y1, m1);
      MonthTagInjective(y1, m1, y2, m2);
    }
  }
}
