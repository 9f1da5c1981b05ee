/** The string operations of Python that the modelled code relies on: whitespace and `strip`, code
    point order, slices with a negative bound, and decimal numbers. */
module PyStrings {

  /** `str.isspace` of one character. */
  predicate IsSpace(c: char) {
    var n := c as int;
    9 <= n <= 13 || 28 <= n <= 32 || n == 0x85 || n == 0xA0 || n == 0x1680 || 0x2000 <= n <= 0x200A
    || n == 0x2028 || n == 0x2029 || n == 0x202F || n == 0x205F || n == 0x3000
  }

  function StripLeft(s: string): (r: string)
    ensures |r| <= |s|
    ensures r != "" ==> !IsSpace(r[0])
    ensures s != "" && !IsSpace(s[0]) ==> r == s
  {
    if s != "" && IsSpace(s[0]) then StripLeft(s[1..]) else s
  }

  function StripRight(s: string): (r: string)
    ensures r <= s && (r != "" ==> s != "" && r[0] == s[0])
    ensures r != "" ==> !IsSpace(r[|r| - 1])
    ensures s != "" && !IsSpace(s[|s| - 1]) ==> r == s
  {
    if s != "" && IsSpace(s[|s| - 1]) then StripRight(s[..|s| - 1]) else s
  }

  predicate Trimmed(s: string) {
    s != "" ==> !IsSpace(s[0]) && !IsSpace(s[|s| - 1])
  }

  function Strip(s: string): (r: string)
    ensures Trimmed(r) && |r| <= |s|
    ensures Trimmed(s) ==> r == s
  {
    StripRight(StripLeft(s))
  }

  predicate AllSpace(s: string) { forall c | c in s :: IsSpace(c) }

  lemma {:induction false} StripLeftLeaves(s: string)
    ensures exists l :: AllSpace(l) && s == l + StripLeft(s)
  {
    if s != "" && IsSpace(s[0]) {
      StripLeftLeaves(s[1..]);
      var l :| AllSpace(l) && s[1..] == l + StripLeft(s[1..]);
      assert s == ([s[0]] + l) + StripLeft(s);
    } else {
      assert s == "" + StripLeft(s);
    }
  }

  lemma {:induction false} StripRightLeaves(s: string)
    ensures exists r :: AllSpace(r) && s == StripRight(s) + r
  {
    if s != "" && IsSpace(s[|s| - 1]) {
      StripRightLeaves(s[..|s| - 1]);
      var r :| AllSpace(r) && s[..|s| - 1] == StripRight(s[..|s| - 1]) + r;
      assert s == StripRight(s) + (r + [s[|s| - 1]]);
    } else {
      assert s == StripRight(s) + "";
    }
  }

  /** Stripping takes whitespace from both ends and nothing else. */
  lemma StripTakesSpaceOnly(s: string)
    ensures exists l, r :: AllSpace(l) && AllSpace(r) && s == l + Strip(s) + r
  {
    StripLeftLeaves(s);
    StripRightLeaves(StripLeft(s));
    var l :| AllSpace(l) && s == l + StripLeft(s);
    var r :| AllSpace(r) && StripLeft(s) == Strip(s) + r;
    assert s == l + Strip(s) + r;
  }

  lemma StripsToItself(s: string)
    requires Trimmed(s)
    ensures Strip(s) == s
  {
  }

  /** So it is the one text without whitespace at its ends that stands between whitespace. */
  lemma {:induction false} StripIs(l: string, t: string, r: string)
    requires AllSpace(l) && AllSpace(r) && Trimmed(t)
    ensures Strip(l + t + r) == t
    decreases |l| + |r|
  {
    var s := l + t + r;
    if l != "" && (t != "" || r == "") {
      assert s[1..] == l[1..] + t + r;
      assert IsSpace(s[0]) by { assert l[0] in l; }
      StripIs(l[1..], t, r);
    } else if l == "" && t != "" {
      assert StripLeft(s) == s && s == t + r;
      SpaceBehind(t, r);
    } else {
      assert AllSpace(s) by { forall c | c in s ensures IsSpace(c) { } }
      NothingLeft(s);
      assert Strip(s) == StripRight("") == "" == t;
    }
  }

  lemma {:induction false} SpaceBefore(l: string, t: string)
    requires AllSpace(l) && (t != "" ==> !IsSpace(t[0]))
    ensures StripLeft(l + t) == t
  {
    if l == "" {
      assert l + t == t;
    } else {
      assert l[0] in l && (l + t)[1..] == l[1..] + t;
      SpaceBefore(l[1..], t);
    }
  }

  lemma {:induction false} NothingLeft(s: string)
    requires AllSpace(s)
    ensures StripLeft(s) == ""
  {
    if s != "" {
      assert s[0] in s;
      NothingLeft(s[1..]);
    }
  }

  lemma {:induction false} SpaceBehind(t: string, r: string)
    requires Trimmed(t) && AllSpace(r)
    ensures StripRight(t + r) == t
  {
    if r == "" {
      assert t + r == t;
    } else {
      assert (t + r)[|t + r| - 1] in r;
      assert (t + r)[..|t + r| - 1] == t + r[..|r| - 1];
      SpaceBehind(t, r[..|r| - 1]);
    }
  }

  /** Of the ASCII characters, the blank and nine control characters. */
  lemma AsciiSpace(c: char)
    requires c as int < 128
    ensures IsSpace(c) <==> c as int in {9, 10, 11, 12, 13, 28, 29, 30, 31, 32}
  {
  }

  /** `a < b` for strings: lexicographic by code point. */
  predicate Below(a: string, b: string) {
    b != "" && (a == "" || a[0] < b[0] || (a[0] == b[0] && Below(a[1..], b[1..])))
  }

  /** The texts agree up to some place, and there the first ends or has the smaller character. */
  predicate SmallerAt(a: string, b: string, k: nat) {
    k <= |a| && k < |b| && a[..k] == b[..k] && (k == |a| || a[k] < b[k])
  }

  lemma {:induction false} BelowMeans(a: string, b: string)
    ensures Below(a, b) <==> exists k :: SmallerAt(a, b, k)
  {
    if a == "" || b == "" || a[0] != b[0] {
      if Below(a, b) { assert SmallerAt(a, b, 0); }
      if k: nat :| SmallerAt(a, b, k) { if k > 0 { assert a[..k][0] == b[..k][0]; } }
    } else {
      BelowMeans(a[1..], b[1..]);
      if k: nat :| SmallerAt(a[1..], b[1..], k) {
        assert a[..k + 1] == [a[0]] + a[1..][..k] && b[..k + 1] == [b[0]] + b[1..][..k];
        assert SmallerAt(a, b, k + 1);
      }
      if k: nat :| SmallerAt(a, b, k) {
        assert a[1..][..k - 1] == a[..k][1..] && b[1..][..k - 1] == b[..k][1..];
        assert SmallerAt(a[1..], b[1..], k - 1);
      }
    }
  }

  lemma {:induction false} BelowIsTotal(a: string, b: string)
    ensures Below(a, b) || Below(b, a) || a == b
    ensures !(Below(a, b) && Below(b, a))
  {
    if a != "" && b != "" && a[0] == b[0] {
      BelowIsTotal(a[1..], b[1..]);
      assert a == [a[0]] + a[1..] && b == [b[0]] + b[1..];
    }
  }

  lemma {:induction false} BelowIsTransitive(a: string, b: string, c: string)
    requires Below(a, b) && Below(b, c)
    ensures Below(a, c)
  {
    if a != "" && a[0] == b[0] == c[0] {
      BelowIsTransitive(a[1..], b[1..], c[1..]);
    }
  }

  // ----- case ----------------------------------------------------------------------------------------------------

  /** `str.lower`, for ASCII letters. */
  function Lower(s: string): string {
    seq(|s|, i requires 0 <= i < |s| => if 'A' <= s[i] <= 'Z' then (s[i] as int + 32) as char else s[i])
  }

  predicate SameLetter(c: char, d: char) {
    || c == d
    || ('A' <= c <= 'Z' && d as int == c as int + 32)
    || ('A' <= d <= 'Z' && c as int == d as int + 32)
  }

  /** The texts differ in the case of ASCII letters at most. */
  predicate SameButCase(a: string, b: string) {
    |a| == |b| && forall i | 0 <= i < |a| :: SameLetter(a[i], b[i])
  }

  lemma LowerForgetsCase(a: string, b: string)
    ensures Lower(a) == Lower(b) <==> SameButCase(a, b)
  {
    assert |Lower(a)| == |a| && |Lower(b)| == |b|;
    if |a| == |b| {
      forall i | 0 <= i < |a| ensures Lower(a)[i] == Lower(b)[i] <==> SameLetter(a[i], b[i]) { }
      assert (forall i | 0 <= i < |a| :: Lower(a)[i] == Lower(b)[i]) <==> SameButCase(a, b);
    }
  }

  // ----- slices ---------------------------------------------------------------------------------------------

  /** `s[:n]`: a negative bound counts from the end. */
  function Upto(s: string, n: int): (r: string)
    ensures r <= s
    ensures 0 <= n ==> |r| == if n <= |s| then n else |s|
    ensures n < 0 ==> |r| == if -n <= |s| then |s| + n else 0
  {
    if n >= |s| then s else if n >= 0 then s[..n] else if |s| + n >= 0 then s[..|s| + n] else ""
  }

  // ----- decimal numbers --------------------------------------------------------------------------------------

  predicate IsDigit(c: char) { '0' <= c <= '9' }

  function DigitValue(c: char): nat
    requires IsDigit(c)
  {
    c as int - '0' as int
  }

  function DigitFor(n: nat): (c: char)
    requires n < 10
    ensures IsDigit(c) && DigitValue(c) == n && !IsSpace(c)
  {
    ('0' as int + n) as char
  }

  predicate AllDigits(s: string) { forall c | c in s :: IsDigit(c) }

  /** `str(n)` */
  function Decimal(n: nat): (s: string)
    ensures s != "" && AllDigits(s)
  {
    if n < 10 then [DigitFor(n)] else Decimal(n / 10) + [DigitFor(n % 10)]
  }

  function DigitsValue(s: string): nat
    requires AllDigits(s)
  {
    if s == "" then 0 else 10 * DigitsValue(s[..|s| - 1]) + DigitValue(s[|s| - 1])
  }

  lemma {:induction false} DecimalReadsBack(n: nat)
    ensures DigitsValue(Decimal(n)) == n
  {
    if n < 10 {
      assert [DigitFor(n)][..0] == "";
    } else {
      DecimalReadsBack(n / 10);
      assert Decimal(n)[..|Decimal(n)| - 1] == Decimal(n / 10);
    }
  }
}
