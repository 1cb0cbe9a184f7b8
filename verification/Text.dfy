/** The few string operations the cluster relies on: decimal rendering of
    integers, Python's `int(text)`, and the code-point order on strings. */
module Text {
  import opened Wrappers

  predicate IsDigit(c: char) {
    '0' <= c <= '9'
  }

  function Digit(d: nat): (c: char)
    requires d < 10
    ensures IsDigit(c) && DigitValue(c) == d
  {
    "0123456789"[d]
  }

  function DigitValue(c: char): (d: nat)
    requires IsDigit(c)
    ensures d < 10
  {
    c as int - '0' as int
  }

  /** `str(n)` for a natural number. */
  function Decimal(n: nat): (s: string)
    ensures |s| > 0 && forall i :: 0 <= i < |s| ==> IsDigit(s[i])
  {
    if n < 10 then [Digit(n)] else Decimal(n / 10) + [Digit(n % 10)]
  }

  /** `str(n)` for any integer. */
  function IntText(n: int): string {
    if n < 0 then "-" + Decimal(-n) else Decimal(n)
  }

  predicate IsSpace(c: char) {
    c == ' ' || '\t' <= c <= '\r' || '\U{1c}' <= c <= '\U{1f}'
  }

  function StripLeft(s: string): string {
    if |s| > 0 && IsSpace(s[0]) then StripLeft(s[1..]) else s
  }

  function StripRight(s: string): string {
    if |s| > 0 && IsSpace(s[|s| - 1]) then StripRight(s[..|s| - 1]) else s
  }

  /** Digits with single underscores allowed between them, as `int()` reads them. */
  function ParseDigits(s: string): Option<nat> {
    if |s| == 0 || !IsDigit(s[|s| - 1]) then
      None
    else if |s| == 1 then
      Some(DigitValue(s[0]))
    else
      var rest := if s[|s| - 2] == '_' then s[..|s| - 2] else s[..|s| - 1];
      match ParseDigits(rest)
      case None => None
      case Some(v) => Some(10 * v + DigitValue(s[|s| - 1]))
  }

  /** Python's `int(text)` on ASCII text; `None` stands for `ValueError`. */
  function ParseInt(text: string): Option<int> {
    var s := StripRight(StripLeft(text));
    var signed := |s| > 0 && (s[0] == '-' || s[0] == '+');
    match ParseDigits(if signed then s[1..] else s)
    case None => None
    case Some(v) => var n: int := if signed && s[0] == '-' then 0 - v else v; Some(n)
  }

  lemma {:induction false} ParseDecimal(n: nat)
    ensures ParseDigits(Decimal(n)) == Some(n)
  {
    if n >= 10 {
      ParseDecimal(n / 10);
      var s := Decimal(n);
      assert s[..|s| - 1] == Decimal(n / 10);
    }
  }

  lemma StripKeeps(s: string)
    requires |s| > 0 && !IsSpace(s[0]) && !IsSpace(s[|s| - 1])
    ensures StripRight(StripLeft(s)) == s
  {
  }

  /** Reading back a rendered integer gives the integer. */
  lemma ParseIntText(n: int)
    ensures ParseInt(IntText(n)) == Some(n)
  {
    var d := Decimal(if n < 0 then -n else n);
    var s := IntText(n);
    assert s == if n < 0 then "-" + d else d;
    StripKeeps(s);
    ParseDecimal(if n < 0 then -n else n);
    assert n < 0 ==> s[1..] == d;
  }

  /** Python's `a < b` on strings. */
  predicate Less(a: string, b: string) {
    b != [] && (a == [] || a[0] < b[0] || (a[0] == b[0] && Less(a[1..], b[1..])))
  }

  /** `a` is a proper beginning of `b`, or has the smaller character where they first differ. */
  predicate SmallerAt(a: string, b: string, i: nat) {
    i <= |a| && i < |b| && a[..i] == b[..i] && (i == |a| || a[i] < b[i])
  }

  lemma {:induction false} LessIsLexicographic(a: string, b: string)
    ensures Less(a, b) <==> exists i: nat :: SmallerAt(a, b, i)
  {
    if a == [] || b == [] || a[0] != b[0] {
      assert b != [] && (a == [] || a[0] < b[0]) ==> SmallerAt(a, b, 0);
      assert forall i: nat :: SmallerAt(a, b, i) && i > 0 ==> a[..i][0] == b[..i][0];
    } else {
      LessIsLexicographic(a[1..], b[1..]);
      if i: nat :| SmallerAt(a[1..], b[1..], i) {
        assert a[..i + 1] == [a[0]] + a[1..][..i] && b[..i + 1] == [b[0]] + b[1..][..i];
        assert SmallerAt(a, b, i + 1);
      }
      if i: nat :| SmallerAt(a, b, i) {
        assert i > 0;
        assert a[1..][..i - 1] == a[..i][1..] && b[1..][..i - 1] == b[..i][1..];
        assert SmallerAt(a[1..], b[1..], i - 1);
      }
    }
  }

  /** A text splits at the last of a separator in one way only. */
  lemma LastSplit(p: string, d: string, q: string, e: string, c: char)
    requires c !in d && c !in e && p + [c] + d == q + [c] + e
    ensures p == q && d == e
  {
    var s := p + [c] + d;
    assert s[|p|] == c && forall k :: |p| < k < |s| ==> s[k] == d[k - |p| - 1];
    assert s[|q|] == c && forall k :: |q| < k < |s| ==> s[k] == e[k - |q| - 1];
    assert forall k :: |p| < k < |s| ==> s[k] != c;
    assert forall k :: |q| < k < |s| ==> s[k] != c;
    assert p == s[..|p|] && q == s[..|q|] && d == s[|p| + 1..] && e == s[|q| + 1..];
  }

  /** And at the first of it. */
  lemma FirstSplit(p: string, d: string, q: string, e: string, c: char)
    requires c !in p && c !in q && p + [c] + d == q + [c] + e
    ensures p == q && d == e
  {
    var s := p + [c] + d;
    assert s[|p|] == c && forall k :: 0 <= k < |p| ==> s[k] == p[k];
    assert s[|q|] == c && forall k :: 0 <= k < |q| ==> s[k] == q[k];
    assert forall k :: 0 <= k < |p| ==> s[k] != c;
    assert forall k :: 0 <= k < |q| ==> s[k] != c;
    assert p == s[..|p|] && q == s[..|q|] && d == s[|p| + 1..] && e == s[|q| + 1..];
  }

  /** Digits, with underscores between two of them only. */
  predicate IsDigits(s: string) {
    && s != [] && s[0] != '_' && s[|s| - 1] != '_'
    && (forall i :: 0 <= i < |s| ==> IsDigit(s[i]) || s[i] == '_')
    && (forall i :: 0 < i < |s| ==> s[i - 1] != '_' || s[i] != '_')
  }

  lemma {:induction false} ParseDigitsAccepts(s: string)
    ensures ParseDigits(s).Some? <==> IsDigits(s)
  {
    if |s| > 1 && IsDigit(s[|s| - 1]) {
      var n := if s[|s| - 2] == '_' then |s| - 2 else |s| - 1;
      ParseDigitsAccepts(s[..n]);
    }
  }

  lemma {:induction false} LessTrans(a: string, b: string, c: string)
    requires Less(a, b) && Less(b, c)
    ensures Less(a, c)
  {
    if a != [] && a[0] == b[0] && b[0] == c[0] {
      LessTrans(a[1..], b[1..], c[1..]);
    }
  }

  /** Exactly one of `a < b`, `a == b`, `b < a`. */
  lemma {:induction false} LessTotal(a: string, b: string)
    ensures !Less(a, a)
    ensures !(Less(a, b) && Less(b, a))
    ensures a == b || Less(a, b) || Less(b, a)
  {
    if a != [] {
      LessTotal(a[1..], a[1..]);
      if b != [] {
        LessTotal(a[1..], b[1..]);
        assert a == [a[0]] + a[1..] && b == [b[0]] + b[1..];
      }
    }
  }
}
