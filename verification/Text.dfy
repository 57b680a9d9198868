/** Strings as the controllers build them: decimal printing and the cancellation
    laws that let a joined string be taken apart again. */
module Text {

  datatype Option<+T> = None | Some(value: T)

  predicate IsDigit(c: char) {
    '0' <= c <= '9'
  }

  function Digits(n: nat): (s: string)
    ensures |s| >= 1
    ensures forall i :: 0 <= i < |s| ==> IsDigit(s[i])
  {
    if n < 10 then ['0' + n as char] else Digits(n / 10) + ['0' + (n % 10) as char]
  }

  /** The integer verbs %d and %v. */
  function Decimal(n: int): string {
    if n < 0 then "-" + Digits(-n) else Digits(n)
  }

  /** What a digit string denotes. */
  function Value(s: string): nat
    requires forall i :: 0 <= i < |s| ==> IsDigit(s[i])
  {
    assert s != "" ==> IsDigit(s[|s| - 1]);
    if s == "" then 0 else 10 * Value(s[..|s| - 1]) + (s[|s| - 1] as int - '0' as int)
  }

  lemma {:induction false} DigitsRoundTrip(n: nat)
    ensures Value(Digits(n)) == n
  {
    var s := Digits(n);
    if n < 10 {
      assert s[..|s| - 1] == "";
    } else {
      DigitsRoundTrip(n / 10);
      assert s[..|s| - 1] == Digits(n / 10);
    }
  }

  lemma DigitsInjective(m: nat, n: nat)
    requires Digits(m) == Digits(n)
    ensures m == n
  {
    DigitsRoundTrip(m);
    DigitsRoundTrip(n);
  }

  /** Only a negative number prints with a leading hyphen. */
  lemma DecimalSign(n: int)
    ensures Decimal(n) != "" && (Decimal(n)[0] == '-' <==> n < 0)
  {
    assert n >= 0 ==> IsDigit(Digits(n)[0]);
  }

  lemma CancelSuffix(a: string, s: string, b: string, t: string)
    requires a + s == b + t && |s| == |t|
    ensures a == b && s == t
  {
    assert a == (a + s)[..|a|] && b == (b + t)[..|b|];
    assert s == (a + s)[|a|..] && t == (b + t)[|b|..];
  }

  lemma CancelPrefix(a: string, s: string, b: string, t: string)
    requires a + s == b + t && |a| == |b|
    ensures a == b && s == t
  {
    CancelSuffix(a, s, b, t);
  }

  /** A separator that occurs in neither head marks the same place in both strings. */
  lemma CutAtFirst(a: string, x: string, b: string, y: string, c: char)
    requires a + [c] + x == b + [c] + y
    requires c !in a && c !in b
    ensures a == b && x == y
  {
    var s, t := a + [c] + x, b + [c] + y;
    assert s[|a|] == c && t[|b|] == c;
    assert forall i :: 0 <= i < |a| ==> s[i] == a[i];
    assert forall i :: 0 <= i < |b| ==> t[i] == b[i];
    assert |a| == |b|;
    CancelPrefix(a + [c], x, b + [c], y);
    CancelPrefix(a, [c], b, [c]);
  }

  /** A separator that occurs in neither tail marks the same place in both strings. */
  lemma CutAtLast(a: string, x: string, b: string, y: string, c: char)
    requires a + [c] + x == b + [c] + y
    requires c !in x && c !in y
    ensures a == b && x == y
  {
    var s, t := a + [c] + x, b + [c] + y;
    assert s[|a|] == c && t[|b|] == c;
    assert forall i :: |a| < i < |s| ==> s[i] == x[i - |a| - 1];
    assert forall i :: |b| < i < |t| ==> t[i] == y[i - |b| - 1];
    assert |a| == |b|;
    CancelPrefix(a + [c], x, b + [c], y);
    CancelPrefix(a, [c], b, [c]);
  }

  lemma DecimalTail(a: string, n: int)
    ensures a + "-" + Decimal(n)
            == (if n < 0 then a + "-" else a) + "-" + Digits(if n < 0 then -n else n)
  {
  }

  /** A printed integer behind a hyphen can be read back when what precedes it
      does not itself end in a hyphen (which would look like a sign). */
  lemma CutDecimal(a: string, m: int, b: string, n: int)
    requires a + "-" + Decimal(m) == b + "-" + Decimal(n)
    requires a != "" && a[|a| - 1] != '-'
    requires b != "" && b[|b| - 1] != '-'
    ensures a == b && m == n
  {
    var a', b' := if m < 0 then a + "-" else a, if n < 0 then b + "-" else b;
    var i: nat, j: nat := if m < 0 then -m else m, if n < 0 then -n else n;
    DecimalTail(a, m);
    DecimalTail(b, n);
    CutAtLast(a', Digits(i), b', Digits(j), '-');
    DigitsInjective(i, j);
    assert a'[|a'| - 1] == '-' <==> m < 0;
    assert b'[|b'| - 1] == '-' <==> n < 0;
    CancelSuffix(a, if m < 0 then "-" else "", b, if n < 0 then "-" else "");
  }
}
