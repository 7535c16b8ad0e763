/**
 * Decimal rendering of unsigned integers, as the firmware's "%llu" and "%lu"
 * conversions produce it, and the record keys built from it
 * ("moment_<t>", "tip_<t>", "vote_<t>", "unlock_<t>").
 */
module Text {

  const DIGITS: string := "0123456789"

  predicate IsDigit(c: char) {
    '0' <= c <= '9'
  }

  function DigitValue(c: char): (d: nat)
    requires IsDigit(c)
    ensures d < 10 && DIGITS[d] == c
  {
    (c as int - '0' as int)
  }

  /** The decimal text of n: no sign, no leading zero. */
  function Dec(n: nat): (s: string)
    ensures 1 <= |s|
    ensures forall i :: 0 <= i < |s| ==> IsDigit(s[i])
    ensures |s| > 1 ==> s[0] != '0'
    decreases n
  {
    if n < 10 then [DIGITS[n]] else Dec(n / 10) + [DIGITS[n % 10]]
  }

  /** Reads back a non-empty string of decimal digits. */
  function ParseDec(s: string): nat
    requires 1 <= |s|
    requires forall i :: 0 <= i < |s| ==> IsDigit(s[i])
    decreases |s|
  {
    if |s| == 1 then DigitValue(s[0])
    else ParseDec(s[..|s| - 1]) * 10 + DigitValue(s[|s| - 1])
  }

  lemma {:induction false} ParseDecOfDec(n: nat)
    ensures ParseDec(Dec(n)) == n
    decreases n
  {
    if n >= 10 {
      var s := Dec(n);
      assert s == Dec(n / 10) + [DIGITS[n % 10]];
      assert s[..|s| - 1] == Dec(n / 10);
      ParseDecOfDec(n / 10);
    }
  }

  /** Distinct numbers render differently. */
  lemma DecInjective(a: nat, b: nat)
    ensures Dec(a) == Dec(b) ==> a == b
  {
    ParseDecOfDec(a);
    ParseDecOfDec(b);
  }

  /** A storage key "<prefix><timestamp>". */
  function RecordKey(prefix: string, t: nat): string {
    prefix + Dec(t)
  }

  /** Keys with the same prefix coincide only for the same timestamp. */
  lemma RecordKeyInjective(prefix: string, t1: nat, t2: nat)
    ensures RecordKey(prefix, t1) == RecordKey(prefix, t2) <==> t1 == t2
  {
    if RecordKey(prefix, t1) == RecordKey(prefix, t2) {
      assert Dec(t1) == RecordKey(prefix, t1)[|prefix|..];
      DecInjective(t1, t2);
    }
  }
}
