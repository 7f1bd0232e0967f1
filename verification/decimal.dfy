/**
 * Decimal text of natural numbers: `String(n)`, `padStart` with '0', the employee
 * identifier built from a fresh user id, and the integer cast PostgreSQL applies
 * to an id given as text.
 */
module Decimal {
  import opened Common

  predicate IsDigit(c: char) {
    '0' <= c <= '9'
  }

  predicate AllDigits(s: string) {
    forall i :: 0 <= i < |s| ==> IsDigit(s[i])
  }

  function DigitChar(d: nat): (c: char)
    requires d < 10
    ensures IsDigit(c)
  {
    ['0', '1', '2', '3', '4', '5', '6', '7', '8', '9'][d]
  }

  function DigitValue(c: char): (d: nat)
    requires IsDigit(c)
    ensures d < 10
  {
    (c as int - '0' as int) as nat
  }

  lemma DigitRoundTrip(d: nat)
    requires d < 10
    ensures DigitValue(DigitChar(d)) == d
  {
  }

  /** `String(n)` for a non-negative integer: its shortest decimal text. */
  function NatToString(n: nat): (s: string)
    ensures |s| >= 1 && AllDigits(s)
    ensures |s| > 1 ==> s[0] != '0'
    decreases n
  {
    if n < 10 then [DigitChar(n)] else NatToString(n / 10) + [DigitChar(n % 10)]
  }

  /** The value of a string of decimal digits (leading zeros allowed). */
  function ParseDigits(s: string): nat
    requires AllDigits(s)
  {
    if s == [] then 0 else ParseDigits(s[..|s| - 1]) * 10 + DigitValue(s[|s| - 1])
  }

  /** Reading back the text of `n` gives `n`. */
  lemma {:induction false} ParseNatToString(n: nat)
    ensures ParseDigits(NatToString(n)) == n
    decreases n
  {
    var s := NatToString(n);
    if n < 10 {
      DigitRoundTrip(n);
      assert s[..|s| - 1] == [];
    } else {
      ParseNatToString(n / 10);
      DigitRoundTrip(n % 10);
      assert s[..|s| - 1] == NatToString(n / 10);
    }
  }

  /** `NatToString` is injective: distinct ids never share a text. */
  lemma NatToStringInjective(a: nat, b: nat)
    requires NatToString(a) == NatToString(b)
    ensures a == b
  {
    ParseNatToString(a);
    ParseNatToString(b);
  }

  function Repeat(c: char, k: nat): (s: string)
    ensures |s| == k && forall i :: 0 <= i < k ==> s[i] == c
  {
    if k == 0 then [] else [c] + Repeat(c, k - 1)
  }

  /** Leading zeros do not change the value of a digit string. */
  lemma {:induction false} ParseLeadingZeros(k: nat, s: string)
    requires AllDigits(s)
    ensures AllDigits(Repeat('0', k) + s)
    ensures ParseDigits(Repeat('0', k) + s) == ParseDigits(s)
    decreases |s|
  {
    var t := Repeat('0', k) + s;
    if s == [] {
      assert t == Repeat('0', k);
      ZerosParseToZero(k);
    } else {
      ParseLeadingZeros(k, s[..|s| - 1]);
      assert t[..|t| - 1] == Repeat('0', k) + s[..|s| - 1];
      assert t[|t| - 1] == s[|s| - 1];
    }
  }

  lemma {:induction false} ZerosParseToZero(k: nat)
    ensures AllDigits(Repeat('0', k)) && ParseDigits(Repeat('0', k)) == 0
  {
    if k > 0 {
      var z := Repeat('0', k);
      ZerosParseToZero(k - 1);
      assert z[..|z| - 1] == Repeat('0', k - 1);
    }
  }

  /** JavaScript `s.padStart(width, c)` for a one-character pad string. */
  function PadStart(s: string, width: nat, c: char): (r: string)
    ensures |r| == if |s| >= width then |s| else width
    ensures r[|r| - |s|..] == s
    ensures forall i :: 0 <= i < |r| - |s| ==> r[i] == c
  {
    if |s| >= width then s else Repeat(c, width - |s|) + s
  }

  /** The employee identifier given to a new user: `EMP-` and the id padded to 4 digits. */
  function EmployeeId(id: nat): string {
    "EMP-" + PadStart(NatToString(id), 4, '0')
  }

  /**
   * The shape of an employee identifier: the `EMP-` prefix, at least four digits
   * that read back as the id, and no padding once the id has four digits or more.
   */
  lemma EmployeeIdShape(id: nat)
    ensures var e := EmployeeId(id);
      |e| >= 8 && e[..4] == "EMP-" && AllDigits(e[4..]) && ParseDigits(e[4..]) == id
      && |e| == 4 + (if |NatToString(id)| >= 4 then |NatToString(id)| else 4)
      && (id >= 1000 ==> e[4..] == NatToString(id))
  {
    var s := NatToString(id);
    var e := EmployeeId(id);
    assert e[4..] == PadStart(s, 4, '0');
    ParseNatToString(id);
    if |s| < 4 {
      ParseLeadingZeros(4 - |s|, s);
    }
    if id >= 1000 {
      LongTextForLargeNumbers(id);
    }
  }

  lemma {:induction false} LongTextForLargeNumbers(n: nat)
    requires n >= 1000
    ensures |NatToString(n)| >= 4
  {
    if n >= 10 && n / 10 >= 1000 {
      LongTextForLargeNumbers(n / 10);
    } else {
      assert |NatToString(n / 10 / 10)| >= 1;
    }
  }

  /** Distinct ids give distinct employee identifiers. */
  lemma EmployeeIdInjective(a: nat, b: nat)
    requires EmployeeId(a) == EmployeeId(b)
    ensures a == b
  {
    EmployeeIdShape(a);
    EmployeeIdShape(b);
  }

  /** The largest value of a PostgreSQL `integer` (`serial`) column. */
  const MAX_ID: nat := 2147483647

  /**
   * The integer PostgreSQL reads from an id given as text, as in `WHERE id = $1`
   * with a route parameter: a non-empty digit string (leading zeros allowed)
   * whose value fits the `integer` range is a number; any other text, and any
   * value beyond that range, makes the query fail.
   */
  function ParseId(s: string): (r: Option<nat>)
    ensures r.Some? <==> s != [] && AllDigits(s) && ParseDigits(s) <= MAX_ID
    ensures r.Some? ==> r.value <= MAX_ID && r.value == ParseDigits(s)
  {
    if s != [] && AllDigits(s) && ParseDigits(s) <= MAX_ID then Some(ParseDigits(s)) else None
  }

  /** The text of an id casts back to that id, unless the id is out of range. */
  lemma ParseIdOfText(n: nat)
    ensures ParseId(NatToString(n)) == if n <= MAX_ID then Some(n) else None
  {
    ParseNatToString(n);
  }
}
