/**
 * The integers of the configuration: the check made before start, `integer` in src/config/config_validation.hpp,
 * and the reader used while running, iniparser_getlongint and iniparser_getint in common/param/iniparser.c.
 */
module ConfigInteger {
  import opened Common
  import opened IniLine

  // ---------------------------------------------------------------- strtol

  function DigitOf(c: char): nat {
    if '0' <= c <= '9' then c as nat - '0' as nat
    else if 'a' <= c <= 'z' then c as nat - 'a' as nat + 10
    else if 'A' <= c <= 'Z' then c as nat - 'A' as nat + 10
    else 36
  }

  /** The longest prefix of digits in the base. */
  function DigitRun(s: string, base: nat): (r: string)
    ensures |r| <= |s|
  {
    if s == [] || DigitOf(s[0]) >= base then [] else [s[0]] + DigitRun(s[1..], base)
  }

  function Number(digits: string, base: nat): nat {
    if digits == [] then 0 else Number(digits[..|digits|-1], base) * base + DigitOf(digits[|digits|-1])
  }

  /** `end` counts the characters read; `range` is errno being ERANGE. */
  datatype Long = Long(value: int, end: nat, range: bool)

  /** The base asked for, with 0 left to the prefix, and how long the prefix is. */
  function BaseOf(s: string, base: nat): (nat, nat) {
    if base != 0 then (base, 0)
    else if |s| > 2 && s[0] == '0' && (s[1] == 'x' || s[1] == 'X') && DigitOf(s[2]) < 16 then (16, 2)
    else if s != [] && s[0] == '0' then (8, 0)
    else (10, 0)
  }

  /** The number at the start of s, and how many characters it takes; None if there is none. */
  function Magnitude(s: string, base: nat): Option<(nat, nat)> {
    var (b, prefix) := BaseOf(s, base);
    var run := if prefix <= |s| then DigitRun(s[prefix..], b) else [];
    if run == [] then None else Some((Number(run, b), prefix + |run|))
  }

  function Clamped(n: int, end: nat, max: nat): Long {
    if n > max then Long(max, end, true)
    else if n < 0 - max - 1 then Long(0 - max - 1, end, true)
    else Long(n, end, false)
  }

  /** The C function, for base 0 or 10 and a type `long` that holds up to max. */
  function Strtol(s: string, base: nat, max: nat): Long {
    var text := TrimLeft(s);
    var signed := text != [] && (text[0] == '-' || text[0] == '+');
    var rest := if signed then text[1..] else text;
    match Magnitude(rest, base)
    case None => Long(0, 0, false)
    case Some((m, used)) => Clamped(if signed && text[0] == '-' then 0 - m else m, |s| - |rest| + used, max)
  }

  // ------------------------------------------------------------ check and use

  const INT_MAX := 0x7fff_ffff

  predicate Plain(s: string) {
    forall i :: 0 <= i < |s| ==> s[i] == '-' || '0' <= s[i] <= '9'
  }

  /** The integer the check accepts, or None where it throws. */
  function Integer(value: string, low: int, high: int, longMax: nat): Option<int> {
    if value == [] || !Plain(value) then None
    else
      var first := if value[0] == '-' then 1 else 0;
      if |value| > first + 1 && value[first] == '0' then None
      else
        var n := Strtol(value, 10, longMax);
        if n.range || n.end == 0 || n.end != |value| || n.value < low || n.value > high then None else Some(n.value)
  }

  /** A `long` made an `int`: the low 32 bits. */
  function ToInt(n: int): int {
    var m := n % 0x1_0000_0000;
    if m > INT_MAX then m - 0x1_0000_0000 else m
  }

  /** The value the running program reads. */
  function GetInt(value: string, longMax: nat): int {
    ToInt(Strtol(value, 0, longMax).value)
  }

  // ------------------------------------------------------ canonical decimals

  function Digit(n: nat): char
    requires n < 10
  {
    ('0' as int + n) as char
  }

  function DecimalNat(n: nat): (s: string)
    ensures s != []
  {
    if n < 10 then [Digit(n)] else DecimalNat(n / 10) + [Digit(n % 10)]
  }

  function Decimal(n: int): string {
    if n < 0 then "-" + DecimalNat(-n) else DecimalNat(n)
  }

  predicate AllDigits(s: string) {
    forall i :: 0 <= i < |s| ==> '0' <= s[i] <= '9'
  }

  /** Digits without a needless leading zero. */
  predicate Canonical(s: string) {
    s != [] && AllDigits(s) && (|s| > 1 ==> s[0] != '0')
  }

  lemma {:induction false} RunOfDigits(s: string, base: nat)
    requires AllDigits(s) && base >= 10
    ensures DigitRun(s, base) == s
  {
    if s != [] { RunOfDigits(s[1..], base); }
  }

  lemma {:induction false} RunIsDigits(s: string)
    ensures DigitRun(s, 10) <= s && AllDigits(DigitRun(s, 10))
  {
    if s != [] && DigitOf(s[0]) < 10 { RunIsDigits(s[1..]); }
  }

  lemma {:induction false} DecimalCanonical(n: nat)
    ensures Canonical(DecimalNat(n)) && Number(DecimalNat(n), 10) == n && (n > 0 ==> DecimalNat(n)[0] != '0')
  {
    if n >= 10 {
      DecimalCanonical(n / 10);
      var front := DecimalNat(n / 10);
      assert DecimalNat(n)[..|front|] == front;
    }
  }

  lemma {:induction false} CanonicalDecimal(s: string)
    requires Canonical(s)
    ensures s == DecimalNat(Number(s, 10)) && (|s| > 1 ==> Number(s, 10) >= 10)
  {
    var n := |s| - 1;
    if n > 0 {
      var front := s[..n];
      CanonicalDecimal(front);
      var m, d := Number(front, 10), DigitOf(s[n]);
      if n == 1 { assert m == DigitOf(s[0]) > 0 by { assert front == [s[0]]; assert front[..0] == []; } }
      assert Number(s, 10) == m * 10 + d && (m * 10 + d) / 10 == m && (m * 10 + d) % 10 == d;
      assert s == front + [s[n]] && Digit(d) == s[n];
    } else {
      assert s[..0] == [];
      assert s == [s[0]];
    }
  }

  /** What either base reads from a sign and canonical digits. */
  function Signed(negative: bool, ds: string): string {
    if negative then "-" + ds else ds
  }

  lemma {:induction false} OneDigit(c: char, base: nat)
    requires DigitOf(c) < base
    ensures DigitRun([c], base) == [c] && Number([c], base) == DigitOf(c)
  {
    assert [c][1..] == [] && [c][..0] == [];
  }

  lemma {:induction false} MagnitudeZero(base: nat)
    requires base == 0 || base == 10
    ensures Magnitude(['0'], base) == Some((0, 1)) && Number(['0'], 10) == 0
  {
    OneDigit('0', 8);
    OneDigit('0', 10);
    assert ['0'][0..] == ['0'];
  }

  lemma {:induction false} MagnitudeDecimal(ds: string, base: nat)
    requires Canonical(ds) && (base == 10 || (base == 0 && ds[0] != '0'))
    ensures Magnitude(ds, base) == Some((Number(ds, 10), |ds|))
  {
    assert ds[0..] == ds;
    RunOfDigits(ds, 10);
  }

  lemma {:induction false} CanonicalMagnitude(ds: string, base: nat)
    requires Canonical(ds) && (base == 0 || base == 10)
    ensures Magnitude(ds, base) == Some((Number(ds, 10), |ds|))
  {
    if ds[0] == '0' {
      assert ds == ['0'];
      MagnitudeZero(base);
    } else {
      MagnitudeDecimal(ds, base);
    }
  }

  lemma {:induction false} SignedShape(negative: bool, ds: string)
    requires Canonical(ds)
    ensures
      var s := Signed(negative, ds);
      && TrimLeft(s) == s && s != [] && s[0] != '+' && (s[0] == '-' <==> negative)
          && |s| == |ds| + (if negative then 1 else 0)
      && (if negative then s[1..] else s) == ds && Plain(s)
  {
    var s := Signed(negative, ds);
    assert s[0] == if negative then '-' else ds[0];
    assert negative ==> s[1..] == ds;
  }

  function Valued(negative: bool, ds: string): int {
    if negative then 0 - Number(ds, 10) else Number(ds, 10)
  }

  lemma {:induction false} ReadCanonical(negative: bool, ds: string, base: nat, max: nat)
    requires Canonical(ds) && (base == 0 || base == 10)
    ensures Strtol(Signed(negative, ds), base, max) == Clamped(Valued(negative, ds), |Signed(negative, ds)|, max)
  {
    SignedShape(negative, ds);
    CanonicalMagnitude(ds, base);
  }

  /** An accepted text is a sign and canonical digits, read to its end without overflow. */
  lemma {:induction false} AcceptedShape(value: string, low: int, high: int, max: nat)
      returns (negative: bool, ds: string)
    requires Integer(value, low, high, max).Some?
    ensures value == Signed(negative, ds) && Canonical(ds)
  {
    negative := value[0] == '-';
    ds := if negative then value[1..] else value;
    assert TrimLeft(value) == value && value[0] != '+';
    assert ds[0..] == ds;
    RunIsDigits(ds);
    assert DigitRun(ds, 10) == ds;
  }

  lemma {:induction false} AcceptedValue(value: string, low: int, high: int, max: nat)
    requires Integer(value, low, high, max).Some?
    ensures
      var n := Strtol(value, 10, max);
      !n.range && low <= n.value <= high && Integer(value, low, high, max) == Some(n.value)
  {
  }

  /** The decimal a sign and canonical digits spell, unless that is minus zero. */
  lemma {:induction false} SignedIsDecimal(negative: bool, ds: string)
    requires Canonical(ds)
    ensures
      var s, n := Signed(negative, ds), Valued(negative, ds);
      s == Decimal(n) || (s == "-0" && n == 0)
  {
    CanonicalDecimal(ds);
    if negative && Number(ds, 10) == 0 { assert ds == [Digit(0)]; }
  }

  lemma {:induction false} OnlyNumerals(value: string, n: int, low: int, high: int, max: nat)
    requires Integer(value, low, high, max) == Some(n)
    ensures low <= n <= high && (value == Decimal(n) || (value == "-0" && n == 0))
  {
    AcceptedValue(value, low, high, max);
    var negative, ds := AcceptedShape(value, low, high, max);
    assert n == Valued(negative, ds) by { ReadCanonical(negative, ds, 10, max); }
    SignedIsDecimal(negative, ds);
  }

  lemma {:induction false} DecimalIsSigned(n: int) returns (ds: string)
    ensures Decimal(n) == Signed(n < 0, ds) && Canonical(ds) && Number(ds, 10) == (if n < 0 then 0 - n else n)
    ensures Plain(Decimal(n)) && (n != 0 ==> ds[0] != '0')
  {
    var m: nat := if n < 0 then 0 - n else n;
    DecimalCanonical(m);
    ds := DecimalNat(m);
  }

  lemma {:induction false} AcceptCanonical(negative: bool, ds: string, low: int, high: int, max: nat)
    requires Canonical(ds) && low <= Valued(negative, ds) <= high
    requires INT_MAX <= max && 0 - INT_MAX - 1 <= low && high <= INT_MAX
    ensures Integer(Signed(negative, ds), low, high, max) == Some(Valued(negative, ds))
  {
    SignedShape(negative, ds);
    ReadCanonical(negative, ds, 10, max);
  }

  lemma {:induction false} EveryNumeral(n: int, low: int, high: int, max: nat)
    requires INT_MAX <= max && 0 - INT_MAX - 1 <= low <= n <= high <= INT_MAX
    ensures Integer(Decimal(n), low, high, max) == Some(n)
  {
    var ds := DecimalIsSigned(n);
    AcceptCanonical(n < 0, ds, low, high, max);
  }

  lemma {:induction false} MinusZero(low: int, high: int, max: nat)
    requires INT_MAX <= max && 0 - INT_MAX - 1 <= low <= 0 <= high <= INT_MAX
    ensures Integer("-0", low, high, max) == Some(0)
  {
    MagnitudeZero(10);
    AcceptCanonical(true, ['0'], low, high, max);
    assert Signed(true, ['0']) == "-0";
  }

  lemma {:induction false} SmallStaysInt(n: int)
    requires 0 - INT_MAX - 1 <= n <= INT_MAX
    ensures ToInt(n) == n
  {
  }

  /** The text accepted as n is the decimal numeral of n, or "-0"; and each of these is accepted within the bounds. */
  lemma {:induction false} IntegerExact(value: string, n: int, low: int, high: int, max: nat)
    requires INT_MAX <= max && 0 - INT_MAX - 1 <= low && high <= INT_MAX
    ensures Integer(value, low, high, max) == Some(n) <==>
              low <= n <= high && (value == Decimal(n) || (value == "-0" && n == 0))
  {
    if Integer(value, low, high, max) == Some(n) { OnlyNumerals(value, n, low, high, max); }
    if low <= n <= high { EveryNumeral(n, low, high, max); }
    if low <= 0 <= high { MinusZero(low, high, max); }
  }

  /** Whatever the check accepts, the running program reads as the same number. */
  lemma {:induction false} CheckAgreesWithReader(value: string, low: int, high: int, max: nat)
    requires INT_MAX <= max && 0 - INT_MAX - 1 <= low && high <= INT_MAX
    ensures
      match Integer(value, low, high, max)
      case Some(n) => GetInt(value, max) == n
      case None => true
  {
    if Integer(value, low, high, max).Some? {
      var negative, ds := AcceptedShape(value, low, high, max);
      ReadCanonical(negative, ds, 10, max);
      ReadCanonical(negative, ds, 0, max);
      SmallStaysInt(Integer(value, low, high, max).value);
    }
  }
}
