/**
 * The integer conversions `parse_arguments` calls: `std::stoi`, `std::stoul`
 * and `(unsigned)std::stoul`. Each rests on C's `strtol`/`strtoul` in base 10:
 * leading white space is skipped, an optional sign is read, then the longest
 * run of decimal digits; whatever follows is ignored. No digit at all is an
 * `invalid_argument`; a value the result type cannot hold is an `out_of_range`.
 * `int` is 32 bits wide and `unsigned long` 64 bits (an LP64 platform).
 */
module Numbers {
  import opened Base

  const INT_MIN: int := -0x8000_0000
  const INT_MAX: int := 0x7FFF_FFFF
  const UINT_MODULUS: nat := 0x1_0000_0000
  const ULONG_MAX: nat := TWO_TO_THE_64 - 1

  type Int32 = n: int | INT_MIN <= n <= INT_MAX
  type UInt32 = n: nat | n < UINT_MODULUS

  /** What a `std::sto*` call does: returns a value, or throws one of two exceptions. */
  datatype Conversion<+T> = Converted(value: T) | InvalidArgument | OutOfRange

  /** `isspace` in the "C" locale. */
  predicate IsSpace(c: char)
  {
    c == ' ' || c == '\t' || c == '\n' || c == '\U{000B}' || c == '\U{000C}' || c == '\r'
  }

  predicate IsDigit(c: char)
  {
    '0' <= c <= '9'
  }

  predicate AllDigits(ds: string)
  {
    forall i :: 0 <= i < |ds| ==> IsDigit(ds[i])
  }

  function DigitValue(c: char): nat
    requires IsDigit(c)
  {
    (c as int) - ('0' as int)
  }

  /** The number a run of decimal digits denotes, most significant digit first. */
  function DigitsValue(ds: string): nat
    requires AllDigits(ds)
  {
    if |ds| == 0 then 0 else 10 * DigitsValue(ds[..|ds| - 1]) + DigitValue(ds[|ds| - 1])
  }

  /**
   * Where the subject sequence of a base-10 `strtol` lies in a string: white
   * space up to `lead`, a sign of length `signLen` (0 or 1), and digits from
   * there up to `end`.
   */
  datatype Subject = Subject(lead: nat, signLen: nat, end: nat)
  {
    function Start(): nat { lead + signLen }
  }

  /** `sub` is the subject sequence of `s`: the longest space prefix, an optional sign, the longest non-empty digit run. */
  ghost predicate IsSubject(s: string, sub: Subject)
  {
    && sub.lead <= |s|
    && (forall i :: 0 <= i < sub.lead ==> IsSpace(s[i]))
    && (sub.lead == |s| || !IsSpace(s[sub.lead]))
    && (sub.signLen == 1 <==> sub.lead < |s| && (s[sub.lead] == '+' || s[sub.lead] == '-'))
    && sub.signLen <= 1
    && sub.Start() < sub.end <= |s|
    && (forall i :: sub.Start() <= i < sub.end ==> IsDigit(s[i]))
    && (sub.end == |s| || !IsDigit(s[sub.end]))
  }

  /** The first index at or after `i` whose character fails `IsSpace`, or `|s|`. */
  function SkipSpace(s: string, i: nat): (r: nat)
    requires i <= |s|
    ensures i <= r <= |s|
    ensures forall j :: i <= j < r ==> IsSpace(s[j])
    ensures r == |s| || !IsSpace(s[r])
    decreases |s| - i
  {
    if i == |s| || !IsSpace(s[i]) then i else SkipSpace(s, i + 1)
  }

  /** The first index at or after `i` that does not hold a digit, or `|s|`. */
  function DigitEnd(s: string, i: nat): (r: nat)
    requires i <= |s|
    ensures i <= r <= |s|
    ensures forall j :: i <= j < r ==> IsDigit(s[j])
    ensures r == |s| || !IsDigit(s[r])
    decreases |s| - i
  {
    if i == |s| || !IsDigit(s[i]) then i else DigitEnd(s, i + 1)
  }

  /** Scans for the subject sequence; `None` when no digit follows the white space and optional sign. */
  function ScanSubject(s: string): Option<Subject>
  {
    var lead := SkipSpace(s, 0);
    var signLen := if lead < |s| && (s[lead] == '+' || s[lead] == '-') then 1 else 0;
    var end := DigitEnd(s, lead + signLen);
    if end == lead + signLen then None else Some(Subject(lead, signLen, end))
  }

  /** The scan finds the subject sequence exactly when there is one. */
  lemma ScanSubjectSpec(s: string)
    ensures ScanSubject(s).Some? ==> IsSubject(s, ScanSubject(s).value)
    ensures ScanSubject(s).None? ==> forall sub :: !IsSubject(s, sub)
  {
    var lead := SkipSpace(s, 0);
    var signLen := if lead < |s| && (s[lead] == '+' || s[lead] == '-') then 1 else 0;
    if ScanSubject(s).None? {
      assert forall sub :: !IsSubject(s, sub);
    }
  }

  /** Whenever `s` has a subject sequence, the scan returns it. */
  lemma ScanFinds(s: string, sub: Subject)
    requires IsSubject(s, sub)
    ensures ScanSubject(s) == Some(sub)
  {
    ScanSubjectSpec(s);
    SubjectUnique(s, ScanSubject(s).value, sub);
  }

  /** Two maximal runs of white space from the start of `s` end at the same place. */
  lemma SpacePrefixUnique(s: string, a: nat, b: nat)
    requires a <= |s| && b <= |s|
    requires forall i :: 0 <= i < a ==> IsSpace(s[i])
    requires forall i :: 0 <= i < b ==> IsSpace(s[i])
    requires a == |s| || !IsSpace(s[a])
    requires b == |s| || !IsSpace(s[b])
    ensures a == b
  {
  }

  /** The magnitude the digits of a subject sequence denote. */
  function Magnitude(s: string, sub: Subject): nat
    requires sub.Start() <= sub.end <= |s|
    requires forall i :: sub.Start() <= i < sub.end ==> IsDigit(s[i])
  {
    DigitsValue(s[sub.Start()..sub.end])
  }

  predicate Negative(s: string, sub: Subject)
  {
    sub.signLen == 1 && sub.lead < |s| && s[sub.lead] == '-'
  }

  /** The value of a subject sequence: its magnitude, negated after a minus sign. */
  function SignedValue(s: string, sub: Subject): int
    requires sub.Start() <= sub.end <= |s|
    requires forall i :: sub.Start() <= i < sub.end ==> IsDigit(s[i])
  {
    if Negative(s, sub) then 0 - Magnitude(s, sub) else Magnitude(s, sub)
  }

  /** The range check `stoi` makes after `strtol`: a value outside `int` is an `out_of_range`. */
  function FitInt(n: int): Conversion<Int32>
  {
    if INT_MIN <= n <= INT_MAX then Converted(n) else OutOfRange
  }

  /** `std::stoi(s)`: the signed value of the subject sequence, which must fit in a 32-bit `int`. */
  function StoI(s: string): Conversion<Int32>
  {
    match ScanSubject(s)
    case None => InvalidArgument
    case Some(sub) => FitInt(SignedValue(s, sub))
  }

  /**
   * `stoi` throws `invalid_argument` exactly when there is no subject
   * sequence, and otherwise gives that sequence's value or `out_of_range`.
   */
  lemma StoISpec(s: string)
    ensures StoI(s).InvalidArgument? <==> forall sub :: !IsSubject(s, sub)
    ensures forall sub | IsSubject(s, sub) :: StoI(s) == FitInt(SignedValue(s, sub))
  {
    ScanSubjectSpec(s);
    if ScanSubject(s).Some? {
      forall sub' | IsSubject(s, sub') ensures sub' == ScanSubject(s).value {
        SubjectUnique(s, ScanSubject(s).value, sub');
      }
    }
  }

  /** `strtoul`'s negation of a magnitude in `unsigned long` arithmetic: its additive inverse modulo 2^64. */
  function NegateULong(m: UInt64): (r: UInt64)
    ensures (m + r) % 0x1_0000_0000_0000_0000 == 0
    ensures m == 0 <==> r == 0
  {
    if m == 0 then 0 else TWO_TO_THE_64 - m
  }

  /** `std::stoul(s)`: the magnitude must fit in 64 bits; a minus sign negates it modulo 2^64, as `strtoul` does. */
  function StoUL(s: string): Conversion<UInt64>
  {
    match ScanSubject(s)
    case None => InvalidArgument
    case Some(sub) =>
      var m := Magnitude(s, sub);
      if m > ULONG_MAX then OutOfRange
      else if Negative(s, sub) then Converted(NegateULong(m))
      else Converted(m)
  }

  /**
   * `stoul` throws `invalid_argument` exactly when there is no subject
   * sequence; otherwise a magnitude past `ULONG_MAX` is `out_of_range`, and
   * any other is the value, negated modulo 2^64 after a minus sign.
   */
  lemma StoULSpec(s: string)
    ensures StoUL(s).InvalidArgument? <==> forall sub :: !IsSubject(s, sub)
    ensures forall sub | IsSubject(s, sub) ::
              var m := Magnitude(s, sub);
              StoUL(s) == if m > ULONG_MAX then OutOfRange
                          else if Negative(s, sub) then Converted(NegateULong(m))
                          else Converted(m)
  {
    ScanSubjectSpec(s);
    if ScanSubject(s).Some? {
      forall sub' | IsSubject(s, sub') ensures sub' == ScanSubject(s).value {
        SubjectUnique(s, ScanSubject(s).value, sub');
      }
    }
  }

  /** The conversion of an `unsigned long` to `unsigned`: the low 32 bits. */
  function LowBits32(n: UInt64): (r: UInt32)
    ensures (n - r) % 0x1_0000_0000 == 0
    ensures n < UINT_MODULUS ==> r == n
  {
    n % 0x1_0000_0000
  }

  /** `(unsigned)std::stoul(s)`: the cast keeps the low 32 bits and raises nothing. */
  function StoU(s: string): (r: Conversion<UInt32>)
    ensures r.InvalidArgument? <==> StoUL(s).InvalidArgument?
    ensures r.OutOfRange? <==> StoUL(s).OutOfRange?
    ensures r.Converted? ==> r.value == LowBits32(StoUL(s).value)
  {
    match StoUL(s)
    case Converted(n) => Converted(LowBits32(n))
    case InvalidArgument => InvalidArgument
    case OutOfRange => OutOfRange
  }

  /** A string has at most one subject sequence. */
  lemma SubjectUnique(s: string, a: Subject, b: Subject)
    requires IsSubject(s, a) && IsSubject(s, b)
    ensures a == b
  {
    SpacePrefixUnique(s, a.lead, b.lead);
  }

  function DigitChar(d: nat): (c: char)
    requires d < 10
  {
    ('0' as int + d) as char
  }

  /** The decimal spelling of `n` with no leading zero, as `std::to_string` writes it. */
  function ToDecimal(n: nat): string
  {
    if n < 10 then [DigitChar(n)] else ToDecimal(n / 10) + [DigitChar(n % 10)]
  }

  /** The decimal spelling of a signed value: a minus sign, if any, then the digits of its magnitude. */
  function IntToDecimal(n: int): string
  {
    if n < 0 then "-" + ToDecimal(-n) else ToDecimal(n)
  }

  /** Reading back a decimal spelling gives the number spelled. */
  lemma {:induction false} DecimalValue(n: nat)
    ensures 0 < |ToDecimal(n)|
    ensures AllDigits(ToDecimal(n))
    ensures DigitsValue(ToDecimal(n)) == n
    decreases n
  {
    if n >= 10 {
      DecimalValue(n / 10);
      var ds := ToDecimal(n);
      assert ds[..|ds| - 1] == ToDecimal(n / 10);
    }
  }

  /**
   * A sign, a run of digits and a tail that does not start with a digit:
   * the run is exactly the digit part of the subject sequence.
   */
  lemma DigitRunIsSubject(sign: string, ds: string, rest: string)
    requires sign == "" || sign == "-"
    requires 0 < |ds| && AllDigits(ds)
    requires rest == [] || !IsDigit(rest[0])
    ensures IsSubject(sign + ds + rest, Subject(0, |sign|, |sign| + |ds|))
  {
    var s := sign + ds + rest;
    var sub := Subject(0, |sign|, |sign| + |ds|);
    assert forall i :: sub.Start() <= i < sub.end ==> IsDigit(s[i]) by {
      forall i | sub.Start() <= i < sub.end ensures IsDigit(s[i]) {
        assert s[i] == ds[i - |sign|];
      }
    }
    assert s[0] == if sign == "" then ds[0] else '-';
    assert IsDigit(ds[0]);
    assert sub.end == |s| || !IsDigit(s[sub.end]) by {
      if sub.end < |s| { assert s[sub.end] == rest[0]; }
    }
  }

  /** ... and the subject sequence denotes the run's value, negated after the minus sign. */
  lemma DigitRunSubject(sign: string, ds: string, rest: string)
    requires sign == "" || sign == "-"
    requires 0 < |ds| && AllDigits(ds)
    requires rest == [] || !IsDigit(rest[0])
    ensures var s := sign + ds + rest;
            var sub := Subject(0, |sign|, |sign| + |ds|);
            && IsSubject(s, sub)
            && Magnitude(s, sub) == DigitsValue(ds)
            && (Negative(s, sub) <==> sign == "-")
  {
    DigitRunIsSubject(sign, ds, rest);
    var s := sign + ds + rest;
    assert s[|sign|..|sign| + |ds|] == ds;
    assert sign == "-" ==> s[0] == '-';
  }

  /** The same for the decimal spelling of `m`, whose digits denote `m`. */
  lemma DecimalSubject(sign: string, m: nat, rest: string)
    requires sign == "" || sign == "-"
    requires rest == [] || !IsDigit(rest[0])
    ensures var s := sign + ToDecimal(m) + rest;
            var sub := Subject(0, |sign|, |sign| + |ToDecimal(m)|);
            && IsSubject(s, sub)
            && Magnitude(s, sub) == m
            && (Negative(s, sub) <==> sign == "-")
  {
    DecimalValue(m);
    DigitRunSubject(sign, ToDecimal(m), rest);
  }

  /** `stoi(to_string(n))` gives back `n`, and text after the digits does not matter. */
  lemma StoIRoundTrip(n: Int32, rest: string)
    requires rest == [] || !IsDigit(rest[0])
    ensures StoI(IntToDecimal(n) + rest) == Converted(n)
  {
    var sign := if n < 0 then "-" else "";
    var m: nat := if n < 0 then -(n as int) else n;
    assert IntToDecimal(n) == sign + ToDecimal(m);
    StoISigned(sign, m, rest);
  }

  /** `stoi` of an optional minus sign, a decimal spelling and a tail. */
  lemma StoISigned(sign: string, m: nat, rest: string)
    requires sign == "" || sign == "-"
    requires rest == [] || !IsDigit(rest[0])
    ensures StoI(sign + ToDecimal(m) + rest) == FitInt(if sign == "-" then 0 - m else m)
  {
    var s := sign + ToDecimal(m) + rest;
    var sub := Subject(0, |sign|, |sign| + |ToDecimal(m)|);
    DecimalSubject(sign, m, rest);
    StoISpec(s);
    assert SignedValue(s, sub) == if sign == "-" then 0 - m else m;
  }

  /** A decimal spelling past `INT_MAX`, either sign, makes `stoi` throw `out_of_range`. */
  lemma StoIOutOfRange(m: nat, negative: bool)
    requires if negative then m > -INT_MIN else m > INT_MAX
    ensures StoI((if negative then "-" else "") + ToDecimal(m)) == OutOfRange
  {
    DecimalSubject(if negative then "-" else "", m, []);
    StoISpec((if negative then "-" else "") + ToDecimal(m) + []);
    assert (if negative then "-" else "") + ToDecimal(m) + [] == (if negative then "-" else "") + ToDecimal(m);
  }

  /** `stoul` of an optional minus sign, a decimal spelling and a tail. */
  lemma StoULSigned(sign: string, m: nat, rest: string)
    requires sign == "" || sign == "-"
    requires rest == [] || !IsDigit(rest[0])
    ensures StoUL(sign + ToDecimal(m) + rest) ==
              if m > ULONG_MAX then OutOfRange
              else if sign == "-" then Converted(NegateULong(m))
              else Converted(m)
  {
    var s := sign + ToDecimal(m) + rest;
    var sub := Subject(0, |sign|, |sign| + |ToDecimal(m)|);
    DecimalSubject(sign, m, rest);
    ScanFinds(s, sub);
  }

  /** `stoul(to_string(n))` gives back `n` for every 64-bit `n`. */
  lemma StoULRoundTrip(n: UInt64, rest: string)
    requires rest == [] || !IsDigit(rest[0])
    ensures StoUL(ToDecimal(n) + rest) == Converted(n)
  {
    assert "" + ToDecimal(n) + rest == ToDecimal(n) + rest by {
      assert "" + ToDecimal(n) == ToDecimal(n);
    }
    StoULSigned("", n, rest);
  }

  /** `stoul` accepts a minus sign and negates the magnitude modulo 2^64: "-1" is `ULONG_MAX`. */
  lemma StoULNegates(m: UInt64)
    ensures StoUL("-" + ToDecimal(m)) == Converted(NegateULong(m))
  {
    StoULSigned("-", m, []);
    assert "-" + ToDecimal(m) + [] == "-" + ToDecimal(m);
  }

  /** A magnitude past `ULONG_MAX` makes `stoul` throw `out_of_range`. */
  lemma StoULOutOfRange(m: nat)
    requires m > ULONG_MAX
    ensures StoUL(ToDecimal(m)) == OutOfRange
  {
    StoULSigned("", m, []);
    assert "" + ToDecimal(m) + [] == ToDecimal(m);
  }

  /** `(unsigned)stoul` keeps only the low 32 bits: 4294967296 becomes 0 with no exception. */
  lemma StoUTruncates(n: UInt64)
    ensures StoU(ToDecimal(n)) == Converted(LowBits32(n))
  {
    StoULRoundTrip(n, []);
    assert ToDecimal(n) + [] == ToDecimal(n);
  }

  /** "2147483648", one past `INT_MAX`, is out of range for `stoi`. */
  lemma IntOverflowLiteral()
    ensures StoI("2147483648") == OutOfRange
  {
    assert ToDecimal(2147483648) == "2147483648" by {
      assert ToDecimal(2) == "2";
      assert ToDecimal(21) == "21";
      assert ToDecimal(214) == "214";
      assert ToDecimal(2147) == "2147";
      assert ToDecimal(21474) == "21474";
      assert ToDecimal(214748) == "214748";
      assert ToDecimal(2147483) == "2147483";
      assert ToDecimal(21474836) == "21474836";
      assert ToDecimal(214748364) == "214748364";
    }
    StoIOutOfRange(2147483648, false);
    assert "" + ToDecimal(2147483648) == "2147483648";
  }

  /** "4294967296" is 2^32 for `stoul`, which `(unsigned)` turns into 0. */
  lemma TwoToThe32Literal()
    ensures StoUL("4294967296") == Converted(4294967296)
    ensures StoU("4294967296") == Converted(0)
  {
    assert ToDecimal(4294967296) == "4294967296" by {
      assert ToDecimal(4) == "4";
      assert ToDecimal(42) == "42";
      assert ToDecimal(429) == "429";
      assert ToDecimal(4294) == "4294";
      assert ToDecimal(42949) == "42949";
      assert ToDecimal(429496) == "429496";
      assert ToDecimal(4294967) == "4294967";
      assert ToDecimal(42949672) == "42949672";
      assert ToDecimal(429496729) == "429496729";
    }
    StoULRoundTrip(4294967296, []);
    assert ToDecimal(4294967296) + [] == "4294967296";
    assert StoU("4294967296") == Converted(0);
  }
}
