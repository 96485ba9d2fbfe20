/**
 * Decimal integer parsing as Rust's `str::parse::<i32>` and
 * `str::parse::<usize>` do it, which the `exit` and `fg` built-ins use on
 * their argument, with the decimal rendering that inverts it.
 *
 * Rust accepts an optional leading sign ('+' for both types, '-' only for
 * signed ones) followed by at least one ASCII digit, nothing else (no
 * surrounding spaces), and rejects values outside the type's range.
 */
module NumParse {
  import opened Wrappers

  const I32_MIN: int := -0x8000_0000
  const I32_MAX: int := 0x7FFF_FFFF
  /** usize on a 64-bit target. */
  const USIZE_MAX: int := 0xFFFF_FFFF_FFFF_FFFF

  predicate IsI32(n: int) {
    I32_MIN <= n <= I32_MAX
  }

  predicate IsDigit(c: char) {
    '0' <= c <= '9'
  }

  predicate AllDigits(s: string) {
    forall i :: 0 <= i < |s| ==> IsDigit(s[i])
  }

  function DigitValue(c: char): (d: nat)
    requires IsDigit(c)
    ensures d < 10
  {
    c as int - '0' as int
  }

  function DigitChar(d: nat): (c: char)
    requires d < 10
    ensures IsDigit(c) && DigitValue(c) == d
  {
    ('0' as int + d) as char
  }

  /** The value of a digit string, most significant digit first; 0 for the empty string. */
  function DigitsValue(s: string): nat
    requires AllDigits(s)
  {
    if s == [] then 0 else 10 * DigitsValue(s[..|s| - 1]) + DigitValue(s[|s| - 1])
  }

  /** `str::parse::<i32>`. */
  function ParseI32(s: string): (r: Option<int>)
    ensures r.Some? ==> IsI32(r.value)
    ensures r.Some? ==> s != [] && (r.value < 0 ==> s[0] == '-')
  {
    var negative := |s| > 0 && s[0] == '-';
    var digits := if |s| > 0 && (s[0] == '+' || s[0] == '-') then s[1..] else s;
    if digits == [] || !AllDigits(digits) then None
    else
      var magnitude: int := DigitsValue(digits);
      var v := if negative then -magnitude else magnitude;
      if IsI32(v) then Some(v) else None
  }

  /** `str::parse::<usize>`: a '-' sign is not accepted at all. */
  function ParseUsize(s: string): (r: Option<nat>)
    ensures r.Some? ==> r.value <= USIZE_MAX
    ensures r.Some? ==> s != [] && s[0] != '-'
  {
    var digits := if |s| > 0 && s[0] == '+' then s[1..] else s;
    if digits == [] || !AllDigits(digits) then None
    else if DigitsValue(digits) <= USIZE_MAX then Some(DigitsValue(digits))
    else None
  }

  /** The shortest decimal digit string of n. */
  function NatDigits(n: nat): (s: string)
    ensures s != [] && AllDigits(s)
    ensures s[0] != '0' || n == 0
  {
    if n < 10 then [DigitChar(n)] else NatDigits(n / 10) + [DigitChar(n % 10)]
  }

  /** Decimal rendering of an integer, as Rust's `to_string` produces it. */
  function FormatInt(n: int): (s: string)
    ensures s != []
  {
    if n < 0 then "-" + NatDigits(-n) else NatDigits(n)
  }

  lemma {:induction false} NatDigitsValue(n: nat)
    ensures DigitsValue(NatDigits(n)) == n
  {
    var s := NatDigits(n);
    if n >= 10 {
      assert s[..|s| - 1] == NatDigits(n / 10);
      NatDigitsValue(n / 10);
    }
  }

  /** Parsing the rendering of n gives back n exactly when n is an i32. */
  lemma ParseI32FormatInt(n: int)
    ensures ParseI32(FormatInt(n)) == if IsI32(n) then Some(n) else None
  {
    var m := if n < 0 then -n else n;
    NatDigitsValue(m);
    var s := FormatInt(n);
    if n < 0 {
      assert s[1..] == NatDigits(m);
    } else {
      assert DigitValue(NatDigits(m)[0]) < 10;
    }
  }

  /** Parsing the rendering of a natural n gives back n exactly when it fits a usize. */
  lemma ParseUsizeFormatInt(n: nat)
    ensures ParseUsize(FormatInt(n)) == if n <= USIZE_MAX then Some(n) else None
  {
    NatDigitsValue(n);
    assert DigitValue(NatDigits(n)[0]) < 10;
  }

  /** A leading zero does not change the value of a digit string. */
  lemma {:induction false} LeadingZeroValue(s: string)
    requires AllDigits(s)
    ensures AllDigits("0" + s) && DigitsValue("0" + s) == DigitsValue(s)
  {
    var t := "0" + s;
    if s != [] {
      assert t[..|t| - 1] == "0" + s[..|s| - 1];
      assert t[|t| - 1] == s[|s| - 1];
      LeadingZeroValue(s[..|s| - 1]);
    }
  }

  /** So `exit 007` and `exit 7` mean the same, and so do `fg 01` and `fg 1`. */
  lemma LeadingZeroParse(s: string)
    requires s != [] && AllDigits(s)
    ensures ParseI32("0" + s) == ParseI32(s)
    ensures ParseUsize("0" + s) == ParseUsize(s)
  {
    LeadingZeroValue(s);
    assert ("0" + s)[0] == '0';
    assert s[0] != '+' && s[0] != '-';
  }

  /** k '0' characters. */
  function Zeros(k: nat): (z: string)
    ensures |z| == k && AllDigits(z)
  {
    if k == 0 then [] else "0" + Zeros(k - 1)
  }

  /**
   * A numeral in the form Rust's parse accepts: a sign ("", "+" or "-"),
   * any number of leading zeros, then the shortest digit string of m.
   */
  function Numeral(sign: string, zeros: nat, m: nat): string {
    sign + Zeros(zeros) + NatDigits(m)
  }

  /** Leading zeros do not change the value of a digit string. */
  lemma {:induction false} ZerosValue(k: nat, d: string)
    requires AllDigits(d)
    ensures AllDigits(Zeros(k) + d) && DigitsValue(Zeros(k) + d) == DigitsValue(d)
  {
    if k == 0 {
      assert Zeros(k) + d == d;
    } else {
      ZerosValue(k - 1, d);
      assert Zeros(k) + d == "0" + (Zeros(k - 1) + d);
      LeadingZeroValue(Zeros(k - 1) + d);
    }
  }

  /** A digit string that does not start with '0' has a positive value. */
  lemma {:induction false} NoLeadingZeroPositive(d: string)
    requires d != [] && AllDigits(d) && d[0] != '0'
    ensures DigitsValue(d) >= 1
  {
    if |d| > 1 {
      NoLeadingZeroPositive(d[..|d| - 1]);
    }
  }

  /** A digit string without a leading zero is the shortest rendering of its value. */
  lemma {:induction false} ShortestDigits(d: string)
    requires d != [] && AllDigits(d) && (d[0] != '0' || |d| == 1)
    ensures NatDigits(DigitsValue(d)) == d
  {
    if |d| > 1 {
      var p := d[..|d| - 1];
      ShortestDigits(p);
      NoLeadingZeroPositive(p);
      assert d == p + [d[|d| - 1]];
    }
  }

  /** Every non-empty digit string is leading zeros followed by the shortest rendering of its value. */
  lemma {:induction false} CanonicalDigits(d: string) returns (k: nat)
    requires d != [] && AllDigits(d)
    ensures d == Zeros(k) + NatDigits(DigitsValue(d))
  {
    if d[0] == '0' && |d| > 1 {
      var rest := d[1..];
      k := CanonicalDigits(rest);
      assert d == "0" + rest;
      LeadingZeroValue(rest);
      k := k + 1;
    } else {
      ShortestDigits(d);
      k := 0;
    }
  }

  lemma NumeralDigits(zeros: nat, m: nat)
    ensures AllDigits(Zeros(zeros) + NatDigits(m))
    ensures DigitsValue(Zeros(zeros) + NatDigits(m)) == m
    ensures (Zeros(zeros) + NatDigits(m))[0] != '+' && (Zeros(zeros) + NatDigits(m))[0] != '-'
  {
    ZerosValue(zeros, NatDigits(m));
    NatDigitsValue(m);
    assert IsDigit((Zeros(zeros) + NatDigits(m))[0]);
  }

  /** Every numeral with an optional sign parses to its signed value when that is an i32, and is rejected otherwise. */
  lemma ParseI32Numeral(sign: string, zeros: nat, m: nat)
    requires sign == "" || sign == "+" || sign == "-"
    ensures var v := if sign == "-" then -(m as int) else m;
      ParseI32(Numeral(sign, zeros, m)) == if IsI32(v) then Some(v) else None
  {
    var d := Zeros(zeros) + NatDigits(m);
    NumeralDigits(zeros, m);
    var s := Numeral(sign, zeros, m);
    if sign == "" {
      assert s == d;
      assert s[0] != '+' && s[0] != '-';
    } else {
      assert s == sign + d;
      assert s[0] == sign[0] && s[1..] == d;
    }
    assert d == (if s[0] == '+' || s[0] == '-' then s[1..] else s);
    assert (s[0] == '-') == (sign == "-");
  }

  /** Conversely, every string `parse::<i32>` accepts is such a numeral, and its value is the numeral's. */
  lemma ParseI32IsNumeral(s: string) returns (sign: string, zeros: nat, m: nat)
    requires ParseI32(s).Some?
    ensures sign == "" || sign == "+" || sign == "-"
    ensures s == Numeral(sign, zeros, m)
    ensures ParseI32(s).value == if sign == "-" then -(m as int) else m
  {
    var signed := s[0] == '+' || s[0] == '-';
    var d := if signed then s[1..] else s;
    sign := if signed then [s[0]] else "";
    assert s == sign + d;
    m := DigitsValue(d);
    zeros := SignedNumeral(sign, d);
  }

  /** A sign followed by a non-empty digit string is a numeral of the string's value. */
  lemma SignedNumeral(sign: string, d: string) returns (zeros: nat)
    requires d != [] && AllDigits(d)
    ensures sign + d == Numeral(sign, zeros, DigitsValue(d))
  {
    zeros := CanonicalDigits(d);
    assert sign + d == sign + (Zeros(zeros) + NatDigits(DigitsValue(d)));
  }

  /** Every numeral with an optional '+' parses to its value when that fits a usize, and is rejected otherwise. */
  lemma ParseUsizeNumeral(sign: string, zeros: nat, m: nat)
    requires sign == "" || sign == "+"
    ensures ParseUsize(Numeral(sign, zeros, m)) == if m <= USIZE_MAX then Some(m) else None
  {
    var d := Zeros(zeros) + NatDigits(m);
    NumeralDigits(zeros, m);
    var s := Numeral(sign, zeros, m);
    if sign == "" {
      assert s == d;
    } else {
      assert s == sign + d;
      assert s[0] == sign[0] && s[1..] == d;
    }
  }

  /** Conversely, every string `parse::<usize>` accepts is such a numeral, and its value is the numeral's. */
  lemma ParseUsizeIsNumeral(s: string) returns (sign: string, zeros: nat, m: nat)
    requires ParseUsize(s).Some?
    ensures sign == "" || sign == "+"
    ensures s == Numeral(sign, zeros, m)
    ensures ParseUsize(s).value == m
  {
    var d := if s[0] == '+' then s[1..] else s;
    sign := if s[0] == '+' then "+" else "";
    assert s == sign + d;
    m := DigitsValue(d);
    zeros := SignedNumeral(sign, d);
  }
}
