/** Decimal numerals: the parts of Python's int() and str() that the program
    relies on, and the range check `appropriate_number` built on them. */
module Numbers {

  datatype Option<T> = None | Some(value: T)

  predicate IsDigit(c: char) {
    '0' <= c <= '9'
  }

  /** A non-empty run of ASCII decimal digits. */
  predicate IsDigits(s: string) {
    |s| > 0 && forall i :: 0 <= i < |s| ==> IsDigit(s[i])
  }

  /** The value of a run of digits, most significant first. */
  function DigitsValue(s: string): nat
    requires forall i :: 0 <= i < |s| ==> IsDigit(s[i])
    decreases |s|
  {
    if s == [] then 0
    else
      assert IsDigit(s[|s| - 1]);
      10 * DigitsValue(s[..|s| - 1]) + (s[|s| - 1] as int - '0' as int)
  }

  /** Python's int(s) on a string: an optional sign followed by decimal
      digits; anything else is the ValueError case, None. A value read after
      a minus sign is never positive, any other value never negative. */
  function ParseInt(s: string): (r: Option<int>)
    ensures r.Some? <==> IsDigits(s) || (|s| > 1 && (s[0] == '-' || s[0] == '+') && IsDigits(s[1..]))
    ensures r.Some? && s[0] == '-' ==> r.value <= 0
    ensures r.Some? && s[0] != '-' ==> r.value >= 0
  {
    if |s| > 0 && (s[0] == '-' || s[0] == '+') then
      if IsDigits(s[1..]) then
        var magnitude: int := DigitsValue(s[1..]);
        Some(if s[0] == '-' then -magnitude else magnitude)
      else None
    else if IsDigits(s) then Some(DigitsValue(s))
    else None
  }

  function DigitChar(d: nat): char
    requires d < 10
  {
    ('0' as int + d) as char
  }

  /** Python's str(n) for a non-negative integer. */
  function NatToString(n: nat): (s: string)
    ensures IsDigits(s)
    ensures n == 0 <==> s == "0"
    ensures s[0] != '0' || s == "0"
    decreases n
  {
    if n < 10 then [DigitChar(n)]
    else NatToString(n / 10) + [DigitChar(n % 10)]
  }

  /** Python's str(n) for any integer: a minus sign exactly for a negative
      number, followed by the digits of its magnitude. */
  function IntToString(n: int): (s: string)
    ensures |s| > 0 && (s[0] == '-' <==> n < 0)
    ensures n >= 0 ==> IsDigits(s)
    ensures n < 0 ==> IsDigits(s[1..])
  {
    if n < 0 then "-" + NatToString(-n) else NatToString(n)
  }

  lemma {:induction false} DigitsValueOfNatToString(n: nat)
    ensures DigitsValue(NatToString(n)) == n
    decreases n
  {
    if n >= 10 {
      var s := NatToString(n);
      assert s[..|s| - 1] == NatToString(n / 10);
      DigitsValueOfNatToString(n / 10);
    }
  }

  /** int(str(n)) == n: reading back a printed integer gives the integer. */
  lemma ParseIntOfIntToString(n: int)
    ensures ParseInt(IntToString(n)) == Some(n)
  {
    if n < 0 {
      var s := IntToString(n);
      assert s[1..] == NatToString(-n);
      DigitsValueOfNatToString(-n);
    } else {
      DigitsValueOfNatToString(n);
    }
  }

  lemma ParseIntOfNatToString(n: nat)
    ensures ParseInt(NatToString(n)) == Some(n)
  {
    ParseIntOfIntToString(n);
  }

  /** `appropriate_number(s, lower, upper)`: s is an integer numeral whose
      value a satisfies lower <= a < upper. */
  function AppropriateNumber(s: string, lower: int, upper: int): (ok: bool)
    ensures ok <==> ParseInt(s).Some? && lower <= ParseInt(s).value < upper
  {
    match ParseInt(s)
    case None => false
    case Some(a) =>
      if a < lower then false
      else if a >= upper then false
      else true
  }

  /** On the numeral of any integer k, the check is exactly lower <= k < upper. */
  lemma AppropriateNumeral(k: int, lower: int, upper: int)
    ensures AppropriateNumber(IntToString(k), lower, upper) <==> lower <= k < upper
  {
    ParseIntOfIntToString(k);
  }

  /** A string with a character that is neither a digit nor a leading sign is
      never appropriate, whatever the limits. */
  lemma RejectsNonNumeral(s: string, i: nat, lower: int, upper: int)
    requires i < |s| && !IsDigit(s[i])
    requires i > 0 || (s[0] != '-' && s[0] != '+')
    ensures !AppropriateNumber(s, lower, upper)
  {
    if i > 0 && (s[0] == '-' || s[0] == '+') {
      assert s[1..][i - 1] == s[i];
    }
  }
}
