/** The two parsers of Go's `strconv` package the configuration loader calls,
    `Atoi` and `ParseBool`, with their formatting inverses `FormatInt` and
    `FormatBool`. A Go parse error is `None`. Go's `int` is taken to be 64 bits
    wide, so `Atoi` reports a range error outside [-2^63, 2^63 - 1]. */
module StrConv {
  import opened Wrappers

  const Int64Min: int := -0x8000_0000_0000_0000
  const Int64Max: int := 0x7fff_ffff_ffff_ffff

  predicate InInt64(n: int)
  {
    Int64Min <= n <= Int64Max
  }

  predicate IsDigit(c: char)
  {
    '0' <= c <= '9'
  }

  predicate AllDigits(s: string)
  {
    forall i :: 0 <= i < |s| ==> IsDigit(s[i])
  }

  function DigitValue(c: char): nat
    requires IsDigit(c)
  {
    c as int - '0' as int
  }

  function DigitChar(d: nat): (c: char)
    requires d < 10
    ensures IsDigit(c) && DigitValue(c) == d
  {
    ('0' as int + d) as char
  }

  /** The value of a run of decimal digits, most significant first. */
  function DigitsValue(s: string): nat
    requires AllDigits(s)
  {
    if |s| == 0 then 0
    else DigitsValue(s[..|s| - 1]) * 10 + DigitValue(s[|s| - 1])
  }

  /** `strconv.Atoi(s)`: an optional `+` or `-`, then at least one decimal
      digit and nothing else (no base prefix, no underscores, no spaces);
      leading zeros are allowed. A value outside the 64-bit range is an
      error. */
  function Atoi(s: string): (r: Option<int>)
    ensures r.Some? ==> InInt64(r.value)
    ensures r.Some? ==> |s| > 0 && (IsDigit(s[0]) || s[0] == '+' || s[0] == '-')
  {
    if s == "" then None
    else
      var digits := if s[0] == '+' || s[0] == '-' then s[1..] else s;
      if digits == "" || !AllDigits(digits) then None
      else
        var v: int := if s[0] == '-' then -(DigitsValue(digits) as int) else DigitsValue(digits);
        if InInt64(v) then Some(v) else None
  }

  /** Decimal rendering of a natural number, without leading zeros. */
  function FormatNat(n: nat): (s: string)
    ensures |s| > 0 && AllDigits(s)
    ensures |s| > 1 ==> s[0] != '0'
  {
    if n < 10 then [DigitChar(n)]
    else FormatNat(n / 10) + [DigitChar(n % 10)]
  }

  /** `strconv.FormatInt(n, 10)`. */
  function FormatInt(n: int): (s: string)
    ensures |s| > 0 && s[0] != '+'
    ensures n >= 0 <==> s[0] != '-'
  {
    if n < 0 then "-" + FormatNat(-n) else FormatNat(n)
  }

  lemma {:induction false} DigitsValueFormatNat(n: nat)
    ensures DigitsValue(FormatNat(n)) == n
  {
    if n >= 10 {
      var s := FormatNat(n);
      assert s[..|s| - 1] == FormatNat(n / 10);
      DigitsValueFormatNat(n / 10);
    }
  }

  /** Atoi inverts FormatInt on the 64-bit range and rejects every decimal
      rendering outside it. */
  lemma AtoiFormatInt(n: int)
    ensures Atoi(FormatInt(n)) == if InInt64(n) then Some(n) else None
  {
    if n < 0 {
      DigitsValueFormatNat(-n);
      assert FormatInt(n)[1..] == FormatNat(-n);
    } else {
      DigitsValueFormatNat(n);
    }
  }

  /** Leading zeros do not change a digit run's value. */
  lemma {:induction false} DigitsValueLeadingZero(s: string)
    requires AllDigits(s)
    ensures AllDigits("0" + s)
    ensures DigitsValue("0" + s) == DigitsValue(s)
  {
    if |s| > 0 {
      var t := "0" + s;
      assert t[..|t| - 1] == "0" + s[..|s| - 1];
      DigitsValueLeadingZero(s[..|s| - 1]);
    }
  }

  /** Atoi reads decimal: a leading zero is neither an octal marker nor an
      error, and an explicit `+` changes nothing. */
  lemma AtoiLeadingZeroAndPlus(s: string)
    requires |s| > 0 && AllDigits(s)
    ensures Atoi("0" + s) == Atoi(s)
    ensures Atoi("+" + s) == Atoi(s)
    ensures Atoi("-0" + s) == Atoi("-" + s)
  {
    DigitsValueLeadingZero(s);
    assert ("+" + s)[1..] == s;
    assert ("-0" + s)[1..] == "0" + s;
    assert ("-" + s)[1..] == s;
  }

  /** A sign with no digits after it is a syntax error, as is the empty
      string. */
  lemma AtoiRejectsBareSign()
    ensures Atoi("") == None && Atoi("+") == None && Atoi("-") == None
  {
  }

  /** A run of `k` zeros. */
  function Zeros(k: nat): string
  {
    seq(k, _ => '0')
  }

  /** Absolute value, the magnitude Atoi reads after the sign. */
  function Abs(n: int): nat
  {
    if n < 0 then -n else n
  }

  /** Leading zeros of any length do not change a digit run's value. */
  lemma {:induction false} DigitsValueZeros(k: nat, s: string)
    requires AllDigits(s)
    ensures AllDigits(Zeros(k) + s)
    ensures DigitsValue(Zeros(k) + s) == DigitsValue(s)
  {
    if k > 0 {
      DigitsValueZeros(k - 1, s);
      assert Zeros(k) + s == "0" + (Zeros(k - 1) + s);
      DigitsValueLeadingZero(Zeros(k - 1) + s);
    } else {
      assert Zeros(k) + s == s;
    }
  }

  /** Every non-empty digit run is some zeros followed by the canonical
      rendering of its value. */
  lemma {:induction false} DigitsCanonical(t: string)
    requires |t| > 0 && AllDigits(t)
    ensures exists k: nat :: t == Zeros(k) + FormatNat(DigitsValue(t))
    decreases |t|
  {
    var init, d := t[..|t| - 1], t[|t| - 1];
    assert t == init + [d];
    if |init| == 0 {
      assert t == Zeros(0) + FormatNat(DigitsValue(t));
    } else {
      DigitsCanonical(init);
      var k: nat :| init == Zeros(k) + FormatNat(DigitsValue(init));
      var w := DigitsValue(init);
      if w == 0 {
        assert init == Zeros(k + 1);
        assert t == Zeros(k + 1) + FormatNat(DigitsValue(t));
      } else {
        var v := DigitsValue(t);
        assert v / 10 == w && v % 10 == DigitValue(d);
        assert FormatNat(v) == FormatNat(w) + [d];
        assert t == Zeros(k) + FormatNat(v);
      }
    }
  }

  /** What Atoi accepts: an optional sign, then zeros, then the canonical
      decimal rendering of the magnitude; a minus sign stands before every
      negative value and before no positive one. */
  lemma AtoiAccepted(s: string, n: int)
    requires Atoi(s) == Some(n)
    ensures n < 0 ==> s[0] == '-'
    ensures s[0] == '-' ==> n <= 0
    ensures IsDigit(s[0]) ==> exists k: nat :: s == Zeros(k) + FormatNat(Abs(n))
    ensures s[0] == '+' || s[0] == '-' ==> exists k: nat :: s[1..] == Zeros(k) + FormatNat(Abs(n))
  {
    var digits := if s[0] == '+' || s[0] == '-' then s[1..] else s;
    DigitsCanonical(digits);
    assert Abs(n) == DigitsValue(digits);
  }

  /** A non-empty digit run is read as its value, bare or after a sign. */
  lemma AtoiDigits(t: string)
    requires |t| > 0 && AllDigits(t)
    ensures InInt64(DigitsValue(t)) ==> Atoi(t) == Some(DigitsValue(t))
    ensures InInt64(DigitsValue(t)) ==> Atoi("+" + t) == Some(DigitsValue(t))
    ensures InInt64(-(DigitsValue(t) as int)) ==> Atoi("-" + t) == Some(-(DigitsValue(t) as int))
  {
    assert IsDigit(t[0]);
    assert ("+" + t)[1..] == t;
    assert ("-" + t)[1..] == t;
  }

  /** Conversely, Atoi accepts every such string whose value fits in 64
      bits. */
  lemma AtoiWritten(sign: string, k: nat, n: int)
    requires sign == "" || sign == "+" || sign == "-"
    requires n < 0 ==> sign == "-"
    requires sign == "-" ==> n <= 0
    requires InInt64(n)
    ensures Atoi(sign + Zeros(k) + FormatNat(Abs(n))) == Some(n)
  {
    var t := Zeros(k) + FormatNat(Abs(n));
    DigitsValueZeros(k, FormatNat(Abs(n)));
    DigitsValueFormatNat(Abs(n));
    assert sign + Zeros(k) + FormatNat(Abs(n)) == sign + t;
    AtoiDigits(t);
    if sign == "" {
      assert sign + t == t;
    }
  }

  /** Atoi accepts nothing but an optionally signed run of digits. */
  lemma AtoiRejectsNonDigit(s: string, i: nat)
    requires i < |s| && !IsDigit(s[i])
    requires i > 0 || (s[0] != '+' && s[0] != '-')
    ensures Atoi(s) == None
  {
    if s[0] == '+' || s[0] == '-' {
      assert s[1..][i - 1] == s[i];
    }
  }

  const TrueForms: set<string> := {"1", "t", "T", "TRUE", "true", "True"}
  const FalseForms: set<string> := {"0", "f", "F", "FALSE", "false", "False"}

  /** `strconv.ParseBool(s)`: exactly the twelve spellings above; anything
      else, including other capitalisations, is an error. */
  function ParseBool(s: string): (r: Option<bool>)
    ensures r == Some(true) <==> s in TrueForms
    ensures r == Some(false) <==> s in FalseForms
  {
    if s in TrueForms then Some(true)
    else if s in FalseForms then Some(false)
    else None
  }

  /** `strconv.FormatBool(b)`. */
  function FormatBool(b: bool): string
  {
    if b then "true" else "false"
  }

  lemma ParseFormatBool(b: bool)
    ensures ParseBool(FormatBool(b)) == Some(b)
  {
  }

  /** No spelling is read both ways, and the empty string is not a boolean. */
  lemma ParseBoolForms()
    ensures TrueForms * FalseForms == {}
    ensures ParseBool("") == None
    ensures ParseBool("yes") == None && ParseBool("tRUE") == None
  {
  }
}
