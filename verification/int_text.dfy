/**
 * Decimal text of JVM integers: Kotlin's `String.toIntOrNull()` (path
 * parameters, the client's port field) and `Int.toString()` (string
 * templates such as the port in a URL or a log line).
 */
module IntText {
  import opened Data

  predicate IsDigit(c: char) {
    '0' <= c <= '9'
  }

  predicate AllDigits(s: string) {
    forall i :: 0 <= i < |s| ==> IsDigit(s[i])
  }

  function DigitChar(d: nat): (c: char)
    requires d < 10
    ensures IsDigit(c)
  {
    ('0' as int + d) as char
  }

  /** The number a non-empty run of decimal digits denotes, most significant first. */
  function DigitsValue(s: string): nat
    requires AllDigits(s)
  {
    if |s| == 0 then 0
    else 10 * DigitsValue(s[..|s| - 1]) + (s[|s| - 1] as int - '0' as int)
  }

  /** Shortest decimal digits of `n`. */
  function NatText(n: nat): (s: string)
    ensures |s| > 0 && AllDigits(s)
    ensures n > 0 ==> s[0] != '0'
  {
    if n < 10 then [DigitChar(n)] else NatText(n / 10) + [DigitChar(n % 10)]
  }

  /** `Int.toString()`: a minus sign for negatives, then the shortest digits. */
  function Decimal(n: int): (s: string)
    ensures |s| > 0
    ensures n < 0 <==> s[0] == '-'
  {
    if n < 0 then "-" + NatText(-n) else NatText(n)
  }

  /** The text after an optional leading `+` or `-`. */
  function Unsigned(s: string): (u: string)
    ensures |u| <= |s| && u == s[|s| - |u|..]
    ensures |s| > 0 && (s[0] == '+' || s[0] == '-') ==> |u| == |s| - 1
    ensures |s| == 0 || (s[0] != '+' && s[0] != '-') ==> u == s
  {
    if |s| > 0 && (s[0] == '+' || s[0] == '-') then s[1..] else s
  }

  /** An optional sign followed by at least one ASCII digit. */
  predicate SignedDigits(s: string) {
    |Unsigned(s)| > 0 && AllDigits(Unsigned(s))
  }

  /** The mathematical value of signed digits. */
  function SignedValue(s: string): int
    requires SignedDigits(s)
  {
    if s[0] == '-' then -(DigitsValue(Unsigned(s)) as int) else DigitsValue(Unsigned(s)) as int
  }

  /**
   * `String.toIntOrNull()`: an optional `+` or `-`, then at least one
   * digit, and the value must fit in 32 bits; anything else is null.
   */
  function ToIntOrNull(s: string): (r: Option<int32>)
    ensures |s| == 0 ==> r.None?
    ensures r.Some? <==> SignedDigits(s) && INT32_MIN <= SignedValue(s) <= INT32_MAX
    ensures r.Some? ==> r.value as int == SignedValue(s)
    ensures r.Some? ==> s[0] == '+' || s[0] == '-' || IsDigit(s[0])
    ensures r.Some? ==> |s| > 1 || IsDigit(s[0])
    ensures r.Some? ==> forall i :: 0 < i < |s| ==> IsDigit(s[i])
    ensures r.Some? && s[0] != '-' ==> r.value >= 0
  {
    if !SignedDigits(s) then None
    else
      var v := SignedValue(s);
      if INT32_MIN <= v <= INT32_MAX then Some(v as int32) else None
  }

  lemma {:induction false} NatTextValue(n: nat)
    ensures DigitsValue(NatText(n)) == n
  {
    if n >= 10 {
      var s := NatText(n);
      var t := NatText(n / 10);
      assert s == t + [DigitChar(n % 10)];
      assert s[..|s| - 1] == t;
      NatTextValue(n / 10);
    }
  }

  /** `Int.toString()` writes signed digits whose value is the integer itself. */
  lemma DecimalIsSignedDigits(n: int)
    ensures SignedDigits(Decimal(n)) && SignedValue(Decimal(n)) == n
  {
    var d := Decimal(n);
    if n < 0 {
      assert Unsigned(d) == NatText(-n);
      NatTextValue(-n);
    } else {
      assert IsDigit(d[0]);
      assert Unsigned(d) == NatText(n);
      NatTextValue(n);
    }
  }

  /** Reading back the text of any 32-bit integer gives that integer. */
  lemma ToIntOrNullOfDecimal(n: int32)
    ensures ToIntOrNull(Decimal(n as int)) == Some(n)
  {
    DecimalIsSignedDigits(n as int);
  }

  /** A value outside 32 bits, written out, reads back as null. */
  lemma ToIntOrNullRejectsOverflow(n: int)
    requires n < INT32_MIN || INT32_MAX < n
    ensures ToIntOrNull(Decimal(n)) == None
  {
    DecimalIsSignedDigits(n);
  }

  /** `k` zero digits. */
  function Zeros(k: nat): (z: string)
    ensures |z| == k && AllDigits(z)
  {
    if k == 0 then "" else Zeros(k - 1) + "0"
  }

  /** Zero digits have the value zero. */
  lemma {:induction false} ZerosValue(k: nat)
    ensures DigitsValue(Zeros(k)) == 0
  {
    if k > 0 {
      assert Zeros(k)[..k - 1] == Zeros(k - 1);
      ZerosValue(k - 1);
    }
  }

  /** Leading zeros do not change the value of a run of digits. */
  lemma {:induction false} LeadingZerosValue(k: nat, t: string)
    requires AllDigits(t)
    ensures AllDigits(Zeros(k) + t)
    ensures DigitsValue(Zeros(k) + t) == DigitsValue(t)
    decreases |t|
  {
    var z := Zeros(k) + t;
    assert forall i :: 0 <= i < |z| ==> IsDigit(z[i]) by {
      forall i | 0 <= i < |z| ensures IsDigit(z[i]) {
        if i >= k { assert z[i] == t[i - k]; }
      }
    }
    if |t| == 0 {
      assert z == Zeros(k);
      ZerosValue(k);
    } else {
      var u := t[..|t| - 1];
      assert z[..|z| - 1] == Zeros(k) + u;
      assert z[|z| - 1] == t[|t| - 1];
      LeadingZerosValue(k, u);
    }
  }

  /** After a sign, the unsigned part is the rest of the text. */
  lemma UnsignedAfterSign(sign: char, z: string)
    requires sign == '+' || sign == '-'
    ensures Unsigned([sign] + z) == z
  {
  }

  /** A run of digits within range reads as its value. */
  lemma ReadDigits(z: string)
    requires |z| > 0 && AllDigits(z) && DigitsValue(z) <= INT32_MAX
    ensures ToIntOrNull(z) == Some(DigitsValue(z) as int32)
  {
    assert IsDigit(z[0]);
    assert Unsigned(z) == z;
  }

  /** A run of digits within range reads as its value after `+`, and as its negation after `-`. */
  lemma ReadSignedDigits(z: string)
    requires |z| > 0 && AllDigits(z)
    ensures DigitsValue(z) <= INT32_MAX ==> ToIntOrNull("+" + z) == Some(DigitsValue(z) as int32)
    ensures DigitsValue(z) <= -INT32_MIN ==> ToIntOrNull("-" + z) == Some(-(DigitsValue(z) as int) as int32)
  {
    UnsignedAfterSign('+', z);
    UnsignedAfterSign('-', z);
  }

  /**
   * Non-canonical text is read as Kotlin reads it: any number of leading
   * zeros, with or without a `+`, gives back a non-negative value, and a
   * `-` with leading zeros gives the negation (so "-0" reads as 0).
   */
  lemma LeadingZerosAndSigns(n: int32, k: nat)
    ensures n >= 0 ==> ToIntOrNull(Zeros(k) + Decimal(n as int)) == Some(n)
    ensures n >= 0 ==> ToIntOrNull("+" + (Zeros(k) + Decimal(n as int))) == Some(n)
    ensures n <= 0 ==> ToIntOrNull("-" + (Zeros(k) + NatText(-(n as int)))) == Some(n)
  {
    var m := if n >= 0 then n as int else -(n as int);
    NatTextValue(m);
    LeadingZerosValue(k, NatText(m));
    if n >= 0 {
      ReadDigits(Zeros(k) + NatText(m));
    }
    ReadSignedDigits(Zeros(k) + NatText(m));
  }
}
