/** Translation of a fast backend's integer status into an exception
    (the CHECK_FLAG macro), including the decimal rendering of the code that
    the message stream performs. */
module Status {
  import opened Results

  predicate IsDigit(c: char) { '0' <= c <= '9' }

  function DigitChar(d: nat): (c: char)
    requires d < 10
    ensures IsDigit(c) && c as int - '0' as int == d
  {
    ('0' as int + d) as char
  }

  /** Decimal digits of `n`, most significant first, without leading zeros. */
  function NatToDecimal(n: nat): string
    decreases n
  {
    if n < 10 then [DigitChar(n)] else NatToDecimal(n / 10) + [DigitChar(n % 10)]
  }

  /** How an output string stream renders an `int`: a minus sign for a
      negative value, then the decimal digits of its magnitude. */
  function IntToDecimal(i: int): string
  {
    if i < 0 then "-" + NatToDecimal(-i) else NatToDecimal(i)
  }

  /** Reads a non-empty string of decimal digits. */
  function ParseNat(s: string): Option<nat>
    decreases |s|
  {
    if s == [] || !IsDigit(s[|s| - 1]) then None
    else if |s| == 1 then Some(s[0] as int - '0' as int)
    else match ParseNat(s[..|s| - 1])
      case None => None
      case Some(v) => Some(10 * v + (s[|s| - 1] as int - '0' as int))
  }

  /** Reads an optionally negated decimal integer. */
  function ParseInt(s: string): Option<int>
  {
    if |s| > 0 && s[0] == '-' then
      match ParseNat(s[1..])
      case None => None
      case Some(v) => Some(-(v as int))
    else ParseNat(s)
  }

  lemma {:induction false} NatToDecimalRoundTrip(n: nat)
    ensures |NatToDecimal(n)| > 0 && IsDigit(NatToDecimal(n)[0])
    ensures ParseNat(NatToDecimal(n)) == Some(n)
    decreases n
  {
    if n >= 10 {
      NatToDecimalRoundTrip(n / 10);
      var s := NatToDecimal(n);
      assert s[..|s| - 1] == NatToDecimal(n / 10);
      assert s[0] == NatToDecimal(n / 10)[0];
    }
  }

  /** Rendering an integer and reading it back gives the integer. */
  lemma IntToDecimalRoundTrip(i: int)
    ensures ParseInt(IntToDecimal(i)) == Some(i)
  {
    var s := IntToDecimal(i);
    if i < 0 {
      NatToDecimalRoundTrip(-i);
      assert s == "-" + NatToDecimal(-i);
      assert s[0] == '-' && s[1..] == NatToDecimal(-i);
    } else {
      NatToDecimalRoundTrip(i);
      assert s == NatToDecimal(i) && s[0] != '-';
    }
  }

  const FailedWithCode := " failed with code "

  /** The message of the exception CHECK_FLAG(name) raises for status `ier`. */
  function FailureMessage(name: string, ier: int): string
  {
    name + FailedWithCode + IntToDecimal(ier)
  }

  /** CHECK_FLAG: a zero status lets the wrapper return its result, any
      other status raises an error naming the wrapper and the code. */
  function CheckFlag(name: string, ier: int): (e: Option<Error>)
    ensures e == None <==> ier == 0
    ensures e.Some? ==> e.value.FinufftError? && e.value.msg == FailureMessage(name, ier)
  {
    if ier != 0 then Some(FinufftError(FailureMessage(name, ier))) else None
  }

  /** The code in the message can be read back: the message begins with the
      wrapper's name and " failed with code ", and the rest parses to `ier`. */
  lemma FailureMessageCarriesCode(name: string, ier: int)
    ensures var m := FailureMessage(name, ier);
      var k := |name| + |FailedWithCode|;
      k <= |m| && m[..|name|] == name && m[|name|..k] == FailedWithCode && ParseInt(m[k..]) == Some(ier)
  {
    var m := FailureMessage(name, ier);
    var k := |name| + |FailedWithCode|;
    assert m[k..] == IntToDecimal(ier);
    IntToDecimalRoundTrip(ier);
  }

  /** Two failures of the same wrapper with different codes have different messages. */
  lemma FailureMessageInjective(name: string, a: int, b: int)
    requires FailureMessage(name, a) == FailureMessage(name, b)
    ensures a == b
  {
    FailureMessageCarriesCode(name, a);
    FailureMessageCarriesCode(name, b);
  }
}
