/** Go's `%v` formatting of float64 values, for the whole-number values a
    configuration default can hold. */
module FloatText {
  import opened Text

  /** A digit string without its trailing zeros. */
  function TrimZeros(s: string): (r: string)
    ensures |r| <= |s| && r == s[..|r|]
    ensures r == [] || r[|r| - 1] != '0'
    ensures forall k :: |r| <= k < |s| ==> s[k] == '0'
  {
    if s == [] || s[|s| - 1] != '0' then s else TrimZeros(s[..|s| - 1])
  }

  /** The exponent of the `%e` form: a sign and at least two digits. */
  function ExponentText(n: nat): string
  {
    "e+" + (if n < 10 then "0" else "") + NatToString(n)
  }

  /** The significant digits of a decimal text as `%e` writes them: the
      first digit, then '.' and the rest when any non-zero digit follows. */
  function Mantissa(digits: string): string
  {
    var sig := TrimZeros(digits);
    if |sig| > 1 then [sig[0], '.'] + sig[1..] else sig
  }

  /** `%v` of a whole non-negative float64, that is `%g` with the shortest
      precision: plain digits while the decimal exponent is below 6, and
      otherwise the significant digits as d.ddd followed by the exponent. */
  function FormatFloatMagnitude(n: nat): (r: string)
    ensures n < 1000000 ==> r == NatToString(n)
    ensures n >= 1000000 ==> 'e' in r && r[0] == NatToString(n)[0]
    ensures n >= 1000000 ==> r == Mantissa(NatToString(n)) + ExponentText(|NatToString(n)| - 1)
    ensures '0' <= r[0] <= '9'
  {
    if n < 1000000 then NatToString(n)
    else
      var digits := NatToString(n);
      NatToStringMagnitude(n);
      TrimZerosKeepsLead(digits);
      var mantissa := Mantissa(digits);
      var r := mantissa + ExponentText(|digits| - 1);
      assert r[|mantissa|] == 'e';
      r
  }

  function Pow10(k: nat): (p: nat)
    ensures p >= 1
  {
    if k == 0 then 1 else 10 * Pow10(k - 1)
  }

  /** The decimal text of a positive number has no leading zero, and its
      length less one is the number's decimal exponent. */
  lemma {:induction false} NatToStringMagnitude(n: nat)
    requires n > 0
    ensures NatToString(n)[0] != '0'
    ensures Pow10(|NatToString(n)| - 1) <= n < Pow10(|NatToString(n)|)
  {
    if n >= 10 {
      NatToStringMagnitude(n / 10);
      var d := NatToString(n);
      assert d == NatToString(n / 10) + [DigitChar(n % 10)];
    }
  }

  /** Trimming keeps a leading non-zero digit. */
  lemma TrimZerosKeepsLead(d: string)
    requires |d| > 0 && d[0] != '0'
    ensures |TrimZeros(d)| > 0 && TrimZeros(d)[0] == d[0]
  {
  }

  /** The exponent form denotes the number. Its significant digits are the
      number's digits without trailing zeros: they start with the number's
      non-zero first digit, end in a non-zero digit, and only zeros follow
      them in the number's digits. They are printed with a '.' after the
      first when there is more than one. The exponent is the number of
      digits less one, the number's decimal exponent. */
  lemma ExponentFormDenotes(n: nat)
    requires n >= 1000000
    ensures var d := NatToString(n);
      var sig := TrimZeros(d);
      var e := |d| - 1;
      && FormatFloatMagnitude(n) == (if |sig| > 1 then [sig[0], '.'] + sig[1..] else sig) + ExponentText(e)
      && |sig| > 0 && sig[0] == d[0] && sig[0] != '0' && sig[|sig| - 1] != '0'
      && d[..|sig|] == sig && (forall k :: |sig| <= k < |d| ==> d[k] == '0')
      && Pow10(e) <= n < Pow10(|d|)
  {
    var d := NatToString(n);
    var sig := TrimZeros(d);
    NatToStringMagnitude(n);
    TrimZerosKeepsLead(d);
    assert FormatFloatMagnitude(n) == Mantissa(d) + ExponentText(|d| - 1);
  }

  /** `%v` of a whole float64: a '-' for negative values, then the
      magnitude. */
  function FormatWholeFloat(w: int): (r: string)
    ensures -1000000 < w < 1000000 ==> r == IntToString(w)
    ensures (w <= -1000000 || w >= 1000000) <==> 'e' in r
    ensures r[0] == '-' <==> w < 0
  {
    if w < 0 then "-" + FormatFloatMagnitude(-w) else FormatFloatMagnitude(w)
  }

  lemma MillionDigits()
    ensures NatToString(1000000) == "1000000"
  {
    assert NatToString(1) == "1";
    assert NatToString(10) == "10";
    assert NatToString(100) == "100";
    assert NatToString(1000) == "1000";
    assert NatToString(10000) == "10000";
    assert NatToString(100000) == "100000";
  }

  lemma MillionTrimmed()
    ensures TrimZeros("1000000") == "1"
  {
    assert "10"[..1] == "1";
    assert TrimZeros("10") == "1";
    assert "100"[..2] == "10";
    assert TrimZeros("100") == "1";
    assert "1000"[..3] == "100";
    assert TrimZeros("1000") == "1";
    assert "10000"[..4] == "1000";
    assert TrimZeros("10000") == "1";
    assert "100000"[..5] == "10000";
    assert TrimZeros("100000") == "1";
    assert "1000000"[..6] == "100000";
  }

  /** From a million on, `%v` switches to the exponent form. */
  lemma MillionFormat()
    ensures FormatWholeFloat(1000000) == "1e+06"
  {
    MillionDigits();
    MillionTrimmed();
    ExponentSix();
    assert "1" + "e+06" == "1e+06";
  }

  lemma ExponentSix()
    ensures ExponentText(6) == "e+06"
  {
    assert NatToString(6) == "6";
  }

  lemma OneAndAHalfMillionDigits()
    ensures NatToString(1500000) == "1500000"
  {
    assert NatToString(1) == "1";
    assert NatToString(15) == "15";
    assert NatToString(150) == "150";
    assert NatToString(1500) == "1500";
    assert NatToString(15000) == "15000";
    assert NatToString(150000) == "150000";
  }

  lemma OneAndAHalfMillionTrimmed()
    ensures TrimZeros("1500000") == "15"
  {
    assert "150"[..2] == "15";
    assert TrimZeros("150") == "15";
    assert "1500"[..3] == "150";
    assert TrimZeros("1500") == "15";
    assert "15000"[..4] == "1500";
    assert TrimZeros("15000") == "15";
    assert "150000"[..5] == "15000";
    assert TrimZeros("150000") == "15";
    assert "1500000"[..6] == "150000";
  }

  /** The significant digits after the first follow a '.'. */
  lemma FractionFormat()
    ensures FormatWholeFloat(1500000) == "1.5e+06"
  {
    OneAndAHalfMillionDigits();
    OneAndAHalfMillionTrimmed();
    ExponentSix();
    assert "1" + "." + "5" + "e+06" == "1.5e+06";
  }
}
