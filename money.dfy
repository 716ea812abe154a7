/**
 * `formatar_moeda`: `f"R$ {valor:.2f}"` with every '.' replaced by ',', giving the
 * Brazilian-style "R$ 12,34". The amount is given in whole cents; there is no thousands
 * separator.
 */
module Money {
  import opened Wrappers
  import opened Decimal

  /** The text holds no '.'. */
  predicate NoDot(s: string) {
    forall i :: 0 <= i < |s| ==> s[i] != '.'
  }

  lemma NoDotConcat(a: string, b: string)
    requires NoDot(a) && NoDot(b)
    ensures NoDot(a + b)
  {
    forall i | 0 <= i < |a + b|
      ensures (a + b)[i] != '.'
    {
      if i >= |a| { assert (a + b)[i] == b[i - |a|]; }
    }
  }

  lemma DigitsHaveNoDot(s: string)
    requires AllDigits(s)
    ensures NoDot(s)
  {
    forall i | 0 <= i < |s|
      ensures s[i] != '.'
    {
      assert IsDigit(s[i]);
    }
  }

  /** The unsigned part of the text: the whole reais, ',' and two digits of cents. */
  function Magnitude(a: nat): (m: string)
    ensures 4 <= |m| && m[|m| - 3] == ',' && IsDigit(m[|m| - 2]) && IsDigit(m[|m| - 1])
    ensures IsDigit(m[0])
  {
    NatToString(a / 100) + "," + Pad2(a % 100)
  }

  /** The amount after "R$ ": a '-' for negatives, then the magnitude. */
  function SignedAmount(cents: int): (t: string)
    ensures 4 <= |t| && (t[0] == '-' <==> cents < 0)
    ensures t[|t| - 3] == ',' && IsDigit(t[|t| - 2]) && IsDigit(t[|t| - 1])
  {
    if cents < 0 then "-" + Magnitude(-cents) else Magnitude(cents)
  }

  /** The formatted amount: "R$ ", a '-' for negatives, the whole reais, ',' and two digits of cents. */
  function FormatBRL(cents: int): (s: string)
    ensures 7 <= |s| && s[..3] == "R$ "
    ensures s[|s| - 3] == ',' && IsDigit(s[|s| - 2]) && IsDigit(s[|s| - 1])
  {
    var t := SignedAmount(cents);
    var s := "R$ " + t;
    assert s[..3] == "R$ ";
    assert s[|s| - 3..] == t[|t| - 3..];
    s
  }

  lemma MagnitudeHasNoDot(a: nat)
    ensures NoDot(Magnitude(a))
  {
    var w, p := NatToString(a / 100), Pad2(a % 100);
    DigitsHaveNoDot(w);
    DigitsHaveNoDot(p);
    NoDotConcat(w, ",");
    NoDotConcat(w + ",", p);
  }

  lemma SignedAmountHasNoDot(cents: int)
    ensures NoDot(SignedAmount(cents))
  {
    if cents < 0 {
      MagnitudeHasNoDot(-cents);
      NoDotConcat("-", Magnitude(-cents));
    } else {
      MagnitudeHasNoDot(cents);
    }
  }

  /** Every '.' that Python's `.2f` writes has become ',': the text holds no '.'. */
  lemma FormatBRLHasNoDot(cents: int)
    ensures NoDot(FormatBRL(cents))
  {
    SignedAmountHasNoDot(cents);
    NoDotConcat("R$ ", SignedAmount(cents));
  }

  /** Reads "R$ [-]D+,DD" back into cents; None for any other text. */
  function ParseBRL(s: string): Option<int> {
    if 7 <= |s| && s[..3] == "R$ " then ParseSigned(s[3..]) else None
  }

  /** Reads "[-]D+,DD" into cents. */
  function ParseSigned(t: string): Option<int>
    requires 1 <= |t|
  {
    if t[0] == '-' then
      match ParseMagnitude(t[1..])
      case Some(total) => Some(-total)
      case None => None
    else
      ParseMagnitude(t)
  }

  /** Reads "D+,DD" into cents. */
  function ParseMagnitude(m: string): Option<int> {
    if 4 <= |m| && m[|m| - 3] == ',' then
      match (ParseNat(m[..|m| - 3]), ParseNat(m[|m| - 2..]))
      case (Some(whole), Some(fraction)) => Some(whole * 100 + fraction)
      case _ => None
    else
      None
  }

  /** The magnitude is read back as the number of cents it was written from. */
  lemma ParseMagnitudeOf(a: nat)
    ensures ParseMagnitude(Magnitude(a)) == Some(a)
  {
    var w, p := NatToString(a / 100), Pad2(a % 100);
    var m := w + ("," + p);
    assert Magnitude(a) == m;
    assert |m| - 3 == |w|;
    assert m[..|w|] == w;
    assert m[|w| + 1..] == p;
    ParseNatOfNatToString(a / 100);
    assert ParseNat(p) == Some(a % 100);
  }

  /** A '-' before a magnitude negates what it reads as. */
  lemma ParseNegated(m: string, n: nat)
    requires ParseMagnitude(m) == Some(n)
    ensures ParseSigned("-" + m) == Some(-(n as int))
  {
    assert ("-" + m)[1..] == m;
  }

  /** The signed amount is read back as the cents it was written from. */
  lemma ParseSignedOf(cents: int)
    ensures ParseSigned(SignedAmount(cents)) == Some(cents)
  {
    if cents < 0 {
      ParseMagnitudeOf(-cents);
      ParseNegated(Magnitude(-cents), -cents);
    } else {
      ParseMagnitudeOf(cents);
    }
  }

  /** The formatted text determines the amount: reading it back gives the same number of cents. */
  lemma ParseFormatBRL(cents: int)
    ensures ParseBRL(FormatBRL(cents)) == Some(cents)
  {
    ParseSignedOf(cents);
    assert FormatBRL(cents)[3..] == SignedAmount(cents);
  }

  /** Different amounts never print alike. */
  lemma FormatBRLInjective(c: int, d: int)
    requires FormatBRL(c) == FormatBRL(d)
    ensures c == d
  {
    ParseFormatBRL(c);
    ParseFormatBRL(d);
  }

  /** R$ 105,00 is how 105 reais prints. */
  lemma FormatExample()
    ensures FormatBRL(10500) == "R$ 105,00"
  {
    assert NatToString(10) == "10";
    assert NatToString(105) == "105";
    assert Pad2(0) == "00";
    assert Magnitude(10500) == "105,00";
  }
}
