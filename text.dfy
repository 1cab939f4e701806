/** Decimal rendering of Java integers (Integer.toString, "%d", "%02d") and its inverse. */
module Text {

  predicate IsDigit(c: char) { '0' <= c <= '9' }

  predicate AllDigits(s: string) { forall i :: 0 <= i < |s| ==> IsDigit(s[i]) }

  /** Text that Integer.toString can produce: an optional minus sign and at least one digit. */
  predicate IsIntText(s: string)
  {
    if |s| > 0 && s[0] == '-' then |s| > 1 && AllDigits(s[1..]) else |s| > 0 && AllDigits(s)
  }

  function DigitChar(d: nat): (c: char)
    requires d < 10
    ensures IsDigit(c) && c as int - '0' as int == d
  {
    ('0' as int + d) as char
  }

  /** Decimal digits of a natural number, without leading zeros. */
  function NatToString(n: nat): string
    decreases n
  {
    if n < 10 then [DigitChar(n)] else NatToString(n / 10) + [DigitChar(n % 10)]
  }

  /** Java's Integer.toString, which is also what "%d" and string concatenation print. */
  function IntToString(i: int): string
  {
    if i < 0 then "-" + NatToString(-i) else NatToString(i)
  }

  /** Two-digit zero padding as Java's "%02d" does it: padded to two characters, the sign counted. */
  function ZeroPad2(i: int): string
  {
    if 0 <= i < 10 then "0" + NatToString(i) else IntToString(i)
  }

  /** The value of a string of decimal digits (leading zeros allowed). */
  function ParseNat(s: string): int
  {
    if s == [] then 0 else ParseNat(s[..|s| - 1]) * 10 + (s[|s| - 1] as int - '0' as int)
  }

  /** The value of an optionally signed decimal numeral, as Integer.parseInt reads it. */
  function ParseInt(s: string): int
  {
    if |s| > 0 && s[0] == '-' then 0 - ParseNat(s[1..]) else ParseNat(s)
  }

  lemma {:induction false} NatToStringDigits(n: nat)
    ensures var s := NatToString(n); |s| >= 1 && AllDigits(s) && (n >= 10 ==> |s| >= 2)
    decreases n
  {
    if n >= 10 {
      NatToStringDigits(n / 10);
    }
  }

  /** Integer.toString prints an optional minus sign and at least one digit. */
  lemma IntToStringIsIntText(i: int)
    ensures IsIntText(IntToString(i))
  {
    var s := IntToString(i);
    if i < 0 {
      NatToStringDigits(-i);
      assert s[1..] == NatToString(-i);
    } else {
      NatToStringDigits(i);
    }
  }

  /** "%02d" prints at least two characters, an optional minus sign and digits. */
  lemma ZeroPad2IsIntText(i: int)
    ensures IsIntText(ZeroPad2(i)) && |ZeroPad2(i)| >= 2
  {
    var s := ZeroPad2(i);
    if 0 <= i < 10 {
      NatToStringDigits(i);
      assert s == "0" + NatToString(i);
      assert forall j :: 0 <= j < |s| ==> s[j] == '0' || s[j] == NatToString(i)[j - 1];
    } else {
      IntToStringIsIntText(i);
      if i < 0 {
        NatToStringDigits(-i);
      } else {
        NatToStringDigits(i);
      }
    }
  }

  lemma {:induction false} ParseNatOfNatToString(n: nat)
    ensures ParseNat(NatToString(n)) == n
    decreases n
  {
    var s := NatToString(n);
    if n >= 10 {
      assert s[..|s| - 1] == NatToString(n / 10);
      ParseNatOfNatToString(n / 10);
    }
  }

  /** Reading back what Integer.toString printed gives the number printed. */
  lemma ParseIntOfIntToString(i: int)
    ensures ParseInt(IntToString(i)) == i
  {
    if i < 0 {
      assert IntToString(i)[1..] == NatToString(-i);
      ParseNatOfNatToString(-i);
    } else {
      NatToStringDigits(i);
      ParseNatOfNatToString(i);
    }
  }

  /** Reading back what "%02d" printed gives the number printed. */
  lemma ParseIntOfZeroPad2(i: int)
    ensures ParseInt(ZeroPad2(i)) == i
  {
    if 0 <= i < 10 {
      var s := ZeroPad2(i);
      assert s[..|s| - 1] == "0";
      assert ParseNat(s[..|s| - 1]) == 0 by {
        assert "0"[..0] == [];
      }
    } else {
      ParseIntOfIntToString(i);
    }
  }

  lemma IntToStringInjective(a: int, b: int)
    requires IntToString(a) == IntToString(b)
    ensures a == b
  {
    ParseIntOfIntToString(a);
    ParseIntOfIntToString(b);
  }

  lemma ZeroPad2Injective(a: int, b: int)
    requires ZeroPad2(a) == ZeroPad2(b)
    ensures a == b
  {
    ParseIntOfZeroPad2(a);
    ParseIntOfZeroPad2(b);
  }
}
