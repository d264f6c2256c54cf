/**
 * Incident identifiers: the text `INC-<n>`, where `<n>` is n written in
 * decimal as Python's `str(n)` writes a non-negative integer.
 */
module IdFormat {

  const ID_PREFIX: string := "INC-"

  /** The number of the first incident created in an empty store. */
  const ID_BASE: nat := 1000

  predicate IsDigit(c: char) {
    '0' <= c <= '9'
  }

  function DigitChar(d: nat): (c: char)
    requires d < 10
    ensures IsDigit(c) && (c as int) - ('0' as int) == d
  {
    ('0' as int + d) as char
  }

  function DigitValue(c: char): nat {
    if IsDigit(c) then (c as int) - ('0' as int) else 0
  }

  /** The decimal text of n: digits only, no leading zero unless n is 0. */
  function Decimal(n: nat): (s: string)
    ensures |s| > 0
    ensures forall i :: 0 <= i < |s| ==> IsDigit(s[i])
    ensures (s[0] == '0') <==> n == 0
    decreases n
  {
    if n < 10 then [DigitChar(n)] else Decimal(n / 10) + [DigitChar(n % 10)]
  }

  /** The number a string of decimal digits denotes (most significant first). */
  function ParseDecimal(s: string): nat {
    if s == [] then 0 else ParseDecimal(s[..|s| - 1]) * 10 + DigitValue(s[|s| - 1])
  }

  /** Reading back the decimal text of n gives n. */
  lemma {:induction false} ParseDecimalOfDecimal(n: nat)
    ensures ParseDecimal(Decimal(n)) == n
    decreases n
  {
    var s := Decimal(n);
    if n < 10 {
      assert s[..|s| - 1] == [];
    } else {
      assert s[..|s| - 1] == Decimal(n / 10);
      ParseDecimalOfDecimal(n / 10);
    }
  }

  /** The identifier `INC-<n>` given to an incident numbered n. */
  function IdString(n: nat): (s: string)
    ensures |s| > |ID_PREFIX| && s[..|ID_PREFIX|] == ID_PREFIX
    ensures forall i :: |ID_PREFIX| <= i < |s| ==> IsDigit(s[i])
  {
    ID_PREFIX + Decimal(n)
  }

  /** Two incident numbers give the same identifier exactly when they are equal. */
  lemma IdStringInjective(a: nat, b: nat)
    ensures IdString(a) == IdString(b) <==> a == b
  {
    if IdString(a) == IdString(b) {
      assert IdString(a)[|ID_PREFIX|..] == Decimal(a);
      assert IdString(b)[|ID_PREFIX|..] == Decimal(b);
      ParseDecimalOfDecimal(a);
      ParseDecimalOfDecimal(b);
    }
  }
}
