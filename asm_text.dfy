/** Text building blocks shared by every emitter of the code generator:
    the MIN macro, the parameter-register table, the width of size_t and
    the decimal rendering that printf's %d / %zu conversions produce. */
module AsmText {

  /** The modulus of a 64-bit size_t. */
  const SIZE_MODULUS: int := 0x1_0000_0000_0000_0000

  /** A value of C's size_t on the 64-bit target. */
  type SizeT = n: nat | n < 0x1_0000_0000_0000_0000

  /** The MIN(a, b) macro. */
  function Min(a: int, b: int): (r: int)
    ensures r <= a && r <= b
    ensures r == a || r == b
  {
    if a < b then a else b
  }

  /** The `record` table: integer argument registers in the order of
      section 3.2.3 of the System V AMD64 psABI. */
  const RECORD: seq<string> := ["%rdi", "%rsi", "%rdx", "%rcx", "%r8", "%r9"]

  /** The six register names are pairwise different, so writing one of
      them never disturbs another. */
  lemma RecordDistinct(j: nat, k: nat)
    requires j < 6 && k < 6 && j != k
    ensures RECORD[j] != RECORD[k]
  {
    assert RECORD[j][|RECORD[j]| - 1] != RECORD[k][|RECORD[k]| - 1] || |RECORD[j]| != |RECORD[k]|
      || RECORD[j][2] != RECORD[k][2];
  }

  function DigitChar(d: nat): (c: char)
    requires d < 10
    ensures '0' <= c <= '9'
  {
    ('0' as int + d) as char
  }

  /** The number a string of decimal digits denotes, most significant
      digit first. */
  function DigitsValue(s: string): nat
    requires forall i :: 0 <= i < |s| ==> '0' <= s[i] <= '9'
    decreases |s|
  {
    if s == [] then 0
    else 10 * DigitsValue(s[..|s| - 1]) + (s[|s| - 1] as int - '0' as int)
  }

  /** Decimal rendering of a natural number, as printf's %d and %zu write
      it: digits that denote `n`, without leading zeros. */
  function Decimal(n: nat): (s: string)
    ensures 1 <= |s|
    ensures n >= 10 <==> 2 <= |s|
    ensures forall i :: 0 <= i < |s| ==> '0' <= s[i] <= '9'
    ensures DigitsValue(s) == n
    ensures |s| > 1 ==> s[0] != '0'
    decreases n
  {
    if n < 10 then [DigitChar(n)]
    else
      var init := Decimal(n / 10);
      var s := init + [DigitChar(n % 10)];
      assert s[..|s| - 1] == init;
      s
  }

  /** Different numbers render differently: each rendering denotes its
      own number. */
  lemma DecimalInjective(a: nat, b: nat)
    requires Decimal(a) == Decimal(b)
    ensures a == b
  {
  }
}
