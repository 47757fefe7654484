/** Player colours: `#${Math.floor(Math.random()*16777215).toString(16)}`.
    The random number is the input; `toString(16)` is written out as
    lower-case hexadecimal without leading zeros. */
module Colors {

  /** `Math.floor(Math.random() * 16777215)`: 0 up to 0xFFFFFE. */
  type ColorDraw = n: nat | n < 16777215

  predicate IsHexDigit(c: char) {
    '0' <= c <= '9' || 'a' <= c <= 'f'
  }

  function HexDigit(d: nat): (c: char)
    requires d < 16
    ensures IsHexDigit(c)
  {
    if d < 10 then ('0' as int + d) as char else ('a' as int + d - 10) as char
  }

  function DigitValue(c: char): (d: nat)
    requires IsHexDigit(c)
    ensures d < 16
  {
    if '0' <= c <= '9' then c as int - '0' as int else 10 + (c as int - 'a' as int)
  }

  /** `n.toString(16)` for a non-negative integer. */
  function ToHex(n: nat): (s: string)
    ensures |s| >= 1
    ensures forall i :: 0 <= i < |s| ==> IsHexDigit(s[i])
    decreases n
  {
    if n < 16 then [HexDigit(n)] else ToHex(n / 16) + [HexDigit(n % 16)]
  }

  /** The number a hexadecimal string denotes. */
  function FromHex(s: string): nat
    requires forall i :: 0 <= i < |s| ==> IsHexDigit(s[i])
  {
    if |s| == 0 then 0 else FromHex(s[..|s| - 1]) * 16 + DigitValue(s[|s| - 1])
  }

  /** Reading the hexadecimal text back gives the number. */
  lemma {:induction false} FromHexToHex(n: nat)
    ensures FromHex(ToHex(n)) == n
    decreases n
  {
    var s := ToHex(n);
    if n < 16 {
      assert s[..0] == [];
    } else {
      FromHexToHex(n / 16);
      assert s[..|s| - 1] == ToHex(n / 16);
    }
  }

  /** No leading zero, and at most `k` digits below `16^k`. */
  lemma {:induction false} ToHexShape(n: nat, k: nat)
    requires n < Pow16(k)
    ensures n > 0 ==> ToHex(n)[0] != '0'
    ensures |ToHex(n)| <= if k == 0 then 1 else k
    decreases n
  {
    if n >= 16 {
      assert k >= 2;
      ToHexShape(n / 16, k - 1);
    }
  }

  function Pow16(k: nat): (p: nat)
    ensures p >= 1
  {
    if k == 0 then 1 else 16 * Pow16(k - 1)
  }

  /** The colour string a player receives. */
  function ColorString(draw: ColorDraw): (c: string)
    ensures 2 <= |c| <= 7
    ensures c[0] == '#'
    ensures forall i :: 1 <= i < |c| ==> IsHexDigit(c[i])
    ensures FromHex(c[1..]) == draw
    ensures draw > 0 ==> c[1] != '0'
    ensures draw == 0 ==> c == "#0"
  {
    assert Pow16(6) == 16777216;
    ToHexShape(draw, 6);
    FromHexToHex(draw);
    var c := "#" + ToHex(draw);
    assert c[1..] == ToHex(draw);
    c
  }
}
