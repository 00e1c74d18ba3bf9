/**
  The client's fallback colour: `'#'` followed by the random integer written
  in lower-case hexadecimal and left-padded with `'0'` to six digits, as
  `Number.prototype.toString(16)` and `String.prototype.padStart` produce it.
 */
module HexColor {

  /**
    The integer `Math.floor(Math.random() * 0xFFFFFF)` can yield: since the
    random value lies in [0, 1), the result lies in [0, 0xFFFFFF).
   */
  type Rand24 = n: nat | n < 0xFF_FFFF

  const HexDigits := "0123456789abcdef"

  predicate IsLowerHexDigit(c: char) {
    '0' <= c <= '9' || 'a' <= c <= 'f'
  }

  predicate AllLowerHex(s: string) {
    forall i :: 0 <= i < |s| ==> IsLowerHexDigit(s[i])
  }

  /** The value of one hexadecimal digit character. */
  function DigitValue(c: char): (v: nat)
    requires IsLowerHexDigit(c)
    ensures v < 16
  {
    if c <= '9' then c as int - '0' as int else c as int - 'a' as int + 10
  }

  /** The lower-case digit character for a value below 16. */
  function DigitChar(d: nat): (c: char)
    requires d < 16
    ensures IsLowerHexDigit(c) && DigitValue(c) == d
  {
    HexDigits[d]
  }

  /** The value of a string of hexadecimal digits, most significant first. */
  function ParseHex(s: string): nat
    requires AllLowerHex(s)
    decreases |s|
  {
    if s == [] then 0 else ParseHex(s[..|s| - 1]) * 16 + DigitValue(s[|s| - 1])
  }

  function Pow16(k: nat): (p: nat)
    ensures p >= 1
  {
    if k == 0 then 1 else 16 * Pow16(k - 1)
  }

  /** `n.toString(16)`: the shortest lower-case hexadecimal numeral for `n`. */
  function ToHexString(n: nat): (s: string)
    ensures 1 <= |s| && AllLowerHex(s)
    ensures |s| > 1 ==> s[0] != '0'
    decreases n
  {
    if n < 16 then [DigitChar(n)] else ToHexString(n / 16) + [DigitChar(n % 16)]
  }

  /** `s.padStart(width, fill)`: prefix `fill` until `s` is `width` long. */
  function PadStart(s: string, width: nat, fill: char): (r: string)
    ensures |r| == if |s| < width then width else |s|
    ensures r[|r| - |s|..] == s
    ensures forall i :: 0 <= i < |r| - |s| ==> r[i] == fill
  {
    if |s| >= width then s else seq(width - |s|, _ => fill) + s
  }

  /** Reading a numeral back gives the number it was written from. */
  lemma {:induction false} ParseToHex(n: nat)
    ensures ParseHex(ToHexString(n)) == n
    decreases n
  {
    if n >= 16 {
      ParseToHex(n / 16);
      var s := ToHexString(n);
      assert s[..|s| - 1] == ToHexString(n / 16);
    }
  }

  /** A number below `16^k` needs at most `k` hexadecimal digits. */
  lemma {:induction false} ToHexLength(n: nat, k: nat)
    requires 1 <= k && n < Pow16(k)
    ensures |ToHexString(n)| <= k
    decreases n
  {
    if n >= 16 {
      ToHexLength(n / 16, k - 1);
    }
  }

  /** Leading zero digits do not change the value of a numeral. */
  lemma {:induction false} LeadingZeros(z: string, s: string)
    requires AllLowerHex(s)
    requires forall i :: 0 <= i < |z| ==> z[i] == '0'
    ensures AllLowerHex(z + s)
    ensures ParseHex(z + s) == ParseHex(s)
    decreases |s|
  {
    assert AllLowerHex(z + s) by {
      forall i | 0 <= i < |z + s|
        ensures IsLowerHexDigit((z + s)[i])
      {
        if i >= |z| {
          assert (z + s)[i] == s[i - |z|];
        }
      }
    }
    if s == [] {
      assert z + s == z;
      ZerosParseToZero(z);
    } else {
      var init := s[..|s| - 1];
      LeadingZeros(z, init);
      assert (z + s)[..|z + s| - 1] == z + init;
    }
  }

  lemma {:induction false} ZerosParseToZero(z: string)
    requires forall i :: 0 <= i < |z| ==> z[i] == '0'
    ensures AllLowerHex(z) && ParseHex(z) == 0
    decreases |z|
  {
    if z != [] {
      ZerosParseToZero(z[..|z| - 1]);
    }
  }

  /** Six-digit zero padding of the numeral of `n` reads back as `n`. */
  lemma PaddedNumeral(n: nat)
    requires n < Pow16(6)
    ensures |PadStart(ToHexString(n), 6, '0')| == 6
    ensures AllLowerHex(PadStart(ToHexString(n), 6, '0'))
    ensures ParseHex(PadStart(ToHexString(n), 6, '0')) == n
  {
    var digits := ToHexString(n);
    ParseToHex(n);
    ToHexLength(n, 6);
    var padded := PadStart(digits, 6, '0');
    var zeros := padded[..|padded| - |digits|];
    LeadingZeros(zeros, digits);
    assert padded == zeros + digits;
  }

  /**
    `randomColorFallback`: `'#'` and exactly six lower-case hexadecimal
    digits that read back as the random integer drawn.
   */
  function RandomColorFallback(n: Rand24): (r: string)
    ensures |r| == 7 && r[0] == '#'
    ensures AllLowerHex(r[1..])
    ensures ParseHex(r[1..]) == n
  {
    var padded := PadStart(ToHexString(n), 6, '0');
    PaddedNumeral(n);
    assert ("#" + padded)[1..] == padded;
    "#" + padded
  }

  /** Distinct random draws give distinct colours, and white is never drawn. */
  lemma FallbackInjectiveNeverWhite(n: Rand24, m: Rand24)
    ensures n != m ==> RandomColorFallback(n) != RandomColorFallback(m)
    ensures RandomColorFallback(n) != "#ffffff"
  {
    var w := "ffffff";
    assert AllLowerHex(w);
    assert ParseHex(w) == 0xFF_FFFF by {
      assert "f"[..0] == "";
      assert ParseHex("f") == 0xF;
      assert "ff"[..1] == "f";
      assert ParseHex("ff") == 0xFF;
      assert "fff"[..2] == "ff";
      assert ParseHex("fff") == 0xFFF;
      assert "ffff"[..3] == "fff";
      assert ParseHex("ffff") == 0xFFFF;
      assert "fffff"[..4] == "ffff";
      assert ParseHex("fffff") == 0xF_FFFF;
      assert w[..5] == "fffff";
    }
    assert "#ffffff"[1..] == w;
  }
}
