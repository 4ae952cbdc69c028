/** Bytes, hexadecimal and decimal text, and whitespace trimming. */
module Text {

  datatype Option<+T> = None | Some(value: T)

  type byte = b: int | 0 <= b < 256

  /** Bytes read as text, one character per byte. */
  function Chars(bs: seq<byte>): (s: string)
    ensures |s| == |bs| && forall i :: 0 <= i < |bs| ==> s[i] == bs[i] as char
  {
    seq(|bs|, i requires 0 <= i < |bs| => bs[i] as char)
  }

  predicate Latin(s: string)
  {
    forall i :: 0 <= i < |s| ==> s[i] as int < 256
  }

  function Bytes(s: string): (bs: seq<byte>)
    requires Latin(s)
    ensures |bs| == |s| && forall i :: 0 <= i < |s| ==> bs[i] == s[i] as int
  {
    seq(|s|, i requires 0 <= i < |s| => s[i] as int)
  }

  lemma CharsOfBytes(s: string)
    requires Latin(s)
    ensures Chars(Bytes(s)) == s
  {
  }

  // ----- hexadecimal

  function HexDigit(n: nat): (c: char)
    requires n < 16
    ensures if n < 10 then c == '0' + n as char else c == 'a' + (n - 10) as char
  {
    if n < 10 then '0' + n as char else 'a' + (n - 10) as char
  }

  function Hex(bs: seq<byte>): (s: string)
    ensures |s| == 2 * |bs|
  {
    seq(2 * |bs|, k requires 0 <= k < 2 * |bs| => HexDigit(if k % 2 == 0 then bs[k / 2] / 16 else bs[k / 2] % 16))
  }

  predicate IsHexDigit(c: char)
  {
    '0' <= c <= '9' || 'a' <= c <= 'f'
  }

  lemma HexAt(bs: seq<byte>, i: nat)
    requires i < |bs|
    ensures Hex(bs)[2 * i] == HexDigit(bs[i] / 16) && Hex(bs)[2 * i + 1] == HexDigit(bs[i] % 16)
  {
    assert (2 * i) % 2 == 0 && (2 * i) / 2 == i && (2 * i + 1) % 2 == 1 && (2 * i + 1) / 2 == i;
  }

  lemma HexIsHex(bs: seq<byte>)
    ensures forall i :: 0 <= i < |Hex(bs)| ==> IsHexDigit(Hex(bs)[i])
  {
  }

  lemma DigitInjective(m: nat, n: nat)
    requires m < 16 && n < 16 && HexDigit(m) == HexDigit(n)
    ensures m == n
  {
  }

  lemma HexInjectiveAt(a: seq<byte>, b: seq<byte>, i: nat)
    requires Hex(a) == Hex(b) && i < |a| == |b|
    ensures a[i] == b[i]
  {
    HexAt(a, i);
    HexAt(b, i);
    DigitInjective(a[i] / 16, b[i] / 16);
    DigitInjective(a[i] % 16, b[i] % 16);
  }

  lemma HexInjective(a: seq<byte>, b: seq<byte>)
    requires Hex(a) == Hex(b)
    ensures a == b
  {
    assert |Hex(a)| == |Hex(b)|;
    forall i | 0 <= i < |a| ensures a[i] == b[i] {
      HexInjectiveAt(a, b, i);
    }
  }

  function HexValue(c: char): (n: nat)
    requires IsHexDigit(c)
    ensures n < 16 && HexDigit(n) == c
  {
    if c <= '9' then c as int - '0' as int else 10 + (c as int - 'a' as int)
  }

  predicate IsHexText(s: string)
  {
    |s| % 2 == 0 && forall i :: 0 <= i < |s| ==> IsHexDigit(s[i])
  }

  function Unhex(s: string): (bs: seq<byte>)
    requires IsHexText(s)
    ensures |bs| == |s| / 2
    ensures forall i :: 0 <= i < |bs| ==> bs[i] == 16 * HexValue(s[2 * i]) + HexValue(s[2 * i + 1])
  {
    seq(|s| / 2, i requires 0 <= i < |s| / 2 => 16 * HexValue(s[2 * i]) + HexValue(s[2 * i + 1]))
  }

  lemma Nibbles(hi: nat, lo: nat)
    requires hi < 16 && lo < 16
    ensures (16 * hi + lo) / 16 == hi && (16 * hi + lo) % 16 == lo
  {
  }

  lemma HexOfUnhexAt(s: string, i: nat)
    requires IsHexText(s) && i < |s| / 2
    ensures Hex(Unhex(s))[2 * i] == s[2 * i] && Hex(Unhex(s))[2 * i + 1] == s[2 * i + 1]
  {
    HexAt(Unhex(s), i);
    Nibbles(HexValue(s[2 * i]), HexValue(s[2 * i + 1]));
  }

  lemma HexOfUnhex(s: string)
    requires IsHexText(s)
    ensures Hex(Unhex(s)) == s
  {
    var t := Hex(Unhex(s));
    forall k | 0 <= k < |s| ensures t[k] == s[k] {
      HexOfUnhexAt(s, k / 2);
      assert k == 2 * (k / 2) || k == 2 * (k / 2) + 1;
    }
  }

  lemma UnhexOfHex(bs: seq<byte>)
    ensures IsHexText(Hex(bs)) && Unhex(Hex(bs)) == bs
  {
    HexIsHex(bs);
    HexOfUnhex(Hex(bs));
    HexInjective(Unhex(Hex(bs)), bs);
  }

  // ----- decimal

  predicate IsDigit(c: char)
  {
    '0' <= c <= '9'
  }

  function Dec(n: nat): (s: string)
    ensures s != "" && forall i :: 0 <= i < |s| ==> IsDigit(s[i])
  {
    if n < 10 then ['0' + n as char] else Dec(n / 10) + ['0' + (n % 10) as char]
  }

  function ParseDec(s: string): nat
    requires forall i :: 0 <= i < |s| ==> IsDigit(s[i])
  {
    if s == "" then 0
    else
      var last := s[|s| - 1];
      assert IsDigit(last);
      10 * ParseDec(s[..|s| - 1]) + (last as int - '0' as int)
  }

  lemma {:induction false} ParseDecOfDec(n: nat)
    ensures ParseDec(Dec(n)) == n
  {
    if n < 10 {
      assert Dec(n)[..0] == "";
    } else {
      ParseDecOfDec(n / 10);
      assert Dec(n)[..|Dec(n)| - 1] == Dec(n / 10);
    }
  }

  /** 10 to the power `d`. */
  function Pow10(d: nat): nat
  {
    if d == 0 then 1 else 10 * Pow10(d - 1)
  }

  lemma {:induction false} DecLength(n: nat, d: nat)
    requires d > 0 && n < Pow10(d)
    ensures |Dec(n)| <= d
  {
    if n >= 10 {
      assert n / 10 < Pow10(d - 1);
      DecLength(n / 10, d - 1);
    }
  }

  // ----- trimming

  /** White space as defined by the Unicode White_Space property. */
  predicate IsSpace(c: char)
  {
    var x := c as int;
    || 9 <= x <= 13 || x == 32 || x == 0x85 || x == 0xA0 || x == 0x1680 || 0x2000 <= x <= 0x200A
    || x == 0x2028 || x == 0x2029 || x == 0x202F || x == 0x205F || x == 0x3000
  }

  function TrimSpace(s: string): (t: string)
    ensures |t| <= |s|
    ensures t != "" ==> !IsSpace(t[0]) && !IsSpace(t[|t| - 1])
    ensures s != "" && !IsSpace(s[0]) && !IsSpace(s[|s| - 1]) ==> t == s
    decreases |s|
  {
    if s == "" then ""
    else if IsSpace(s[0]) then TrimSpace(s[1..])
    else if IsSpace(s[|s| - 1]) then TrimSpace(s[..|s| - 1])
    else s
  }

  predicate Blank(s: string)
  {
    TrimSpace(s) == ""
  }

  lemma {:induction false} NotBlank(s: string, i: nat)
    requires i < |s| && !IsSpace(s[i])
    ensures !Blank(s)
    decreases |s|
  {
    if IsSpace(s[0]) {
      assert s[1..][i - 1] == s[i];
      NotBlank(s[1..], i - 1);
    } else if IsSpace(s[|s| - 1]) {
      assert s[..|s| - 1][i] == s[i];
      NotBlank(s[..|s| - 1], i);
    }
  }

  // ----- lower case

  /** Lower case, exactly for every character whose lower case is an ASCII letter. */
  function LowerChar(c: char): char
  {
    if 'A' <= c <= 'Z' then ((c as int) + 32) as char
    else if c as int == 0x130 then 'i'
    else if c as int == 0x212A then 'k'
    else c
  }

  function ToLower(s: string): (t: string)
    ensures |t| == |s|
  {
    seq(|s|, i requires 0 <= i < |s| => LowerChar(s[i]))
  }
}
