/** The NPY codec for float32 vectors: header text, shape search and little-endian body. */
module Npy {
  import opened Text

  /** A float32 by its bit pattern. */
  type F32 = x: int | 0 <= x < 0x1_0000_0000

  /** The exponent field is not all ones. */
  predicate Finite(v: F32)
  {
    (v / 0x80_0000) % 256 != 255
  }

  predicate AllFinite(vs: seq<F32>)
  {
    forall i :: 0 <= i < |vs| ==> Finite(vs[i])
  }

  const MAX_INT := 0x7FFF_FFFF_FFFF_FFFF
  const MAX_HEADER := 65535

  const MAGIC: seq<byte> := [0x93, 0x4E, 0x55, 0x4D, 0x50, 0x59]

  datatype Error = NotNpy | TruncatedHeader | UnsupportedVersion | HeaderLength | WrongDType | FortranOrder
                 | NotOneDimensional | VectorLength | BodyLength | NonFinite | EmptyVector | HeaderTooLarge

  datatype Result<T> = Ok(value: T) | Err(error: Error)

  // ----- little-endian fields

  function LE16(b: seq<byte>): nat
    requires |b| == 2
  {
    (b[0] as int) + 256 * (b[1] as int)
  }

  function LE32(b: seq<byte>): F32
    requires |b| == 4
  {
    (b[0] as int) + 256 * (b[1] as int) + 0x1_0000 * (b[2] as int) + 0x100_0000 * (b[3] as int)
  }

  function PutLE16(n: nat): (b: seq<byte>)
    requires n < 0x1_0000
    ensures |b| == 2 && LE16(b) == n
  {
    [n % 256, n / 256]
  }

  function PutLE32(n: F32): (b: seq<byte>)
    ensures |b| == 4
  {
    [n % 256, n / 256 % 256, n / 0x1_0000 % 256, n / 0x100_0000]
  }

  lemma LE32OfPut(n: F32)
    ensures LE32(PutLE32(n)) == n
  {
    var q := n / 256;
    var r := q / 256;
    assert n / 0x1_0000 == r && n / 0x100_0000 == r / 256;
  }

  // ----- header text

  predicate At(h: string, i: nat, p: string)
  {
    i + |p| <= |h| && h[i..i + |p|] == p
  }

  predicate Contains(h: string, p: string)
  {
    exists i :: 0 <= i <= |h| && At(h, i, p)
  }

  predicate IsQuote(c: char)
  {
    c == '\'' || c == '"'
  }

  /** White space of the shape pattern: tab, newline, form feed, carriage return, blank. */
  predicate PatternSpace(c: char)
  {
    c == '\t' || c == '\n' || c as int == 12 || c == '\r' || c == ' '
  }

  function SkipSpaces(h: string, i: nat): (j: nat)
    requires i <= |h|
    ensures i <= j <= |h|
    decreases |h| - i
  {
    if i < |h| && PatternSpace(h[i]) then SkipSpaces(h, i + 1) else i
  }

  function SkipDigits(h: string, i: nat): (j: nat)
    requires i <= |h|
    ensures i <= j <= |h| && forall k :: i <= k < j ==> IsDigit(h[k])
    decreases |h| - i
  {
    if i < |h| && IsDigit(h[i]) then SkipDigits(h, i + 1) else i
  }

  /** After optional spaces comes `c`; the result is the position behind it. */
  function SkipChar(h: string, i: nat, c: char): (j: Option<nat>)
    requires i <= |h|
    ensures j.Some? ==> i < j.value <= |h|
  {
    var k := SkipSpaces(h, i);
    if k < |h| && h[k] == c then Some(k + 1) else None
  }

  /** Matches the shape pattern at `i`: a quoted `shape`, a colon, and one decimal number
      followed by a comma in parentheses. The result is the number's text. */
  function MatchShape(h: string, i: nat): (r: Option<string>)
    ensures r.Some? ==> r.value != "" && forall k :: 0 <= k < |r.value| ==> IsDigit(r.value[k])
  {
    if !(i + 7 <= |h| && IsQuote(h[i]) && h[i + 1] == 's' && At(h, i + 1, "shape") && IsQuote(h[i + 6])) then None
    else
      var colon := SkipChar(h, i + 7, ':');
      if colon.None? then None
      else
        var open := SkipChar(h, colon.value, '(');
        if open.None? then None
        else
          var end := SkipDigits(h, open.value);
          if end == open.value then None
          else
            var comma := SkipChar(h, end, ',');
            if comma.None? || SkipChar(h, comma.value, ')').None? then None
            else Some(h[open.value..end])
  }

  /** The leftmost match at or after `i`. */
  function FindShape(h: string, i: nat): (r: Option<string>)
    ensures r.Some? ==> r.value != "" && forall k :: 0 <= k < |r.value| ==> IsDigit(r.value[k])
    decreases |h| - i
  {
    if i >= |h| then None
    else if MatchShape(h, i).Some? then MatchShape(h, i)
    else FindShape(h, i + 1)
  }

  predicate FloatDescr(h: string)
  {
    || Contains(h, "'descr': '<f4'") || Contains(h, "\"descr\": \"<f4\"")
    || Contains(h, "'descr': '|f4'") || Contains(h, "\"descr\": \"|f4\"")
  }

  predicate Fortran(h: string)
  {
    Contains(h, "'fortran_order': True") || Contains(h, "\"fortran_order\": True")
  }

  /** The declared vector length, or what is wrong with the header. */
  function HeaderCount(h: string): (r: Result<nat>)
    ensures r.Ok? ==> 0 < r.value <= MAX_INT
  {
    if !FloatDescr(h) then Err(WrongDType)
    else if Fortran(h) then Err(FortranOrder)
    else
      match FindShape(h, 0)
      case None => Err(NotOneDimensional)
      case Some(digits) =>
        var count := ParseDec(digits);
        if count > MAX_INT || count <= 0 then Err(VectorLength) else Ok(count)
  }

  // ----- bodies

  function Floats(body: seq<byte>): (vs: seq<F32>)
    requires |body| % 4 == 0
    ensures |vs| == |body| / 4 && forall i :: 0 <= i < |vs| ==> vs[i] == LE32(body[4 * i..4 * i + 4])
  {
    seq(|body| / 4, i requires 0 <= i < |body| / 4 => LE32(body[4 * i..4 * i + 4]))
  }

  function Body(vs: seq<F32>): (body: seq<byte>)
    ensures |body| == 4 * |vs|
  {
    if vs == [] then [] else Body(vs[..|vs| - 1]) + PutLE32(vs[|vs| - 1])
  }

  lemma {:induction false} BodyAt(vs: seq<F32>, i: nat)
    requires i < |vs|
    ensures Body(vs)[4 * i..4 * i + 4] == PutLE32(vs[i])
  {
    var m := |vs| - 1;
    if i < m {
      BodyAt(vs[..m], i);
      assert Body(vs)[4 * i..4 * i + 4] == Body(vs[..m])[4 * i..4 * i + 4];
    }
  }

  lemma FloatsOfBody(vs: seq<F32>)
    ensures Floats(Body(vs)) == vs
  {
    forall i | 0 <= i < |vs| ensures Floats(Body(vs))[i] == vs[i] {
      BodyAt(vs, i);
      LE32OfPut(vs[i]);
    }
  }

  // ----- decoding

  function DecodeFrom(p: seq<byte>, offset: nat, length: nat): (r: Result<seq<F32>>)
    requires offset <= |p|
    ensures r.Ok? ==> r.value != [] && AllFinite(r.value) && |r.value| <= MAX_INT
  {
    if length == 0 || offset + length > |p| then Err(HeaderLength)
    else
      match HeaderCount(Chars(p[offset..offset + length]))
      case Err(e) => Err(e)
      case Ok(count) =>
        var body := p[offset + length..];
        if |body| != count * 4 then Err(BodyLength)
        else if !AllFinite(Floats(body)) then Err(NonFinite)
        else Ok(Floats(body))
  }

  function Decode(p: seq<byte>): (r: Result<seq<F32>>)
    ensures r.Ok? ==> r.value != [] && AllFinite(r.value) && |r.value| <= MAX_INT
  {
    if |p| < 10 || p[..6] != MAGIC then Err(NotNpy)
    else if p[6] == 1 then DecodeFrom(p, 10, LE16(p[8..10]))
    else if p[6] == 2 || p[6] == 3 then
      if |p| < 12 then Err(TruncatedHeader) else DecodeFrom(p, 12, LE32(p[8..12]))
    else Err(UnsupportedVersion)
  }

  // ----- encoding

  const DESCR := "'descr': '<f4'"
  const ORDER := "'fortran_order'"
  const PREFIX := "{" + DESCR + ", " + ORDER + ": False, "
  const SHAPE := "'shape': ("
  const SUFFIX := ",), }"

  function Spaces(n: nat): (s: string)
    ensures |s| == n && forall i :: 0 <= i < n ==> s[i] == ' '
  {
    seq(n, i => ' ')
  }

  function Padding(length: nat): (n: nat)
    ensures n < 16 && (10 + length + 1 + n) % 16 == 0
  {
    var padding := 16 - (10 + length + 1) % 16;
    if padding == 16 then 0 else padding
  }

  /** The header text up to the padding. */
  function HeaderText(n: nat): string
  {
    PREFIX + SHAPE + Dec(n) + SUFFIX
  }

  function Header(n: nat): string
  {
    HeaderText(n) + Spaces(Padding(|HeaderText(n)|)) + "\n"
  }

  /** ASCII other than a capital T. */
  predicate Plain(s: string)
  {
    forall i :: 0 <= i < |s| ==> s[i] as int < 128 && s[i] != 'T'
  }

  lemma PlainPieces()
    ensures Plain("{") && Plain(DESCR) && Plain(", ") && Plain(ORDER) && Plain(": False, ") && Plain(SHAPE)
  {
  }

  lemma PlainTail(n: nat)
    ensures Plain(SUFFIX) && Plain(Spaces(n)) && Plain("\n") && Plain(Dec(n))
  {
    forall i | 0 <= i < |Dec(n)| ensures Dec(n)[i] as int < 128 && Dec(n)[i] != 'T' {
      assert IsDigit(Dec(n)[i]);
    }
  }

  lemma PlainJoin(a: string, b: string)
    requires Plain(a) && Plain(b)
    ensures Plain(a + b)
  {
  }

  lemma PrefixIsPlain()
    ensures Plain(PREFIX)
  {
    PlainPieces();
    PlainJoin("{", DESCR);
    PlainJoin("{" + DESCR, ", ");
    PlainJoin("{" + DESCR + ", ", ORDER);
    PlainJoin("{" + DESCR + ", " + ORDER, ": False, ");
  }

  lemma HeaderIsPlain(n: nat)
    ensures Plain(Header(n))
  {
    var pad := Padding(|HeaderText(n)|);
    PrefixIsPlain();
    PlainPieces();
    PlainTail(n);
    PlainTail(pad);
    PlainJoin(PREFIX, SHAPE);
    PlainJoin(PREFIX + SHAPE, Dec(n));
    PlainJoin(PREFIX + SHAPE + Dec(n), SUFFIX);
    PlainJoin(HeaderText(n), Spaces(pad));
    PlainJoin(HeaderText(n) + Spaces(pad), "\n");
  }

  function Encode(vs: seq<F32>): (r: Result<seq<byte>>)
  {
    if vs == [] then Err(EmptyVector)
    else if !AllFinite(vs) then Err(NonFinite)
    else
      var h := Header(|vs|);
      HeaderIsPlain(|vs|);
      if |h| > MAX_HEADER then Err(HeaderTooLarge)
      else Ok(MAGIC + [1, 0] + PutLE16(|h|) + Bytes(h) + Body(vs))
  }
}
