/** Decoding what was encoded returns the same bits, and the loops compute the codec. */
module NpyRoundTrip {
  import opened Text
  import opened Npy

  // ----- the header's shape is found

  predicate NoQuotedS(s: string)
  {
    forall i :: 0 <= i < |s| - 1 ==> !(IsQuote(s[i]) && s[i + 1] == 's')
  }

  lemma NoQuotedSJoin(a: string, b: string)
    requires NoQuotedS(a) && NoQuotedS(b)
    requires a == "" || b == "" || !IsQuote(a[|a| - 1]) || b[0] != 's'
    ensures NoQuotedS(a + b)
  {
  }

  lemma PrefixHasNoQuotedS()
    ensures NoQuotedS(PREFIX) && |PREFIX| == 41 && !IsQuote(PREFIX[40])
  {
    assert NoQuotedS("{") && NoQuotedS(", ");
    assert NoQuotedS(DESCR);
    assert NoQuotedS(ORDER);
    assert NoQuotedS(": False, ");
    NoQuotedSJoin("{", DESCR);
    NoQuotedSJoin("{" + DESCR, ", ");
    NoQuotedSJoin("{" + DESCR + ", ", ORDER);
    NoQuotedSJoin("{" + DESCR + ", " + ORDER, ": False, ");
  }

  lemma {:induction false} SkipDigitsTo(h: string, i: nat, j: nat)
    requires i <= j < |h| && !IsDigit(h[j]) && forall k :: i <= k < j ==> IsDigit(h[k])
    ensures SkipDigits(h, i) == j
    decreases j - i
  {
    if i < j {
      SkipDigitsTo(h, i + 1, j);
    }
  }

  lemma {:induction false} FindShapeAt(h: string, i: nat, k: nat)
    requires i <= k < |h| && MatchShape(h, k).Some?
    requires forall j :: i <= j < k ==> MatchShape(h, j).None?
    ensures FindShape(h, i) == MatchShape(h, k)
    decreases k - i
  {
    if i < k {
      FindShapeAt(h, i + 1, k);
    }
  }

  lemma ShapeText()
    ensures |SHAPE| == 10 && SHAPE[0] == '\'' && SHAPE[1] == 's' && SHAPE[1..6] == "shape"
    ensures SHAPE[6] == '\'' && SHAPE[7] == ':' && SHAPE[8] == ' ' && SHAPE[9] == '('
  {
  }

  /** A header: any 41 characters, the shape keyword, a number, a comma and a parenthesis. */
  predicate ShapedAs(h: string, digits: string)
  {
    && |h| >= 53 + |digits| && h[41..51] == SHAPE && h[51..51 + |digits|] == digits
    && h[51 + |digits|] == ',' && h[52 + |digits|] == ')'
  }

  lemma ShapedOpening(h: string, digits: string)
    requires ShapedAs(h, digits)
    ensures IsQuote(h[41]) && h[42] == 's' && At(h, 42, "shape") && IsQuote(h[47])
    ensures SkipChar(h, 48, ':') == Some(49) && SkipChar(h, 49, '(') == Some(51)
  {
    ShapeText();
    assert forall k :: 0 <= k < 10 ==> h[41 + k] == SHAPE[k];
    assert h[42..47] == SHAPE[1..6];
    assert h[48] == ':' && h[49] == ' ' && h[50] == '(';
    assert SkipSpaces(h, 49) == SkipSpaces(h, 50) == 50;
  }

  lemma ShapedMatches(h: string, digits: string)
    requires ShapedAs(h, digits) && digits != "" && forall k :: 0 <= k < |digits| ==> IsDigit(digits[k])
    ensures MatchShape(h, 41) == Some(digits)
  {
    ShapedOpening(h, digits);
    var end := 51 + |digits|;
    forall k | 51 <= k < end ensures IsDigit(h[k]) {
      assert h[k] == h[51..end][k - 51];
    }
    SkipDigitsTo(h, 51, end);
    assert SkipChar(h, end, ',') == Some(end + 1);
    assert SkipChar(h, end + 1, ')') == Some(end + 2);
  }

  lemma HeaderIsShaped(n: nat)
    ensures ShapedAs(Header(n), Dec(n)) && Header(n)[..41] == PREFIX
  {
    PrefixHasNoQuotedS();
    ShapeText();
    var h, d := Header(n), Dec(n);
    var pad := Spaces(Padding(|HeaderText(n)|)) + "\n";
    assert h == PREFIX + (SHAPE + (d + (SUFFIX + pad)));
    SliceSecond(PREFIX, SHAPE, d + (SUFFIX + pad));
    SliceSecond(PREFIX + SHAPE, d, SUFFIX + pad);
    SliceSecond(PREFIX + SHAPE + d, SUFFIX, pad);
    assert SUFFIX[0] == ',' && SUFFIX[1] == ')' && |SUFFIX| == 5;
    var tail := h[51 + |d|..56 + |d|];
    assert tail == SUFFIX;
    assert h[51 + |d|] == tail[0] && h[52 + |d|] == tail[1];
  }

  lemma SliceSecond(a: string, b: string, c: string)
    ensures (a + b + c)[|a|..|a| + |b|] == b && (a + (b + c)) == (a + b + c) && (a + b + c)[..|a|] == a
  {
  }

  lemma HeaderShapeFound(n: nat)
    ensures FindShape(Header(n), 0) == Some(Dec(n))
  {
    var h := Header(n);
    HeaderIsShaped(n);
    PrefixHasNoQuotedS();
    ShapedMatches(h, Dec(n));
    forall j | 0 <= j < 41 ensures MatchShape(h, j).None? {
      assert h[j] == PREFIX[j];
      if j < 40 {
        assert h[j + 1] == PREFIX[j + 1];
      }
    }
    FindShapeAt(h, 0, 41);
  }

  // ----- the other header tests

  lemma HeaderHasDescr(n: nat)
    ensures FloatDescr(Header(n))
  {
    HeaderIsShaped(n);
    PrefixHasNoQuotedS();
    var h := Header(n);
    assert |DESCR| == 14;
    assert PREFIX[1..15] == DESCR;
    assert h[1..15] == h[..41][1..15];
    assert At(h, 1, DESCR);
  }

  lemma NoCapitalT(h: string, p: string)
    requires Plain(h) && |p| > 17 && p[17] == 'T'
    ensures !Contains(h, p)
  {
    forall i | 0 <= i <= |h| ensures !At(h, i, p) {
      if i + |p| <= |h| {
        assert h[i..i + |p|][17] == h[i + 17];
      }
    }
  }

  lemma HeaderIsNotFortran(n: nat)
    ensures !Fortran(Header(n))
  {
    HeaderIsPlain(n);
    NoCapitalT(Header(n), "'fortran_order': True");
    NoCapitalT(Header(n), "\"fortran_order\": True");
  }

  lemma HeaderCountOfHeader(n: nat)
    requires 0 < n <= MAX_INT
    ensures HeaderCount(Header(n)) == Ok(n)
  {
    HeaderHasDescr(n);
    HeaderIsNotFortran(n);
    HeaderShapeFound(n);
    ParseDecOfDec(n);
  }

  /** The data offset is a multiple of 16 and the header length fits its field. */
  lemma HeaderLengths(n: nat)
    requires n <= MAX_INT
    ensures (10 + |Header(n)|) % 16 == 0 && |Header(n)| <= MAX_HEADER
  {
    PowerOfTen();
    DecLength(n, 19);
    PrefixHasNoQuotedS();
    assert |SHAPE| == 10 && |SUFFIX| == 5;
  }

  lemma PowerOfTen()
    ensures Pow10(19) == 10_000_000_000_000_000_000
  {
    assert Pow10(4) == 10_000;
    assert Pow10(8) == 10_000 * Pow10(4);
    assert Pow10(12) == 10_000 * Pow10(8);
    assert Pow10(16) == 10_000 * Pow10(12);
    assert Pow10(19) == 1_000 * Pow10(16);
  }

  // ----- the theorem

  lemma EncodedParts(vs: seq<F32>, p: seq<byte>)
    requires Encode(vs) == Ok(p)
    ensures |p| == 10 + |Header(|vs|)| + 4 * |vs|
    ensures p[..6] == MAGIC && p[6] == 1 && p[7] == 0 && LE16(p[8..10]) == |Header(|vs|)|
    ensures Plain(Header(|vs|)) && p[10..10 + |Header(|vs|)|] == Bytes(Header(|vs|))
    ensures p[10 + |Header(|vs|)|..] == Body(vs)
  {
    var h := Header(|vs|);
    HeaderIsPlain(|vs|);
    FourParts(MAGIC + [1, 0], PutLE16(|h|), Bytes(h), Body(vs), p);
    assert p[..6] == p[..8][..6];
    assert p[6] == p[..8][6] && p[7] == p[..8][7];
  }

  lemma FourParts(a: seq<byte>, b: seq<byte>, c: seq<byte>, d: seq<byte>, p: seq<byte>)
    requires p == a + b + c + d && |a| == 8 && |b| == 2
    ensures p[..8] == a && p[8..10] == b && p[10..10 + |c|] == c && p[10 + |c|..] == d
  {
  }

  /** Every nonempty finite vector survives encoding and decoding bit for bit. */
  lemma DecodeOfEncode(vs: seq<F32>)
    requires vs != [] && AllFinite(vs) && |vs| <= MAX_INT
    ensures Encode(vs).Ok? && Decode(Encode(vs).value) == Ok(vs)
    ensures (|Encode(vs).value| - 4 * |vs|) % 16 == 0
  {
    HeaderLengths(|vs|);
    HeaderIsPlain(|vs|);
    var h := Header(|vs|);
    var p := Encode(vs).value;
    EncodedParts(vs, p);
    CharsOfBytes(h);
    HeaderCountOfHeader(|vs|);
    FloatsOfBody(vs);
    assert h != "";
  }

  /** Whatever decodes is re-encoded to something that decodes to the same vector. */
  lemma DecodeEncodeDecode(p: seq<byte>)
    requires Decode(p).Ok?
    ensures Encode(Decode(p).value).Ok? && Decode(Encode(Decode(p).value).value) == Decode(p)
  {
    DecodeOfEncode(Decode(p).value);
  }

  // ----- the loops

  /** The body loop of the decoder: stops at the first non-finite value. */
  method ReadFloats(body: seq<byte>, count: nat) returns (r: Result<seq<F32>>)
    requires |body| == 4 * count
    ensures r == if AllFinite(Floats(body)) then Ok(Floats(body)) else Err(NonFinite)
  {
    var values := new F32[count](_ => 0);
    for i := 0 to count
      invariant forall k :: 0 <= k < i ==> values[k] == Floats(body)[k] && Finite(values[k])
    {
      var bits := LE32(body[4 * i..4 * i + 4]);
      if !Finite(bits) {
        assert !Finite(Floats(body)[i]);
        return Err(NonFinite);
      }
      values[i] := bits;
    }
    assert values[..] == Floats(body);
    r := Ok(values[..]);
  }

  method DecodeNpy(payload: seq<byte>) returns (r: Result<seq<F32>>)
    ensures r == Decode(payload)
  {
    if |payload| < 10 || payload[..6] != MAGIC {
      return Err(NotNpy);
    }
    var headerLength, headerOffset;
    var major := payload[6];
    if major == 1 {
      headerLength, headerOffset := LE16(payload[8..10]), 10;
    } else if major == 2 || major == 3 {
      if |payload| < 12 {
        return Err(TruncatedHeader);
      }
      headerLength, headerOffset := LE32(payload[8..12]), 12;
    } else {
      return Err(UnsupportedVersion);
    }
    if headerLength <= 0 || headerOffset + headerLength > |payload| {
      return Err(HeaderLength);
    }
    var count := HeaderCount(Chars(payload[headerOffset..headerOffset + headerLength]));
    if count.Err? {
      return Err(count.error);
    }
    var body := payload[headerOffset + headerLength..];
    if |body| != count.value * 4 {
      return Err(BodyLength);
    }
    r := ReadFloats(body, count.value);
  }

  method EncodeNpy(values: seq<F32>) returns (r: Result<seq<byte>>)
    ensures r == Encode(values)
  {
    if |values| == 0 {
      return Err(EmptyVector);
    }
    for i := 0 to |values|
      invariant forall k :: 0 <= k < i ==> Finite(values[k])
    {
      if !Finite(values[i]) {
        return Err(NonFinite);
      }
    }
    var header := Header(|values|);
    HeaderIsPlain(|values|);
    if |header| > MAX_HEADER {
      return Err(HeaderTooLarge);
    }
    var body := WriteBody(values);
    r := Ok(MAGIC + [1, 0] + PutLE16(|header|) + Bytes(header) + body);
  }

  /** The body loop of the encoder, filling a buffer at offsets 4i. */
  method WriteBody(values: seq<F32>) returns (body: seq<byte>)
    ensures body == Body(values)
  {
    var buffer := new byte[4 * |values|](_ => 0);
    for i := 0 to |values|
      invariant buffer[..4 * i] == Body(values[..i])
    {
      var b := PutLE32(values[i]);
      buffer[4 * i], buffer[4 * i + 1], buffer[4 * i + 2], buffer[4 * i + 3] := b[0], b[1], b[2], b[3];
      assert buffer[..4 * (i + 1)] == buffer[..4 * i] + b;
      assert values[..i + 1][..i] == values[..i];
    }
    assert values[..|values|] == values;
    body := buffer[..];
  }
}
