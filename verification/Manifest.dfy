/** The canonical length-delimited encoding of a tensor manifest and its schema digest. */
module Manifest {
  import opened Text

  type U64 = x: int | 0 <= x < 0x1_0000_0000_0000_0000

  type Digest = d: seq<byte> | |d| == 32 witness seq(32, _ => 0)

  datatype Entry = Entry(name: seq<byte>, dtype: seq<byte>, dimensions: seq<U64>, elementCount: U64)

  // ----- big-endian fields

  /** The low `width` bytes of `n`, most significant first. */
  function PutBE(n: nat, width: nat): (b: seq<byte>)
    ensures |b| == width
  {
    if width == 0 then [] else PutBE(n / 256, width - 1) + [n % 256]
  }

  function Pow256(width: nat): (p: nat)
    ensures p > 0
  {
    if width == 0 then 1 else 256 * Pow256(width - 1)
  }

  lemma {:induction false} PutBEInjective(m: nat, n: nat, width: nat)
    requires m < Pow256(width) && n < Pow256(width) && PutBE(m, width) == PutBE(n, width)
    ensures m == n
  {
    if width > 0 {
      var a, b := PutBE(m / 256, width - 1), PutBE(n / 256, width - 1);
      SplitEqual(a, [m % 256], b, [n % 256]);
      assert [m % 256][0] == [n % 256][0];
      PutBEInjective(m / 256, n / 256, width - 1);
    }
  }

  /** A 32-bit field; a longer length is truncated to its low 32 bits. */
  function PutBE32(n: nat): (b: seq<byte>)
    ensures |b| == 4
  {
    PutBE(n, 4)
  }

  function PutBE64(n: nat): (b: seq<byte>)
    ensures |b| == 8
  {
    PutBE(n, 8)
  }

  lemma Widths()
    ensures Pow256(4) == 0x1_0000_0000 && Pow256(8) == 0x1_0000_0000_0000_0000
  {
    assert Pow256(2) == 0x1_0000;
    assert Pow256(4) == 0x1_0000 * Pow256(2);
    assert Pow256(6) == 0x1_0000 * Pow256(4);
    assert Pow256(8) == 0x1_0000 * Pow256(6);
  }

  /** Equal concatenations with equally long heads split at the same place. */
  lemma SplitEqual(a: seq<byte>, x: seq<byte>, b: seq<byte>, y: seq<byte>)
    requires a + x == b + y && |a| == |b|
    ensures a == b && x == y
  {
    assert a == (a + x)[..|a|] && b == (b + y)[..|a|];
    assert x == (a + x)[|a|..] && y == (b + y)[|a|..];
  }

  lemma BE32Prefix(m: nat, x: seq<byte>, n: nat, y: seq<byte>)
    requires m < 0x1_0000_0000 && n < 0x1_0000_0000 && PutBE32(m) + x == PutBE32(n) + y
    ensures m == n && x == y
  {
    SplitEqual(PutBE32(m), x, PutBE32(n), y);
    Widths();
    PutBEInjective(m, n, 4);
  }

  lemma BE64Prefix(m: U64, x: seq<byte>, n: U64, y: seq<byte>)
    requires PutBE64(m) + x == PutBE64(n) + y
    ensures m == n && x == y
  {
    SplitEqual(PutBE64(m), x, PutBE64(n), y);
    Widths();
    PutBEInjective(m, n, 8);
  }

  // ----- the encoding

  function PutString(s: seq<byte>): seq<byte>
  {
    PutBE32(|s|) + s
  }

  function PutDimensions(ds: seq<U64>): seq<byte>
  {
    if ds == [] then [] else PutBE64(ds[0]) + PutDimensions(ds[1..])
  }

  function PutEntry(e: Entry): seq<byte>
  {
    PutString(e.name) + (PutString(e.dtype) + (PutBE32(|e.dimensions|) + (PutDimensions(e.dimensions) + PutBE64(e.elementCount))))
  }

  function PutEntries(m: seq<Entry>): seq<byte>
  {
    if m == [] then [] else PutEntry(m[0]) + PutEntries(m[1..])
  }

  /** `ztfl-model-schema-v1` and a zero byte. */
  const DOMAIN: seq<byte> := [0x7A, 0x74, 0x66, 0x6C, 0x2D, 0x6D, 0x6F, 0x64, 0x65, 0x6C, 0x2D,
                              0x73, 0x63, 0x68, 0x65, 0x6D, 0x61, 0x2D, 0x76, 0x31, 0x00]

  function Canonical(m: seq<Entry>): seq<byte>
  {
    DOMAIN + (PutBE32(|m|) + PutEntries(m))
  }

  // ----- unique readability

  /** Every length fits its 32-bit field. */
  predicate Sized(e: Entry)
  {
    |e.name| < 0x1_0000_0000 && |e.dtype| < 0x1_0000_0000 && |e.dimensions| < 0x1_0000_0000
  }

  predicate AllSized(m: seq<Entry>)
  {
    |m| < 0x1_0000_0000 && forall i :: 0 <= i < |m| ==> Sized(m[i])
  }

  lemma StringPrefix(s: seq<byte>, x: seq<byte>, t: seq<byte>, y: seq<byte>)
    requires PutString(s) + x == PutString(t) + y && |s| < 0x1_0000_0000 && |t| < 0x1_0000_0000
    ensures s == t && x == y
  {
    assert PutString(s) + x == PutBE32(|s|) + (s + x);
    assert PutString(t) + y == PutBE32(|t|) + (t + y);
    BE32Prefix(|s|, s + x, |t|, t + y);
    SplitEqual(s, x, t, y);
  }

  lemma {:induction false} DimensionsPrefix(ds: seq<U64>, x: seq<byte>, es: seq<U64>, y: seq<byte>)
    requires |ds| == |es| && PutDimensions(ds) + x == PutDimensions(es) + y
    ensures ds == es && x == y
  {
    if ds != [] {
      assert PutDimensions(ds) + x == PutBE64(ds[0]) + (PutDimensions(ds[1..]) + x);
      assert PutDimensions(es) + y == PutBE64(es[0]) + (PutDimensions(es[1..]) + y);
      BE64Prefix(ds[0], PutDimensions(ds[1..]) + x, es[0], PutDimensions(es[1..]) + y);
      DimensionsPrefix(ds[1..], x, es[1..], y);
      assert ds == [ds[0]] + ds[1..] && es == [es[0]] + es[1..];
    } else {
      assert [] + x == x && [] + y == y;
    }
  }

  function AfterStrings(e: Entry, x: seq<byte>): seq<byte>
  {
    PutBE32(|e.dimensions|) + (PutDimensions(e.dimensions) + (PutBE64(e.elementCount) + x))
  }

  lemma EntryShape(e: Entry, x: seq<byte>)
    ensures PutEntry(e) + x == PutString(e.name) + (PutString(e.dtype) + AfterStrings(e, x))
  {
    var a, b, c, d, f := PutString(e.name), PutString(e.dtype), PutBE32(|e.dimensions|),
                         PutDimensions(e.dimensions), PutBE64(e.elementCount);
    Associate(c, d, f, x);
    assert (a + (b + (c + (d + f)))) + x == a + (b + ((c + (d + f)) + x));
  }

  lemma Associate(c: seq<byte>, d: seq<byte>, f: seq<byte>, x: seq<byte>)
    ensures (c + (d + f)) + x == c + (d + (f + x))
  {
  }

  lemma EntryPrefix(e: Entry, x: seq<byte>, g: Entry, y: seq<byte>)
    requires PutEntry(e) + x == PutEntry(g) + y && Sized(e) && Sized(g)
    ensures e == g && x == y
  {
    EntryShape(e, x);
    EntryShape(g, y);
    StringPrefix(e.name, PutString(e.dtype) + AfterStrings(e, x), g.name, PutString(g.dtype) + AfterStrings(g, y));
    StringPrefix(e.dtype, AfterStrings(e, x), g.dtype, AfterStrings(g, y));
    BE32Prefix(|e.dimensions|, PutDimensions(e.dimensions) + (PutBE64(e.elementCount) + x),
               |g.dimensions|, PutDimensions(g.dimensions) + (PutBE64(g.elementCount) + y));
    DimensionsPrefix(e.dimensions, PutBE64(e.elementCount) + x, g.dimensions, PutBE64(g.elementCount) + y);
    BE64Prefix(e.elementCount, x, g.elementCount, y);
  }

  lemma {:induction false} EntriesInjective(m: seq<Entry>, n: seq<Entry>)
    requires |m| == |n| && AllSized(m) && AllSized(n) && PutEntries(m) == PutEntries(n)
    ensures m == n
  {
    if m != [] {
      EntryPrefix(m[0], PutEntries(m[1..]), n[0], PutEntries(n[1..]));
      EntriesInjective(m[1..], n[1..]);
      assert m == [m[0]] + m[1..] && n == [n[0]] + n[1..];
    }
  }

  /** Different manifests have different canonical encodings. */
  lemma CanonicalInjective(m: seq<Entry>, n: seq<Entry>)
    requires AllSized(m) && AllSized(n) && Canonical(m) == Canonical(n)
    ensures m == n
  {
    SplitEqual(DOMAIN, PutBE32(|m|) + PutEntries(m), DOMAIN, PutBE32(|n|) + PutEntries(n));
    BE32Prefix(|m|, PutEntries(m), |n|, PutEntries(n));
    EntriesInjective(m, n);
  }

  // ----- schema digests

  /** Two different byte strings with the same digest. */
  ghost predicate Collision(sha256: seq<byte> -> Digest, x: seq<byte>, y: seq<byte>)
  {
    x != y && sha256(x) == sha256(y)
  }

  function SchemaDigest(sha256: seq<byte> -> Digest, m: seq<Entry>): Digest
  {
    sha256(Canonical(m))
  }

  const FLAT_WEIGHTS: seq<byte> := [0x66, 0x6C, 0x61, 0x74, 0x5F, 0x77, 0x65, 0x69, 0x67, 0x68, 0x74, 0x73]
  const FLOAT32: seq<byte> := [0x66, 0x6C, 0x6F, 0x61, 0x74, 0x33, 0x32]

  /** The one-tensor manifest of a flat vector with `n` elements. */
  function ManifestForCount(n: U64): seq<Entry>
  {
    [Entry(FLAT_WEIGHTS, FLOAT32, [n], n)]
  }

  /** Equal schema digests of flat vectors mean equal lengths, or exhibit a collision. */
  lemma SchemaFixesLength(sha256: seq<byte> -> Digest, m: U64, n: U64)
    requires SchemaDigest(sha256, ManifestForCount(m)) == SchemaDigest(sha256, ManifestForCount(n))
    ensures m == n || Collision(sha256, Canonical(ManifestForCount(m)), Canonical(ManifestForCount(n)))
  {
    if Canonical(ManifestForCount(m)) == Canonical(ManifestForCount(n)) {
      CanonicalInjective(ManifestForCount(m), ManifestForCount(n));
      assert ManifestForCount(m)[0].elementCount == ManifestForCount(n)[0].elementCount;
    }
  }

  // ----- the hasher loop

  lemma {:induction false} PutEntriesAppend(m: seq<Entry>, e: Entry)
    ensures PutEntries(m + [e]) == PutEntries(m) + PutEntry(e)
  {
    if m == [] {
      assert m + [e] == [e] && [e][1..] == [];
      assert PutEntry(e) + [] == [] + PutEntry(e);
    } else {
      assert (m + [e])[1..] == m[1..] + [e];
      PutEntriesAppend(m[1..], e);
    }
  }

  lemma {:induction false} PutDimensionsAppend(ds: seq<U64>, d: U64)
    ensures PutDimensions(ds + [d]) == PutDimensions(ds) + PutBE64(d)
  {
    if ds == [] {
      assert ds + [d] == [d] && [d][1..] == [];
      assert PutBE64(d) + [] == [] + PutBE64(d);
    } else {
      assert (ds + [d])[1..] == ds[1..] + [d];
      PutDimensionsAppend(ds[1..], d);
    }
  }

  method WriteEntry(written: seq<byte>, e: Entry) returns (out: seq<byte>)
    ensures out == written + PutEntry(e)
  {
    out := PutString(e.name);
    out := out + PutString(e.dtype);
    out := out + PutBE32(|e.dimensions|);
    ghost var before := out;
    for i := 0 to |e.dimensions|
      invariant out == before + PutDimensions(e.dimensions[..i])
    {
      PutDimensionsAppend(e.dimensions[..i], e.dimensions[i]);
      assert e.dimensions[..i + 1] == e.dimensions[..i] + [e.dimensions[i]];
      out := out + PutBE64(e.dimensions[i]);
    }
    assert e.dimensions[..|e.dimensions|] == e.dimensions;
    out := written + (out + PutBE64(e.elementCount));
  }

  lemma Regroup(a: seq<byte>, b: seq<byte>, c: seq<byte>)
    ensures (a + b) + c == a + (b + c)
  {
  }

  method WriteEntries(head: seq<byte>, manifest: seq<Entry>) returns (written: seq<byte>)
    ensures written == head + PutEntries(manifest)
  {
    written := head;
    for i := 0 to |manifest|
      invariant written == head + PutEntries(manifest[..i])
    {
      PutEntriesAppend(manifest[..i], manifest[i]);
      Regroup(head, PutEntries(manifest[..i]), PutEntry(manifest[i]));
      assert manifest[..i + 1] == manifest[..i] + [manifest[i]];
      written := WriteEntry(written, manifest[i]);
    }
    assert manifest[..|manifest|] == manifest;
  }

  /** Writes the domain, the count and each entry to the hasher, then closes it. */
  method ModelSchemaDigest(sha256: seq<byte> -> Digest, manifest: seq<Entry>) returns (digest: Digest)
    ensures digest == SchemaDigest(sha256, manifest)
  {
    var written := WriteEntries(DOMAIN + PutBE32(|manifest|), manifest);
    Regroup(DOMAIN, PutBE32(|manifest|), PutEntries(manifest));
    digest := sha256(written);
  }
}
