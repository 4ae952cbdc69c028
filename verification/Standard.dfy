/** The coordinator's actual environment: trimming, hexadecimal identifiers and nonce keys, the NPY
    codec and the two aggregation methods. Everything the run-level arguments ask of an environment
    holds of it. SHA-256 and float32 rounding remain parameters. */
module Standard {
  import opened Text
  import opened Core
  import opened Manifest
  import opened PendingAggregate
  import Npy
  import NpyRoundTrip

  const NETWORK_FORMAT := "application/x-npy-f32"
  const ADMIN := "admin"
  const NAN: Npy.F32 := 0x7FC0_0000

  datatype Settings = Settings(leaseTTL: Positive, maxUpdateBytes: Positive, minUpdates: Positive, maxPerMinute: Positive, median: bool)

  // ----- text

  function NonceKey(node: string, nonce: seq<byte>): string
  {
    node + ":" + Hex(nonce)
  }

  function NextVersion(round: nat, digest: Digest): string
  {
    "round-" + Dec(round) + "-" + Hex(digest[..8])
  }

  /** No colon follows the one that ends the node. */
  lemma LastColon(n: string, b: seq<byte>)
    ensures NonceKey(n, b)[|n|] == ':'
    ensures forall i :: |n| < i < |NonceKey(n, b)| ==> NonceKey(n, b)[i] != ':'
  {
    HexIsHex(b);
    assert forall i :: |n| < i < |NonceKey(n, b)| ==> NonceKey(n, b)[i] == Hex(b)[i - |n| - 1];
  }

  lemma NonceKeyInjective(n: string, b: seq<byte>, m: string, c: seq<byte>)
    requires NonceKey(n, b) == NonceKey(m, c)
    ensures n == m && b == c
  {
    var key := NonceKey(n, b);
    LastColon(n, b);
    LastColon(m, c);
    assert |n| == |m|;
    assert n == key[..|n|] == m && Hex(b) == key[|n| + 1..] == Hex(c);
    HexInjective(b, c);
  }

  lemma TextIsSound(env: Env)
    requires env.blank == Blank && env.trim == TrimSpace && env.hex == Hex && env.key == NonceKey && env.version == NextVersion
    ensures TextSound(env) && KeysInjective(env)
  {
    forall b: Entropy ensures !env.blank(env.hex(b)) {
      HexIsHex(b);
      NotBlank(Hex(b), 0);
    }
    forall s | TrimSpace(s) != "" ensures !env.blank(env.trim(s)) {
      NotBlank(TrimSpace(s), 0);
    }
    forall n, b ensures !env.blank(env.key(n, b)) {
      NotBlank(NonceKey(n, b), |n|);
    }
    forall r: nat, d: Digest ensures !env.blank(env.version(r, d)) {
      NotBlank(NextVersion(r, d), 0);
    }
    forall n, b, m, c | env.key(n, b) == env.key(m, c) ensures n == m && b == c {
      NonceKeyInjective(n, b, m, c);
    }
  }

  // ----- codec

  function Decoded(p: seq<byte>): Option<seq<Npy.F32>>
  {
    match Npy.Decode(p) case Ok(v) => Some(v) case Err(_) => None
  }

  /** Vectors longer than the largest machine integer do not exist. */
  function Encoded(v: seq<Npy.F32>): Option<seq<byte>>
  {
    if |v| > Npy.MAX_INT then None else match Npy.Encode(v) case Ok(p) => Some(p) case Err(_) => None
  }

  lemma CodecIsSound(env: Env)
    requires env.decode == Decoded && env.encode == Encoded
    ensures CodecSound(env)
  {
    forall p | env.decode(p).Some? ensures p != [] && VectorOk(env.decode(p).value) {
      DecodedFacts(p);
    }
    forall v | env.encode(v).Some? ensures env.decode(env.encode(v).value) == Some(v) {
      EncodedFacts(v);
    }
  }

  lemma DecodedFacts(p: seq<byte>)
    requires Decoded(p).Some?
    ensures p != [] && VectorOk(Decoded(p).value)
  {
  }

  lemma EncodedFacts(v: seq<Npy.F32>)
    requires Encoded(v).Some?
    ensures Decoded(Encoded(v).value) == Some(v)
  {
    NpyRoundTrip.DecodeOfEncode(v);
  }

  // ----- aggregation

  /** One float32 addition. */
  function Add32(fl: Floats, x: Npy.F32, y: Npy.F32): Npy.F32
  {
    if Npy.Finite(x) && Npy.Finite(y) then fl.round32(fl.toReal(x) + fl.toReal(y)) else NAN
  }

  function AddVectors(fl: Floats, x: seq<Npy.F32>, y: seq<Npy.F32>): (r: seq<Npy.F32>)
    ensures |r| == |x|
  {
    seq(|x|, i requires 0 <= i < |x| => if i < |y| then Add32(fl, x[i], y[i]) else x[i])
  }

  ghost function Aggregated(fl: Floats, median: bool, updates: map<string, Update>, n: nat): Option<seq<Npy.F32>>
  {
    if median then MedianUpdates(fl, updates, n) else WeightedUpdates(fl, updates, n)
  }

  lemma AggregationIsSound(env: Env, fl: Floats, median: bool)
    requires forall updates, n :: env.aggregate(updates, n) == Aggregated(fl, median, updates, n)
    ensures AggregateSound(env)
  {
  }

  /** The loop that adds the aggregate to the current vector stops at the first non-finite value. */
  method AddToModel(fl: Floats, current: seq<Npy.F32>, aggregated: seq<Npy.F32>) returns (sum: seq<Npy.F32>, finite: bool)
    requires |aggregated| == |current|
    ensures finite <==> Npy.AllFinite(AddVectors(fl, current, aggregated))
    ensures finite ==> sum == AddVectors(fl, current, aggregated)
  {
    sum := [];
    for i := 0 to |current|
      invariant sum == AddVectors(fl, current, aggregated)[..i] && Npy.AllFinite(sum)
    {
      var x := Add32(fl, current[i], aggregated[i]);
      if !Npy.Finite(x) {
        assert AddVectors(fl, current, aggregated)[i] == x;
        return sum, false;
      }
      sum := sum + [x];
    }
    assert AddVectors(fl, current, aggregated)[..|current|] == AddVectors(fl, current, aggregated);
    finite := true;
  }

  // ----- the environment

  ghost function Environment(st: Settings, sha256: seq<byte> -> Digest, fl: Floats): Env
  {
    Env(st.leaseTTL, st.maxUpdateBytes, st.minUpdates, st.maxPerMinute, NETWORK_FORMAT, ADMIN, Blank, TrimSpace, Hex, NonceKey,
        sha256, Decoded, Encoded, (updates, n: nat) => Aggregated(fl, st.median, updates, n),
        (x, y) => AddVectors(fl, x, y), NextVersion)
  }

  /** All theorems about runs apply to the actual coordinator. */
  lemma EnvironmentIsSound(st: Settings, sha256: seq<byte> -> Digest, fl: Floats)
    ensures var env := Environment(st, sha256, fl);
            TextSound(env) && KeysInjective(env) && CodecSound(env) && AggregateSound(env)
  {
    var env := Environment(st, sha256, fl);
    TextIsSound(env);
    CodecIsSound(env);
    AggregationIsSound(env, fl, st.median);
  }
}
