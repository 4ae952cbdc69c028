/** The coordinator's data model: registrations, the global model, pending updates, rate windows,
    replay nonces, and the requests and responses of its six remote calls. */
module Core {
  import opened Text
  import Npy
  import Manifest

  // ----- time

  /** Nanoseconds since the zero time of the system clock (start of year 1). */
  type Time = int

  const ZERO_TIME: Time := 0
  const SECOND: Time := 1_000_000_000
  const MINUTE: Time := 60 * SECOND
  const REPLAY_WINDOW: Time := 2 * MINUTE
  const UNIX_EPOCH: Time := 62_135_596_800 * SECOND

  function FromUnix(seconds: int): Time
  {
    UNIX_EPOCH + seconds * SECOND
  }

  function Unix(t: Time): int
  {
    (t - UNIX_EPOCH) / SECOND
  }

  // ----- entities

  type Positive = n: int | n > 0 witness 1

  const MAX_GENERATION := 0xFFFF_FFFF_FFFF_FFFF
  const MAX_REASON := 256
  const MAX_SAMPLES := 10_000_000
  const MIN_NONCE := 16

  datatype Identity = Identity(nodeID: string, commonName: string, role: string, fingerprint: string)

  /** A lease; its node is the key it is stored under. A zero revocation time means not revoked. */
  datatype Registration = Registration(role: string, fingerprint: string, registrationID: string, expiresAt: Time,
                                       generation: nat, revokedAt: Time, reason: string)

  datatype Model = Model(version: string, round: nat, payload: seq<byte>, format: string, sha256: seq<byte>, createdAt: int)

  datatype Update = Update(updateID: string, values: seq<Npy.F32>, samples: nat)

  datatype Window = Window(startedAt: Time, count: int)

  datatype State = State(regs: map<string, Registration>, model: Model, pending: map<string, Update>,
                         rates: map<string, Window>, nonces: map<string, Time>)

  /** The bytes of a freshly drawn identifier. */
  type Entropy = b: seq<byte> | |b| == 24 witness seq(24, _ => 0)

  // ----- requests and responses

  datatype Float64 = NaN | Infinite | Number(value: real)

  datatype Metrics = Metrics(epochs: nat, samples: nat, loss: Float64, norms: seq<Float64>)

  datatype Security = Security(nonce: seq<byte>, issuedAt: int)

  datatype Submission = Submission(baseVersion: string, round: nat, payload: seq<byte>, format: string, digest: seq<byte>,
                                   metrics: Option<Metrics>, security: Option<Security>)

  datatype Request =
    | NilRequest(register: bool)
    | Register(node: string, commonName: string, hardware: bool)
    | Heartbeat(node: string, registrationID: string)
    | GetModel(node: string, registrationID: string)
    | Submit(node: string, registrationID: string, submission: Submission)
    | Rotate(node: string, registrationID: string, security: Option<Security>)
    | Revoke(node: string, registrationID: string, target: string, reason: string, security: Option<Security>)

  /** A request and the authenticated identity it arrived with, if any. */
  datatype Call = Call(identity: Option<Identity>, request: Request)

  datatype Fault =
    | MissingIdentity | MissingRequest | NodeMismatch | NameMismatch | NoHardware | NoEntropy | RegistrationRefused
    | NoRegistrationID | NotRegistered
    | EmptyPayload | OversizedPayload | WrongFormat | DigestLength | DigestMismatch | BadMetrics | BadPayload | BadSecurity
    | NonceUsed | RateLimited | StaleVersion | StaleRound | AlreadySubmitted | VectorMismatch
    | AggregationFailed | NonFiniteModel | EncodingFailed
    | RotationRefused | NotAdmin | NoTarget | BadReason | TargetNotActive
    | RollbackFailed | PersistentRollbackFailed | PreviousStateRestored

  datatype Response =
    | Registered(registrationID: string, role: string, leaseExpires: int, generation: nat)
    | Renewed(serverTime: int, version: string, leaseExpires: int, generation: nat)
    | ModelReply(model: Model)
    | Accepted(updateID: string, aggregated: bool, waiting: nat, version: string)
    | Rotated(registrationID: string, leaseExpires: int, generation: nat)
    | Revoked(target: string, generation: nat, revokedAt: int, blockedUntil: int)
    | Rejected(fault: Fault)

  // ----- configuration and environment

  /** The configuration together with everything the coordinator computes by calling out: text
      helpers, the NPY codec, SHA-256, float arithmetic and aggregation. */
  datatype Env = Env(
    leaseTTL: Positive,
    maxUpdateBytes: Positive,
    minUpdates: Positive,
    maxPerMinute: Positive,
    format: string,
    admin: string,
    blank: string -> bool,
    trim: string -> string,
    hex: seq<byte> -> string,
    key: (string, seq<byte>) -> string,
    sha256: seq<byte> -> Manifest.Digest,
    decode: seq<byte> -> Option<seq<Npy.F32>>,
    encode: seq<Npy.F32> -> Option<seq<byte>>,
    aggregate: (map<string, Update>, nat) -> Option<seq<Npy.F32>>,
    add: (seq<Npy.F32>, seq<Npy.F32>) -> seq<Npy.F32>,
    version: (nat, Manifest.Digest) -> string)

  /** Decoded vectors are nonempty and finite, and decoding inverts encoding. */
  ghost predicate CodecSound(env: Env)
  {
    && (forall p :: env.decode(p).Some? ==> p != [] && VectorOk(env.decode(p).value))
    && (forall v :: env.encode(v).Some? ==> env.decode(env.encode(v).value) == Some(v))
  }

  predicate VectorOk(values: seq<Npy.F32>)
  {
    0 < |values| <= Npy.MAX_INT && Npy.AllFinite(values)
  }

  /** Identifiers, nonce keys and versions are never blank; keys tell node and nonce apart. */
  ghost predicate TextSound(env: Env)
  {
    && (forall b: Entropy :: !env.blank(env.hex(b)))
    && (forall s :: env.trim(s) != "" ==> !env.blank(env.trim(s)))
    && (forall n, b :: !env.blank(env.key(n, b)))
    && (forall r, d :: !env.blank(env.version(r, d)))
    && env.blank("")
  }

  ghost predicate KeysInjective(env: Env)
  {
    forall n, b, m, c :: env.key(n, b) == env.key(m, c) ==> n == m && b == c
  }

  predicate UpdateOk(u: Update)
  {
    0 < u.samples <= MAX_SAMPLES && VectorOk(u.values)
  }

  predicate UpdatesOk(updates: map<string, Update>)
  {
    forall k :: k in updates ==> UpdateOk(updates[k])
  }

  /** Every update has `n` coordinates. */
  predicate Uniform(updates: map<string, Update>, n: nat)
  {
    forall k :: k in updates ==> |updates[k].values| == n
  }

  /** Aggregation of usable updates needs equally long vectors, and nothing else. */
  ghost predicate AggregateSound(env: Env)
  {
    forall updates: map<string, Update>, n: nat :: updates != map[] && n > 0 && UpdatesOk(updates)
      ==> (env.aggregate(updates, n).Some? <==> Uniform(updates, n))
          && (Uniform(updates, n) ==> |env.aggregate(updates, n).value| == n)
  }
}
