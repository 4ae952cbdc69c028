/** One concrete coordinator in which the interleaving of `EnvelopeStack.FailingInterleaving` happens:
    an administrator, a node with a pending vector of length one, and a node that submits one of length two. */
module EnvelopeExample {
  import opened Text
  import opened Core
  import opened Registry
  import opened Service
  import opened Snapshots
  import opened Durable
  import opened Envelope
  import opened EnvelopeStack
  import opened Standard
  import Manifest
  import PendingAggregate
  import NpyRoundTrip

  const MOMENT: Time := UNIX_EPOCH

  /** One-letter names are neither blank nor trimmed. */
  ghost predicate LettersPlain(env: Env)
  {
    forall s: string :: |s| == 1 && 'a' <= s[0] <= 'z' ==> !env.blank(s) && env.trim(s) == s
  }

  /** What the example needs of its environment; `payload` encodes a vector of length two. */
  ghost predicate Fits(env: Env, payload: seq<byte>)
  {
    && LettersPlain(env) && !env.blank(env.admin) && env.minUpdates == 2
    && 0 < |payload| <= env.maxUpdateBytes && env.decode(payload) == Some([0, 0])
  }

  function Lease(role: string): Registration
  {
    Registration(role, "f", "r", MOMENT + 1, 1, ZERO_TIME, "")
  }

  function Nonce(): seq<byte>
  {
    seq(16, _ => 0)
  }

  function Bootstrap(env: Env): State
  {
    State(map["a" := Lease(env.admin), "k" := Lease("c"), "w" := Lease("c")],
          Model("v", 0, [], env.format, [], 0), map["k" := Update("u", [0], 1)], map[], map[])
  }

  function Posted(env: Env, payload: seq<byte>): Submission
  {
    Submission("v", 0, payload, env.format, env.sha256(payload), Some(Metrics(1, 1, Number(0.0), [])), Some(Security(Nonce(), 0)))
  }

  function Enclosed(su: Setup, payload: seq<byte>): Job
  {
    Job(Some(Identity("w", "w", "c", "f")), "w", "r", Posted(su.env, payload),
        Header(PROTOCOL_VERSION, su.modelID, Schema(su.env, 2), Manifest.ManifestForCount(2)))
  }

  function Removal(env: Env): Call
  {
    Call(Some(Identity("a", "a", env.admin, "f")), Revoke("a", "r", "k", "x", Some(Security(Nonce(), 0))))
  }

  lemma LeaseIsOk(env: Env, payload: seq<byte>, n: string, role: string)
    requires Fits(env, payload) && |n| == 1 && 'a' <= n[0] <= 'z' && !env.blank(role)
    ensures LeaseOk(env, n, Lease(role))
  {
    assert !env.blank("f") && !env.blank("r");
  }

  lemma LeasesAreOk(env: Env, payload: seq<byte>)
    requires Fits(env, payload)
    ensures LeasesOk(env, Bootstrap(env).regs)
  {
    LeaseIsOk(env, payload, "a", env.admin);
    LeaseIsOk(env, payload, "k", "c");
    LeaseIsOk(env, payload, "w", "c");
  }

  lemma BootstrapIsWf(env: Env, payload: seq<byte>)
    requires Fits(env, payload)
    ensures Wf(env, Bootstrap(env))
  {
    LeasesAreOk(env, payload);
    assert |Bootstrap(env).pending| == 1 && !env.blank("k") && !env.blank("u") && !env.blank("v");
  }

  lemma RemovalSucceeds(env: Env, payload: seq<byte>)
    requires Fits(env, payload)
    ensures var r := Step(env, Bootstrap(env), Removal(env), MOMENT, None).response; r.Revoked? && r.target == "k"
  {
    var s := Bootstrap(env);
    assert RevokeFault(env, s.regs, Removal(env).identity, "a", "r", "k", Some(Security(Nonce(), 0)), MOMENT).None?;
    assert RevokeLease(env, s.regs, "k", "x", MOMENT).Tombstone?;
  }

  lemma HeaderFits(su: Setup, payload: seq<byte>)
    requires Fits(su.env, payload)
    ensures HeaderCheck(su, Enclosed(su, payload)).None? && Length(su, Enclosed(su, payload)) == 2
  {
  }

  lemma PostedIsSound(env: Env, payload: seq<byte>)
    requires Fits(env, payload)
    ensures SubmissionFault(env, Posted(env, payload), MOMENT).None?
  {
  }

  lemma AccessIsGranted(env: Env, payload: seq<byte>)
    requires Fits(env, payload)
    ensures AccessFault(env, Bootstrap(env).regs, Some(Identity("w", "w", "c", "f")), "w", "r", MOMENT).None?
  {
    assert !env.blank("w") && !env.blank("r");
  }

  lemma EnclosedReaches(su: Setup, payload: seq<byte>, entropy: Entropy)
    requires Fits(su.env, payload)
    ensures Reaches(su, Bootstrap(su.env), Enclosed(su, payload), MOMENT, Some(entropy))
  {
    HeaderFits(su, payload);
    PostedIsSound(su.env, payload);
    AccessIsGranted(su.env, payload);
  }

  lemma BootstrapIsStaged(su: Setup, payload: seq<byte>)
    requires Fits(su.env, payload) && su.durable
    ensures Staged(su, Bootstrap(su.env), Enclosed(su, payload), Removal(su.env), "k", MOMENT)
  {
    BootstrapIsWf(su.env, payload);
    RemovalSucceeds(su.env, payload);
    HeaderFits(su, payload);
    assert Bootstrap(su.env).pending.Keys == {"k"};
  }

  /** A submission has passed the checks in this run, and will be refused by the aggregation. */
  ghost predicate PassedInVain(su: Setup, p: Past, now: Time, entropy: Entropy)
  {
    && Possible(su, p) && Now(su, p).flight.Cleared?
    && Attempt(su, Now(su, p).mem, Now(su, p).flight.job, now, Some(entropy)).response == Rejected(AggregationFailed)
  }

  lemma HappensIn(su: Setup, payload: seq<byte>, entropy: Entropy) returns (p: Past)
    requires Sound(su) && Fits(su.env, payload) && su.durable
    ensures PassedInVain(su, p, MOMENT, entropy)
  {
    BootstrapIsStaged(su, payload);
    EnclosedReaches(su, payload, entropy);
    p := FailingInterleaving(su, Bootstrap(su.env), Enclosed(su, payload), Removal(su.env), "k", MOMENT,
                             Clock(MOMENT, MOMENT, MOMENT, MOMENT), Some(entropy));
  }

  // ----- in the actual environment

  lemma StandardFits(st: Settings, sha256: seq<byte> -> Manifest.Digest, fl: PendingAggregate.Floats)
    requires st.minUpdates == 2 && (Encoded([0, 0]).Some? ==> |Encoded([0, 0]).value| <= st.maxUpdateBytes)
    ensures Encoded([0, 0]).Some? && Fits(Environment(st, sha256, fl), Encoded([0, 0]).value)
  {
    NpyRoundTrip.DecodeOfEncode([0, 0]);
    LettersArePlain(Environment(st, sha256, fl));
    NotBlank(ADMIN, 0);
  }

  lemma LettersArePlain(env: Env)
    requires env.blank == Blank && env.trim == TrimSpace
    ensures LettersPlain(env)
  {
    forall s: string | |s| == 1 && 'a' <= s[0] <= 'z' ensures !env.blank(s) && env.trim(s) == s {
      NotBlank(s, 0);
    }
  }

  /** With the actual codec, keys and aggregation, whatever SHA-256 computes, this run exists. */
  lemma InterleavingHappens(st: Settings, sha256: seq<byte> -> Manifest.Digest, fl: PendingAggregate.Floats, su: Setup, entropy: Entropy)
      returns (p: Past)
    requires st.minUpdates == 2 && (Encoded([0, 0]).Some? ==> |Encoded([0, 0]).value| <= st.maxUpdateBytes)
    requires su.env == Environment(st, sha256, fl) && su.durable
    ensures PassedInVain(su, p, MOMENT, entropy)
  {
    StandardFits(st, sha256, fl);
    EnvironmentIsSound(st, sha256, fl);
    p := HappensIn(su, Encoded([0, 0]).value, entropy);
  }
}
