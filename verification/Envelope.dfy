/** The model envelope in front of the coordinator. A submission carries a schema digest, which is
    compared with the current model or, while the model has no payload, with the pending updates. Other
    calls run in between, and the pending updates are read without waiting for a durable call to be
    committed or rolled back. */
module Envelope {
  import opened Text
  import opened Core
  import opened Service
  import opened Snapshots
  import opened Manifest
  import Npy

  const PROTOCOL_VERSION := 1

  datatype Header = Header(protocolVersion: nat, modelID: string, schema: seq<byte>, manifest: seq<Entry>)

  datatype Stop = WrongProtocol | WrongModelID | SchemaLength | BadTensor | ManifestMismatch | SchemaMismatch
                | NoAccess(fault: Fault) | BadModel | ModelConflict | BadPending | PendingConflict

  /** The schema digest of a flat vector with `n` elements. */
  function Schema(env: Env, n: nat): seq<byte>
    requires n <= Npy.MAX_INT
  {
    SchemaDigest(env.sha256, ManifestForCount(n))
  }

  // ----- the checks

  /** The header describes the payload it comes with. */
  function HeaderStop(env: Env, modelID: string, h: Header, payload: seq<byte>): Option<Stop>
  {
    var values := env.decode(payload);
    if h.protocolVersion != PROTOCOL_VERSION then Some(WrongProtocol)
    else if h.modelID != modelID then Some(WrongModelID)
    else if |h.schema| != 32 then Some(SchemaLength)
    else if values.None? || |values.value| == 0 || |values.value| > Npy.MAX_INT then Some(BadTensor)
    else if h.manifest != ManifestForCount(|values.value|) then Some(ManifestMismatch)
    else if h.schema != Schema(env, |values.value|) then Some(SchemaMismatch)
    else None
  }

  /** The current model, when it has a payload, prescribes the schema. */
  function ModelStop(env: Env, m: Model, schema: seq<byte>): Option<Stop>
    requires m.payload != []
  {
    var values := env.decode(m.payload);
    if m.format != env.format || env.sha256(m.payload) != m.sha256 then Some(BadModel)
    else if values.None? || |values.value| == 0 || |values.value| > Npy.MAX_INT then Some(BadModel)
    else if Schema(env, |values.value|) != schema then Some(ModelConflict)
    else None
  }

  /** All pending vectors have this one positive length; zero when nothing is pending. */
  ghost predicate PendingLength(pending: map<string, Update>, n: nat)
  {
    (n == 0 <==> pending == map[]) && forall k :: k in pending ==> |pending[k].values| == n
  }

  /** Otherwise the pending updates do. */
  ghost function PendingStop(env: Env, pending: map<string, Update>, schema: seq<byte>): Option<Stop>
  {
    if !exists n: nat :: n <= Npy.MAX_INT && PendingLength(pending, n) then Some(BadPending)
    else
      var n: nat :| n <= Npy.MAX_INT && PendingLength(pending, n);
      if n > 0 && Schema(env, n) != schema then Some(PendingConflict) else None
  }

  lemma NoCommonLength(pending: map<string, Update>, j: string, k: string)
    requires j in pending && k in pending && (|pending[j].values| != |pending[k].values| || |pending[k].values| == 0)
    ensures forall n :: !PendingLength(pending, n)
  {
  }

  /** The loop that observes the pending schema, over the pending updates in any order. */
  method ObservePending(pending: map<string, Update>) returns (length: nat, ok: bool)
    ensures ok ==> PendingLength(pending, length)
    ensures !ok ==> forall n :: !PendingLength(pending, n)
  {
    length, ok := 0, true;
    var keys := pending.Keys;
    while keys != {}
      invariant keys <= pending.Keys && ok
      invariant length == 0 <==> keys == pending.Keys
      invariant forall k :: k in pending.Keys - keys ==> |pending[k].values| == length
      decreases |keys|
    {
      var k :| k in keys;
      if |pending[k].values| == 0 {
        NoCommonLength(pending, k, k);
        return 0, false;
      }
      if length == 0 {
        length := |pending[k].values|;
      } else if |pending[k].values| != length {
        var j :| j in pending.Keys - keys;
        NoCommonLength(pending, j, k);
        return 0, false;
      }
      keys := keys - {k};
    }
  }

  // ----- colliding schemas

  /** The encoded manifests of two different vector lengths have the same digest. */
  ghost predicate SchemaCollision(env: Env, m: nat, n: nat)
  {
    && m != n && m <= Npy.MAX_INT && n <= Npy.MAX_INT
    && Collision(env.sha256, Canonical(ManifestForCount(m)), Canonical(ManifestForCount(n)))
  }

  lemma SameSchemaSameLength(env: Env, m: nat, n: nat)
    requires m <= Npy.MAX_INT && n <= Npy.MAX_INT && Schema(env, m) == Schema(env, n)
    ensures m == n || SchemaCollision(env, m, n)
  {
    SchemaFixesLength(env.sha256, m, n);
  }

  /** Every pending vector has this schema. */
  ghost predicate AllOfSchema(env: Env, pending: map<string, Update>, schema: seq<byte>)
  {
    forall k :: k in pending ==> |pending[k].values| <= Npy.MAX_INT && Schema(env, |pending[k].values|) == schema
  }

  lemma PassedPending(env: Env, pending: map<string, Update>, schema: seq<byte>)
    requires PendingStop(env, pending, schema).None?
    ensures AllOfSchema(env, pending, schema)
  {
    var n: nat :| n <= Npy.MAX_INT && PendingLength(pending, n) && (n > 0 ==> Schema(env, n) == schema);
  }

  /** Nothing pending constrains nothing. */
  lemma NothingPending(env: Env, schema: seq<byte>)
    ensures PendingStop(env, map[], schema).None?
  {
    assert PendingLength(map[], 0);
  }

  // ----- what happens to vectors of another length

  /** Joining keeps the lengths equal exactly when the newcomer has the length of the others. */
  lemma JoinKeepsLengthsExactly(env: Env, m: Model, pending: map<string, Update>, node: string, u: Update)
    requires LengthsAgree(env, m, pending) && node !in pending && CurrentVector(env, m, |u.values|).Some?
    ensures LengthsAgree(env, m, pending[node := u]) <==> Uniform(pending, |u.values|)
  {
    var grown := pending[node := u];
    if LengthsAgree(env, m, grown) {
      forall k | k in pending ensures |pending[k].values| == |u.values| {
        assert grown[k] == pending[k] && grown[node] == u;
      }
    }
  }

  /** Aggregation at the quorum is refused for the shape exactly when some pending vector has another
      length than the newcomer. */
  lemma ShapeFailureExactly(env: Env, m: Model, pending: map<string, Update>, node: string, u: Update, now: Time)
    requires AggregateSound(env) && PendingOk(env, pending) && UpdateOk(u) && node !in pending
    requires CurrentVector(env, m, |u.values|).Some? && |pending[node := u]| >= env.minUpdates
    ensures Join(env, m, pending, node, u, now).response == Rejected(AggregationFailed) <==> !Uniform(pending, |u.values|)
  {
    var grown, n := pending[node := u], |u.values|;
    assert node in grown && UpdatesOk(grown);
    UniformGrown(pending, node, u);
    assert env.aggregate(grown, n).Some? <==> Uniform(grown, n);
  }

  lemma UniformGrown(pending: map<string, Update>, node: string, u: Update)
    requires node !in pending
    ensures Uniform(pending[node := u], |u.values|) <==> Uniform(pending, |u.values|)
  {
    var grown := pending[node := u];
    if Uniform(grown, |u.values|) {
      forall k | k in pending ensures |pending[k].values| == |u.values| {
        assert grown[k] == pending[k];
      }
    }
  }

  /** Below the quorum the newcomer is accepted whatever its length; at the quorum nothing stays pending. */
  lemma JoinCases(env: Env, m: Model, pending: map<string, Update>, node: string, u: Update, now: Time)
    requires node !in pending && CurrentVector(env, m, |u.values|).Some?
    ensures |pending[node := u]| == |pending| + 1
    ensures var c := Join(env, m, pending, node, u, now);
            if |pending| + 1 < env.minUpdates then c.response.Accepted? && c.model == m && c.pending == pending[node := u]
            else c.response.Rejected? || c.pending == map[]
  {
    var grown := pending[node := u];
    assert grown.Keys == pending.Keys + {node} && |grown.Keys| == |pending.Keys| + 1;
  }

  /** A newcomer of another length is refused at the quorum, and breaks the common length below it. */
  lemma JoinedShapeExactly(env: Env, m: Model, pending: map<string, Update>, node: string, u: Update, now: Time)
    requires AggregateSound(env) && PendingOk(env, pending) && UpdateOk(u) && LengthsAgree(env, m, pending)
    requires node !in pending && CurrentVector(env, m, |u.values|).Some?
    ensures var c, closing := Join(env, m, pending, node, u, now), |pending| + 1 >= env.minUpdates;
            && (c.response == Rejected(AggregationFailed) <==> closing && !Uniform(pending, |u.values|))
            && (c.response.Rejected? || LengthsAgree(env, c.model, c.pending) <==> closing || Uniform(pending, |u.values|))
  {
    JoinCases(env, m, pending, node, u, now);
    if |pending| + 1 >= env.minUpdates {
      ShapeFailureExactly(env, m, pending, node, u, now);
    } else {
      JoinKeepsLengthsExactly(env, m, pending, node, u);
    }
  }

  /** Without the envelope the lengths can mix: during bootstrap an update of another length is
      accepted as long as the quorum is not reached. */
  lemma WithoutEnvelopeLengthsMix(env: Env, m: Model, pending: map<string, Update>, node: string, k: string, u: Update, now: Time)
    requires m.payload == [] && k in pending && node !in pending && |u.values| > 0
    requires |pending[k].values| != |u.values| && |pending| + 1 < env.minUpdates
    ensures var c := Join(env, m, pending, node, u, now);
            c.response.Accepted? && !LengthsAgree(env, c.model, c.pending)
  {
    var grown := pending[node := u];
    assert grown.Keys == pending.Keys + {node} && |grown.Keys| == |pending.Keys| + 1;
    assert grown[k] == pending[k] && grown[node] == u;
  }
}
