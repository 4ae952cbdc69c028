/** The hash-linked audit log: verification, appending, paging and what an accepted chain
    proves about its records. Hashing is a parameter; no property of it is assumed. */
module AuditChain {
  import opened Text
  import opened Manifest
  import opened LinkedLog

  // ----- events

  datatype Kind = StateInitialized | StateRecovered | NodeRegistered | LeaseRenewed | UpdateAccepted
                | RoundAggregated | CredentialRotated | RegistrationRevoked | Unsupported(name: string)

  datatype AuditEvent = AuditEvent(
    schemaVersion: int,
    occurredAt: int,
    kind: Kind,
    success: bool,
    nodeID: string,
    registrationIDHash: string,
    updateID: string,
    updateSHA256: string,
    baseModelVersion: string,
    roundID: nat,
    modelVersion: string,
    modelSHA256: string,
    sampleCount: nat,
    pendingUpdates: int,
    quorum: int,
    aggregationMethod: string,
    leaseExpiresUnix: int,
    credentialGeneration: nat,
    targetNodeID: string,
    blockedUntilUnix: int)

  const AUDIT_SCHEMA_VERSION := 1
  const MAX_AUDIT_ROUND_ID := 0x7FFF_FFFF_FFFF_FFFF
  const MAX_SAMPLE_COUNT := 10_000_000
  const MICROSECOND := 1000

  /** Truncated to whole microseconds. */
  function NormalizeTime(t: int): (r: int)
    ensures r % MICROSECOND == 0 && r <= t < r + MICROSECOND
  {
    t - t % MICROSECOND
  }

  function Canonicalized(e: AuditEvent): AuditEvent
  {
    e.(occurredAt := NormalizeTime(e.occurredAt))
  }

  predicate DigestText(s: string)
  {
    |s| == 64 && IsHexText(s)
  }

  /** The aggregation method in canonical spelling; None models the error. */
  function NormalizeMethod(value: string): Option<string>
  {
    var normalized := ToLower(TrimSpace(value));
    if normalized == "" then Some("median")
    else if normalized == "median" || normalized == "weighted_mean" then Some(normalized)
    else None
  }

  predicate WithinLimits(e: AuditEvent)
  {
    && |e.nodeID| <= 256 && |e.targetNodeID| <= 256 && |e.updateID| <= 256
    && |e.baseModelVersion| <= 512 && |e.modelVersion| <= 512 && |e.aggregationMethod| <= 64
    && e.roundID <= MAX_AUDIT_ROUND_ID && e.sampleCount <= MAX_SAMPLE_COUNT
    && 0 <= e.pendingUpdates <= 1_000_000 && 0 <= e.quorum <= 1_000_000
    && (e.registrationIDHash == "" || DigestText(e.registrationIDHash))
    && (e.updateSHA256 == "" || DigestText(e.updateSHA256))
    && (e.modelSHA256 == "" || DigestText(e.modelSHA256))
  }

  predicate HasRequiredFields(e: AuditEvent)
  {
    match e.kind
    case StateInitialized | StateRecovered => e.modelVersion != ""
    case NodeRegistered | LeaseRenewed => e.nodeID != "" && e.registrationIDHash != "" && e.leaseExpiresUnix > 0
    case CredentialRotated =>
      e.nodeID != "" && e.registrationIDHash != "" && e.leaseExpiresUnix > 0 && e.credentialGeneration > 0
    case RegistrationRevoked =>
      e.nodeID != "" && e.targetNodeID != "" && e.credentialGeneration > 0 && e.blockedUntilUnix > 0
    case UpdateAccepted =>
      && e.nodeID != "" && e.registrationIDHash != "" && e.updateID != "" && e.updateSHA256 != ""
      && e.baseModelVersion != "" && e.quorum > 0
    case RoundAggregated =>
      && e.nodeID != "" && e.modelVersion != "" && e.modelSHA256 != "" && e.quorum > 0
      && e.aggregationMethod != "" && NormalizeMethod(e.aggregationMethod).Some?
    case Unsupported(_) => false
  }

  predicate ValidEvent(e: AuditEvent)
  {
    && e.schemaVersion == AUDIT_SCHEMA_VERSION
    && e.occurredAt != 0 && e.occurredAt == NormalizeTime(e.occurredAt)
    && e.success && WithinLimits(e) && HasRequiredFields(e)
  }

  // ----- records

  datatype AuditRecord = AuditRecord(sequence: int, eventID: string, event: AuditEvent,
                                     previousHash: string, eventHash: string)

  /** What a record's hash commits to. */
  datatype Envelope = Envelope(sequence: int, eventID: string, previousHash: string, event: AuditEvent)

  type Hasher = Envelope -> Digest

  function Zeros(n: nat): (s: string)
    ensures |s| == n
  {
    seq(n, _ => '0')
  }

  /** The sequence number, zero-padded to twenty digits. */
  function EventID(sequence: nat): string
  {
    var digits := Dec(sequence);
    "audit-" + (if |digits| < 20 then Zeros(20 - |digits|) else "") + digits
  }

  predicate LinkHash(h: seq<byte>)
  {
    |h| == 0 || |h| == 32
  }

  /** The hash of a record, when its fields admit one. */
  function RecordHash(hash: Hasher, sequence: int, eventID: string, previous: seq<byte>, event: AuditEvent): Option<Digest>
  {
    if sequence <= 0 || eventID != EventID(sequence) || !LinkHash(previous) || !ValidEvent(Canonicalized(event)) then None
    else Some(hash(Envelope(sequence, eventID, Hex(previous), Canonicalized(event))))
  }

  function DecodeHash(value: string, allowEmpty: bool): (r: Option<seq<byte>>)
    ensures r.Some? ==> LinkHash(r.value)
  {
    if value == "" then (if allowEmpty then Some([]) else None)
    else if DigestText(value) then Some(Unhex(value)) else None
  }

  /** One record extends a chain whose head hash is `previous`. */
  predicate RecordOk(hash: Hasher, r: AuditRecord, previous: seq<byte>, sequence: int)
  {
    && r.sequence == sequence && sequence > 0 && r.eventID == EventID(sequence)
    && DecodeHash(r.previousHash, true) == Some(previous)
    && DecodeHash(r.eventHash, false).Some?
    && RecordHash(hash, sequence, r.eventID, previous, r.event) == Some(DecodeHash(r.eventHash, false).value)
  }

  function HashOf(r: AuditRecord): seq<byte>
  {
    match DecodeHash(r.eventHash, false)
    case Some(h) => h
    case None => []
  }

  /** The record check of a chain hashed with `hash`. */
  function RecordCheck(hash: Hasher): Check<AuditRecord>
  {
    (r, previous, sequence) => RecordOk(hash, r, previous, sequence)
  }

  /** What verification of a page accepts. */
  predicate Accepted(hash: Hasher, rs: seq<AuditRecord>, previous: seq<byte>, sequence: int)
  {
    sequence >= 0 && LinkHash(previous) && Links(RecordCheck(hash), HashOf, rs, previous, sequence)
  }

  method VerifyAuditRecords(hash: Hasher, records: seq<AuditRecord>, previousHash: seq<byte>, previousSequence: int)
    returns (ok: bool)
    ensures ok <==> Accepted(hash, records, previousHash, previousSequence)
  {
    if previousSequence < 0 || !LinkHash(previousHash) {
      return false;
    }
    ok := VerifyLinks(RecordCheck(hash), HashOf, records, previousHash, previousSequence);
  }

  lemma HashOfIsLinkHash(r: AuditRecord)
    ensures LinkHash(HashOf(r))
  {
  }

  /** A concatenation is accepted exactly when its parts are, with the head carried over. */
  lemma AcceptedConcat(hash: Hasher, a: seq<AuditRecord>, b: seq<AuditRecord>, previous: seq<byte>, sequence: int)
    ensures Accepted(hash, a + b, previous, sequence) <==>
            Accepted(hash, a, previous, sequence) && Accepted(hash, b, Head(HashOf, a, previous), sequence + |a|)
  {
    LinksConcat(RecordCheck(hash), HashOf, a, b, previous, sequence);
    if a != [] {
      HashOfIsLinkHash(a[|a| - 1]);
    }
  }

  // ----- appending

  /** The record the writer inserts for an event behind a given head. */
  function NextRecord(hash: Hasher, last: nat, previous: seq<byte>, event: AuditEvent): AuditRecord
  {
    var e, id := Canonicalized(event), EventID(last + 1);
    AuditRecord(last + 1, id, e, Hex(previous), Hex(hash(Envelope(last + 1, id, Hex(previous), e))))
  }

  function Builder(hash: Hasher): (nat, seq<byte>, AuditEvent) -> AuditRecord
  {
    (last: nat, previous, event) => NextRecord(hash, last, previous, event)
  }

  predicate Recordable(e: AuditEvent)
  {
    ValidEvent(Canonicalized(e))
  }

  lemma CanonicalTwice(e: AuditEvent)
    ensures Canonicalized(Canonicalized(e)) == Canonicalized(e)
  {
  }

  lemma DecodeHexDigest(h: seq<byte>)
    requires LinkHash(h)
    ensures DecodeHash(Hex(h), true) == Some(h) && (|h| == 32 ==> DecodeHash(Hex(h), false) == Some(h))
  {
    UnhexOfHex(h);
  }

  lemma NextRecordOk(hash: Hasher, last: nat, previous: seq<byte>, event: AuditEvent)
    requires LinkHash(previous) && Recordable(event)
    ensures RecordOk(hash, NextRecord(hash, last, previous, event), previous, last + 1)
  {
    var r := NextRecord(hash, last, previous, event);
    CanonicalTwice(event);
    DecodeHexDigest(previous);
    DecodeHexDigest(hash(Envelope(last + 1, r.eventID, Hex(previous), r.event)));
  }

  lemma BuilderIsSound(hash: Hasher)
    ensures Sound(RecordCheck(hash), HashOf, Builder(hash), LinkHash, Recordable)
  {
    forall n: nat, h: seq<byte>, e: AuditEvent ensures GoodNext(RecordCheck(hash), HashOf, Builder(hash), LinkHash, Recordable, n, h, e) {
      BuilderOk(hash, n, h, e);
    }
  }

  lemma BuilderOk(hash: Hasher, n: nat, h: seq<byte>, e: AuditEvent)
    ensures GoodNext(RecordCheck(hash), HashOf, Builder(hash), LinkHash, Recordable, n, h, e)
  {
    if LinkHash(h) && Recordable(e) {
      NextRecordOk(hash, n, h, e);
      HashOfIsLinkHash(NextRecord(hash, n, h, e));
    }
  }

  /** The audit table after appending events to it. */
  function Append(hash: Hasher, chain: seq<AuditRecord>, events: seq<AuditEvent>): (r: seq<AuditRecord>)
    ensures |r| == |chain| + |events|
  {
    Appended(Builder(hash), HashOf, chain, events)
  }

  /** Appending recordable events keeps a complete chain accepted. */
  lemma AppendKeepsAccepted(hash: Hasher, chain: seq<AuditRecord>, events: seq<AuditEvent>)
    requires Accepted(hash, chain, [], 0) && forall i :: 0 <= i < |events| ==> Recordable(events[i])
    ensures Accepted(hash, Append(hash, chain, events), [], 0)
  {
    BuilderIsSound(hash);
    if chain != [] {
      HashOfIsLinkHash(chain[|chain| - 1]);
    }
    AppendKeepsLinks(RecordCheck(hash), HashOf, Builder(hash), LinkHash, Recordable, chain, events);
  }

  lemma AppendKeepsRecords(hash: Hasher, chain: seq<AuditRecord>, events: seq<AuditEvent>)
    ensures Append(hash, chain, events)[..|chain|] == chain
  {
    AppendedPrefix(Builder(hash), HashOf, chain, events);
  }

  /** Appending keeps the old records and adds exactly the given events, in order. */
  lemma AppendAddsEvents(hash: Hasher, chain: seq<AuditRecord>, events: seq<AuditEvent>, i: nat)
    requires i < |events|
    ensures Append(hash, chain, events)[..|chain|] == chain
    ensures Append(hash, chain, events)[|chain| + i].event == Canonicalized(events[i])
  {
    AppendedAt(Builder(hash), HashOf, chain, events, i);
  }

  /** The insert step of an audited commit. */
  method AppendAuditEvents(hash: Hasher, chain: seq<AuditRecord>, events: seq<AuditEvent>)
    returns (r: Option<seq<AuditRecord>>)
    ensures r == if forall i :: 0 <= i < |events| ==> Recordable(events[i]) then Some(Append(hash, chain, events)) else None
  {
    r := AppendEach(Builder(hash), HashOf, Recordable, chain, events);
  }

  // ----- tamper evidence

  /** Equal up to the sub-microsecond part of the event time. */
  predicate SameRecord(a: AuditRecord, b: AuditRecord)
  {
    a.(event := Canonicalized(a.event)) == b.(event := Canonicalized(b.event))
  }

  ghost predicate HashCollision(hash: Hasher, x: Envelope, y: Envelope)
  {
    x != y && hash(x) == hash(y)
  }

  function EnvelopeOf(r: AuditRecord, previous: seq<byte>): Envelope
  {
    Envelope(r.sequence, r.eventID, Hex(previous), Canonicalized(r.event))
  }

  lemma DecodeHashInjective(v: string, w: string, allowEmpty: bool)
    requires DecodeHash(v, allowEmpty).Some? && DecodeHash(v, allowEmpty) == DecodeHash(w, allowEmpty)
    ensures v == w
  {
    if v != "" && w != "" {
      HexOfUnhex(v);
      HexOfUnhex(w);
    }
  }

  /** Clashing records agree, or their envelopes are a hash collision. */
  lemma ClashIsCollision(hash: Hasher, a: AuditRecord, p: seq<byte>, b: AuditRecord, q: seq<byte>, sequence: int)
    requires RecordOk(hash, a, p, sequence) && RecordOk(hash, b, q, sequence) && HashOf(a) == HashOf(b)
    ensures (SameRecord(a, b) && p == q) || HashCollision(hash, EnvelopeOf(a, p), EnvelopeOf(b, q))
  {
    if EnvelopeOf(a, p) == EnvelopeOf(b, q) {
      HexInjective(p, q);
      DecodeHashInjective(a.previousHash, b.previousHash, true);
      DecodeHashInjective(a.eventHash, b.eventHash, false);
    }
  }

  /** The records at position `i` of the two chains hash to the same value, each behind its own
      predecessor, although what was hashed differs. */
  ghost predicate CollideAt(hash: Hasher, a: seq<AuditRecord>, b: seq<AuditRecord>, i: nat)
    requires i < |a| && i < |b|
  {
    HashCollision(hash, EnvelopeOf(a[i], Head(HashOf, a[..i], [])), EnvelopeOf(b[i], Head(HashOf, b[..i], [])))
  }

  /** Two complete chains of equal length and equal head agree record by record, up to the
      sub-microsecond part of event times, or exhibit a hash collision: at the last position where
      they disagree, the two records collide. */
  lemma EqualHeadsMeanEqualRecords(hash: Hasher, a: seq<AuditRecord>, b: seq<AuditRecord>) returns (bad: int)
    requires Accepted(hash, a, [], 0) && Accepted(hash, b, [], 0)
    requires |a| == |b| && Head(HashOf, a, []) == Head(HashOf, b, [])
    ensures -1 <= bad < |a| && forall i :: bad < i < |a| ==> SameRecord(a[i], b[i])
    ensures bad >= 0 ==> CollideAt(hash, a, b, bad)
  {
    bad := EqualHeads(RecordCheck(hash), HashOf, SameRecord, a, b, [], 0);
    if bad >= 0 {
      ClashIsCollision(hash, a[bad], Head(HashOf, a[..bad], []), b[bad], Head(HashOf, b[..bad], []), bad + 1);
      assert !AgreeAt(HashOf, SameRecord, a, b, [], bad);
    }
    forall i | bad < i < |a| ensures SameRecord(a[i], b[i]) {
      assert AgreeAt(HashOf, SameRecord, a, b, [], i);
    }
  }

  /** The time of an event is whole microseconds, as every writer leaves it. */
  predicate Aligned(r: AuditRecord)
  {
    r.event.occurredAt % MICROSECOND == 0
  }

  /** For aligned chains the agreement is exact. */
  lemma AlignedRecordsAgreeExactly(a: AuditRecord, b: AuditRecord)
    requires SameRecord(a, b)
    ensures a == b <==> a.event.occurredAt == b.event.occurredAt
    ensures Aligned(a) && Aligned(b) ==> a == b
  {
    assert a.event == Canonicalized(a.event).(occurredAt := a.event.occurredAt);
    assert b.event == Canonicalized(b.event).(occurredAt := b.event.occurredAt);
  }

  function Retimed(r: AuditRecord, t: int): AuditRecord
  {
    r.(event := r.event.(occurredAt := t))
  }

  /** Hashing truncates event times first, so verification cannot tell apart two times within
      the same microsecond, and can tell apart all others. */
  lemma SubMicrosecondTimesAreNotCovered(hash: Hasher, r: AuditRecord, previous: seq<byte>, sequence: int, t: int)
    requires RecordOk(hash, r, previous, sequence)
    ensures NormalizeTime(t) == NormalizeTime(r.event.occurredAt) ==> RecordOk(hash, Retimed(r, t), previous, sequence)
    ensures NormalizeTime(t) != NormalizeTime(r.event.occurredAt) && RecordOk(hash, Retimed(r, t), previous, sequence)
            ==> HashCollision(hash, EnvelopeOf(r, previous), EnvelopeOf(Retimed(r, t), previous))
  {
    if NormalizeTime(t) == NormalizeTime(r.event.occurredAt) {
      assert Canonicalized(Retimed(r, t).event) == Canonicalized(r.event);
    } else {
      assert Canonicalized(Retimed(r, t).event).occurredAt != Canonicalized(r.event).occurredAt;
    }
  }
}
