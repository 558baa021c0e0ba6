/** The stored attempt record, its JSON object and the migrations on load (src/v2c_key_provisioning_store.cpp). */
module KeyprovStore {
  import opened KeyprovBytes
  import opened KeyprovAttempt
  import opened KeyprovLifecycle
  import opened KeyprovTypes

  const SCHEMA_VERSION: u32 := 5
  const FINGERPRINT_VERSION_CURRENT: u32 := 1
  const LIFECYCLE_PROFILE := "keyprov-lifecycle-kl1-v1"
  const RECONCILE_EVIDENCE_PHASE := "RECONCILE_EVIDENCE"
  const MIGRATED_REQUEST_COUNT := 8
  function EvidenceCode(k: EvidenceKind): int
  {
    match k
    case Committed => 0
    case Failed => 1
    case NotFound => 2
    case OutcomeUnknown => 3
    case QueryError => 4
    case ContractUnknownEvidence => 5
  }

  const MIGRATED_READONLY_WINDOW_MS := 300000

  function EvidenceOf(code: int): EvidenceKind
  {
    if code == 0 then Committed else if code == 1 then Failed else if code == 2 then NotFound
    else if code == 3 then OutcomeUnknown else if code == 4 then QueryError else ContractUnknownEvidence
  }

  /** V2cKeyProvisioningRecord. The last group is not stored: load derives it. */
  datatype Record = Record(
    schemaVersion: u32, fingerprintVersion: u32, attemptFingerprint: string, requestId: string,
    idempotencyDigest: string, state: string, submission: string, attemptCount: u32, deadlineMs: int,
    lastError: string, updatedAtMs: int, cloudSessionGeneration: u64, supersedesRequestId: string,
    supersededByRequestId: string, blockedReason: string, storeGeneration: u64,
    terminalizedRequestIds: seq<string>, secImportResultContractVersion: u32,
    secEvidenceObservedStoreGeneration: u64, secEvidenceObservedAtMs: int, secNotFoundCount: u32,
    secNotFoundFirstObservedMs: int, secNotFoundLastObservedMs: int, secCapabilityEpoch: u64,
    secContractVersion: u32, recoveryPhase: string, successorRequestId: string,
    successorRequestIdDigest: string, lifecycleProfile: string, leaseExpiresAtMs: int,
    secResultContractVersion: u32, secQuerySemanticsVersion: u32, secSupportsLeaseAdmission: bool,
    secKl1ProfileVersion: u32,
    snapshot: Snapshot, secImportEvidenceKind: int, importInvocation: bool, importInvocationResolution: int,
    budget: Ledger,
    valid: bool, legacySnapshotUnknown: bool,
    purposes: seq<string>, businessKeyVersions: seq<(string, u64)>)

  const EMPTY_SNAPSHOT := Snapshot("", [], [], [], [], [], [], [], [])

  const EMPTY_RECORD := Record(
      0, 0, "", "", "", "", "", 0, 0, "", 0, 0, "", "", "", 0, [], 0, 0, 0, 0, -1, -1, 0, 0, "", "", "", "", 0,
      0, 0, false, 0,
      EMPTY_SNAPSHOT, 5, false, 0, FRESH_LEDGER, false, false, [], [])

  // ---- Hexadecimal digests ----

  const HEX_DIGITS := "0123456789abcdef"

  function HexOfByte(b: u8): string
  {
    [HEX_DIGITS[b / 16], HEX_DIGITS[b % 16]]
  }

  function HexOf(v: Bytes): string
  {
    if v == [] then "" else HexOf(v[..|v| - 1]) + HexOfByte(v[|v| - 1])
  }

  /** The bytes of a hexadecimal string; nothing at all if the length is odd or a character is not a digit. */
  function BytesOfHex(s: string): Bytes
  {
    if |s| % 2 == 0 && IsHex(s) then HexBytes(s) else []
  }

  method HexEncode(v: Bytes) returns (out: string)
    ensures out == HexOf(v)
  {
    out := "";
    for i := 0 to |v|
      invariant out == HexOf(v[..i])
    {
      assert v[..i + 1][..i] == v[..i];
      out := out + [HEX_DIGITS[v[i] / 16]];
      out := out + [HEX_DIGITS[v[i] % 16]];
    }
    assert v[..|v|] == v;
  }

  method HexDecode(s: string) returns (out: Bytes)
    ensures out == BytesOfHex(s)
  {
    out := [];
    if |s| % 2 != 0 { return; }
    var i := 0;
    while i + 1 < |s|
      invariant 0 <= i <= |s| && i % 2 == 0
      invariant forall k :: 0 <= k < i ==> HexNibble(s[k]) >= 0
      invariant |out| == i / 2
      invariant forall k :: 0 <= k < i / 2 ==> out[k] == NibblePair(s[2 * k], s[2 * k + 1])
    {
      var hi, lo := HexNibble(s[i]), HexNibble(s[i + 1]);
      if hi < 0 || lo < 0 { return []; }
      out := out + [hi * 16 + lo];
      i := i + 2;
    }
  }

  lemma HexByteRoundTrip(b: u8)
    ensures HexNibble(HexOfByte(b)[0]) == b / 16 && HexNibble(HexOfByte(b)[1]) == b % 16
  {
    DigitRoundTrip(b / 16);
    DigitRoundTrip(b % 16);
  }

  lemma DigitRoundTrip(d: nat)
    requires d < 16
    ensures HexNibble(HEX_DIGITS[d]) == d
  {
    assert d == 0 || d == 1 || d == 2 || d == 3 || d == 4 || d == 5 || d == 6 || d == 7
        || d == 8 || d == 9 || d == 10 || d == 11 || d == 12 || d == 13 || d == 14 || d == 15;
  }

  /** Two more digits are one more byte. */
  lemma HexBytesAppend(s: string, hi: char, lo: char)
    requires |s| % 2 == 0 && IsHex(s) && HexNibble(hi) >= 0 && HexNibble(lo) >= 0
    ensures IsHex(s + [hi, lo])
    ensures HexBytes(s + [hi, lo]) == HexBytes(s) + [NibblePair(hi, lo)]
  {
    var t := s + [hi, lo];
    assert forall i :: 0 <= i < |s| ==> t[i] == s[i];
    assert t[|s|] == hi && t[|s| + 1] == lo;
  }

  lemma {:induction false} HexRoundTrip(v: Bytes)
    ensures |HexOf(v)| == 2 * |v| && BytesOfHex(HexOf(v)) == v
  {
    if v != [] {
      var front, last := v[..|v| - 1], v[|v| - 1];
      HexRoundTrip(front);
      HexOfIsHex(front);
      HexByteRoundTrip(last);
      HexBytesAppend(HexOf(front), HexOfByte(last)[0], HexOfByte(last)[1]);
      assert NibblePair(HexOfByte(last)[0], HexOfByte(last)[1]) == last;
      assert front + [last] == v;
    }
  }

  lemma {:induction false} HexOfIsHex(v: Bytes)
    ensures |HexOf(v)| == 2 * |v| && IsHex(HexOf(v))
  {
    if v != [] {
      HexOfIsHex(v[..|v| - 1]);
      HexByteRoundTrip(v[|v| - 1]);
    }
  }

  // ---- JSON: an object is the list of its optional members ----

  datatype JsonSnapshot = JsonSnapshot(
    businessDomain: Option<string>, purposes: Option<seq<i32>>, currentVersions: Option<seq<seq<int>>>,
    deviceIdentityDigest: Option<string>, recipientCertificateDigest: Option<string>,
    certificateRefDigest: Option<string>, wrappingSuites: Option<seq<i32>>, envelopeFormats: Option<seq<i32>>,
    protocolLockDigest: Option<string>)

  datatype JsonLedger = JsonLedger(
    requestSendCount: Option<nat>, firstRequestAtMs: Option<int>, requestDeadlineAtMs: Option<int>,
    statusSendCount: Option<nat>, firstReadonlyAtMs: Option<int>, readonlyDeadlineAtMs: Option<int>,
    secQueryCount: Option<nat>, ackSendCount: Option<nat>, ackSafeDeadlineAtMs: Option<int>,
    expiryFreshenCount: Option<nat>, chainId: Option<string>, chainStartedAtMs: Option<int>,
    chainDeadlineAtMs: Option<int>, chainRequestIdCount: Option<nat>, migrationToken: Option<string>,
    migrationConsumed: Option<bool>, budgetExhaustedReason: Option<string>)

  datatype Json = Json(
    schemaVersion: Option<u32>, fingerprintVersion: Option<u32>, attemptFingerprint: Option<string>,
    requestId: Option<string>, idempotencyDigest: Option<string>, state: Option<string>,
    submission: Option<string>, attemptCount: Option<u32>, deadlineMs: Option<int>, lastError: Option<string>,
    updatedAtMs: Option<int>, cloudSessionGeneration: Option<u64>, supersedesRequestId: Option<string>,
    supersededByRequestId: Option<string>, blockedReason: Option<string>, storeGeneration: Option<u64>,
    terminalizedRequestIds: Option<seq<string>>, secImportResultContractVersion: Option<u32>,
    secEvidenceObservedStoreGeneration: Option<u64>, secEvidenceObservedAtMs: Option<int>,
    secNotFoundCount: Option<u32>, secNotFoundFirstObservedMs: Option<int>,
    secNotFoundLastObservedMs: Option<int>, secCapabilityEpoch: Option<u64>, secContractVersion: Option<u32>,
    recoveryPhase: Option<string>, successorRequestId: Option<string>,
    successorRequestIdDigest: Option<string>, lifecycleProfile: Option<string>, leaseExpiresAtMs: Option<int>,
    secResultContractVersion: Option<u32>, secQuerySemanticsVersion: Option<u32>,
    secSupportsLeaseAdmission: Option<bool>, secKl1ProfileVersion: Option<u32>,
    snapshot: Option<JsonSnapshot>, secImportEvidenceKind: Option<int>, importInvocation: Option<bool>,
    importInvocationResolution: Option<int>, ledger: JsonLedger)

  function Value<T>(member: Option<T>, default: T): T
  {
    if member.Some? then member.value else default
  }

  function VersionsToJson(v: seq<Version>): (r: seq<seq<int>>)
    ensures |r| == |v|
  {
    if v == [] then [] else [[v[0].purpose, v[0].version]] + VersionsToJson(v[1..])
  }

  /** Entries that are not pairs are skipped. */
  function VersionsFromJson(v: seq<seq<int>>): seq<Version>
  {
    if v == [] then []
    else if |v[0]| == 2 then [Version(ToI32(v[0][0]), ToU64(v[0][1]))] + VersionsFromJson(v[1..])
    else VersionsFromJson(v[1..])
  }

  /** get<int>() and get<uint64_t>(): conversions to the fixed widths. */
  function ToI32(x: int): i32
  {
    AsI32(x % 0x1_0000_0000)
  }

  function ToU64(x: int): u64
  {
    x % 0x1_0000_0000_0000_0000
  }

  function SnapshotToJson(s: Snapshot): JsonSnapshot
  {
    JsonSnapshot(Some(s.businessDomain), Some(s.purposes), Some(VersionsToJson(s.currentVersions)),
                 Some(HexOf(s.deviceIdentityDigest)), Some(HexOf(s.recipientCertificateDigest)),
                 Some(HexOf(s.certificateRefDigest)), Some(s.wrappingSuites), Some(s.envelopeFormats),
                 Some(HexOf(s.protocolLockDigest)))
  }

  function SnapshotFromJson(j: JsonSnapshot): Snapshot
  {
    Snapshot(Value(j.businessDomain, ""), Value(j.purposes, []), VersionsFromJson(Value(j.currentVersions, [])),
             BytesOfHex(Value(j.deviceIdentityDigest, "")), BytesOfHex(Value(j.recipientCertificateDigest, "")),
             BytesOfHex(Value(j.certificateRefDigest, "")), Value(j.wrappingSuites, []), Value(j.envelopeFormats, []),
             BytesOfHex(Value(j.protocolLockDigest, "")))
  }

  function ToJson(r: Record): Json
  {
    Json(
      Some(r.schemaVersion), Some(r.fingerprintVersion), Some(r.attemptFingerprint), Some(r.requestId),
      Some(r.idempotencyDigest), Some(r.state), Some(r.submission), Some(r.attemptCount), Some(r.deadlineMs),
      Some(r.lastError), Some(r.updatedAtMs), Some(r.cloudSessionGeneration), Some(r.supersedesRequestId),
      Some(r.supersededByRequestId), Some(r.blockedReason), Some(r.storeGeneration),
      Some(r.terminalizedRequestIds), Some(r.secImportResultContractVersion),
      Some(r.secEvidenceObservedStoreGeneration), Some(r.secEvidenceObservedAtMs), Some(r.secNotFoundCount),
      Some(r.secNotFoundFirstObservedMs), Some(r.secNotFoundLastObservedMs), Some(r.secCapabilityEpoch),
      Some(r.secContractVersion), Some(r.recoveryPhase), Some(r.successorRequestId),
      Some(r.successorRequestIdDigest), Some(r.lifecycleProfile), Some(r.leaseExpiresAtMs),
      Some(r.secResultContractVersion), Some(r.secQuerySemanticsVersion), Some(r.secSupportsLeaseAdmission),
      Some(r.secKl1ProfileVersion),
      Some(SnapshotToJson(r.snapshot)), Some(r.secImportEvidenceKind), Some(r.importInvocation),
      Some(r.importInvocationResolution),
      JsonLedger(
      Some(r.budget.requestSendCount), Some(r.budget.firstRequestAt), Some(r.budget.requestDeadlineAt),
      Some(r.budget.statusSendCount), Some(r.budget.firstReadonlyAt), Some(r.budget.readonlyDeadlineAt),
      Some(r.budget.secQueryCount), Some(r.budget.ackSendCount), Some(r.budget.ackSafeDeadlineAt),
      Some(r.budget.expiryFreshenCount), Some(r.budget.chainId), Some(r.budget.chainStartedAt),
      Some(r.budget.chainDeadlineAt), Some(r.budget.chainRequestIdCount), Some(r.budget.migrationToken),
      Some(r.budget.migrationConsumed), Some(r.budget.exhaustedReason)))
  }

  // ---- Load: read the members, then migrate, then derive ----

  function ReadResolution(j: Json, invocation: bool): int
  {
    if j.importInvocationResolution.Some? && 0 <= j.importInvocationResolution.value <= 2
    then j.importInvocationResolution.value
    else if j.importInvocation.Some? && !invocation then 1
    else 0
  }

  function ReadLedger(j: JsonLedger): Ledger
  {
    Ledger(
      Value(j.requestSendCount, 0), Value(j.firstRequestAtMs, 0), Value(j.requestDeadlineAtMs, 0),
      Value(j.statusSendCount, 0), Value(j.firstReadonlyAtMs, 0), Value(j.readonlyDeadlineAtMs, 0),
      Value(j.secQueryCount, 0), Value(j.ackSendCount, 0), Value(j.ackSafeDeadlineAtMs, 0),
      Value(j.expiryFreshenCount, 0), Value(j.chainId, ""), Value(j.chainStartedAtMs, 0),
      Value(j.chainDeadlineAtMs, 0), Value(j.chainRequestIdCount, 0), Value(j.migrationToken, ""),
      Value(j.migrationConsumed, false), Value(j.budgetExhaustedReason, ""))
  }

  function ReadMembers(j: Json): Record
  {
    var kind := Value(j.secImportEvidenceKind, 5);
    var invocation := Value(j.importInvocation, true);
    Record(
      Value(j.schemaVersion, 0), Value(j.fingerprintVersion, 0), Value(j.attemptFingerprint, ""),
      Value(j.requestId, ""), Value(j.idempotencyDigest, ""), Value(j.state, ""), Value(j.submission, ""),
      Value(j.attemptCount, 0), Value(j.deadlineMs, 0), Value(j.lastError, ""), Value(j.updatedAtMs, 0),
      Value(j.cloudSessionGeneration, 0), Value(j.supersedesRequestId, ""), Value(j.supersededByRequestId, ""),
      Value(j.blockedReason, ""), Value(j.storeGeneration, 0), Value(j.terminalizedRequestIds, []),
      Value(j.secImportResultContractVersion, 0), Value(j.secEvidenceObservedStoreGeneration, 0),
      Value(j.secEvidenceObservedAtMs, 0), Value(j.secNotFoundCount, 0),
      Value(j.secNotFoundFirstObservedMs, -1), Value(j.secNotFoundLastObservedMs, -1),
      Value(j.secCapabilityEpoch, 0), Value(j.secContractVersion, 0), Value(j.recoveryPhase, ""),
      Value(j.successorRequestId, ""), Value(j.successorRequestIdDigest, ""), Value(j.lifecycleProfile, ""),
      Value(j.leaseExpiresAtMs, 0), Value(j.secResultContractVersion, 0), Value(j.secQuerySemanticsVersion, 0),
      Value(j.secSupportsLeaseAdmission, false), Value(j.secKl1ProfileVersion, 0),
      if j.snapshot.Some? then SnapshotFromJson(j.snapshot.value) else EMPTY_SNAPSHOT,
      if 0 <= kind <= 5 then kind else 5,
      invocation, ReadResolution(j, invocation), ReadLedger(j.ledger), true, false, [], [])
  }

  /** Before version 4 there was no stabilisation: nothing of it may be believed. */
  function MigrateToV4(r: Record): Record
  {
    if r.schemaVersion < 4 then
      r.(secNotFoundCount := 0, secNotFoundFirstObservedMs := -1, secNotFoundLastObservedMs := -1,
         secCapabilityEpoch := 0, secContractVersion := 0, recoveryPhase := RECONCILE_EVIDENCE_PHASE,
         successorRequestId := "", successorRequestIdDigest := "")
    else r
  }

  function MigrateLedger(b: Ledger, requestId: string, updatedAt: int): Ledger
  {
    b.(requestSendCount := if b.requestSendCount == 0 then MIGRATED_REQUEST_COUNT else b.requestSendCount,
       firstRequestAt := 0, requestDeadlineAt := 0,
       firstReadonlyAt := if b.firstReadonlyAt == 0 then updatedAt else b.firstReadonlyAt,
       readonlyDeadlineAt :=
         if b.firstReadonlyAt == 0 then updatedAt + MIGRATED_READONLY_WINDOW_MS else b.readonlyDeadlineAt,
       migrationToken := if b.migrationToken == "" then "mig-" + requestId else b.migrationToken,
       migrationConsumed := false)
  }

  /** Before version 5 there was no request budget: the budget of the old attempt counts as spent. */
  function MigrateToV5(r: Record): Record
  {
    if r.schemaVersion < 5 then
      r.(schemaVersion := SCHEMA_VERSION, lifecycleProfile := LIFECYCLE_PROFILE,
         budget := MigrateLedger(r.budget, r.requestId, r.updatedAtMs))
    else r
  }

  function PurposeNames(v: seq<i32>): seq<string>
  {
    seq(|v|, i requires 0 <= i < |v| => PurposeName(v[i]))
  }

  function PurposeName(p: i32): string
  {
    if p == PURPOSE_UPLINK then "UPLINK_AEAD" else if p == PURPOSE_DOWNLINK then "DOWNLINK_AEAD" else "UNSPECIFIED"
  }

  function NamedVersions(v: seq<Version>): seq<(string, u64)>
  {
    seq(|v|, i requires 0 <= i < |v| => (PurposeName(v[i].purpose), v[i].version))
  }

  function Derive(r: Record): Record
  {
    r.(legacySnapshotUnknown :=
         r.schemaVersion > SCHEMA_VERSION || r.fingerprintVersion > FINGERPRINT_VERSION_CURRENT
         || r.fingerprintVersion == 0 || r.attemptFingerprint == "",
       purposes := PurposeNames(r.snapshot.purposes),
       businessKeyVersions := NamedVersions(r.snapshot.currentVersions),
       valid := r.requestId != "")
  }

  function FromJson(j: Json): Record
  {
    Derive(MigrateToV5(MigrateToV4(ReadMembers(j))))
  }

  // ---- The store ----

  datatype LegacyKeys = LegacyKeys(
    present: bool, requestId: string, idempotencyDigest: string, state: string, purposes: seq<string>,
    versions: seq<(string, u64)>, attemptCount: u32, deadlineMs: int, lastError: string, updatedAtMs: int,
    cloudSessionGeneration: u64)

  datatype Aggregate = Absent | EmptyText | Unreadable | Readable(json: Json)

  datatype Legacy = NoLegacy | BrokenLegacy | LegacyRecord(keys: LegacyKeys)

  function FromLegacy(k: LegacyKeys): Record
  {
    var valid := k.present && k.requestId != "";
    EMPTY_RECORD.(valid := valid, legacySnapshotUnknown := valid, requestId := k.requestId,
                  idempotencyDigest := k.idempotencyDigest, state := k.state, purposes := k.purposes,
                  businessKeyVersions := k.versions, attemptCount := k.attemptCount, deadlineMs := k.deadlineMs,
                  lastError := k.lastError, updatedAtMs := k.updatedAtMs,
                  cloudSessionGeneration := k.cloudSessionGeneration)
  }

  class Store {
    const ready: bool
    var aggregate: Aggregate
    var legacy: Legacy

    constructor (ready: bool, aggregate: Aggregate, legacy: Legacy)
      ensures this.ready == ready && this.aggregate == aggregate && this.legacy == legacy
    {
      this.ready, this.aggregate, this.legacy := ready, aggregate, legacy;
    }

    /** The aggregate record hides the legacy keys even when it cannot be read. */
    method Load() returns (r: Record)
      ensures !ready ==> r == EMPTY_RECORD
      ensures ready && aggregate.Readable? ==> r == FromJson(aggregate.json)
      ensures ready && (aggregate.EmptyText? || aggregate.Unreadable?) ==> r == EMPTY_RECORD
      ensures ready && aggregate.Absent? ==>
        r == if legacy.LegacyRecord? then FromLegacy(legacy.keys) else EMPTY_RECORD
    {
      r := EMPTY_RECORD;
      if !ready { return; }
      if aggregate.Absent? {
        if legacy.LegacyRecord? { r := FromLegacy(legacy.keys); }
        return;
      }
      if aggregate.Readable? {
        var j := aggregate.json;
        r := ReadMembers(j);
        if r.schemaVersion < 4 { r := MigrateToV4(r); }
        if r.schemaVersion < 5 { r := MigrateToV5(r); }
        r := Derive(r);
      }
    }

    method Save(r: Record)
      modifies this
      ensures legacy == old(legacy)
      ensures aggregate == if ready then Readable(ToJson(r)) else old(aggregate)
    {
      if ready { aggregate := Readable(ToJson(r)); }
    }

    method Clear()
      modifies this
      ensures ready ==> aggregate == Absent && legacy == NoLegacy
      ensures !ready ==> aggregate == old(aggregate) && legacy == old(legacy)
    {
      if ready { aggregate, legacy := Absent, NoLegacy; }
    }
  }

  // ---- Round trips ----

  /** A record of the current or a later schema, as load leaves it and persist writes it. */
  ghost predicate WellFormed(r: Record)
  {
    && r.schemaVersion >= SCHEMA_VERSION
    && 0 <= r.secImportEvidenceKind <= 5
    && 0 <= r.importInvocationResolution <= 2
    && Derive(r) == r
  }

  lemma {:induction false} VersionsRoundTrip(v: seq<Version>)
    ensures VersionsFromJson(VersionsToJson(v)) == v
  {
    if v != [] {
      VersionsRoundTrip(v[1..]);
      assert VersionsToJson(v)[1..] == VersionsToJson(v[1..]);
      assert [v[0]] + v[1..] == v;
    }
  }

  lemma SnapshotRoundTrip(s: Snapshot)
    ensures SnapshotFromJson(SnapshotToJson(s)) == s
  {
    VersionsRoundTrip(s.currentVersions);
    HexRoundTrip(s.deviceIdentityDigest);
    HexRoundTrip(s.recipientCertificateDigest);
    HexRoundTrip(s.certificateRefDigest);
    HexRoundTrip(s.protocolLockDigest);
  }

  lemma MembersRoundTrip(r: Record)
    requires 0 <= r.secImportEvidenceKind <= 5 && 0 <= r.importInvocationResolution <= 2
    ensures ReadMembers(ToJson(r))
            == r.(valid := true, legacySnapshotUnknown := false, purposes := [], businessKeyVersions := [])
  {
    SnapshotRoundTrip(r.snapshot);
    assert ReadLedger(ToJson(r).ledger) == r.budget;
  }

  /** What was saved is what is loaded. */
  lemma LoadInvertsSave(r: Record)
    requires WellFormed(r)
    ensures FromJson(ToJson(r)) == r
  {
    SavedIsDerived(r);
  }

  /** Of a record of the current schema, load returns what was saved with the derived members filled in. */
  lemma SavedIsDerived(r: Record)
    requires r.schemaVersion >= SCHEMA_VERSION
    requires 0 <= r.secImportEvidenceKind <= 5 && 0 <= r.importInvocationResolution <= 2
    ensures FromJson(ToJson(r)) == Derive(r)
  {
    MembersRoundTrip(r);
  }

  lemma LoadedIsWellFormed(j: Json)
    ensures WellFormed(FromJson(j))
  {
  }

  /** Whatever version the stored object had, its migration is stable: saving what was loaded and loading again
      changes nothing. */
  lemma MigrationIsStable(j: Json)
    ensures FromJson(ToJson(FromJson(j))) == FromJson(j)
  {
    LoadedIsWellFormed(j);
    LoadInvertsSave(FromJson(j));
  }

  /** A record older than version 5 without a request count is loaded with a spent budget, and nothing is released
      by default: an import that may have happened stays unresolved. */
  lemma OldRecordIsFailClosed(j: Json)
    requires Value(j.schemaVersion, 0) < 5
    ensures Value(j.ledger.requestSendCount, 0) == 0 ==> FromJson(j).budget.requestSendCount == MIGRATED_REQUEST_COUNT
    ensures Value(j.ledger.requestSendCount, 0) == 0 ==>
      forall p: Params, now: int :: p.requestLimit <= MIGRATED_REQUEST_COUNT ==>
        !FromJson(j).budget.RequestOk(p, now)
    ensures j.importInvocation.None? && j.importInvocationResolution.None? ==>
      FromJson(j).importInvocation && FromJson(j).importInvocationResolution == 0
    ensures Value(j.schemaVersion, 0) < 4 ==> FromJson(j).successorRequestId == "" && FromJson(j).secNotFoundCount == 0
    ensures FromJson(j).requestId == Value(j.requestId, "") && FromJson(j).state == Value(j.state, "")
    ensures FromJson(j).budget.chainRequestIdCount == Value(j.ledger.chainRequestIdCount, 0)
  {
    var r := MigrateToV4(ReadMembers(j));
    assert r.schemaVersion < 5 && r.budget == ReadLedger(j.ledger);
    assert FromJson(j).budget == MigrateLedger(r.budget, r.requestId, r.updatedAtMs);
  }
}
